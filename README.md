# Germination service core, modelled in Dafny

This project models the deterministic core of a seed-germination service.
That core has two parts.

- **The recommendation engine and its knowledge base.** The knowledge base is a constant
  table of optimal ranges for ten seed types: *mais, riz, ble, soja, tomate, haricot,
  carotte, laitue, concombre, poivron*. Each seed type has four closed ranges: temperature,
  soil humidity, air humidity, and light in hours of a 14-hour day. The engine converts the
  submitted light percentage to hours. It then walks a fixed cascade: unknown seed type,
  temperature, soil humidity, light, air humidity, and finally "optimal" when nothing was
  found. Around the scoring model there are two pure steps. The first checks that the
  training table has all required columns. The second builds the one-hot feature vector of
  a reading, aligned on the columns fixed when the model was fitted.
- **The history log** (`GerminationDatabase`). Two append-only tables: `sensor_data` (the
  germination score may be null) and `predictions` (the predicted score is mandatory). Each
  table has an AUTOINCREMENT id. The log offers newest-first listings with a `LIMIT`, and
  per-seed-type statistics (count, average, minimum, maximum) that fall back to 0.

Files and modules:

- `common.dfy`: `Options` (Option, Result) and `Sensors` (the `Reading` record).
- `conditions.dfy`: `Conditions`, the knowledge base, the percent/hours conversion and the
  truncated percentages.
- `decimal.dfy`: `Decimal`, decimal notation of the integer bounds in messages.
- `recommendations.dfy`: `Recommendations`, findings as a datatype, the cascade, and the
  rendering of findings to messages.
- `training.dfy`: `Training`, the required-column check and the feature alignment.
- `history.dfy`: `History`, the `GerminationDatabase` class and the specification functions
  of its queries.

Modelling choices:

- Readings are exact `real`s. Python's `int(...)` of a non-negative value is `.Floor`.
- A finding records four things: its parameter, its direction, the ideal bounds as
  reported, and the value as the client submitted it. `Render` turns a finding into the
  source's message. Python's `str()` of the echoed light level is a parameter
  (`showNumber`). Integer bounds are written by `Decimal.IntToString`.
- `get_recommendations` builds its list by successive appends. It is modelled as one pure
  concatenation of four per-parameter checks. Each check yields zero or one finding.
- The database is a class. It holds the two tables as `seq` fields and the two
  `sqlite_sequence` counters as `nat` fields. A `schemaReady` flag says whether the tables
  exist. The `CURRENT_TIMESTAMP` column is represented by insertion order. So
  `ORDER BY timestamp DESC` is the reverse of the table.
- SQLite reads a negative `LIMIT` as "no limit". `api.py` passes the query's `limit`
  through unchecked, so the model keeps every row for a negative limit (`LimitCount`).
- The statistics use `x if x else 0`. For a non-null number this equals `x`, because
  `0.0` becomes `0` anyway. So only the empty case changes anything: it gives count 0 and
  0 for the three aggregates.

On two points the model follows the code literally:

- The missing-columns failure is raised as a `ValueError`. The generic
  `except Exception` handler then re-raises it as a plain `Exception` with a longer message.
  The model keeps two error kinds: `FileNotFound` and `MissingColumns` with the list of
  missing columns.
- Both light findings report the same truncated bounds, `int(min/14*100)` to
  `int(max/14*100)`. This is literal in the code (`ReportedRange`).

## Model

| member | source | states |
|---|---|---|
| `Conditions.LightPercentToHours` | main.py:5-10 | Hours are p percent of 14; converting them back to a percentage gives p again, and only negative percentages give negative hours. |
| `Conditions.LightConversionMonotone` | main.py:5-10 | The percent-to-hours conversion is monotone, and strictly so. |
| `Conditions.LightConversionBounded` | main.py:5-10 | A light level in [0, 100] percent maps into [0, 14] hours. |
| `Conditions.LightConversionOnto` | main.py:5-10 | Every hour value in [0, 14] is the image of some percentage in [0, 100]. |
| `Conditions.HoursPercentRoundTrip` | main.py:10 | Percent-to-hours and hours-to-percent are mutually inverse on exact numbers. |
| `Conditions.TruncatedPercent` | main.py:148-149 | For whole hours h >= 0 the result is the largest integer not above h/14*100 (truncation toward zero; the mirror bound for negative h). |
| `Conditions.TruncationError` | main.py:148-149 | Converting a truncated percentage back to hours never overshoots and falls short by less than 0.14 h. |
| `Conditions.TruncatedPercentBounds` | main.py:148-149 | For hour bounds 0 <= lo <= hi <= 14, the truncated percentages satisfy 0 <= pct(lo) <= pct(hi) <= 100. |
| `Conditions.TruncatedPercentTable` | main.py:148-149 | The truncated percentages of the light bounds in the table (6 h gives 42, 10 h gives 71, and so on). |
| `Conditions.OptimalConditions` | main.py:13-74 | The ten profiles of the knowledge base; each has min <= max in every range and a light range within [0, 14] h. |
| `Conditions.Lookup` | main.py:124 | The table has an entry for a name exactly when the name is one of the ten seed types. |
| `Conditions.NameParseRoundTrip` | main.py:13-74 | Names and seed types correspond one to one, in both directions. |
| `Conditions.KnowledgeBaseWellFormed` | main.py:13-74 | Every entry has min <= max in all four ranges. Its light range lies within [0, 14] h, so its reported percentages lie within [0, 100]. |
| `Conditions.LookupWellFormed` | main.py:124-130 | Whatever the lookup returns is a well-formed profile. |
| `Recommendations.Recommend` | main.py:113-165 | The result is never empty. An unknown seed type gives exactly the one "not recognised" finding. A known seed type gives at most four findings: either the single optimal finding or only deviations, strictly ordered temperature, soil, light, air. |
| `Recommendations.ParamVerdict` | main.py:134-160 | For a known seed type, each parameter draws at most one finding. "Too low" appears iff the reading (light in hours) is below min. "Too high" appears iff it is above max. Nothing appears iff the reading is inside the closed range. |
| `Recommendations.OptimalExactly` | main.py:162-165 | The result is the single "optimal" finding iff the seed type is known and all four readings are in range. |
| `Recommendations.ReportedBounds` | main.py:136-160 | A deviation reports its parameter's knowledge-base range. Light instead reports int(min/14*100) to int(max/14*100) in both branches. The finding records the submitted value (for light, the percentage, not the hours); only the two light messages show it. |
| `Recommendations.TemperatureFirst` | main.py:134-136 | A temperature below the minimum is the first finding, and it states the right range. |
| `Recommendations.MidpointIsOptimal` | main.py:13-74 | For every seed type, readings at the midpoint of every range (light given in percent) are optimal. |
| `Recommendations.MaisExample` | main.py:193-206 | mais at 16/55/45/30 gives four findings in order. Light is "insufficient" (30% is 4.2 h, below 6 h) with bounds 42-71. |
| `Recommendations.RizExample` | main.py:212-224 | riz at 28/80/70/50 gives only the optimal finding. |
| `Recommendations.Render` | main.py:125-163 | The message of a deviation starts with the fixed opening of its parameter and direction; the body then writes the bounds with `IntToString`, and the light message also the submitted percentage. |
| `Decimal.NatToString` | main.py:136-160 | The decimal text of a natural number: non-empty, digits only, no leading zero. |
| `Decimal.IntToString` | main.py:136-160 | The decimal text of an integer: a leading minus exactly for negative values, digits elsewhere. |
| `Decimal.ParseNatRoundTrip` | main.py:136-160 | Reading the digits of a written number back gives that number. |
| `Decimal.RangeTextInjective` | main.py:136-160 | A "lo-hi" text followed by a fixed unit determines both bounds. |
| `Recommendations.GetRecommendations` | main.py:113-165 | The messages are the findings rendered one by one, in the same order. |
| `Recommendations.MaisMessages` | main.py:136-160 | The exact four messages of the mais example. |
| `Recommendations.UnknownSeedMessage` | main.py:124-125 | An unknown seed type yields exactly the message "[ERREUR] Type de graine '...' non reconnu.". |
| `Recommendations.RenderDistinguishesDeviations` | main.py:136-160 | Deviations that differ in parameter or direction render to different messages. |
| `Recommendations.RenderDistinguishesBounds` | main.py:134-160 | Temperature, soil or air messages of the same kind with different non-negative bounds differ. |
| `Training.Missing` | main.py:92 | A column is reported missing iff it is required and absent. The missing list keeps the order of the required list. |
| `Training.CheckTrainingData` | main.py:86-94 | A missing file is a not-found error. Otherwise the check passes iff every required column is present. When the file exists, a failure is `MissingColumns` with exactly the required columns that are absent, in the required order, and that list is non-empty. |
| `Training.Encoded` | main.py:173-180 | The encoded single-row table has a column exactly for the four numeric readings and for the reading's own `seed_type_` indicator, whose value is 1. |
| `Training.AlignFeatures` | main.py:173-182 | The aligned vector has one entry per fitted column. Each entry is the encoded reading's value for that column, or 0 where the encoded reading lacks it. |
| `Training.OneHotIndicators` | main.py:180-182 | A `seed_type_*` entry is 1 exactly for the reading's own seed type. For a seed type not seen at fit time, every indicator is 0. |
| `Training.AbsentColumnsAreZero` | main.py:182 | A fitted column that is neither a reading nor the reading's indicator is filled with 0. |
| `Training.NumericFeatures` | main.py:173-175 | The numeric features are the readings themselves, except light, which is converted to hours. |
| `History.LimitCount` | database.py:85 | A LIMIT keeps at most `limit` rows, and every row when the limit is negative. |
| `History.NewestFirst` | database.py:85 | A listing holds LimitCount rows. Its k-th element is the k-th newest row. |
| `History.TakeNewest` | database.py:85-89 | The scan that reads newest first returns exactly the `NewestFirst` listing. |
| `History.NewestIsLastAppended` | database.py:97 | After an append, a listing with any non-zero limit starts with the appended row. With limit 1 it is exactly that row. |
| `History.ListAllIsReverse` | database.py:85 | A listing with no limit is a permutation of the table. |
| `History.StatsOf` | database.py:108-127 | The statistics of one seed type: its name, a count equal to the number of its scores, 0 for every aggregate when it has none, and a min and max that are among its scores otherwise. |
| `History.CountIsMatchingRows` | database.py:108-116 | The count equals the number of prediction rows whose seed type is the one asked for. |
| `History.AverageBetweenMinAndMax` | database.py:108-127 | With at least one matching row, min <= avg <= max. |
| `History.StatsIgnoreOtherSeedTypes` | database.py:115 | Appending a prediction for another seed type leaves the statistics unchanged. |
| `History.StatsAfterMatchingPrediction` | database.py:108-116 | Appending a prediction for this seed type adds one to the count. The new min and max enclose its score and the old min and max. |
| `History.ScanScores` | database.py:108-118 | One scan computes the count, sum, minimum and maximum of the scores of the seed type. |
| `History.GerminationDatabase.constructor` | database.py:7-9 | Opening a fresh database creates the schema with two empty tables and both counters at 0, so the first id handed out in each table is 1. |
| `History.GerminationDatabase.InitDatabase` | database.py:11-45 | Creating the schema again keeps every row and both counters. |
| `History.GerminationDatabase.AddSensorData` | database.py:47-61 | Appends exactly one row, whose score may be absent, to sensor_data. Returns its id: one more than any id issued before, larger than every existing id. Leaves the predictions table unchanged. |
| `History.GerminationDatabase.AddPrediction` | database.py:63-77 | Appends exactly one row, whose score is mandatory, to predictions. Returns a fresh, larger id. Leaves sensor_data unchanged. |
| `History.GerminationDatabase.GetSensorData` | database.py:79-89 | Returns at most `limit` sensor samples (every row for a negative limit), newest first. Their ids strictly decrease. |
| `History.GerminationDatabase.GetPredictions` | database.py:91-101 | Returns at most `limit` predictions (every row for a negative limit), newest first. Their ids strictly decrease. |
| `History.GerminationDatabase.GetStatsBySeedType` | database.py:103-127 | The statistics of the seed type over the predictions table. Zero matching rows give count 0 and avg/min/max 0. |

## Left out

- The HTTP layer of `api.py` is not part of this model: routing, pydantic validation, CORS,
  the mapping of exceptions to status codes, the uvicorn launch and the
  `GET /conditions` dump.
- Fitting and evaluating the linear regression (`LinearRegression.fit/predict`) is foreign
  numeric code. So is loading the CSV with pandas. The model takes the table's column names
  as an input: `None` means the file was not found.
- The fit-time column vocabulary (`pd.get_dummies` on the training frame) is an input
  to `Training.AlignFeatures`, not derived.
- `Training.AlignFeatures` takes the five-field reading that every caller passes. So the
  source's `'light_level' in data_copy` test is always true. The copy of the caller's dict
  is implicit, because Dafny values are immutable.
- Floating point is not modelled. This covers `round(..., 2)` in the statistics and the
  rounding error of the light conversion. Python's `str()` of a float is not modelled
  either: it is the `showNumber` parameter of `Render`.
- Error messages of failed training: only the error kind and the list of missing columns
  are kept, not the message strings.
- `History.LimitCount`, `AddSensorData`, `AddPrediction`: SQLite integers are 64-bit, and the
  model uses unbounded `int`/`nat`. So it does not capture two errors. Binding a `LIMIT` outside
  the signed 64-bit range raises `OverflowError`, and `api.py` passes the query's `limit` through
  unchecked. An `AUTOINCREMENT` insert fails with `SQLITE_FULL` once id 2^63-1 has been used. In
  the model every listing and every append succeeds.
- The SQLite engine itself is not modelled: connections, commits, the database path, and
  the timestamp values. `CURRENT_TIMESTAMP` has one-second resolution, so the source's
  order among rows inserted within the same second is unspecified. The model lists
  strictly by insertion order.
- Opening a database file that already holds rows is not modelled: the constructor starts
  from a fresh file. Re-creating the schema over existing rows is what `InitDatabase`
  states.
- Concurrent requests are left out, and so is the atomicity of appends.
- The unused `RECOMMENDATIONS_PH` table (main.py:76-79) is left out.
- The `__main__` demonstration (main.py:187-227) is left out. Its two cases are stated as
  the lemmas `MaisExample` and `RizExample`.
