/**
 * The two pure steps around the scoring model: the guard that the training
 * table has every required column, and the feature vector a reading is turned
 * into, aligned on the columns the model was fitted with.
 */
module Training {
  import opened Options
  import opened Sensors
  import opened Conditions

  /** The columns the training table must have, in the order they are reported. */
  const RequiredColumns: seq<string> :=
    ["seed_type", "temperature", "soil_humidity", "air_humidity", "light_level", "germination_score"]

  /** Why fitting the model could not start. */
  datatype TrainError =
    | FileNotFound(path: string)
    | MissingColumns(missing: seq<string>)

  /** Whether a occurs in b with the same relative order (b may hold more). */
  predicate IsSubsequence<T(==)>(a: seq<T>, b: seq<T>)
    decreases |b|
  {
    if a == [] then true
    else if b == [] then false
    else if a[0] == b[0] then IsSubsequence(a[1..], b[1..])
    else IsSubsequence(a, b[1..])
  }

  /** The columns of required that the table lacks, in the order of required. */
  function Missing(required: seq<string>, present: seq<string>): (m: seq<string>)
    ensures forall c :: c in m <==> c in required && c !in present
    ensures IsSubsequence(m, required)
  {
    if required == [] then []
    else if required[0] in present then Missing(required[1..], present)
    else [required[0]] + Missing(required[1..], present)
  }

  /**
   * The checks made before fitting: the data file must exist (None stands for
   * a file that cannot be found) and must have every required column.
   */
  function CheckTrainingData(path: string, columns: Option<seq<string>>): (r: Result<(), TrainError>)
    ensures columns.None? ==> r == Err(FileNotFound(path))
    ensures columns.Some? ==>
      (r.Ok? <==> forall c :: c in RequiredColumns ==> c in columns.value)
    ensures r.Err? && r.error.MissingColumns? ==>
      r.error.missing != [] && IsSubsequence(r.error.missing, RequiredColumns)
    ensures columns.Some? && r.Err? ==> r == Err(MissingColumns(Missing(RequiredColumns, columns.value)))
  {
    match columns
    case None => Err(FileNotFound(path))
    case Some(present) =>
      var m := Missing(RequiredColumns, present);
      if m != [] then
        assert m[0] in m;
        Err(MissingColumns(m))
      else Ok(())
  }

  /** The numeric columns, which the encoding keeps under their own names. */
  const NumericColumns: seq<string> := ["temperature", "soil_humidity", "air_humidity", "light_level"]

  /** The prefix of the one-hot indicator columns of the seed type. */
  const SeedPrefix: string := "seed_type_"

  /**
   * The single-row table after one-hot encoding: the numeric readings under
   * their own names (light converted to hours) and an indicator equal to 1
   * under "seed_type_" followed by the seed type; no other column exists.
   */
  function Encoded(r: Reading, column: string): (v: Option<real>)
    ensures v.Some? <==> column in NumericColumns + [SeedPrefix + r.seedType]
    ensures v.Some? && column !in NumericColumns ==> v == Some(1.0)
  {
    if column == "temperature" then Some(r.temperature)
    else if column == "soil_humidity" then Some(r.soilHumidity)
    else if column == "air_humidity" then Some(r.airHumidity)
    else if column == "light_level" then Some(LightPercentToHours(r.lightLevel))
    else if column == SeedPrefix + r.seedType then Some(1.0)
    else None
  }

  /**
   * The encoded reading reindexed on the fitted columns: one entry per column,
   * the encoded value where the column exists and 0 where it does not.
   */
  function AlignFeatures(columns: seq<string>, r: Reading): (v: seq<real>)
    ensures |v| == |columns|
    ensures forall i :: 0 <= i < |columns| ==>
      v[i] == match Encoded(r, columns[i]) case Some(x) => x case None => 0.0
  {
    if columns == [] then []
    else
      [match Encoded(r, columns[0]) case Some(x) => x case None => 0.0] + AlignFeatures(columns[1..], r)
  }

  predicate IsIndicator(column: string) {
    |SeedPrefix| <= |column| && column[..|SeedPrefix|] == SeedPrefix
  }

  lemma NumericColumnsAreNotIndicators()
    ensures !IsIndicator("temperature") && !IsIndicator("soil_humidity")
    ensures !IsIndicator("air_humidity") && !IsIndicator("light_level")
  {
    assert "temperature"[0] != SeedPrefix[0];
    assert "soil_humidity"[1] != SeedPrefix[1];
    assert "air_humidity"[0] != SeedPrefix[0];
    assert "light_level"[0] != SeedPrefix[0];
  }

  /**
   * Each seed-type indicator is 1 exactly for the reading's own seed type and 0
   * otherwise; so for a seed type the model was not fitted on, every indicator
   * is 0.
   */
  lemma OneHotIndicators(columns: seq<string>, r: Reading, i: nat)
    requires i < |columns| && IsIndicator(columns[i])
    ensures AlignFeatures(columns, r)[i] == if columns[i] == SeedPrefix + r.seedType then 1.0 else 0.0
    ensures SeedPrefix + r.seedType !in columns ==> AlignFeatures(columns, r)[i] == 0.0
  {
    NumericColumnsAreNotIndicators();
  }

  /** A fitted column the encoded reading does not have is filled with 0. */
  lemma AbsentColumnsAreZero(columns: seq<string>, r: Reading, i: nat)
    requires i < |columns|
    requires columns[i] !in NumericColumns + [SeedPrefix + r.seedType]
    ensures AlignFeatures(columns, r)[i] == 0.0
  {
  }

  /** The numeric features are the readings, with light in hours. */
  lemma NumericFeatures(columns: seq<string>, r: Reading, i: nat)
    requires i < |columns|
    ensures columns[i] == "temperature" ==> AlignFeatures(columns, r)[i] == r.temperature
    ensures columns[i] == "soil_humidity" ==> AlignFeatures(columns, r)[i] == r.soilHumidity
    ensures columns[i] == "air_humidity" ==> AlignFeatures(columns, r)[i] == r.airHumidity
    ensures columns[i] == "light_level" ==> AlignFeatures(columns, r)[i] == LightPercentToHours(r.lightLevel)
  {
  }
}
