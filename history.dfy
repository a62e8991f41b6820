/**
 * The history log: two append-only tables, one of submitted sensor samples
 * and one of predictions, each with an AUTOINCREMENT id, newest-first
 * listings and per-seed-type statistics of the predicted scores.
 */
module History {
  import opened Options
  import opened Sensors

  /** A row of the sensor_data table; the germination score may be null. */
  datatype SensorRow = SensorRow(id: nat, reading: Reading, germinationScore: Option<real>)

  /** A row of the predictions table; the predicted score is never null. */
  datatype PredictionRow = PredictionRow(id: nat, reading: Reading, predictedScore: real)

  /** Aggregates of the predicted scores of one seed type; 0 stands for every absent aggregate. */
  datatype Stats = Stats(seedType: string, count: nat, avgScore: real, minScore: real, maxScore: real)

  /** How many rows a LIMIT keeps: a negative limit keeps all of them, as in SQLite. */
  function LimitCount(n: nat, limit: int): (k: nat)
    ensures k <= n
    ensures limit >= 0 ==> k <= limit
    ensures k == n || k == limit
  {
    if limit < 0 || n <= limit then n else limit
  }

  /** The last LimitCount rows of an insertion-ordered table, newest first. */
  function NewestFirst<T>(rows: seq<T>, limit: int): (r: seq<T>)
    ensures |r| == LimitCount(|rows|, limit)
    ensures forall k :: 0 <= k < |r| ==> r[k] == rows[|rows| - 1 - k]
    decreases |rows|
  {
    if LimitCount(|rows|, limit) == 0 then []
    else [rows[|rows| - 1]] + NewestFirst(rows[..|rows| - 1], limit - 1)
  }

  /**
   * Reads the newest rows of a table, stopping after limit rows
   * (ORDER BY insertion DESC LIMIT limit).
   */
  method TakeNewest<T>(rows: seq<T>, limit: int) returns (out: seq<T>)
    ensures out == NewestFirst(rows, limit)
  {
    var n := LimitCount(|rows|, limit);
    out := [];
    var k := 0;
    while k < n
      invariant 0 <= k <= n
      invariant |out| == k
      invariant forall j :: 0 <= j < k ==> out[j] == rows[|rows| - 1 - j]
    {
      out := out + [rows[|rows| - 1 - k]];
      k := k + 1;
    }
  }

  /** The row appended last is the first one listed, whatever non-zero limit is asked for. */
  lemma NewestIsLastAppended<T>(rows: seq<T>, row: T, limit: int)
    requires limit != 0
    ensures NewestFirst(rows + [row], limit)[0] == row
    ensures NewestFirst(rows + [row], 1) == [row]
  {
    var one := NewestFirst(rows + [row], 1);
    assert |one| == 1 && one[0] == row;
  }

  /** Listing everything returns each row exactly once, newest to oldest. */
  lemma {:induction false} ListAllIsReverse<T>(rows: seq<T>)
    ensures multiset(NewestFirst(rows, -1)) == multiset(rows)
    decreases |rows|
  {
    if rows != [] {
      var init := rows[..|rows| - 1];
      ListAllIsReverse(init);
      assert NewestFirst(rows, -1) == [rows[|rows| - 1]] + NewestFirst(init, -2);
      ListAllIgnoresLimit(init, -2);
      assert rows == init + [rows[|rows| - 1]];
    }
  }

  lemma ListAllIgnoresLimit<T>(rows: seq<T>, limit: int)
    requires limit < 0
    ensures NewestFirst(rows, limit) == NewestFirst(rows, -1)
  {
  }

  predicate SensorIdsAscending(rows: seq<SensorRow>, bound: nat) {
    (forall i, j :: 0 <= i < j < |rows| ==> rows[i].id < rows[j].id) &&
    (forall i :: 0 <= i < |rows| ==> 1 <= rows[i].id <= bound)
  }

  predicate PredictionIdsAscending(rows: seq<PredictionRow>, bound: nat) {
    (forall i, j :: 0 <= i < j < |rows| ==> rows[i].id < rows[j].id) &&
    (forall i :: 0 <= i < |rows| ==> 1 <= rows[i].id <= bound)
  }

  /** The predicted scores of the rows of one seed type, oldest first. */
  function Scores(rows: seq<PredictionRow>, seedType: string): seq<real>
  {
    if rows == [] then []
    else
      var last := rows[|rows| - 1];
      Scores(rows[..|rows| - 1], seedType) + (if last.reading.seedType == seedType then [last.predictedScore] else [])
  }

  function Sum(s: seq<real>): real {
    if s == [] then 0.0 else Sum(s[..|s| - 1]) + s[|s| - 1]
  }

  function Min(s: seq<real>): (m: real)
    requires s != []
    ensures m in s
    ensures forall i :: 0 <= i < |s| ==> m <= s[i]
  {
    if |s| == 1 then s[0]
    else
      var init := s[..|s| - 1];
      var rest := Min(init);
      assert forall i :: 0 <= i < |s| - 1 ==> s[i] == init[i];
      if s[|s| - 1] < rest then s[|s| - 1] else rest
  }

  function Max(s: seq<real>): (m: real)
    requires s != []
    ensures m in s
    ensures forall i :: 0 <= i < |s| ==> s[i] <= m
  {
    if |s| == 1 then s[0]
    else
      var init := s[..|s| - 1];
      var rest := Max(init);
      assert forall i :: 0 <= i < |s| - 1 ==> s[i] == init[i];
      if s[|s| - 1] > rest then s[|s| - 1] else rest
  }

  lemma ScoresSnoc(rows: seq<PredictionRow>, row: PredictionRow, seedType: string)
    ensures Scores(rows + [row], seedType) ==
      Scores(rows, seedType) + (if row.reading.seedType == seedType then [row.predictedScore] else [])
  {
    assert (rows + [row])[..|rows|] == rows;
  }

  lemma AggregatesSnoc(s: seq<real>, x: real)
    ensures Sum(s + [x]) == Sum(s) + x
    ensures s != [] ==> Min(s + [x]) == (if x < Min(s) then x else Min(s))
    ensures s != [] ==> Max(s + [x]) == (if x > Max(s) then x else Max(s))
    ensures Min([x]) == x && Max([x]) == x
  {
    assert (s + [x])[..|s|] == s;
  }

  /** COUNT, AVG, MIN and MAX over the rows of one seed type, each absent aggregate as 0. */
  function StatsOf(rows: seq<PredictionRow>, seedType: string): (st: Stats)
    ensures st.seedType == seedType && st.count == |Scores(rows, seedType)|
    ensures st.count == 0 ==> st.avgScore == 0.0 && st.minScore == 0.0 && st.maxScore == 0.0
    ensures st.count > 0 ==> st.minScore in Scores(rows, seedType) && st.maxScore in Scores(rows, seedType)
  {
    var s := Scores(rows, seedType);
    if s == [] then Stats(seedType, 0, 0.0, 0.0, 0.0)
    else Stats(seedType, |s|, Sum(s) / (|s| as real), Min(s), Max(s))
  }

  lemma {:induction false} SumBounds(s: seq<real>, lo: real, hi: real)
    requires forall i :: 0 <= i < |s| ==> lo <= s[i] <= hi
    ensures (|s| as real) * lo <= Sum(s) <= (|s| as real) * hi
  {
    if s != [] {
      var init := s[..|s| - 1];
      assert forall i :: 0 <= i < |init| ==> init[i] == s[i];
      SumBounds(init, lo, hi);
      var n, x := |init| as real, s[|s| - 1];
      assert Sum(s) == Sum(init) + x;
      assert lo <= x <= hi;
      assert |s| as real == n + 1.0;
      assert (n + 1.0) * lo == n * lo + lo;
      assert (n + 1.0) * hi == n * hi + hi;
    }
  }

  /** The mean of a non-empty sequence lies between its minimum and its maximum. */
  lemma {:induction false} AverageBounds(s: seq<real>)
    requires s != []
    ensures Min(s) <= Sum(s) / (|s| as real) <= Max(s)
  {
    var lo, hi, n := Min(s), Max(s), |s| as real;
    SumBounds(s, lo, hi);
    DivBounds(Sum(s), n, lo, hi);
  }

  /** With at least one matching row the average lies between the minimum and the maximum. */
  lemma AverageBetweenMinAndMax(rows: seq<PredictionRow>, seedType: string)
    ensures var st := StatsOf(rows, seedType);
      st.count > 0 ==> st.minScore <= st.avgScore <= st.maxScore
  {
    var s := Scores(rows, seedType);
    if s != [] {
      AverageBounds(s);
    }
  }

  lemma DivBounds(total: real, n: real, lo: real, hi: real)
    requires n > 0.0 && n * lo <= total <= n * hi
    ensures lo <= total / n <= hi
  {
    assert total / n * n == total;
  }

  /** The count is the number of rows whose seed type is the one asked for. */
  lemma {:induction false} CountIsMatchingRows(rows: seq<PredictionRow>, seedType: string)
    ensures StatsOf(rows, seedType).count == |set i | 0 <= i < |rows| && rows[i].reading.seedType == seedType|
  {
    if rows != [] {
      var n := |rows| - 1;
      var init := rows[..n];
      CountIsMatchingRows(init, seedType);
      var a := set i | 0 <= i < n && init[i].reading.seedType == seedType;
      var b := set i | 0 <= i < |rows| && rows[i].reading.seedType == seedType;
      if rows[n].reading.seedType == seedType {
        assert b == a + {n};
      } else {
        assert b == a;
      }
    }
  }

  /** A prediction of another seed type leaves the statistics of this one unchanged. */
  lemma StatsIgnoreOtherSeedTypes(rows: seq<PredictionRow>, row: PredictionRow, seedType: string)
    requires row.reading.seedType != seedType
    ensures StatsOf(rows + [row], seedType) == StatsOf(rows, seedType)
  {
    ScoresSnoc(rows, row, seedType);
    assert Scores(rows + [row], seedType) == Scores(rows, seedType) + [];
    assert Scores(rows, seedType) + [] == Scores(rows, seedType);
  }

  /** A prediction of this seed type adds one to the count and widens min and max to include its score. */
  lemma StatsAfterMatchingPrediction(rows: seq<PredictionRow>, row: PredictionRow, seedType: string)
    requires row.reading.seedType == seedType
    ensures var before, after := StatsOf(rows, seedType), StatsOf(rows + [row], seedType);
      after.count == before.count + 1 &&
      after.minScore <= row.predictedScore <= after.maxScore &&
      (before.count > 0 ==> after.minScore <= before.minScore && before.maxScore <= after.maxScore)
  {
    var s := Scores(rows, seedType);
    ScoresSnoc(rows, row, seedType);
    assert Scores(rows + [row], seedType) == s + [row.predictedScore];
    AggregatesSnoc(s, row.predictedScore);
  }

  /** One scan of a table computing the count, sum, minimum and maximum of the scores of one seed type. */
  method ScanScores(rows: seq<PredictionRow>, seedType: string) returns (count: nat, total: real, lo: real, hi: real)
    ensures count == |Scores(rows, seedType)| && total == Sum(Scores(rows, seedType))
    ensures count > 0 ==> lo == Min(Scores(rows, seedType)) && hi == Max(Scores(rows, seedType))
  {
    count, total, lo, hi := 0, 0.0, 0.0, 0.0;
    var k := 0;
    ghost var seen: seq<real> := [];
    while k < |rows|
      invariant 0 <= k <= |rows|
      invariant seen == Scores(rows[..k], seedType)
      invariant count == |seen| && total == Sum(seen)
      invariant count > 0 ==> lo == Min(seen) && hi == Max(seen)
    {
      var row := rows[k];
      assert rows[..k + 1] == rows[..k] + [row];
      ScoresSnoc(rows[..k], row, seedType);
      if row.reading.seedType == seedType {
        var x := row.predictedScore;
        AggregatesSnoc(seen, x);
        lo := if count == 0 || x < lo then x else lo;
        hi := if count == 0 || x > hi then x else hi;
        count := count + 1;
        total := total + x;
        seen := seen + [x];
      } else {
        assert seen + [] == seen;
      }
      k := k + 1;
    }
    assert rows[..k] == rows;
  }

  /** An on-disk database holding the two tables and their AUTOINCREMENT counters. */
  class GerminationDatabase {
    /** Both tables exist (the schema has been created). */
    var schemaReady: bool
    var sensorData: seq<SensorRow>
    var predictions: seq<PredictionRow>
    /** The largest id ever handed out in each table (SQLite's sqlite_sequence). */
    var sensorSeq: nat
    var predictionSeq: nat

    ghost predicate Valid()
      reads this
    {
      (!schemaReady ==> sensorData == [] && predictions == [] && sensorSeq == 0 && predictionSeq == 0) &&
      SensorIdsAscending(sensorData, sensorSeq) &&
      PredictionIdsAscending(predictions, predictionSeq)
    }

    /** Opens a fresh database file and creates its schema. */
    constructor ()
      ensures Valid() && schemaReady
      ensures sensorData == [] && predictions == []
      ensures sensorSeq == 0 && predictionSeq == 0
    {
      schemaReady := false;
      sensorData := [];
      predictions := [];
      sensorSeq := 0;
      predictionSeq := 0;
      new;
      InitDatabase();
    }

    /** Creates whichever table does not exist yet; existing rows and counters are kept. */
    method InitDatabase()
      requires Valid()
      modifies this
      ensures Valid() && schemaReady
      ensures sensorData == old(sensorData) && predictions == old(predictions)
      ensures sensorSeq == old(sensorSeq) && predictionSeq == old(predictionSeq)
    {
      schemaReady := true;
    }

    /** Appends one sensor sample and returns its fresh id. */
    method AddSensorData(reading: Reading, germinationScore: Option<real>) returns (id: nat)
      requires Valid() && schemaReady
      modifies this
      ensures Valid() && schemaReady
      ensures id == old(sensorSeq) + 1 && sensorSeq == id
      ensures forall row :: row in old(sensorData) ==> row.id < id
      ensures sensorData == old(sensorData) + [SensorRow(id, reading, germinationScore)]
      ensures predictions == old(predictions) && predictionSeq == old(predictionSeq)
    {
      id := sensorSeq + 1;
      sensorData := sensorData + [SensorRow(id, reading, germinationScore)];
      sensorSeq := id;
    }

    /** Appends one prediction and returns its fresh id. */
    method AddPrediction(reading: Reading, predictedScore: real) returns (id: nat)
      requires Valid() && schemaReady
      modifies this
      ensures Valid() && schemaReady
      ensures id == old(predictionSeq) + 1 && predictionSeq == id
      ensures forall row :: row in old(predictions) ==> row.id < id
      ensures predictions == old(predictions) + [PredictionRow(id, reading, predictedScore)]
      ensures sensorData == old(sensorData) && sensorSeq == old(sensorSeq)
    {
      id := predictionSeq + 1;
      predictions := predictions + [PredictionRow(id, reading, predictedScore)];
      predictionSeq := id;
    }

    /** At most limit sensor samples (all of them for a negative limit), newest first. */
    method GetSensorData(limit: int) returns (rows: seq<SensorRow>)
      requires Valid()
      ensures rows == NewestFirst(sensorData, limit)
      ensures forall i, j :: 0 <= i < j < |rows| ==> rows[i].id > rows[j].id
    {
      rows := TakeNewest(sensorData, limit);
    }

    /** At most limit predictions (all of them for a negative limit), newest first. */
    method GetPredictions(limit: int) returns (rows: seq<PredictionRow>)
      requires Valid()
      ensures rows == NewestFirst(predictions, limit)
      ensures forall i, j :: 0 <= i < j < |rows| ==> rows[i].id > rows[j].id
    {
      rows := TakeNewest(predictions, limit);
    }

    /** The statistics of one seed type (COUNT, AVG, MIN, MAX over its predictions). */
    method GetStatsBySeedType(seedType: string) returns (st: Stats)
      ensures st == StatsOf(predictions, seedType)
      ensures st.seedType == seedType
      ensures st.count == 0 ==> st.avgScore == 0.0 && st.minScore == 0.0 && st.maxScore == 0.0
    {
      var count, total, lo, hi := ScanScores(predictions, seedType);
      if count == 0 {
        st := Stats(seedType, 0, 0.0, 0.0, 0.0);
      } else {
        st := Stats(seedType, count, total / (count as real), lo, hi);
      }
    }
  }
}
