/**
 * The rule-based recommendation engine: compares one reading against the
 * optimal ranges of its seed type and lists what is out of range, in the
 * fixed order temperature, soil humidity, light, air humidity.
 */
module Recommendations {
  import opened Options
  import opened Sensors
  import opened Conditions
  import Decimal

  /** The four parameters, in the order their findings are reported. */
  datatype Param = Temperature | SoilHumidity | Light | AirHumidity

  datatype Direction = TooLow | TooHigh

  /**
   * One finding. A deviation names its parameter, whether the reading is below
   * or above the range, the ideal bounds as they are reported (percent for
   * light) and the value as the client submitted it (the light percentage, not
   * the hours it is compared as).
   */
  datatype Finding =
    | UnknownSeed(seedType: string)
    | Deviation(param: Param, dir: Direction, idealLo: int, idealHi: int, observed: real)
    | Optimal(seedType: string)

  function Rank(p: Param): nat {
    match p
    case Temperature => 0
    case SoilHumidity => 1
    case Light => 2
    case AirHumidity => 3
  }

  /** The value a parameter is judged by: light is compared in hours. */
  function Measured(r: Reading, param: Param): real {
    match param
    case Temperature => r.temperature
    case SoilHumidity => r.soilHumidity
    case Light => LightPercentToHours(r.lightLevel)
    case AirHumidity => r.airHumidity
  }

  /** The value a finding echoes: the reading as submitted. */
  function Submitted(r: Reading, param: Param): real {
    match param
    case Temperature => r.temperature
    case SoilHumidity => r.soilHumidity
    case Light => r.lightLevel
    case AirHumidity => r.airHumidity
  }

  function RangeFor(p: Profile, param: Param): Range {
    match param
    case Temperature => p.temperature
    case SoilHumidity => p.soilHumidity
    case Light => p.lightHours
    case AirHumidity => p.airHumidity
  }

  /**
   * The ideal bounds as a finding reports them. The light range is shown as
   * truncated percentages, and both the insufficient and the excessive light
   * finding use the same two bounds.
   */
  function ReportedRange(p: Profile, param: Param): Range {
    if param == Light
    then Range(TruncatedPercent(p.lightHours.lo), TruncatedPercent(p.lightHours.hi))
    else RangeFor(p, param)
  }

  /** The at most one finding of one parameter. */
  function Check(r: Reading, p: Profile, param: Param): seq<Finding> {
    var range, shown := RangeFor(p, param), ReportedRange(p, param);
    if Measured(r, param) < range.lo as real then
      [Deviation(param, TooLow, shown.lo, shown.hi, Submitted(r, param))]
    else if Measured(r, param) > range.hi as real then
      [Deviation(param, TooHigh, shown.lo, shown.hi, Submitted(r, param))]
    else
      []
  }

  /** The findings of a known seed type, in the order of the cascade. */
  function Findings(r: Reading, p: Profile): seq<Finding> {
    Check(r, p, Temperature) + Check(r, p, SoilHumidity) + Check(r, p, Light) + Check(r, p, AirHumidity)
  }

  /** Deviations only, each parameter ranked strictly after the one before it. */
  predicate InReportOrder(fs: seq<Finding>) {
    forall i, j :: 0 <= i < j < |fs| ==>
      fs[i].Deviation? && fs[j].Deviation? && Rank(fs[i].param) < Rank(fs[j].param)
  }

  function Recommend(r: Reading): (fs: seq<Finding>)
    ensures 1 <= |fs|
    ensures Lookup(r.seedType).None? ==> fs == [UnknownSeed(r.seedType)]
    ensures Lookup(r.seedType).Some? ==>
      |fs| <= 4 && (fs == [Optimal(r.seedType)] || forall i :: 0 <= i < |fs| ==> fs[i].Deviation?)
    ensures InReportOrder(fs)
  {
    match Lookup(r.seedType)
    case None => [UnknownSeed(r.seedType)]
    case Some(p) =>
      FindingsInOrder(r, p);
      var found := Findings(r, p);
      if found == [] then [Optimal(r.seedType)] else found
  }

  lemma CheckShape(r: Reading, p: Profile, param: Param)
    ensures |Check(r, p, param)| <= 1
    ensures forall f :: f in Check(r, p, param) ==> f.Deviation? && f.param == param
  {
  }

  lemma InReportOrderConcat(a: seq<Finding>, b: seq<Finding>)
    requires InReportOrder(a) && InReportOrder(b)
    requires forall f, g :: f in a && g in b ==> f.Deviation? && g.Deviation? && Rank(f.param) < Rank(g.param)
    ensures InReportOrder(a + b)
  {
    var c := a + b;
    forall i, j | 0 <= i < j < |c|
      ensures c[i].Deviation? && c[j].Deviation? && Rank(c[i].param) < Rank(c[j].param)
    {
      if j < |a| {
        assert c[i] == a[i] && c[j] == a[j];
      } else if i >= |a| {
        assert c[i] == b[i - |a|] && c[j] == b[j - |a|];
      } else {
        assert c[i] == a[i] && c[j] == b[j - |a|];
        assert c[i] in a && c[j] in b;
      }
    }
    assert InReportOrder(c);
  }

  lemma FindingsInOrder(r: Reading, p: Profile)
    ensures |Findings(r, p)| <= 4
    ensures InReportOrder(Findings(r, p))
  {
    var t, s, l, a := Check(r, p, Temperature), Check(r, p, SoilHumidity), Check(r, p, Light), Check(r, p, AirHumidity);
    CheckShape(r, p, Temperature);
    CheckShape(r, p, SoilHumidity);
    CheckShape(r, p, Light);
    CheckShape(r, p, AirHumidity);
    InReportOrderConcat(t, s);
    InReportOrderConcat(t + s, l);
    InReportOrderConcat(t + s + l, a);
  }

  /** The number of deviations about one parameter. */
  function Count(fs: seq<Finding>, param: Param): nat {
    if fs == [] then 0
    else (if fs[0].Deviation? && fs[0].param == param then 1 else 0) + Count(fs[1..], param)
  }

  /** Whether some finding says that the parameter is off in the given direction. */
  predicate Reports(fs: seq<Finding>, param: Param, dir: Direction) {
    exists i :: 0 <= i < |fs| && fs[i].Deviation? && fs[i].param == param && fs[i].dir == dir
  }

  lemma {:induction false} CountConcat(a: seq<Finding>, b: seq<Finding>, param: Param)
    ensures Count(a + b, param) == Count(a, param) + Count(b, param)
  {
    if a == [] {
      assert a + b == b;
    } else {
      assert (a + b)[0] == a[0];
      assert (a + b)[1..] == a[1..] + b;
      CountConcat(a[1..], b, param);
    }
  }

  lemma ReportsConcat(a: seq<Finding>, b: seq<Finding>, param: Param, dir: Direction)
    ensures Reports(a + b, param, dir) <==> Reports(a, param, dir) || Reports(b, param, dir)
  {
    if Reports(a + b, param, dir) {
      var i :| 0 <= i < |a + b| && (a + b)[i].Deviation? && (a + b)[i].param == param && (a + b)[i].dir == dir;
      if i >= |a| {
        assert b[i - |a|] == (a + b)[i];
      } else {
        assert a[i] == (a + b)[i];
      }
    }
    if Reports(a, param, dir) {
      var i :| 0 <= i < |a| && a[i].Deviation? && a[i].param == param && a[i].dir == dir;
      assert (a + b)[i] == a[i];
    }
    if Reports(b, param, dir) {
      var i :| 0 <= i < |b| && b[i].Deviation? && b[i].param == param && b[i].dir == dir;
      assert (a + b)[|a| + i] == b[i];
    }
  }

  /** What one parameter's check contributes about a (possibly other) parameter q. */
  lemma CheckVerdict(r: Reading, p: Profile, param: Param, q: Param, dir: Direction)
    requires WellFormed(p)
    ensures Count(Check(r, p, param), q) == if param == q && !RangeFor(p, q).Contains(Measured(r, q)) then 1 else 0
    ensures Reports(Check(r, p, param), q, dir) <==>
      param == q && (if dir == TooLow then Measured(r, q) < RangeFor(p, q).lo as real
                     else Measured(r, q) > RangeFor(p, q).hi as real)
  {
    var c, range, v, shown := Check(r, p, param), RangeFor(p, param), Measured(r, param), ReportedRange(p, param);
    if v < range.lo as real {
      assert c == [Deviation(param, TooLow, shown.lo, shown.hi, Submitted(r, param))];
      SingleVerdict(c[0], q, dir);
    } else if v > range.hi as real {
      assert c == [Deviation(param, TooHigh, shown.lo, shown.hi, Submitted(r, param))];
      SingleVerdict(c[0], q, dir);
    } else {
      assert c == [];
    }
  }

  lemma SingleVerdict(f: Finding, q: Param, dir: Direction)
    requires f.Deviation?
    ensures Count([f], q) == if f.param == q then 1 else 0
    ensures Reports([f], q, dir) <==> f.param == q && f.dir == dir
  {
    assert [f][1..] == [];
    if f.param == q && f.dir == dir {
      assert [f][0] == f;
    }
  }

  /**
   * For a known seed type each parameter draws at most one finding: "too low"
   * exactly when the reading is below the range, "too high" exactly when it is
   * above, and none when it lies inside the closed range.
   */
  lemma ParamVerdict(r: Reading, p: Profile, param: Param)
    requires Lookup(r.seedType) == Some(p)
    ensures Count(Recommend(r), param) <= 1
    ensures Reports(Recommend(r), param, TooLow) <==> Measured(r, param) < RangeFor(p, param).lo as real
    ensures Reports(Recommend(r), param, TooHigh) <==> Measured(r, param) > RangeFor(p, param).hi as real
    ensures Count(Recommend(r), param) == 0 <==> RangeFor(p, param).Contains(Measured(r, param))
  {
    LookupWellFormed(r.seedType);
    var t, s, l, a := Check(r, p, Temperature), Check(r, p, SoilHumidity), Check(r, p, Light), Check(r, p, AirHumidity);
    CountConcat(t, s, param);
    CountConcat(t + s, l, param);
    CountConcat(t + s + l, a, param);
    CheckVerdict(r, p, Temperature, param, TooLow);
    CheckVerdict(r, p, SoilHumidity, param, TooLow);
    CheckVerdict(r, p, Light, param, TooLow);
    CheckVerdict(r, p, AirHumidity, param, TooLow);
    CheckVerdict(r, p, Temperature, param, TooHigh);
    CheckVerdict(r, p, SoilHumidity, param, TooHigh);
    CheckVerdict(r, p, Light, param, TooHigh);
    CheckVerdict(r, p, AirHumidity, param, TooHigh);
    ReportsConcat(t, s, param, TooLow);
    ReportsConcat(t + s, l, param, TooLow);
    ReportsConcat(t + s + l, a, param, TooLow);
    ReportsConcat(t, s, param, TooHigh);
    ReportsConcat(t + s, l, param, TooHigh);
    ReportsConcat(t + s + l, a, param, TooHigh);
    if Findings(r, p) == [] {
      assert Recommend(r) == [Optimal(r.seedType)];
      assert !Reports(Recommend(r), param, TooLow) && !Reports(Recommend(r), param, TooHigh);
    }
  }

  /** Every reading of a known seed type lies in its range. */
  predicate AllInRange(r: Reading, p: Profile) {
    forall param :: RangeFor(p, param).Contains(Measured(r, param))
  }

  /**
   * The result is the single "optimal" finding exactly when the seed type is
   * known and no parameter is out of range.
   */
  lemma OptimalExactly(r: Reading)
    ensures Recommend(r) == [Optimal(r.seedType)] <==>
      Lookup(r.seedType).Some? && AllInRange(r, Lookup(r.seedType).value)
  {
    match Lookup(r.seedType)
    case None =>
    case Some(p) =>
      if AllInRange(r, p) {
        assert Check(r, p, Temperature) == [] by { assert RangeFor(p, Temperature).Contains(Measured(r, Temperature)); }
        assert Check(r, p, SoilHumidity) == [] by { assert RangeFor(p, SoilHumidity).Contains(Measured(r, SoilHumidity)); }
        assert Check(r, p, Light) == [] by { assert RangeFor(p, Light).Contains(Measured(r, Light)); }
        assert Check(r, p, AirHumidity) == [] by { assert RangeFor(p, AirHumidity).Contains(Measured(r, AirHumidity)); }
      }
      if Recommend(r) == [Optimal(r.seedType)] {
        forall param ensures RangeFor(p, param).Contains(Measured(r, param)) {
          ParamVerdict(r, p, param);
        }
      }
  }

  /**
   * The bounds a deviation reports are the knowledge-base range of its
   * parameter, except for light, whose bounds are reported as truncated
   * percentages; every deviation records the reading as submitted (for light
   * the percentage and not the hours), though only the light messages show it.
   */
  lemma ReportedBounds(r: Reading, p: Profile, i: nat)
    requires Lookup(r.seedType) == Some(p)
    requires i < |Recommend(r)| && Recommend(r)[i].Deviation?
    ensures var f := Recommend(r)[i];
      f.observed == Submitted(r, f.param) &&
      (f.param == Light ==>
        f.idealLo == TruncatedPercent(p.lightHours.lo) && f.idealHi == TruncatedPercent(p.lightHours.hi)
        && f.observed == r.lightLevel) &&
      (f.param != Light ==> f.idealLo == RangeFor(p, f.param).lo && f.idealHi == RangeFor(p, f.param).hi)
  {
    var fs := Recommend(r);
    assert fs == Findings(r, p);
    var t, s, l, a := Check(r, p, Temperature), Check(r, p, SoilHumidity), Check(r, p, Light), Check(r, p, AirHumidity);
    assert fs[i] in t || fs[i] in s || fs[i] in l || fs[i] in a by {
      assert fs[i] in fs;
      assert fs == t + s + l + a;
    }
  }

  /** A temperature below the range is reported first, with the right range. */
  lemma TemperatureFirst(r: Reading, p: Profile)
    requires Lookup(r.seedType) == Some(p)
    requires r.temperature < p.temperature.lo as real
    ensures Recommend(r)[0] == Deviation(Temperature, TooLow, p.temperature.lo, p.temperature.hi, r.temperature)
  {
    assert Check(r, p, Temperature) == [Deviation(Temperature, TooLow, p.temperature.lo, p.temperature.hi, r.temperature)];
  }

  /** The readings at the midpoint of every range of a seed type, light given in percent. */
  function MidpointReading(s: Seed): Reading {
    var p := OptimalConditions(s);
    Reading(Name(s), p.temperature.Midpoint(), p.soilHumidity.Midpoint(), p.airHumidity.Midpoint(),
            HoursToPercent(p.lightHours.Midpoint()))
  }

  /** Readings at the midpoint of every range are optimal, for every seed type. */
  lemma MidpointIsOptimal(s: Seed)
    ensures Recommend(MidpointReading(s)) == [Optimal(Name(s))]
  {
    var r, p := MidpointReading(s), OptimalConditions(s);
    NameParseRoundTrip(s, Name(s));
    KnowledgeBaseWellFormed(s);
    HoursPercentRoundTrip(p.lightHours.Midpoint());
    assert Lookup(r.seedType) == Some(p);
    forall param ensures RangeFor(p, param).Contains(Measured(r, param)) {
    }
    OptimalExactly(r);
  }

  /** Maize at 16 C, 55% soil, 45% air and 30% light: four findings; 30% is 4.2 h, below 6 h. */
  lemma MaisExample()
    ensures Recommend(Reading("mais", 16.0, 55.0, 45.0, 30.0)) == [
      Deviation(Temperature, TooLow, 18, 30, 16.0),
      Deviation(SoilHumidity, TooLow, 60, 80, 55.0),
      Deviation(Light, TooLow, 42, 71, 30.0),
      Deviation(AirHumidity, TooLow, 50, 70, 45.0)]
  {
    TruncatedPercentTable();
    NameParseRoundTrip(Mais, "mais");
  }

  /** Rice at 28 C, 80% soil, 70% air and 50% light (7 h) is optimal. */
  lemma RizExample()
    ensures Recommend(Reading("riz", 28.0, 80.0, 70.0, 50.0)) == [Optimal("riz")]
  {
    NameParseRoundTrip(Riz, "riz");
  }

  /** The fixed opening of the message of a deviation. */
  function Head(param: Param, dir: Direction): string {
    match param
    case Temperature => if dir == TooLow then "[TEMPERATURE] Trop basse. Ideal: " else "[TEMPERATURE] Trop elevee. Ideal: "
    case SoilHumidity => if dir == TooLow then "[HUMIDITE] Sol trop sec. Ideal: " else "[HUMIDITE] Sol trop humide. Ideal: "
    case Light => if dir == TooLow then "[LUMIERE] Insuffisante (" else "[LUMIERE] Excessive ("
    case AirHumidity => if dir == TooLow then "[HUMIDITE AIR] Trop basse. Ideal: " else "[HUMIDITE AIR] Trop elevee. Ideal: "
  }

  /** The message of one finding; showNumber writes the submitted light level. */
  function Render(f: Finding, showNumber: real -> string): (m: string)
    ensures f.Deviation? ==>
      |Head(f.param, f.dir)| <= |m| && m[..|Head(f.param, f.dir)|] == Head(f.param, f.dir)
  {
    match f
    case UnknownSeed(s) => "[ERREUR] Type de graine '" + s + "' non reconnu."
    case Optimal(s) => "[OK] Conditions optimales pour le " + s + "."
    case Deviation(param, dir, lo, hi, observed) =>
      var ideal := Decimal.IntToString(lo) + "-" + Decimal.IntToString(hi);
      Head(param, dir) +
        match param
        case Temperature => ideal + "C."
        case Light => showNumber(observed) + "%). Ideal: " + ideal + "%"
        case _ => ideal + "%"
  }

  /** The recommendation messages of a reading, one per finding and in the same order. */
  function GetRecommendations(r: Reading, showNumber: real -> string): (msgs: seq<string>)
    ensures |msgs| == |Recommend(r)|
    ensures forall i :: 0 <= i < |msgs| ==> msgs[i] == Render(Recommend(r)[i], showNumber)
  {
    RenderAll(Recommend(r), showNumber)
  }

  function RenderAll(fs: seq<Finding>, showNumber: real -> string): (msgs: seq<string>)
    ensures |msgs| == |fs|
    ensures forall i :: 0 <= i < |fs| ==> msgs[i] == Render(fs[i], showNumber)
  {
    if fs == [] then [] else [Render(fs[0], showNumber)] + RenderAll(fs[1..], showNumber)
  }

  /** The four findings of the maize example. */
  function MaisFindings(): seq<Finding> {
    [Deviation(Temperature, TooLow, 18, 30, 16.0),
     Deviation(SoilHumidity, TooLow, 60, 80, 55.0),
     Deviation(Light, TooLow, 42, 71, 30.0),
     Deviation(AirHumidity, TooLow, 50, 70, 45.0)]
  }

  lemma RenderMaisFindings(showNumber: real -> string)
    ensures RenderAll(MaisFindings(), showNumber) == [
      "[TEMPERATURE] Trop basse. Ideal: 18-30C.",
      "[HUMIDITE] Sol trop sec. Ideal: 60-80%",
      "[LUMIERE] Insuffisante (" + showNumber(30.0) + "%). Ideal: 42-71%",
      "[HUMIDITE AIR] Trop basse. Ideal: 50-70%"]
  {
    var fs, msgs := MaisFindings(), RenderAll(MaisFindings(), showNumber);
    assert Decimal.IntToString(18) == "18" && Decimal.IntToString(30) == "30";
    assert Decimal.IntToString(60) == "60" && Decimal.IntToString(80) == "80";
    assert Decimal.IntToString(42) == "42" && Decimal.IntToString(71) == "71";
    assert Decimal.IntToString(50) == "50" && Decimal.IntToString(70) == "70";
    assert msgs[0] == Render(fs[0], showNumber) == "[TEMPERATURE] Trop basse. Ideal: 18-30C.";
    assert msgs[1] == Render(fs[1], showNumber) == "[HUMIDITE] Sol trop sec. Ideal: 60-80%";
    assert msgs[2] == Render(fs[2], showNumber) == "[LUMIERE] Insuffisante (" + showNumber(30.0) + "%). Ideal: 42-71%";
    assert msgs[3] == Render(fs[3], showNumber) == "[HUMIDITE AIR] Trop basse. Ideal: 50-70%";
  }

  /** The messages of the maize example, as the service prints them. */
  lemma MaisMessages(showNumber: real -> string)
    ensures GetRecommendations(Reading("mais", 16.0, 55.0, 45.0, 30.0), showNumber) == [
      "[TEMPERATURE] Trop basse. Ideal: 18-30C.",
      "[HUMIDITE] Sol trop sec. Ideal: 60-80%",
      "[LUMIERE] Insuffisante (" + showNumber(30.0) + "%). Ideal: 42-71%",
      "[HUMIDITE AIR] Trop basse. Ideal: 50-70%"]
  {
    MaisExample();
    RenderMaisFindings(showNumber);
    var r := Reading("mais", 16.0, 55.0, 45.0, 30.0);
    assert Recommend(r) == MaisFindings();
  }

  /** An unknown seed type yields the single "not recognised" message. */
  lemma UnknownSeedMessage(r: Reading, showNumber: real -> string)
    requires Lookup(r.seedType).None?
    ensures GetRecommendations(r, showNumber) == ["[ERREUR] Type de graine '" + r.seedType + "' non reconnu."]
  {
  }

  /** The heads of two different kinds of deviation differ in some character both have. */
  lemma HeadsDiffer(p: Param, d: Direction, q: Param, e: Direction) returns (k: nat)
    requires p != q || d != e
    ensures k < |Head(p, d)| && k < |Head(q, e)| && Head(p, d)[k] != Head(q, e)[k]
  {
    if p != q {
      k := if p in {SoilHumidity, AirHumidity} && q in {SoilHumidity, AirHumidity} then 9 else 1;
    } else {
      k := match p
        case Temperature => 19
        case SoilHumidity => 20
        case Light => 10
        case AirHumidity => 20;
    }
  }

  /** Deviations about different parameters or in different directions never read alike. */
  lemma RenderDistinguishesDeviations(f: Finding, g: Finding, showNumber: real -> string)
    requires f.Deviation? && g.Deviation?
    requires f.param != g.param || f.dir != g.dir
    ensures Render(f, showNumber) != Render(g, showNumber)
  {
    var k := HeadsDiffer(f.param, f.dir, g.param, g.dir);
    var a, b := Render(f, showNumber), Render(g, showNumber);
    assert a[k] == Head(f.param, f.dir)[k];
    assert b[k] == Head(g.param, g.dir)[k];
  }

  /**
   * Two temperature, soil or air deviations of the same kind with different
   * (non-negative) ideal bounds render to different messages: the bounds can
   * be read back from the text.
   */
  lemma RenderDistinguishesBounds(f: Finding, g: Finding, showNumber: real -> string)
    requires f.Deviation? && g.Deviation? && f.param == g.param && f.dir == g.dir && f.param != Light
    requires 0 <= f.idealLo && 0 <= f.idealHi && 0 <= g.idealLo && 0 <= g.idealHi
    requires f.idealLo != g.idealLo || f.idealHi != g.idealHi
    ensures Render(f, showNumber) != Render(g, showNumber)
  {
    var h := Head(f.param, f.dir);
    var unit := if f.param == Temperature then "C." else "%";
    var a, b := Render(f, showNumber), Render(g, showNumber);
    var lo, hi, lo', hi' := Decimal.NatToString(f.idealLo), Decimal.NatToString(f.idealHi),
      Decimal.NatToString(g.idealLo), Decimal.NatToString(g.idealHi);
    assert a == h + (lo + "-" + (hi + unit));
    assert b == h + (lo' + "-" + (hi' + unit));
    if a == b {
      assert a[|h|..] == lo + "-" + (hi + unit);
      assert b[|h|..] == lo' + "-" + (hi' + unit);
      Decimal.RangeTextInjective(f.idealLo, f.idealHi, g.idealLo, g.idealHi, unit);
    }
  }
}
