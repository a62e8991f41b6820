/**
 * The knowledge base of optimal germination conditions and the conversion
 * between a light percentage and equivalent daily light hours.
 */
module Conditions {
  import opened Options

  /** The longest daily photoperiod, in hours, that a 100% light level stands for. */
  const MaxLightHours: real := 14.0

  /** Light hours equivalent to a light percentage: p percent of a 14-hour day. */
  function LightPercentToHours(percent: real): (hours: real)
    ensures HoursToPercent(hours) == percent
    ensures percent < 0.0 <==> hours < 0.0
  {
    (percent / 100.0) * MaxLightHours
  }

  /** The inverse conversion, used when a range in hours is shown as percentages. */
  function HoursToPercent(hours: real): real {
    (hours / MaxLightHours) * 100.0
  }

  /** A whole number of hours shown as a percentage, truncated as Python's int() does. */
  function TruncatedPercent(hours: int): (p: int)
    ensures hours >= 0 ==> p as real <= HoursToPercent(hours as real) < p as real + 1.0
    ensures hours < 0 ==> p as real - 1.0 < HoursToPercent(hours as real) <= p as real
  {
    // int() truncates toward zero; for the non-negative values of the table that is Floor.
    var p := HoursToPercent(hours as real);
    if p >= 0.0 then p.Floor else -((-p).Floor)
  }

  lemma LightConversionMonotone(p: real, q: real)
    ensures p <= q ==> LightPercentToHours(p) <= LightPercentToHours(q)
    ensures p < q ==> LightPercentToHours(p) < LightPercentToHours(q)
  {
  }

  /** The conversion maps [0, 100] into [0, 14] and every hour value in [0, 14] is reached. */
  lemma LightConversionOnto(h: real)
    requires 0.0 <= h <= MaxLightHours
    ensures exists p :: 0.0 <= p <= 100.0 && LightPercentToHours(p) == h
  {
    HoursPercentRoundTrip(h);
    assert 0.0 <= HoursToPercent(h) <= 100.0;
  }

  lemma LightConversionBounded(p: real)
    requires 0.0 <= p <= 100.0
    ensures 0.0 <= LightPercentToHours(p) <= MaxLightHours
  {
  }

  /** The two conversions are mutually inverse on exact numbers. */
  lemma HoursPercentRoundTrip(h: real)
    ensures LightPercentToHours(HoursToPercent(h)) == h
    ensures HoursToPercent(LightPercentToHours(h)) == h
  {
  }

  /**
   * Truncating a percentage loses less than one percent, i.e. less than
   * 0.14 hours: converting the truncated percentage back gives at most the
   * original hours and falls short by less than a hundredth of the day.
   */
  lemma TruncationError(h: int)
    requires 0 <= h
    ensures LightPercentToHours(TruncatedPercent(h) as real) <= h as real
    ensures h as real - LightPercentToHours(TruncatedPercent(h) as real) < MaxLightHours / 100.0
  {
    var p := HoursToPercent(h as real);
    var f := TruncatedPercent(h);
    assert f == p.Floor;
    assert f as real <= p < f as real + 1.0;
    LightConversionMonotone(f as real, p);
    HoursPercentRoundTrip(h as real);
    assert LightPercentToHours(f as real + 1.0) == LightPercentToHours(f as real) + MaxLightHours / 100.0;
    LightConversionMonotone(p, f as real + 1.0);
  }

  /** Truncated percentages of hours in [0, 14] lie in [0, 100] and keep the order of the hours. */
  lemma TruncatedPercentBounds(lo: int, hi: int)
    requires 0 <= lo <= hi <= 14
    ensures 0 <= TruncatedPercent(lo) <= TruncatedPercent(hi) <= 100
  {
    var a, b := HoursToPercent(lo as real), HoursToPercent(hi as real);
    assert 0.0 <= a <= b <= 100.0;
    assert TruncatedPercent(lo) == a.Floor && TruncatedPercent(hi) == b.Floor;
    assert a.Floor as real <= a < a.Floor as real + 1.0;
    assert b.Floor as real <= b;
    assert (100.0).Floor == 100;
  }

  /** A closed interval [lo, hi] of a parameter. */
  datatype Range = Range(lo: int, hi: int) {
    predicate Contains(x: real) {
      lo as real <= x <= hi as real
    }
    function Midpoint(): real {
      (lo as real + hi as real) / 2.0
    }
  }

  /** The optimal ranges of one seed type; the light range is in hours, not percent. */
  datatype Profile = Profile(
    temperature: Range,
    soilHumidity: Range,
    airHumidity: Range,
    lightHours: Range)

  /** The ten seed types the knowledge base knows. */
  datatype Seed = Mais | Riz | Ble | Soja | Tomate | Haricot | Carotte | Laitue | Concombre | Poivron

  /** The key under which a seed type is stored and submitted. */
  function Name(s: Seed): string {
    match s
    case Mais => "mais"
    case Riz => "riz"
    case Ble => "ble"
    case Soja => "soja"
    case Tomate => "tomate"
    case Haricot => "haricot"
    case Carotte => "carotte"
    case Laitue => "laitue"
    case Concombre => "concombre"
    case Poivron => "poivron"
  }

  /** The seed type a submitted name denotes, if any (key lookup is exact and case-sensitive). */
  function ParseSeed(name: string): Option<Seed> {
    if name == "mais" then Some(Mais)
    else if name == "riz" then Some(Riz)
    else if name == "ble" then Some(Ble)
    else if name == "soja" then Some(Soja)
    else if name == "tomate" then Some(Tomate)
    else if name == "haricot" then Some(Haricot)
    else if name == "carotte" then Some(Carotte)
    else if name == "laitue" then Some(Laitue)
    else if name == "concombre" then Some(Concombre)
    else if name == "poivron" then Some(Poivron)
    else None
  }

  /** The knowledge base: the optimal ranges of each seed type. */
  function OptimalConditions(s: Seed): (p: Profile)
    ensures WellFormed(p)
  {
    match s
    case Mais => Profile(Range(18, 30), Range(60, 80), Range(50, 70), Range(6, 10))
    case Riz => Profile(Range(20, 35), Range(70, 90), Range(60, 80), Range(5, 9))
    case Ble => Profile(Range(15, 25), Range(50, 70), Range(40, 60), Range(6, 10))
    case Soja => Profile(Range(20, 30), Range(60, 75), Range(50, 70), Range(7, 12))
    case Tomate => Profile(Range(20, 30), Range(65, 85), Range(60, 80), Range(8, 14))
    case Haricot => Profile(Range(18, 28), Range(60, 80), Range(50, 70), Range(6, 10))
    case Carotte => Profile(Range(15, 25), Range(55, 75), Range(45, 65), Range(5, 8))
    case Laitue => Profile(Range(10, 20), Range(60, 80), Range(50, 70), Range(4, 8))
    case Concombre => Profile(Range(20, 30), Range(70, 90), Range(60, 80), Range(8, 12))
    case Poivron => Profile(Range(22, 30), Range(65, 85), Range(60, 80), Range(8, 14))
  }

  /** The ranges stored under a name; absent for a name that is not a key of the table. */
  function Lookup(name: string): (r: Option<Profile>)
    ensures r.Some? <==> ParseSeed(name).Some?
  {
    match ParseSeed(name)
    case None => None
    case Some(s) => Some(OptimalConditions(s))
  }

  /** Names and seed types correspond one to one. */
  lemma NameParseRoundTrip(s: Seed, name: string)
    ensures ParseSeed(Name(s)) == Some(s)
    ensures ParseSeed(name) == Some(s) ==> name == Name(s)
  {
    match s
    case Mais =>
    case Riz =>
    case Ble =>
    case Soja =>
    case Tomate =>
    case Haricot =>
    case Carotte =>
    case Laitue =>
    case Concombre =>
    case Poivron =>
  }

  /** Every range is non-empty and every light range lies within one 14-hour day. */
  predicate WellFormed(p: Profile) {
    p.temperature.lo <= p.temperature.hi &&
    p.soilHumidity.lo <= p.soilHumidity.hi &&
    p.airHumidity.lo <= p.airHumidity.hi &&
    0 <= p.lightHours.lo <= p.lightHours.hi <= 14
  }

  /**
   * Every entry of the knowledge base is well formed, so the percentages shown
   * for its light range lie within [0, 100] and in the right order.
   */
  lemma KnowledgeBaseWellFormed(s: Seed)
    ensures WellFormed(OptimalConditions(s))
    ensures var light := OptimalConditions(s).lightHours;
      0 <= TruncatedPercent(light.lo) <= TruncatedPercent(light.hi) <= 100
  {
    var light := OptimalConditions(s).lightHours;
    TruncatedPercentBounds(light.lo, light.hi);
  }

  /** Whatever the lookup finds is well formed. */
  lemma LookupWellFormed(name: string)
    ensures Lookup(name).Some? ==> WellFormed(Lookup(name).value)
  {
    if ParseSeed(name).Some? {
      KnowledgeBaseWellFormed(ParseSeed(name).value);
    }
  }

  /** The truncated percentages of the light bounds that occur in the table. */
  lemma TruncatedPercentTable()
    ensures TruncatedPercent(4) == 28 && TruncatedPercent(5) == 35
    ensures TruncatedPercent(6) == 42 && TruncatedPercent(7) == 50
    ensures TruncatedPercent(8) == 57 && TruncatedPercent(9) == 64
    ensures TruncatedPercent(10) == 71 && TruncatedPercent(12) == 85
    ensures TruncatedPercent(14) == 100
  {
  }
}
