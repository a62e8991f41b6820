/** Decimal notation of integers, as Python's str() writes them. */
module Decimal {

  predicate IsDigit(c: char) {
    '0' <= c <= '9'
  }

  function DigitChar(d: nat): (c: char)
    requires d < 10
    ensures IsDigit(c) && c as int - '0' as int == d
  {
    ('0' as int + d) as char
  }

  function DigitValue(c: char): nat
    requires IsDigit(c)
  {
    c as int - '0' as int
  }

  /** The digits of n, most significant first, without leading zeros. */
  function NatToString(n: nat): (s: string)
    ensures |s| >= 1
    ensures forall i :: 0 <= i < |s| ==> IsDigit(s[i])
    ensures |s| > 1 ==> s[0] != '0'
  {
    if n < 10 then [DigitChar(n)] else NatToString(n / 10) + [DigitChar(n % 10)]
  }

  /** An integer in decimal, with a leading minus sign when negative. */
  function IntToString(i: int): (s: string)
    ensures |s| >= 1
    ensures s[0] == '-' <==> i < 0
    ensures forall k :: 1 <= k < |s| ==> IsDigit(s[k])
    ensures i >= 0 ==> forall k :: 0 <= k < |s| ==> IsDigit(s[k])
  {
    if i < 0 then "-" + NatToString(-i) else NatToString(i)
  }

  /** The value of a string of digits. */
  function ParseNat(s: string): nat
    requires forall i :: 0 <= i < |s| ==> IsDigit(s[i])
  {
    if s == [] then 0 else ParseNat(s[..|s| - 1]) * 10 + DigitValue(s[|s| - 1])
  }

  /** Reading the digits back gives the number that was written. */
  lemma {:induction false} ParseNatRoundTrip(n: nat)
    ensures ParseNat(NatToString(n)) == n
  {
    if n >= 10 {
      var s := NatToString(n);
      assert s[..|s| - 1] == NatToString(n / 10);
      ParseNatRoundTrip(n / 10);
    }
  }

  /** Distinct numbers are written differently. */
  lemma NatToStringInjective(m: nat, n: nat)
    ensures NatToString(m) == NatToString(n) ==> m == n
  {
    ParseNatRoundTrip(m);
    ParseNatRoundTrip(n);
  }

  /**
   * A digit string ends at the first dash: two digit strings each followed by
   * a dash and some text read alike only when both parts are equal.
   */
  lemma DigitsThenDash(u: string, x: string, v: string, y: string)
    requires forall i :: 0 <= i < |u| ==> IsDigit(u[i])
    requires forall i :: 0 <= i < |v| ==> IsDigit(v[i])
    requires u + "-" + x == v + "-" + y
    ensures u == v && x == y
  {
    var a := u + "-" + x;
    if |u| < |v| {
      DashIsNotDigit(u, x, v, y);
    } else if |v| < |u| {
      DashIsNotDigit(v, y, u, x);
    }
    assert u == a[..|u|] && v == a[..|v|];
    assert x == a[|u| + 1..] && y == a[|v| + 1..];
  }

  /** A dash where a longer digit string still has a digit: the two texts differ. */
  lemma DashIsNotDigit(u: string, x: string, v: string, y: string)
    requires forall i :: 0 <= i < |v| ==> IsDigit(v[i])
    requires |u| < |v|
    ensures u + "-" + x != v + "-" + y
  {
    assert (u + "-" + x)[|u|] == '-';
    assert (v + "-" + y)[|u|] == v[|u|];
  }

  /**
   * A range "lo-hi" of natural numbers followed by a fixed text determines
   * both of its bounds.
   */
  lemma RangeTextInjective(lo: nat, hi: nat, lo': nat, hi': nat, tail: string)
    requires NatToString(lo) + "-" + (NatToString(hi) + tail) == NatToString(lo') + "-" + (NatToString(hi') + tail)
    ensures lo == lo' && hi == hi'
  {
    DigitsThenDash(NatToString(lo), NatToString(hi) + tail, NatToString(lo'), NatToString(hi') + tail);
    var a, b := NatToString(hi) + tail, NatToString(hi') + tail;
    assert NatToString(hi) == a[..|a| - |tail|] && NatToString(hi') == b[..|b| - |tail|];
    NatToStringInjective(lo, lo');
    NatToStringInjective(hi, hi');
  }
}
