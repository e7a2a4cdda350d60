/** Small general-purpose datatypes and the decimal rendering of revisions. */
module Prelude {

  datatype Option<+T> = None | Some(value: T) {
    function GetOr(default: T): T {
      match this
      case Some(v) => v
      case None => default
    }
  }

  /** The largest integer the decoders accept. */
  const MAX_SAFE: nat := 0x1F_FFFF_FFFF_FFFF

  /** The decimal digits of a number, as a template literal renders them. */
  function Decimal(n: nat): (s: string)
    ensures |s| > 0
    ensures forall i :: 0 <= i < |s| ==> '0' <= s[i] <= '9'
  {
    if n < 10 then [('0' as int + n) as char] else Decimal(n / 10) + [('0' as int + n % 10) as char]
  }

  /** Different numbers have different decimal renderings. */
  lemma {:induction false} DecimalInjective(m: nat, n: nat)
    requires Decimal(m) == Decimal(n)
    ensures m == n
  {
    var s, t := Decimal(m), Decimal(n);
    assert s[|s| - 1] == t[|t| - 1];
    if m >= 10 {
      assert s[..|s| - 1] == Decimal(m / 10) && t[..|t| - 1] == Decimal(n / 10);
      DecimalInjective(m / 10, n / 10);
    }
  }

  /** The last colon splits a string in only one way. */
  lemma {:induction false} LastColonSplits(a: string, d: string, b: string, e: string)
    requires a + ":" + d == b + ":" + e
    requires ':' !in d && ':' !in e
    ensures a == b && d == e
  {
    var s := a + ":" + d;
    assert s[|a|] == ':' && s[|b|] == (b + ":" + e)[|b|] == ':';
    assert forall i :: |a| < i < |s| ==> s[i] == d[i - |a| - 1];
    assert forall i :: |b| < i < |s| ==> s[i] == (b + ":" + e)[i] == e[i - |b| - 1];
    assert |a| == |b|;
    assert s[..|a|] == a && s[..|b|] == (b + ":" + e)[..|b|] == b;
    assert s[|a| + 1..] == d && s[|b| + 1..] == (b + ":" + e)[|b| + 1..] == e;
  }
}
