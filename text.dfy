// Python's text conversions that the import pipelines apply to every cell:
// `str.strip()`, `int(str)` and `int(float)`.
module PyText {
  import opened Common

  /** The characters `str.strip()` removes, restricted to ASCII: tab to carriage return, the four separators and space. */
  predicate IsSpace(c: char)
  {
    ('\t' <= c <= '\r') || (28 as char <= c <= 31 as char) || c == ' '
  }

  /** `s.lstrip()`. */
  function StripStart(s: string): (r: string)
    ensures |r| <= |s|
  {
    if s != [] && IsSpace(s[0]) then StripStart(s[1..]) else s
  }

  /** `s.rstrip()`. */
  function StripEnd(s: string): (r: string)
    ensures |r| <= |s|
  {
    if s != [] && IsSpace(s[|s| - 1]) then StripEnd(s[..|s| - 1]) else s
  }

  /** `s.strip()`. */
  function Strip(s: string): string
  {
    StripEnd(StripStart(s))
  }

  /** `lstrip` leaves the longest suffix that does not begin with white space. */
  lemma {:induction false} StripStartFacts(s: string)
    ensures var r := StripStart(s);
      r == s[|s| - |r|..] && (r != [] ==> !IsSpace(r[0])) &&
      forall i :: 0 <= i < |s| - |r| ==> IsSpace(s[i])
    decreases |s|
  {
    if s != [] && IsSpace(s[0]) {
      StripStartFacts(s[1..]);
      var r := StripStart(s);
      forall i | 0 <= i < |s| - |r| ensures IsSpace(s[i]) {
        if i > 0 { assert s[i] == s[1..][i - 1]; }
      }
    }
  }

  /** `rstrip` leaves the longest prefix that does not end with white space. */
  lemma {:induction false} StripEndFacts(s: string)
    ensures var r := StripEnd(s);
      r == s[..|r|] && (r != [] ==> !IsSpace(r[|r| - 1])) &&
      forall i :: |r| <= i < |s| ==> IsSpace(s[i])
    decreases |s|
  {
    if s != [] && IsSpace(s[|s| - 1]) {
      StripEndFacts(s[..|s| - 1]);
      var r := StripEnd(s);
      forall i | |r| <= i < |s| ensures IsSpace(s[i]) {
        if i < |s| - 1 { assert s[i] == s[..|s| - 1][i]; }
      }
    }
  }

  /** What `strip` leaves neither begins nor ends with white space. */
  lemma StripEnds(s: string)
    ensures var r := Strip(s); r != [] ==> !IsSpace(r[0]) && !IsSpace(r[|r| - 1])
  {
    var t := StripStart(s);
    StripStartFacts(s);
    StripEndFacts(t);
    var r := StripEnd(t);
    if r != [] {
      assert r[0] == t[0];
    }
  }

  /** Text without surrounding white space is left as it is. */
  lemma StripNoSpace(s: string)
    requires s == [] || (!IsSpace(s[0]) && !IsSpace(s[|s| - 1]))
    ensures Strip(s) == s
  {
  }

  /** `strip` is idempotent. */
  lemma StripIdempotent(s: string)
    ensures Strip(Strip(s)) == Strip(s)
  {
    StripEnds(s);
    StripNoSpace(Strip(s));
  }

  predicate IsDigit(c: char) { '0' <= c <= '9' }

  predicate AllDigits(s: string)
  {
    forall i :: 0 <= i < |s| ==> IsDigit(s[i])
  }

  /** The number a run of decimal digits denotes. */
  function DigitsValue(s: string): nat
    requires AllDigits(s)
  {
    if s == [] then 0 else DigitsValue(s[..|s| - 1]) * 10 + (s[|s| - 1] as int - '0' as int)
  }

  /** Unsigned decimal digits, at least one. */
  function ParseDigits(t: string): Option<nat>
  {
    if t != [] && AllDigits(t) then Some(DigitsValue(t)) else None
  }

  /**
   * `int(s)` for a text cell: white space around an optional sign and decimal digits.
   * `None` stands for the `ValueError` Python raises.
   */
  function ParseInt(s: string): (r: Option<int>)
    ensures r.Some? ==> Strip(s) != []
  {
    var t := Strip(s);
    if t != [] && (t[0] == '-' || t[0] == '+') then
      match ParseDigits(t[1..])
      case None => None
      case Some(n) => var v: int := if t[0] == '-' then 0 - n as int else n; Some(v)
    else
      match ParseDigits(t)
      case None => None
      case Some(n) => Some(n)
  }

  lemma {:induction false} NatToStringDigits(n: nat)
    ensures AllDigits(NatToString(n)) && DigitsValue(NatToString(n)) == n
    decreases n
  {
    var s := NatToString(n);
    if n >= 10 {
      NatToStringDigits(n / 10);
      var init := NatToString(n / 10);
      assert s == init + [DigitChar(n % 10)];
      assert s[..|s| - 1] == init;
    }
  }

  lemma ParseSignedDigits(d: string)
    requires d != [] && AllDigits(d)
    ensures ParseInt(d) == Some(DigitsValue(d) as int)
    ensures ParseInt("-" + d) == Some(0 - DigitsValue(d))
  {
    assert IsDigit(d[0]) && IsDigit(d[|d| - 1]);
    StripNoSpace(d);
    var s := "-" + d;
    assert s[|s| - 1] == d[|d| - 1] && s[1..] == d;
    StripNoSpace(s);
  }

  /** `int(str(i)) == i`: the decimal text of an integer reads back as that integer. */
  lemma ParseIntRoundTrip(i: int)
    ensures ParseInt(IntToString(i)) == Some(i)
  {
    var n: nat := if i < 0 then -i else i;
    NatToStringDigits(n);
    ParseSignedDigits(NatToString(n));
  }

  /** `int(x)` for a float: truncation toward zero. */
  function Trunc(x: real): (r: int)
    ensures AbsInt(r) as real <= AbsReal(x) < AbsInt(r) as real + 1.0
    ensures x >= 0.0 ==> r >= 0
    ensures x < 0.0 ==> r <= 0
  {
    if x >= 0.0 then x.Floor else -((-x).Floor)
  }

  lemma TruncWhole(k: int)
    ensures Trunc(k as real) == k
  {
  }

  /** A truncated score is within `[lo, hi]` exactly when the float is, for whole bounds at least 1. */
  lemma TruncRange(x: real, lo: int, hi: int)
    requires 1 <= lo <= hi
    ensures lo <= Trunc(x) <= hi <==> lo as real <= x < hi as real + 1.0
  {
  }
}
