/** Signed decimal text for 32-bit integers: `int.ToString()` and
    `int.TryParse` without culture settings and without surrounding white
    space. Parsing accepts one optional sign and at least one digit (leading
    zeros allowed) and fails on anything else or on a value outside the
    32-bit range. */
module Decimal {
  import opened Optional

  const MinInt32: int := -0x8000_0000
  const MaxInt32: int := 0x7fff_ffff

  predicate IsInt32(n: int) {
    MinInt32 <= n <= MaxInt32
  }

  predicate IsDigit(c: char) {
    '0' <= c <= '9'
  }

  predicate AllDigits(s: string) {
    forall k :: 0 <= k < |s| ==> IsDigit(s[k])
  }

  function DigitChar(d: nat): (c: char)
    requires d < 10
    ensures IsDigit(c)
  {
    ['0', '1', '2', '3', '4', '5', '6', '7', '8', '9'][d]
  }

  function DigitValue(c: char): (d: nat)
    requires IsDigit(c)
    ensures d < 10 && DigitChar(d) == c
  {
    (c as int - '0' as int) as nat
  }

  /** The digits of `n`, most significant first, without leading zeros. */
  function NatDigits(n: nat): (s: string)
    ensures |s| >= 1 && AllDigits(s)
    ensures s[0] == '0' ==> n == 0
  {
    if n < 10 then [DigitChar(n)] else NatDigits(n / 10) + [DigitChar(n % 10)]
  }

  /** The number a non-empty digit string denotes. */
  function DigitsValue(s: string): nat
    requires AllDigits(s)
  {
    if s == [] then 0 else 10 * DigitsValue(s[..|s| - 1]) + DigitValue(s[|s| - 1])
  }

  /** `n.ToString()`: the digits of the magnitude, after a minus sign
      exactly when `n` is negative. */
  function Encode(n: int): (s: string)
    ensures |s| >= 1
    ensures s[0] == '-' <==> n < 0
    ensures n < 0 ==> s[1..] == NatDigits(-n)
    ensures n >= 0 ==> s[0] != '+' && s == NatDigits(n)
  {
    if n < 0 then "-" + NatDigits(-n) else NatDigits(n)
  }

  /** Digits only, at least one. */
  function ParseMagnitude(s: string): (r: Option<nat>)
    ensures r.Some? <==> |s| >= 1 && AllDigits(s)
  {
    if |s| >= 1 && AllDigits(s) then Some(DigitsValue(s)) else None
  }

  /** `int.TryParse(s, out n)`: `Some(n)` on success, `None` on failure. */
  function Parse(s: string): (r: Option<int>)
    ensures r.Some? ==> IsInt32(r.value)
    ensures s == [] ==> r.None?
  {
    if s == [] then None
    else
      var neg := s[0] == '-';
      var digits := if s[0] == '-' || s[0] == '+' then s[1..] else s;
      match ParseMagnitude(digits)
      case None => None
      case Some(m) =>
        var v: int := if neg then -(m as int) else m;
        if IsInt32(v) then Some(v) else None
  }

  lemma {:induction false} DigitsRoundTrip(n: nat)
    ensures DigitsValue(NatDigits(n)) == n
  {
    if n >= 10 {
      var s := NatDigits(n);
      assert s[..|s| - 1] == NatDigits(n / 10);
      DigitsRoundTrip(n / 10);
    }
  }

  /** Parsing the text of any integer gives that integer back when it is
      within the 32-bit range and fails otherwise. */
  lemma {:induction false} ParseEncode(n: int)
    ensures Parse(Encode(n)) == if IsInt32(n) then Some(n) else None
  {
    var m: nat := if n < 0 then -n else n;
    DigitsRoundTrip(m);
    assert ParseMagnitude(NatDigits(m)) == Some(m);
  }

  /** Every 32-bit integer reads back from its text. */
  lemma RoundTrip(n: int)
    requires IsInt32(n)
    ensures Parse(Encode(n)) == Some(n)
  {
    ParseEncode(n);
  }

  /** The text of an integer outside the 32-bit range does not parse. */
  lemma RejectsOutOfRange(n: int)
    requires !IsInt32(n)
    ensures Parse(Encode(n)).None?
  {
    ParseEncode(n);
  }

  /** Distinct 32-bit integers have distinct texts. */
  lemma EncodeInjective(a: int, b: int)
    requires IsInt32(a) && IsInt32(b)
    requires Encode(a) == Encode(b)
    ensures a == b
  {
    RoundTrip(a);
    RoundTrip(b);
  }

  /** Text with a character that is neither a digit nor a leading sign does
      not parse, nor does a sign alone. */
  lemma RejectsNonDigits(s: string, k: nat)
    requires k < |s| && !IsDigit(s[k])
    requires k > 0 || (s[0] != '-' && s[0] != '+') || |s| == 1
    ensures Parse(s).None?
  {
    if s[0] == '-' || s[0] == '+' {
      if k > 0 {
        assert s[1..][k - 1] == s[k];
      }
    }
  }
}
