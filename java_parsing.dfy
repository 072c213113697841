/** The JDK conversions that turn a stored configuration string into a typed
    value: Integer.parseInt (radix 10) and Boolean.parseBoolean, with their
    inverses Integer.toString and Boolean.toString. */
module JavaParsing {
  import opened Wrappers

  /** The range of a Java `int`. */
  const IntMin: int := -0x8000_0000
  const IntMax: int := 0x7FFF_FFFF

  predicate IsDigit(c: char) {
    '0' <= c <= '9'
  }

  predicate AllDigits(s: string) {
    forall i | 0 <= i < |s| :: IsDigit(s[i])
  }

  function DigitValue(c: char): (d: nat)
    requires IsDigit(c)
    ensures d < 10
  {
    (c as int) - ('0' as int)
  }

  function DigitChar(d: nat): (c: char)
    requires d < 10
    ensures IsDigit(c) && DigitValue(c) == d
  {
    ('0' as int + d) as char
  }

  /** The number a string of decimal digits denotes, most significant first. */
  function DigitsValue(s: string): nat
    requires AllDigits(s)
  {
    if s == [] then 0 else DigitsValue(s[..|s| - 1]) * 10 + DigitValue(s[|s| - 1])
  }

  /** Integer.parseInt(s): an optional '-' or '+' followed by at least one
      decimal digit, denoting a value in the range of `int`; anything else
      raises NumberFormatException (here: None). */
  function ParseInt(s: string): (r: Option<int>)
    ensures r.Some? ==> IntMin <= r.value <= IntMax
    ensures r.Some? ==> |s| > 0 && (AllDigits(s) || ((s[0] == '-' || s[0] == '+') && AllDigits(s[1..])))
  {
    if |s| == 0 then None
    else
      var signed := s[0] == '-' || s[0] == '+';
      var digits := if signed then s[1..] else s;
      if |digits| == 0 || !AllDigits(digits) then None
      else
        var magnitude: int := DigitsValue(digits);
        var v := if s[0] == '-' then -magnitude else magnitude;
        if IntMin <= v <= IntMax then Some(v) else None
  }

  /** The decimal digits of n without leading zeros (Integer.toString of a
      non-negative value). */
  function FormatNat(n: nat): (s: string)
    ensures |s| > 0 && AllDigits(s) && DigitsValue(s) == n
    ensures s[0] != '0' || n == 0
  {
    if n < 10 then [DigitChar(n)]
    else
      var s := FormatNat(n / 10) + [DigitChar(n % 10)];
      assert s[..|s| - 1] == FormatNat(n / 10);
      s
  }

  /** Integer.toString(n). */
  function FormatInt(n: int): (s: string)
    ensures n >= 0 ==> AllDigits(s) && DigitsValue(s) == n && |s| > 0
    ensures n < 0 ==> |s| > 1 && s[0] == '-' && AllDigits(s[1..]) && DigitsValue(s[1..]) == -n
  {
    if n < 0 then
      var s := "-" + FormatNat(-n);
      assert s[1..] == FormatNat(-n);
      s
    else FormatNat(n)
  }

  /** Writing an `int` in decimal and parsing it back gives the same `int`. */
  lemma ParseFormatRoundTrip(n: int)
    requires IntMin <= n <= IntMax
    ensures ParseInt(FormatInt(n)) == Some(n)
  {
    var s := FormatInt(n);
    if n < 0 {
      assert s[0] == '-' && s[1..] == FormatNat(-n);
    } else {
      assert s[0] != '-' && s[0] != '+';
    }
  }

  /** ASCII case folding, which is all String.equalsIgnoreCase needs to
      compare a string against "true". */
  function ToLowerAscii(c: char): char {
    if 'A' <= c <= 'Z' then (c as int + 32) as char else c
  }

  /** Boolean.parseBoolean(s): true exactly when s equals "true" ignoring
      case; every other string, and null, is false. */
  function ParseBoolean(s: Option<string>): (b: bool)
    ensures b ==> s.Some? && |s.value| == 4
  {
    s.Some? && |s.value| == 4 &&
    ToLowerAscii(s.value[0]) == 't' && ToLowerAscii(s.value[1]) == 'r' &&
    ToLowerAscii(s.value[2]) == 'u' && ToLowerAscii(s.value[3]) == 'e'
  }

  /** Boolean.toString(b). */
  function FormatBoolean(b: bool): (s: string)
    ensures ParseBoolean(Some(s)) == b
    ensures b <==> |s| == 4
  {
    if b then "true" else "false"
  }

  /** Boolean.toString and Boolean.parseBoolean are inverse; casing does not
      matter to the parse. */
  lemma ParseFormatBooleanRoundTrip(b: bool)
    ensures ParseBoolean(Some(FormatBoolean(b))) == b
    ensures ParseBoolean(Some("TRUE")) && ParseBoolean(Some("True"))
    ensures !ParseBoolean(None) && !ParseBoolean(Some("yes")) && !ParseBoolean(Some("1"))
  {
  }
}
