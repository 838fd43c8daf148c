/**
 * The two integer text conversions the configuration loader relies on:
 * std::stoi (base 10) when reading, and `std::ostream << int` when writing.
 * `int` is the 32-bit C++ int.
 */
module IntText {
  import opened Wrappers

  const IntMin: int := -0x8000_0000
  const IntMax: int := 0x7FFF_FFFF

  predicate InInt(v: int) {
    IntMin <= v <= IntMax
  }

  /** ::isspace in the "C" locale: space, and '\t' '\n' '\v' '\f' '\r'. */
  predicate IsSpace(c: char) {
    c == ' ' || '\t' <= c <= '\r'
  }

  predicate IsDigit(c: char) {
    '0' <= c <= '9'
  }

  predicate AllDigits(s: string) {
    forall i | 0 <= i < |s| :: IsDigit(s[i])
  }

  function DigitValue(c: char): nat
    requires IsDigit(c)
  {
    (c as int) - ('0' as int)
  }

  function DigitChar(d: nat): (c: char)
    requires d < 10
    ensures IsDigit(c) && DigitValue(c) == d
  {
    (('0' as int) + d) as char
  }

  /** The value of a string of decimal digits, most significant digit first. */
  function DigitsValue(ds: string): nat
    requires AllDigits(ds)
    decreases |ds|
  {
    if ds == [] then 0 else 10 * DigitsValue(ds[..|ds| - 1]) + DigitValue(ds[|ds| - 1])
  }

  /** The longest prefix of s made of decimal digits. */
  function DigitPrefix(s: string): (r: string)
    ensures |r| <= |s| && r == s[..|r|]
    ensures AllDigits(r)
    ensures |r| < |s| ==> !IsDigit(s[|r|])
  {
    if s == [] || !IsDigit(s[0]) then [] else [s[0]] + DigitPrefix(s[1..])
  }

  /** s without its leading whitespace. */
  function SkipSpaces(s: string): (r: string)
    ensures |r| <= |s| && r == s[|s| - |r|..]
    ensures r == [] || !IsSpace(r[0])
  {
    if s != [] && IsSpace(s[0]) then SkipSpaces(s[1..]) else s
  }

  /** The exceptions std::stoi throws. */
  datatype StoiError = InvalidArgument | OutOfRange

  /** std::stoi(s): leading whitespace is skipped, an optional sign is read, then the longest run of
    * digits; anything after it is ignored. No digits throws std::invalid_argument, a value outside int
    * throws std::out_of_range. */
  function Stoi(s: string): (r: Result<int, StoiError>)
    ensures r.Ok? ==> InInt(r.value)
    ensures r == Err(InvalidArgument) <==> DigitPrefix(Unsigned(SkipSpaces(s))) == []
  {
    var t := SkipSpaces(s);
    var digits := DigitPrefix(Unsigned(t));
    if digits == [] then Err(InvalidArgument)
    else
      var magnitude: int := DigitsValue(digits);
      var v := if t[0] == '-' then -magnitude else magnitude;
      if InInt(v) then Ok(v) else Err(OutOfRange)
  }

  /** The text after an optional leading sign. */
  function Unsigned(t: string): string {
    if t != [] && (t[0] == '-' || t[0] == '+') then t[1..] else t
  }

  /** Decimal digits of n, most significant first, without leading zeros. */
  function NatToDecimal(n: nat): (r: string)
    ensures r != [] && AllDigits(r)
    decreases n
  {
    if n < 10 then [DigitChar(n)] else NatToDecimal(n / 10) + [DigitChar(n % 10)]
  }

  /** `std::ostream << v` for an int v in the default format: a '-' exactly for negatives, then at least
    * one decimal digit and nothing else. */
  function IntToDecimal(v: int): (r: string)
    ensures |r| >= 1 + (if v < 0 then 1 else 0)
    ensures r[0] == '-' <==> v < 0
    ensures forall i | (if v < 0 then 1 else 0) <= i < |r| :: IsDigit(r[i])
  {
    if v < 0 then "-" + NatToDecimal(-v) else NatToDecimal(v)
  }

  lemma {:induction false} DigitsValueOfDecimal(n: nat)
    ensures DigitsValue(NatToDecimal(n)) == n
    decreases n
  {
    if n >= 10 {
      var s := NatToDecimal(n);
      assert s[..|s| - 1] == NatToDecimal(n / 10);
      DigitsValueOfDecimal(n / 10);
    }
  }

  lemma {:induction false} DigitPrefixOfDigits(s: string)
    requires AllDigits(s)
    ensures DigitPrefix(s) == s
  {
    if s != [] {
      DigitPrefixOfDigits(s[1..]);
    }
  }

  /** The text written for an int reads back as the same int: stoi inverts `<<` on every int. */
  lemma StoiInvertsIntToDecimal(v: int)
    requires InInt(v)
    ensures Stoi(IntToDecimal(v)) == Ok(v)
  {
    var magnitude: nat := if v < 0 then -v else v;
    var digits := NatToDecimal(magnitude);
    var text := IntToDecimal(v);
    assert text == (if v < 0 then "-" else "") + digits;
    assert !IsSpace(text[0]);
    assert SkipSpaces(text) == text;
    if v < 0 {
      assert text[0] == '-' && text[1..] == digits;
      assert Unsigned(text) == digits;
    } else {
      assert text == digits && IsDigit(text[0]);
      assert text[0] != '-' && text[0] != '+';
      assert Unsigned(text) == digits;
    }
    DigitPrefixOfDigits(digits);
    DigitsValueOfDecimal(magnitude);
    assert (text[0] == '-') == (v < 0);
  }

  /** The text written for an int contains no whitespace (it survives the loader's whitespace removal). */
  lemma IntToDecimalHasNoSpaces(v: int)
    ensures forall i | 0 <= i < |IntToDecimal(v)| :: !IsSpace(IntToDecimal(v)[i]) && IntToDecimal(v)[i] != '='
  {
    var digits := if v < 0 then NatToDecimal(-v) else NatToDecimal(v);
    assert forall i | 0 <= i < |digits| :: IsDigit(digits[i]);
  }
}
