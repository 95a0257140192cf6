/**
 * The parts of Go's strconv and fmt that the configuration setters and the
 * reply formatting rely on: ParseBool, Atoi (64-bit int) and `%d`/`%t`.
 */
module GoStrconv {
  import opened Wrappers
  import opened Text

  /** strconv.ParseBool: the accepted spellings of true and false, nothing else. */
  function ParseBool(s: string): (r: Option<bool>)
    ensures r == Some(true) <==> s in {"1", "t", "T", "TRUE", "true", "True"}
    ensures r == Some(false) <==> s in {"0", "f", "F", "FALSE", "false", "False"}
  {
    if s in {"1", "t", "T", "TRUE", "true", "True"} then Some(true)
    else if s in {"0", "f", "F", "FALSE", "false", "False"} then Some(false)
    else None
  }

  /** fmt's `%t`. */
  function FormatBool(b: bool): string {
    if b then "true" else "false"
  }

  lemma ParseFormatBool(b: bool)
    ensures ParseBool(FormatBool(b)) == Some(b)
  {
  }

  const MinInt64: int := -0x8000_0000_0000_0000
  const MaxInt64: int := 0x7FFF_FFFF_FFFF_FFFF

  predicate AllDigits(s: string) {
    forall k :: 0 <= k < |s| ==> IsAsciiDigit(s[k])
  }

  /** Value of a string of decimal digits, most significant first. */
  function DigitsValue(s: string): (n: nat)
    requires AllDigits(s)
  {
    if s == [] then 0
    else DigitsValue(s[..|s| - 1]) * 10 + (s[|s| - 1] as int - '0' as int)
  }

  /**
   * strconv.Atoi on a 64-bit platform: an optional sign, then at least one
   * decimal digit and nothing else, with a value inside the int64 range.
   */
  function Atoi(s: string): (r: Option<int>)
    ensures r.Some? ==> MinInt64 <= r.value <= MaxInt64
    ensures s == [] || s == "+" || s == "-" ==> r.None?
    ensures r.Some? ==> AllDigits(Unsigned(s))
  {
    var digits := Unsigned(s);
    if digits == [] || !AllDigits(digits) then None
    else
      var magnitude: int := DigitsValue(digits);
      var n: int := if s[0] == '-' then -magnitude else magnitude;
      if MinInt64 <= n <= MaxInt64 then Some(n) else None
  }

  /** The text after an optional leading sign. */
  function Unsigned(s: string): (r: string)
    ensures |r| <= |s|
  {
    if s != [] && (s[0] == '+' || s[0] == '-') then s[1..] else s
  }

  function DigitChar(d: nat): (c: char)
    requires d < 10
    ensures IsAsciiDigit(c) && c as int - '0' as int == d
  {
    ('0' as int + d) as char
  }

  /** Decimal digits of `n` without leading zeros. */
  function NatToString(n: nat): (s: string)
    ensures s != [] && AllDigits(s)
    ensures DigitsValue(s) == n
    ensures |s| > 1 ==> s[0] != '0'
  {
    if n < 10 then [DigitChar(n)]
    else
      var s := NatToString(n / 10) + [DigitChar(n % 10)];
      assert s[..|s| - 1] == NatToString(n / 10);
      s
  }

  /** fmt's `%d`. */
  function IntToString(n: int): (s: string)
    ensures s != []
  {
    if n < 0 then "-" + NatToString(-n) else NatToString(n)
  }

  /** What `%d` prints, Atoi reads back, for every int64. */
  lemma {:induction false} AtoiIntToString(n: int)
    requires MinInt64 <= n <= MaxInt64
    ensures Atoi(IntToString(n)) == Some(n)
  {
    var s := IntToString(n);
    if n < 0 {
      assert s[0] == '-' && Unsigned(s) == NatToString(-n);
    } else {
      var d := NatToString(n);
      assert s == d && IsAsciiDigit(d[0]);
      assert Unsigned(s) == d;
    }
  }

  /** A leading '+' is accepted and changes nothing. */
  lemma {:induction false} AtoiPlusSign(n: nat)
    requires n <= MaxInt64
    ensures Atoi("+" + NatToString(n)) == Some(n)
  {
    var s := "+" + NatToString(n);
    assert Unsigned(s) == NatToString(n);
  }

  /**
   * Atoi accepts every optional sign followed by decimal digits, leading
   * zeros included, and yields their signed value when it fits in int64.
   */
  lemma AtoiAccepts(sign: string, digits: string)
    requires sign == "" || sign == "+" || sign == "-"
    requires digits != [] && AllDigits(digits)
    ensures var v := if sign == "-" then -(DigitsValue(digits) as int) else DigitsValue(digits) as int;
      Atoi(sign + digits) == if MinInt64 <= v <= MaxInt64 then Some(v) else None
  {
    var s := sign + digits;
    if sign == "" {
      assert s == digits && IsAsciiDigit(s[0]);
    } else {
      assert s[0] == sign[0] && s[1..] == digits;
    }
    assert Unsigned(s) == digits;
  }

  /** Leading zeros, a negative zero and a plus sign read as their plain value. */
  lemma AtoiNonCanonical()
    ensures Atoi("007") == Some(7)
    ensures Atoi("-0") == Some(0)
    ensures Atoi("+5") == Some(5)
  {
    AtoiAccepts("", "007");
    assert "007"[..2] == "00" && "00"[..1] == "0";
    AtoiAccepts("-", "0");
    assert "-" + "0" == "-0";
    AtoiAccepts("+", "5");
    assert "+" + "5" == "+5";
  }

  /** Text with anything but digits after the sign is rejected. */
  lemma NonDigitIsRejected(s: string, k: nat)
    requires k < |Unsigned(s)| && !IsAsciiDigit(Unsigned(s)[k])
    ensures Atoi(s) == None
  {
  }
}
