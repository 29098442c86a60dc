/**
 * Fixed-width unsigned integers and Rust's `str::parse::<u16>` / `str::parse::<u64>`:
 * an optional leading '+', then decimal digits read left to right; the first
 * character that is not a digit, or the first step whose value exceeds the
 * type's maximum, decides the error.
 */
module Numbers {
  import opened Wrappers

  const U16_MAX: nat := 0xFFFF
  const U64_MAX: nat := 0xFFFF_FFFF_FFFF_FFFF

  type u16 = x: int | 0 <= x <= 0xFFFF
  type u64 = x: int | 0 <= x <= 0xFFFF_FFFF_FFFF_FFFF

  /** The kinds of `ParseIntError` an unsigned parse can report. */
  datatype IntErrorKind = Empty | InvalidDigit | PosOverflow

  /** The `Display` text of a `ParseIntError` of that kind. */
  function IntErrorMessage(kind: IntErrorKind): string
  {
    match kind
    case Empty => "cannot parse integer from empty string"
    case InvalidDigit => "invalid digit found in string"
    case PosOverflow => "number too large to fit in target type"
  }

  predicate IsDigit(c: char) { '0' <= c <= '9' }

  predicate AllDigits(s: string) { forall i :: 0 <= i < |s| ==> IsDigit(s[i]) }

  function DigitValue(c: char): (d: nat)
    requires IsDigit(c)
    ensures d < 10
  {
    c as int - '0' as int
  }

  /** The numeral value of a run of digits (no bound). */
  function Value(s: string): nat
    requires AllDigits(s)
  {
    if s == [] then 0 else Value(s[..|s| - 1]) * 10 + DigitValue(s[|s| - 1])
  }

  /**
   * The digit loop of Rust's `from_str_radix`: characters are consumed left
   * to right, so the error is the one met at the first failing position.
   */
  function ParseDigits(s: string, max: nat): (r: Result<nat, IntErrorKind>)
    ensures r.Ok? ==> AllDigits(s) && r.value <= max
    ensures r.Err? ==> r.error != Empty
    ensures !AllDigits(s) ==> r.Err?
    decreases |s|
  {
    if s == [] then Ok(0)
    else
      var prefix := ParseDigits(s[..|s| - 1], max);
      if prefix.Err? then prefix
      else
        var c := s[|s| - 1];
        if !IsDigit(c) then Err(InvalidDigit)
        else if prefix.value * 10 + DigitValue(c) > max then Err(PosOverflow)
        else
          assert s == s[..|s| - 1] + [c];
          Ok(prefix.value * 10 + DigitValue(c))
  }

  /** `str::parse` for an unsigned type whose largest value is `max`. */
  function ParseUnsigned(s: string, max: nat): (r: Result<nat, IntErrorKind>)
    ensures r.Ok? ==> r.value <= max
    ensures r.Ok? ==> |s| > 0 && AllDigits(if s[0] == '+' then s[1..] else s)
    ensures r.Ok? ==> (s[0] == '+' ==> |s| > 1)
    ensures r == Err(Empty) <==> s == ""
  {
    if s == [] then Err(Empty)
    else if (s[0] == '+' || s[0] == '-') && |s| == 1 then Err(InvalidDigit)
    else ParseDigits(if s[0] == '+' then s[1..] else s, max)
  }

  function ParseU16(s: string): (r: Result<u16, IntErrorKind>)
    ensures r.Ok? <==> ParseUnsigned(s, U16_MAX).Ok?
  {
    var n := ParseUnsigned(s, U16_MAX);
    if n.Ok? then Ok(n.value) else Err(n.error)
  }

  function ParseU64(s: string): (r: Result<u64, IntErrorKind>)
    ensures r.Ok? <==> ParseUnsigned(s, U64_MAX).Ok?
  {
    var n := ParseUnsigned(s, U64_MAX);
    if n.Ok? then Ok(n.value) else Err(n.error)
  }

  /** A run of digits parses to its numeral value when that fits, else overflows. */
  lemma {:induction false} ParseDigitsValue(s: string, max: nat)
    requires AllDigits(s)
    ensures Value(s) <= max ==> ParseDigits(s, max) == Ok(Value(s))
    ensures Value(s) > max ==> ParseDigits(s, max) == Err(PosOverflow)
    decreases |s|
  {
    if s != [] {
      var p := s[..|s| - 1];
      assert AllDigits(p);
      ParseDigitsValue(p, max);
    }
  }

  /** The shortest decimal numeral of `n`: the reference encoding `str::parse` inverts. */
  function DecimalString(n: nat): (s: string)
    ensures |s| > 0 && AllDigits(s) && s[0] != '+'
    decreases n
  {
    var d := ['0' + (n % 10) as char];
    if n < 10 then d else DecimalString(n / 10) + d
  }

  lemma {:induction false} DecimalStringValue(n: nat)
    ensures Value(DecimalString(n)) == n
    decreases n
  {
    var s := DecimalString(n);
    if n >= 10 {
      DecimalStringValue(n / 10);
      assert s[..|s| - 1] == DecimalString(n / 10);
    }
  }

  /** Round trip: every value of the type parses back from its numeral, with or without '+'. */
  lemma ParseDecimalRoundTrip(n: nat, max: nat)
    requires n <= max
    ensures ParseUnsigned(DecimalString(n), max) == Ok(n)
    ensures ParseUnsigned("+" + DecimalString(n), max) == Ok(n)
  {
    var s := DecimalString(n);
    DecimalStringValue(n);
    ParseDigitsValue(s, max);
    assert ("+" + s)[1..] == s;
  }

  /** A numeral above the maximum is reported as an overflow. */
  lemma ParseOverflow(n: nat, max: nat)
    requires n > max
    ensures ParseUnsigned(DecimalString(n), max) == Err(PosOverflow)
  {
    DecimalStringValue(n);
    ParseDigitsValue(DecimalString(n), max);
  }
}
