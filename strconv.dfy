/** Go's `strconv.ParseInt(s, 10, 64)` as the update handler uses it to read a
    counter value, and its inverse `strconv.FormatInt(x, 10)`.

    With base 10 given explicitly, Go accepts one optional leading sign `+` or
    `-` followed by at least one ASCII digit (no underscores, no base prefix,
    leading zeros allowed), and fails with a range error when the number does
    not fit in an `int64`. */
module StrConv {
  import opened Values

  predicate IsDigit(c: char) { '0' <= c <= '9' }

  predicate AllDigits(s: string) {
    forall i :: 0 <= i < |s| ==> IsDigit(s[i])
  }

  function DigitValue(c: char): (d: nat)
    requires IsDigit(c)
    ensures d < 10
  {
    c as int - '0' as int
  }

  function DigitChar(d: nat): (c: char)
    requires d < 10
    ensures IsDigit(c) && DigitValue(c) == d
  {
    ('0' as int + d) as char
  }

  /** The number that a string of decimal digits spells, most significant digit first. */
  function DecimalValue(s: string): nat
    requires AllDigits(s)
  {
    if s == [] then 0 else DecimalValue(s[..|s| - 1]) * 10 + DigitValue(s[|s| - 1])
  }

  /** The grammar ParseInt accepts: an optional sign, then one or more digits. */
  predicate IsSignedDecimal(s: string) {
    if |s| > 0 && (s[0] == '+' || s[0] == '-') then |s| > 1 && AllDigits(s[1..])
    else |s| > 0 && AllDigits(s)
  }

  /** The integer a string of that grammar denotes. */
  function SignedDecimalValue(s: string): int
    requires IsSignedDecimal(s)
  {
    if s[0] == '-' then -(DecimalValue(s[1..]) as int)
    else if s[0] == '+' then DecimalValue(s[1..])
    else DecimalValue(s)
  }

  /** `strconv.ParseInt(s, 10, 64)`: `Some` of the value, or `None` for a syntax
      or range error. Structured as Go's: pick off the sign, read the magnitude
      as an unsigned 64-bit number, then compare it with the signed cutoff 2^63. */
  function ParseInt(s: string): (r: Option<Int64>)
    ensures r.Some? ==> IsSignedDecimal(s) && r.value as int == SignedDecimalValue(s)
    ensures IsSignedDecimal(s) && MinInt64 <= SignedDecimalValue(s) <= MaxInt64 ==> r.Some?
  {
    if s == [] then None
    else
      var neg := s[0] == '-';
      var magnitude := if s[0] == '+' || s[0] == '-' then s[1..] else s;
      if magnitude == [] || !AllDigits(magnitude) then None
      else
        var un: int := DecimalValue(magnitude);
        var cutoff := MaxInt64 + 1;
        if un >= TwoTo64 then None
        else if !neg && un >= cutoff then None
        else if neg && un > cutoff then None
        else if neg then Some((-un) as Int64)
        else Some(un as Int64)
  }

  /** The digits of a natural number, without leading zeros. */
  function NatDigits(n: nat): (s: string)
    ensures |s| > 0 && AllDigits(s)
    ensures DecimalValue(s) == n
    ensures s[0] != '0' || n == 0
  {
    if n < 10 then [DigitChar(n)]
    else
      var prefix := NatDigits(n / 10);
      var s := prefix + [DigitChar(n % 10)];
      assert s[..|s| - 1] == prefix;
      s
  }

  /** `strconv.FormatInt(x, 10)`: the decimal text of `x`, with a `-` when negative. */
  function FormatInt(x: Int64): (s: string)
    ensures IsSignedDecimal(s) && SignedDecimalValue(s) == x as int
  {
    if x < 0 then
      var s := "-" + NatDigits(-(x as int));
      assert s[1..] == NatDigits(-(x as int));
      s
    else NatDigits(x as int)
  }

  /** Formatting then parsing gives back every `int64`. */
  lemma ParseFormatRoundTrip(x: Int64)
    ensures ParseInt(FormatInt(x)) == Some(x)
  {
  }
}
