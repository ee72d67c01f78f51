/** Go's `uint64` arithmetic (wrapping modulo 2^64) and the effect of
    `strconv.ParseUint(s, 10, 64)`, with `strconv.FormatUint` as its partner. */
module Uint64 {
  import opened Errors

  const MODULUS: nat := 0x1_0000_0000_0000_0000

  type U64 = x: nat | x < MODULUS

  /** `a + b` on `uint64`: wraps around once past 2^64 - 1. */
  function Add(a: U64, b: U64): (r: U64)
    ensures a + b < MODULUS ==> r == a + b
    ensures a + b >= MODULUS ==> r == a + b - MODULUS
  {
    (a + b) % MODULUS
  }

  /** `a * b` on `uint64`. */
  function Mul(a: U64, b: U64): U64
  {
    (a * b) % MODULUS
  }

  predicate IsDigit(c: char) {
    '0' <= c <= '9'
  }

  predicate AllDigits(s: string) {
    forall k :: 0 <= k < |s| ==> IsDigit(s[k])
  }

  /** The value of a string of decimal digits, most significant first. */
  function DigitsValue(s: string): nat
    requires AllDigits(s)
    decreases |s|
  {
    if s == [] then 0 else DigitsValue(s[..|s| - 1]) * 10 + (s[|s| - 1] as int - '0' as int)
  }

  /** `strconv.ParseUint(s, 10, 64)`: `None` for a syntax error (an empty string, a
      sign, any character that is not a decimal digit) and for a value out of range. */
  function ParseUint(s: string): Option<U64>
  {
    if s != [] && AllDigits(s) && DigitsValue(s) < MODULUS then Some(DigitsValue(s)) else None
  }

  /** `strconv.FormatUint(n, 10)`: the shortest decimal form of `n`. */
  function Format(n: nat): (s: string)
    ensures s != [] && AllDigits(s) && DigitsValue(s) == n
    ensures |s| > 1 ==> s[0] != '0'
    decreases n
  {
    var last := ('0' as int + n % 10) as char;
    if n < 10 then [last]
    else
      var front := Format(n / 10);
      assert (front + [last])[..|front|] == front;
      front + [last]
  }

  /** Parsing the decimal form of a `uint64` gives the number back. */
  lemma ParseFormat(n: U64)
    ensures ParseUint(Format(n)) == Some(n)
  {
  }

  /** Leading zeros are accepted and do not change the value. */
  lemma {:induction false} LeadingZero(s: string)
    requires AllDigits(s)
    ensures AllDigits("0" + s) && DigitsValue("0" + s) == DigitsValue(s)
    ensures ParseUint("0" + s) == if s == [] then Some(0) else ParseUint(s)
    decreases |s|
  {
    if s != [] {
      var front := s[..|s| - 1];
      LeadingZero(front);
      assert ("0" + s)[..|s|] == "0" + front;
    }
  }
}
