/** Decimal digit strings: the `[0-9]+` capture of the port pattern, Go's
    `strconv.Atoi` applied to such a capture, and the `%d` formatting that
    the status messages use for a port. */
module Decimal {

  /** Largest value of Go's `int` on a 64-bit platform. */
  const MaxInt: nat := 0x7fff_ffff_ffff_ffff

  /** The RE2 class `[0-9]`: ASCII digits only. */
  predicate IsDigit(c: char) {
    '0' <= c <= '9'
  }

  predicate IsDigits(d: string) {
    forall k :: 0 <= k < |d| ==> IsDigit(d[k])
  }

  function DigitValue(c: char): (v: nat)
    requires IsDigit(c)
    ensures v < 10
  {
    c as int - '0' as int
  }

  function DigitChar(v: nat): (c: char)
    requires v < 10
    ensures IsDigit(c) && DigitValue(c) == v
  {
    ('0' as int + v) as char
  }

  /** Mathematical value of a digit string, most significant digit first;
      leading zeros contribute nothing. */
  function Value(d: string): nat
    requires IsDigits(d)
  {
    if |d| == 0 then 0 else 10 * Value(d[..|d| - 1]) + DigitValue(d[|d| - 1])
  }

  /** `strconv.Atoi` on a digit string with its error ignored: a value
      beyond the 64-bit range comes back clamped to MaxInt. */
  function Atoi(d: string): (n: int)
    requires IsDigits(d)
    ensures 0 <= n <= MaxInt
    ensures n <= Value(d)
    ensures Value(d) <= MaxInt ==> n == Value(d)
  {
    if Value(d) > MaxInt then MaxInt else Value(d)
  }

  /** Decimal text of a natural number as `%d` prints it. */
  function Itoa(n: nat): (d: string)
    ensures |d| > 0 && IsDigits(d)
    ensures |d| > 1 ==> d[0] != '0'
  {
    if n < 10 then [DigitChar(n)] else Itoa(n / 10) + [DigitChar(n % 10)]
  }

  /** Reading back the printed digits gives the number. */
  lemma {:induction false} ValueOfItoa(n: nat)
    ensures Value(Itoa(n)) == n
  {
    if n >= 10 {
      var d := Itoa(n);
      assert d[..|d| - 1] == Itoa(n / 10);
      ValueOfItoa(n / 10);
    }
  }

  /** `strconv.Atoi` inverts `%d` on every value an `int` can hold. */
  lemma AtoiItoa(n: nat)
    requires n <= MaxInt
    ensures Atoi(Itoa(n)) == n
  {
    ValueOfItoa(n);
  }
}
