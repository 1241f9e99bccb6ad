/** Decimal rendering and parsing of unsigned integers: the `%d` verb,
    `strconv.Itoa` on a non-negative int and the repository's
    `Uint64ToString` all write the shortest decimal form;
    `strconv.ParseUint(s, 10, 64)` reads one back. */
module Decimals {
  import opened Types
  import opened Wrappers

  predicate IsDigit(c: char) {
    '0' <= c <= '9'
  }

  predicate AllDigits(s: string) {
    forall i | 0 <= i < |s| :: IsDigit(s[i])
  }

  function DigitChar(d: nat): (c: char)
    requires d < 10
    ensures IsDigit(c)
  {
    ('0' as int + d) as char
  }

  /** The shortest decimal form of n: at least one digit, no leading zero. */
  function Decimal(n: nat): (s: string)
    ensures |s| >= 1 && AllDigits(s)
    ensures |s| > 1 ==> s[0] != '0'
    decreases n
  {
    if n < 10 then [DigitChar(n)] else Decimal(n / 10) + [DigitChar(n % 10)]
  }

  /** The number a string of digits denotes (leading zeros allowed). */
  function DigitsValue(s: string): nat
    requires AllDigits(s)
  {
    if s == [] then 0 else DigitsValue(s[..|s| - 1]) * 10 + (s[|s| - 1] as int - '0' as int)
  }

  /** strconv.ParseUint(s, 10, 64): a non-empty run of decimal digits
      (no sign, no underscore for an explicit base) whose value fits in 64
      bits; anything else is a syntax or range error. */
  function ParseUint64(s: string): (r: Option<uint64>)
  {
    if |s| == 0 || !AllDigits(s) then None
    else if DigitsValue(s) < 0x1_0000_0000_0000_0000 then Some(DigitsValue(s))
    else None
  }

  /** Reading the decimal form of n gives n. */
  lemma {:induction false} DecimalValue(n: nat)
    ensures DigitsValue(Decimal(n)) == n
    decreases n
  {
    var s := Decimal(n);
    if n >= 10 {
      DecimalValue(n / 10);
      assert s[..|s| - 1] == Decimal(n / 10);
    }
  }

  /** ParseUint64 inverts Decimal on every uint64. */
  lemma ParseDecimal(n: uint64)
    ensures ParseUint64(Decimal(n)) == Some(n)
  {
    DecimalValue(n);
  }

  /** Distinct numbers have distinct decimal forms. */
  lemma DecimalInjective(a: nat, b: nat)
    requires Decimal(a) == Decimal(b)
    ensures a == b
  {
    DecimalValue(a);
    DecimalValue(b);
  }
}
