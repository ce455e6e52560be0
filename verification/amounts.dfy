/**
 * Token amounts, block numbers and addresses as the node keeps them: decimal
 * strings. `ParseU256` stands for `str::parse::<U256>()`, `ToDecimal` for
 * `U256::to_string()`, `ParseU64` for `str::parse::<u64>()` and `IsAddress`
 * for `str::parse::<Address>()` succeeding.
 */
module Amounts {
  import opened Wrappers

  const U64_LIMIT: nat := 0x1_0000_0000_0000_0000

  predicate IsDigit(ch: char) {
    '0' <= ch <= '9'
  }

  predicate AllDigits(s: string) {
    forall i :: 0 <= i < |s| ==> IsDigit(s[i])
  }

  function DigitValue(ch: char): nat
    requires IsDigit(ch)
  {
    ch as nat - '0' as nat
  }

  function DigitChar(d: nat): (ch: char)
    requires d < 10
    ensures IsDigit(ch) && DigitValue(ch) == d
  {
    ('0' as nat + d) as char
  }

  /** The number a string of decimal digits denotes, most significant digit first. */
  function DigitsValue(s: string): nat
    requires AllDigits(s)
  {
    if |s| == 0 then 0
    else DigitsValue(s[..|s| - 1]) * 10 + DigitValue(s[|s| - 1])
  }

  /**
   * `str::parse::<U256>()` of the ruint `Uint` type: a run of decimal
   * digits, which may be empty, as an empty run folds to zero; anything else
   * is an error.
   */
  function ParseU256(s: string): Option<nat> {
    if AllDigits(s) then Some(DigitsValue(s)) else None
  }

  /** `s.parse::<U256>().unwrap_or(U256::ZERO)`: an unparseable amount counts as zero. */
  function ParseOrZero(s: string): nat {
    ParseU256(s).GetOr(0)
  }

  /** `str::parse::<u64>()`: an optional '+' sign, then at least one digit, and the value must fit 64 bits. */
  function ParseU64(s: string): (r: Option<nat>)
    ensures r.Some? ==> r.value < U64_LIMIT
  {
    var digits := if |s| > 0 && s[0] == '+' then s[1..] else s;
    if |digits| > 0 && AllDigits(digits) && DigitsValue(digits) < U64_LIMIT then Some(DigitsValue(digits)) else None
  }

  /** `U256::to_string()` / `u64::to_string()`: the shortest decimal rendering. */
  function ToDecimal(n: nat): (s: string)
    ensures |s| > 0 && AllDigits(s)
    ensures |s| > 1 ==> s[0] != '0'
  {
    if n < 10 then [DigitChar(n)] else ToDecimal(n / 10) + [DigitChar(n % 10)]
  }

  /** Rendering an amount and parsing it back yields the same amount. */
  lemma {:induction false} ParseToDecimal(n: nat)
    ensures ParseU256(ToDecimal(n)) == Some(n)
  {
    DigitsValueOfToDecimal(n);
  }

  lemma {:induction false} DigitsValueOfToDecimal(n: nat)
    ensures DigitsValue(ToDecimal(n)) == n
  {
    var s := ToDecimal(n);
    if n >= 10 {
      DigitsValueOfToDecimal(n / 10);
      assert s[..|s| - 1] == ToDecimal(n / 10);
    }
  }

  /** A u64 rendered by `to_string()` parses back as the same u64. */
  lemma ParseU64ToDecimal(n: nat)
    requires n < U64_LIMIT
    ensures ParseU64(ToDecimal(n)) == Some(n)
  {
    ParseToDecimal(n);
    assert ToDecimal(n)[0] != '+';
  }

  /** Two amounts render to the same string only when they are equal. */
  lemma ToDecimalInjective(m: nat, n: nat)
    requires ToDecimal(m) == ToDecimal(n)
    ensures m == n
  {
    ParseToDecimal(m);
    ParseToDecimal(n);
  }

  predicate IsHexDigit(ch: char) {
    IsDigit(ch) || 'a' <= ch <= 'f' || 'A' <= ch <= 'F'
  }

  predicate AllHex(s: string) {
    forall i :: 0 <= i < |s| ==> IsHexDigit(s[i])
  }

  /** `str::parse::<Address>()` succeeds: 40 hex digits, optionally after a "0x" prefix. */
  predicate IsAddress(s: string) {
    || (|s| == 40 && AllHex(s))
    || (|s| == 42 && s[..2] == "0x" && AllHex(s[2..]))
  }

  /** No address has the 36-character length of a hyphenated UUID. */
  lemma UuidLengthIsNotAddress(s: string)
    requires |s| == 36
    ensures !IsAddress(s)
  {
  }
}
