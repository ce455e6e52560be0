/**
 * The `U256` of the `ethers` crate, as the Artemis bridge parses it. Its
 * `FromStr` reads HEXADECIMAL: an optional "0x" prefix, then at most 64 hex
 * digits (none at all reads as zero). The bridge applies it to the decimal
 * amount strings the node produces, so "100" reads as 256. The lemmas here
 * show that this reading still orders strings of decimal digits the way
 * their decimal values are ordered, as long as they are at most 64 digits.
 */
module Ethers {
  import opened Wrappers
  import opened Amounts

  /** At most this many hex digits fit a `U256`. */
  const MAX_HEX_DIGITS: nat := 64

  /** 16^64 = 2^256, one past the largest `U256`. */
  const U256_LIMIT: nat := Pow(16, MAX_HEX_DIGITS)

  function HexDigitValue(ch: char): (d: nat)
    requires IsHexDigit(ch)
    ensures d < 16
    ensures IsDigit(ch) ==> d == DigitValue(ch)
  {
    if IsDigit(ch) then DigitValue(ch)
    else if 'a' <= ch <= 'f' then ch as nat - 'a' as nat + 10
    else ch as nat - 'A' as nat + 10
  }

  function Pow(b: nat, n: nat): nat {
    if n == 0 then 1 else Pow(b, n - 1) * b
  }

  /** The number `s` denotes as digits in base `b`, most significant first. */
  function ValueIn(b: nat, s: string): nat
    requires AllHex(s)
  {
    if |s| == 0 then 0
    else ValueIn(b, s[..|s| - 1]) * b + HexDigitValue(s[|s| - 1])
  }

  /** Every digit of `s` is a digit of base `b`. */
  predicate DigitsBelow(b: nat, s: string) {
    AllHex(s) && forall i :: 0 <= i < |s| ==> HexDigitValue(s[i]) < b
  }

  /** `U256::from_str`. */
  function ParseHexU256(s: string): (r: Option<nat>)
    ensures r.Some? ==> r.value < U256_LIMIT
    ensures r.Some? <==> |HexBody(s)| <= MAX_HEX_DIGITS && AllHex(HexBody(s))
  {
    var digits := HexBody(s);
    if |digits| <= MAX_HEX_DIGITS && AllHex(digits) then
      ValueBelowPow(16, digits);
      PowMonotone(16, |digits|, MAX_HEX_DIGITS);
      Some(ValueIn(16, digits))
    else None
  }

  /** The digits `U256::from_str` reads: the text after an optional "0x". */
  function HexBody(s: string): string {
    if |s| >= 2 && s[..2] == "0x" then s[2..] else s
  }

  /** `s.parse::<U256>().unwrap_or(U256::zero())`. */
  function ParseHexOrZero(s: string): nat {
    ParseHexU256(s).GetOr(0)
  }

  // ---------------------------------------------------------------------------
  // Facts about positional values

  lemma {:induction false} PowMonotone(b: nat, m: nat, n: nat)
    requires b >= 1 && m <= n
    ensures Pow(b, m) <= Pow(b, n)
  {
    if m < n {
      PowMonotone(b, m, n - 1);
      MulMonotone(1, b, Pow(b, n - 1));
    }
  }

  lemma {:induction false} ValueBelowPow(b: nat, s: string)
    requires DigitsBelow(b, s)
    ensures ValueIn(b, s) < Pow(b, |s|)
  {
    if |s| > 0 {
      var init := s[..|s| - 1];
      assert DigitsBelow(b, init) by {
        forall i | 0 <= i < |init| ensures HexDigitValue(init[i]) < b {
          assert init[i] == s[i];
        }
      }
      ValueBelowPow(b, init);
      DigitStep(ValueIn(b, init), Pow(b, |init|), b, HexDigitValue(s[|s| - 1]));
    }
  }

  /** Appending a digit below `b` to a value below `p` stays below `p·b`. */
  lemma DigitStep(x: nat, p: nat, b: nat, d: nat)
    requires x < p && d < b
    ensures x * b + d < p * b
  {
    MulMonotone(x + 1, p, b);
    assert (x + 1) * b == x * b + b;
  }

  lemma MulMonotone(x: nat, y: nat, b: nat)
    requires x <= y
    ensures x * b <= y * b
  {
  }

  /** One positional step: comparing `p·b + x` with `q·b + y` compares the prefixes first, then the last digits. */
  lemma StepOrder(b: nat, p: nat, q: nat, x: nat, y: nat)
    requires x < b && y < b
    ensures p * b + x < q * b + y <==> p < q || (p == q && x < y)
    ensures p * b + x == q * b + y <==> p == q && x == y
  {
    if p < q {
      MulMonotone(p + 1, q, b);
    } else if q < p {
      MulMonotone(q + 1, p, b);
    }
  }

  /** A leading zero digit does not change the value. */
  lemma {:induction false} LeadingZero(b: nat, s: string)
    requires AllHex(s)
    ensures AllHex("0" + s) && ValueIn(b, "0" + s) == ValueIn(b, s)
  {
    var z := "0" + s;
    assert forall i :: 1 <= i < |z| ==> z[i] == s[i - 1];
    if |s| > 0 {
      assert z[..|z| - 1] == "0" + s[..|s| - 1];
      assert AllHex(s[..|s| - 1]);
      LeadingZero(b, s[..|s| - 1]);
    } else {
      assert z[..|z| - 1] == "";
    }
  }

  function Zeros(k: nat): (z: string)
    ensures |z| == k && AllDigits(z)
  {
    if k == 0 then "" else "0" + Zeros(k - 1)
  }

  lemma {:induction false} LeadingZeros(b: nat, k: nat, s: string)
    requires AllDigits(s)
    ensures AllDigits(Zeros(k) + s) && ValueIn(b, Zeros(k) + s) == ValueIn(b, s)
  {
    assert AllHex(s);
    if k > 0 {
      var rest := Zeros(k - 1) + s;
      LeadingZeros(b, k - 1, s);
      assert Zeros(k) + s == "0" + rest;
      assert AllHex(rest);
      LeadingZero(b, rest);
      assert forall i :: 1 <= i < |rest| + 1 ==> ("0" + rest)[i] == rest[i - 1];
    } else {
      assert Zeros(k) + s == s;
    }
  }

  /**
   * Two digit strings of the same length compare the same way, and are
   * equal in value in the same cases, in any two bases from ten up.
   */
  lemma {:induction false} SameLengthOrder(b1: nat, b2: nat, s: string, t: string)
    requires b1 >= 10 && b2 >= 10
    requires AllDigits(s) && AllDigits(t) && |s| == |t|
    ensures ValueIn(b1, s) < ValueIn(b1, t) <==> ValueIn(b2, s) < ValueIn(b2, t)
    ensures ValueIn(b1, s) == ValueIn(b1, t) <==> ValueIn(b2, s) == ValueIn(b2, t)
  {
    if |s| > 0 {
      var s', t' := s[..|s| - 1], t[..|t| - 1];
      SameLengthOrder(b1, b2, s', t');
      var x, y := HexDigitValue(s[|s| - 1]), HexDigitValue(t[|t| - 1]);
      assert IsDigit(s[|s| - 1]) && IsDigit(t[|t| - 1]);
      StepOrder(b1, ValueIn(b1, s'), ValueIn(b1, t'), x, y);
      StepOrder(b2, ValueIn(b2, s'), ValueIn(b2, t'), x, y);
    }
  }

  /** Strings of decimal digits compare alike whether read in base 16 or base 10. */
  lemma DecimalOrderAgrees(s: string, t: string)
    requires AllDigits(s) && AllDigits(t)
    ensures ValueIn(16, s) < ValueIn(16, t) <==> ValueIn(10, s) < ValueIn(10, t)
  {
    if |s| <= |t| {
      var k := |t| - |s|;
      LeadingZeros(16, k, s);
      LeadingZeros(10, k, s);
      SameLengthOrder(16, 10, Zeros(k) + s, t);
    } else {
      var k := |s| - |t|;
      LeadingZeros(16, k, t);
      LeadingZeros(10, k, t);
      SameLengthOrder(16, 10, s, Zeros(k) + t);
    }
  }

  lemma {:induction false} DecimalValueIsBaseTen(s: string)
    requires AllDigits(s)
    ensures ValueIn(10, s) == DigitsValue(s)
  {
    if |s| > 0 {
      assert AllDigits(s[..|s| - 1]);
      DecimalValueIsBaseTen(s[..|s| - 1]);
    }
  }

  /**
   * For strings of at most 64 decimal digits, comparing the hexadecimal
   * readings (unparseable as zero) agrees with comparing the decimal values.
   */
  lemma HexKeyOrdersDecimals(s: string, t: string)
    requires AllDigits(s) && |s| <= MAX_HEX_DIGITS
    requires AllDigits(t) && |t| <= MAX_HEX_DIGITS
    ensures ParseHexOrZero(s) < ParseHexOrZero(t) <==> ParseOrZero(s) < ParseOrZero(t)
  {
    assert |s| >= 2 ==> s[1] != 'x';
    assert |t| >= 2 ==> t[1] != 'x';
    assert HexBody(s) == s && HexBody(t) == t;
    DecimalOrderAgrees(s, t);
    DecimalValueIsBaseTen(s);
    DecimalValueIsBaseTen(t);
  }
}
