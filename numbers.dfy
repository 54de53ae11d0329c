/**
 * Integer stand-ins for the JavaScript number operations the components use:
 * `Math.round(a / b)`, `Number.prototype.toString()` on a non-negative integer,
 * `String.prototype.padStart(2, '0')` and decimal parsing.
 */
module Numbers {
  import opened Wrappers

  /**
   * `Math.round(a / b)` for a positive divisor: the integer nearest to `a / b`,
   * halves rounded up (towards positive infinity), as JavaScript does.
   */
  function RoundDiv(a: int, b: int): (r: int)
    requires b > 0
    ensures 2 * b * r <= 2 * a + b < 2 * b * (r + 1)
  {
    (2 * a + b) / (2 * b)
  }

  /** Rounding a quotient that lies within `[lo, hi]` gives a value within `[lo, hi]`. */
  lemma RoundDivBetween(a: int, b: int, lo: int, hi: int)
    requires b > 0
    requires b * lo <= a <= b * hi
    ensures lo <= RoundDiv(a, b) <= hi
  {
    var q, n := 2 * b, 2 * a + b;
    var r := n / q;
    assert r == RoundDiv(a, b);
    assert q * r <= n < q * r + q by {
      assert n == q * r + n % q;
    }
    assert q * (hi + 1) == 2 * (b * hi) + q && q * lo == 2 * (b * lo);
    if r > hi {
      MulMono(q, hi + 1, r);
      assert false;
    }
    if r < lo {
      MulMono(q, r + 1, lo);
      assert false;
    }
  }

  /** Rounding `b * q / b` gives back `q`. */
  lemma RoundDivExact(q: int, b: int)
    requires b > 0
    ensures RoundDiv(b * q, b) == q
  {
    RoundDivBetween(b * q, b, q, q);
  }

  lemma MulMono(b: int, x: int, y: int)
    requires b > 0 && x <= y
    ensures b * x <= b * y
  {
  }

  predicate IsDigit(c: char) {
    '0' <= c <= '9'
  }

  function DigitChar(d: nat): (c: char)
    requires d < 10
    ensures IsDigit(c)
  {
    "0123456789"[d]
  }

  function DigitValue(c: char): (d: nat)
    requires IsDigit(c)
    ensures d < 10
  {
    (c as int - '0' as int) as nat
  }

  lemma DigitRoundTrip(d: nat)
    requires d < 10
    ensures DigitValue(DigitChar(d)) == d
  {
  }

  predicate AllDigits(s: string) {
    forall i :: 0 <= i < |s| ==> IsDigit(s[i])
  }

  /** `n.toString()` for a non-negative integer: its decimal digits, most significant first. */
  function NatToString(n: nat): (s: string)
    ensures |s| >= 1 && AllDigits(s)
    ensures n < 10 <==> |s| == 1
    decreases n
  {
    if n < 10 then [DigitChar(n)] else NatToString(n / 10) + [DigitChar(n % 10)]
  }

  /** The value of a string of decimal digits (leading zeros allowed, `""` is 0). */
  function DigitsValue(s: string): nat
    requires AllDigits(s)
    decreases |s|
  {
    if s == [] then 0 else 10 * DigitsValue(s[..|s| - 1]) + DigitValue(s[|s| - 1])
  }

  /** Decimal parsing of a whole string: `None` unless it is a non-empty run of digits. */
  function ParseNat(s: string): (r: Option<nat>)
    ensures r.Some? <==> |s| > 0 && AllDigits(s)
  {
    if |s| > 0 && AllDigits(s) then Some(DigitsValue(s)) else None
  }

  /** Printing a number and parsing it back gives the number. */
  lemma {:induction false} ParseNatToString(n: nat)
    ensures ParseNat(NatToString(n)) == Some(n)
    decreases n
  {
    var s := NatToString(n);
    if n < 10 {
      DigitRoundTrip(n);
      assert s == [DigitChar(n)] && s[..|s| - 1] == [];
      assert DigitsValue(s) == 10 * DigitsValue([]) + DigitValue(s[0]);
    } else {
      ParseNatToString(n / 10);
      DigitRoundTrip(n % 10);
      assert s[..|s| - 1] == NatToString(n / 10);
    }
  }

  /** Printing is injective: different numbers print differently. */
  lemma NatToStringInjective(m: nat, n: nat)
    requires NatToString(m) == NatToString(n)
    ensures m == n
  {
    ParseNatToString(m);
    ParseNatToString(n);
  }

  /** `s.padStart(2, '0')`: a leading '0' when `s` has fewer than two characters. */
  function PadStart2(s: string): (r: string)
    ensures |s| < 2 ==> |r| == 2 && r[2 - |s|..] == s && forall i :: 0 <= i < 2 - |s| ==> r[i] == '0'
    ensures |s| >= 2 ==> r == s
  {
    if |s| == 0 then "00" else if |s| == 1 then "0" + s else s
  }

  /** Leading zeros do not change a value. */
  lemma DigitsValueLeadingZero(s: string)
    requires AllDigits(s)
    ensures AllDigits("0" + s) && DigitsValue("0" + s) == DigitsValue(s)
    decreases |s|
  {
    if s != [] {
      var t := "0" + s;
      assert t[..|t| - 1] == "0" + s[..|s| - 1];
      DigitsValueLeadingZero(s[..|s| - 1]);
    }
  }

  /** Padding a printed number below 100 to two characters keeps its value and width 2. */
  lemma PadStart2Value(n: nat)
    requires n < 100
    ensures |PadStart2(NatToString(n))| == 2
    ensures ParseNat(PadStart2(NatToString(n))) == Some(n)
  {
    ParseNatToString(n);
    if n < 10 {
      DigitsValueLeadingZero(NatToString(n));
    }
  }

  /** A number from 10 to 99 prints as its tens digit then its units digit. */
  lemma TwoDigitString(n: nat)
    requires 10 <= n < 100
    ensures NatToString(n) == [DigitChar(n / 10), DigitChar(n % 10)]
  {
  }

  /** The longest prefix of `s` made of decimal digits. */
  function DigitPrefix(s: string): (p: string)
    ensures AllDigits(p) && |p| <= |s| && s[..|p|] == p
    ensures |p| < |s| ==> !IsDigit(s[|p|])
    decreases |s|
  {
    if s == [] || !IsDigit(s[0]) then [] else [s[0]] + DigitPrefix(s[1..])
  }

  /**
   * `parseInt(s)` on text that does not start with blanks or a sign: the
   * value of the leading digits, or None (NaN) when there are none.
   */
  function ParseLeadingInt(s: string): (r: Option<nat>)
    ensures r.None? <==> s == [] || !IsDigit(s[0])
  {
    var p := DigitPrefix(s);
    if p == [] then None else Some(DigitsValue(p))
  }

  /** A printed number followed by a non-digit parses back to the number. */
  lemma ParseLeadingIntOf(n: nat, rest: string)
    requires rest == [] || !IsDigit(rest[0])
    ensures ParseLeadingInt(NatToString(n) + rest) == Some(n)
  {
    var s := NatToString(n);
    DigitPrefixOfDigits(s, rest);
    ParseNatToString(n);
  }

  lemma {:induction false} DigitPrefixOfDigits(s: string, rest: string)
    requires AllDigits(s)
    requires rest == [] || !IsDigit(rest[0])
    ensures DigitPrefix(s + rest) == s
    decreases |s|
  {
    if s == [] {
      assert s + rest == rest;
    } else {
      assert (s + rest)[1..] == s[1..] + rest;
      DigitPrefixOfDigits(s[1..], rest);
      assert [s[0]] + s[1..] == s;
    }
  }

  const MillisPerDay := 86400000

  /**
   * The day number of a clock reading in milliseconds: two readings fall on
   * the same calendar day exactly when their day numbers agree.
   */
  function Day(ms: int): int {
    ms / MillisPerDay
  }
}
