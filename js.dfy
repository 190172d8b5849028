/**
 * The few pieces of JavaScript number semantics the application relies on:
 * integer-valued numbers that may be NaN, the truncating remainder operator,
 * decimal rendering with zero padding, and `parseInt` with its default radix.
 */
module Js {

  /** An integer-valued JavaScript number, or NaN. */
  datatype Num = Int(v: int) | NaN

  /** `a % d` for a positive divisor: the result has the sign of the dividend. */
  function Rem(a: int, d: int): (r: int)
    requires d > 0
    ensures a >= 0 ==> 0 <= r < d
    ensures a < 0 ==> -d < r <= 0
  {
    if a >= 0 then a % d else -((-a) % d)
  }

  /** `n % d` on a number that may be NaN. */
  function RemN(n: Num, d: int): (r: Num)
    requires d > 0
    ensures r.NaN? <==> n.NaN?
  {
    match n
    case Int(a) => Int(Rem(a, d))
    case NaN => NaN
  }

  /** `k + n` (or `n + k`) on a number that may be NaN. */
  function AddN(n: Num, k: int): (r: Num)
    ensures r.NaN? <==> n.NaN?
    ensures r.Int? ==> r.v - k == n.v
  {
    match n
    case Int(a) => Int(a + k)
    case NaN => NaN
  }

  /** `a + b` on two numbers that may be NaN. */
  function Plus(a: Num, b: Num): (r: Num)
    ensures r.NaN? <==> a.NaN? || b.NaN?
    ensures r.Int? ==> r.v == a.v + b.v
  {
    if a.NaN? || b.NaN? then NaN else Int(a.v + b.v)
  }

  /** `n * k` on a number that may be NaN. */
  function MulN(n: Num, k: int): (r: Num)
    ensures r.NaN? <==> n.NaN?
  {
    match n
    case Int(a) => Int(a * k)
    case NaN => NaN
  }

  /** `n >= k`; every comparison with NaN is false. */
  predicate AtLeast(n: Num, k: int) {
    n.Int? && n.v >= k
  }

  /** `n > k`; every comparison with NaN is false. */
  predicate Above(n: Num, k: int) {
    n.Int? && n.v > k
  }

  /** `n < k`; every comparison with NaN is false. */
  predicate Below(n: Num, k: int) {
    n.Int? && n.v < k
  }

  // ---------------------------------------------------------------------------
  // Digits in radix 10 and 16
  // ---------------------------------------------------------------------------

  /** The value of `c` as a digit of the given radix, or -1 when it is not one. */
  function DigitValue(c: char, radix: int): (d: int)
    requires radix == 10 || radix == 16
    ensures -1 <= d < radix
    ensures '0' <= c <= '9' ==> d == c as int - '0' as int
  {
    var raw :=
      if '0' <= c <= '9' then c as int - '0' as int
      else if 'a' <= c <= 'z' then c as int - 'a' as int + 10
      else if 'A' <= c <= 'Z' then c as int - 'A' as int + 10
      else -1;
    if raw < radix then raw else -1
  }

  predicate IsDigitIn(c: char, radix: int)
    requires radix == 10 || radix == 16
  {
    DigitValue(c, radix) >= 0
  }

  predicate AllDigitsIn(s: string, radix: int)
    requires radix == 10 || radix == 16
  {
    forall i :: 0 <= i < |s| ==> IsDigitIn(s[i], radix)
  }

  predicate IsDecimalDigit(c: char) {
    '0' <= c <= '9'
  }

  predicate AllDecimal(s: string) {
    forall i :: 0 <= i < |s| ==> IsDecimalDigit(s[i])
  }

  /** The value of a string of digits, most significant first. */
  function RadixValue(s: string, radix: int): (n: nat)
    requires radix == 10 || radix == 16
    requires AllDigitsIn(s, radix)
  {
    if s == [] then 0
    else RadixValue(s[..|s| - 1], radix) * radix + DigitValue(s[|s| - 1], radix)
  }

  /** The value of a string of decimal digits. */
  function DecimalValue(s: string): nat
    requires AllDecimal(s)
  {
    assert AllDigitsIn(s, 10);
    RadixValue(s, 10)
  }

  function Pow10(k: nat): (p: nat)
    ensures p >= 1
  {
    if k == 0 then 1 else 10 * Pow10(k - 1)
  }

  /** Prepending a digit adds its weight to the value of the rest. */
  lemma {:induction false} RadixValuePrepend(c: char, s: string)
    requires IsDecimalDigit(c) && AllDecimal(s)
    ensures AllDecimal([c] + s)
    ensures DecimalValue([c] + s) == (c as int - '0' as int) * Pow10(|s|) + DecimalValue(s)
  {
    var t := [c] + s;
    if s != [] {
      assert t[..|t| - 1] == [c] + s[..|s| - 1];
      RadixValuePrepend(c, s[..|s| - 1]);
    }
  }

  /** The value of two digit strings written one after the other. */
  lemma {:induction false} DecimalConcat(a: string, b: string)
    requires AllDecimal(a) && AllDecimal(b)
    ensures AllDecimal(a + b)
    ensures DecimalValue(a + b) == DecimalValue(a) * Pow10(|b|) + DecimalValue(b)
  {
    var t := a + b;
    if b == [] {
      assert t == a;
    } else {
      var b' := b[..|b| - 1];
      assert t[..|t| - 1] == a + b';
      assert t[|t| - 1] == b[|b| - 1];
      DecimalConcat(a, b');
      var d := DigitValue(b[|b| - 1], 10);
      var va, p, vb := DecimalValue(a), Pow10(|b'|), DecimalValue(b');
      assert DecimalValue(t) == (va * p + vb) * 10 + d;
      assert DecimalValue(b) == vb * 10 + d;
      assert Pow10(|b|) == p * 10;
      assert (va * p + vb) * 10 + d == va * (p * 10) + (vb * 10 + d) by {
        assert (va * p) * 10 == va * (p * 10);
      }
    }
  }

  /** Leading zeros do not change the value of a decimal string. */
  lemma {:induction false} LeadingZeros(k: nat, s: string)
    requires AllDecimal(s)
    ensures AllDecimal(Zeros(k) + s)
    ensures DecimalValue(Zeros(k) + s) == DecimalValue(s)
  {
    if k > 0 {
      var rest := Zeros(k - 1) + s;
      LeadingZeros(k - 1, s);
      assert Zeros(k) + s == ['0'] + rest;
      RadixValuePrepend('0', rest);
      assert DecimalValue(['0'] + rest) == DecimalValue(rest);
    } else {
      assert Zeros(k) + s == s;
    }
  }

  function Zeros(k: nat): (z: string)
    ensures |z| == k && forall i :: 0 <= i < k ==> z[i] == '0'
  {
    seq(k, _ => '0')
  }

  // ---------------------------------------------------------------------------
  // Number.prototype.toString() and String.prototype.padStart(width, '0')
  // ---------------------------------------------------------------------------

  function DigitChar(d: int): (c: char)
    requires 0 <= d < 10
    ensures IsDecimalDigit(c) && c as int - '0' as int == d
  {
    ('0' as int + d) as char
  }

  /** The decimal rendering of a non-negative integer, as `toString()` gives it. */
  function DecimalString(n: nat): string {
    if n < 10 then [DigitChar(n)] else DecimalString(n / 10) + [DigitChar(n % 10)]
  }

  /** Rendering and reading back a non-negative integer is the identity. */
  lemma {:induction false} DecimalRoundTrip(n: nat)
    ensures AllDecimal(DecimalString(n))
    ensures 1 <= |DecimalString(n)|
    ensures DecimalValue(DecimalString(n)) == n
  {
    var s := DecimalString(n);
    if n >= 10 {
      DecimalRoundTrip(n / 10);
      assert s[..|s| - 1] == DecimalString(n / 10);
      assert DecimalValue(s) == DecimalValue(DecimalString(n / 10)) * 10 + n % 10;
    } else {
      assert s[..0] == [];
      assert RadixValue(s, 10) == RadixValue(s[..0], 10) * 10 + DigitValue(s[0], 10);
    }
  }

  /** A number below 10^k takes at most k digits. */
  lemma {:induction false} DecimalLength(n: nat, k: nat)
    requires 1 <= k && n < Pow10(k)
    ensures |DecimalString(n)| <= k
  {
    if n >= 10 {
      DecimalLength(n / 10, k - 1);
    }
  }

  /** `s.padStart(width, '0')`. */
  function PadZeros(s: string, width: nat): string {
    if |s| >= width then s else Zeros(width - |s|) + s
  }

  /** `String(n).padStart(width, '0')` for a value that fits the width. */
  function Padded(n: nat, width: nat): (s: string)
    requires 1 <= width && n < Pow10(width)
    ensures |s| == width && AllDecimal(s) && DecimalValue(s) == n
  {
    DecimalRoundTrip(n);
    DecimalLength(n, width);
    LeadingZeros(width - |DecimalString(n)|, DecimalString(n));
    PadZeros(DecimalString(n), width)
  }

  // ---------------------------------------------------------------------------
  // parseInt(string) with no radix argument
  // ---------------------------------------------------------------------------

  /** The StrWhiteSpaceChar set: white space and line terminators. */
  predicate IsWhiteSpace(c: char) {
    || c == '\t' || c == '\n' || c == '\U{000B}' || c == '\U{000C}' || c == '\r' || c == ' '
    || c == '\U{00A0}' || c == '\U{1680}' || ('\U{2000}' <= c <= '\U{200A}')
    || c == '\U{2028}' || c == '\U{2029}' || c == '\U{202F}' || c == '\U{205F}'
    || c == '\U{3000}' || c == '\U{FEFF}'
  }

  function TrimStart(s: string): (t: string)
    ensures |t| <= |s| && t == s[|s| - |t|..]
    ensures t != [] ==> !IsWhiteSpace(t[0])
  {
    if s != [] && IsWhiteSpace(s[0]) then TrimStart(s[1..]) else s
  }

  /** The length of the longest prefix of `s` made of digits of the radix. */
  function DigitRun(s: string, radix: int): (n: nat)
    requires radix == 10 || radix == 16
    ensures n <= |s| && AllDigitsIn(s[..n], radix)
    ensures n < |s| ==> !IsDigitIn(s[n], radix)
  {
    if s == [] || !IsDigitIn(s[0], radix) then 0
    else
      var n := 1 + DigitRun(s[1..], radix);
      assert s[..n] == [s[0]] + s[1..][..n - 1];
      n
  }

  /**
   * `parseInt(s)`: skip leading white space, read an optional sign, switch to
   * radix 16 after a `0x`/`0X` prefix, then read the longest run of digits;
   * no digits at all gives NaN.
   */
  function ParseInt(s: string): Num {
    var t := TrimStart(s);
    var negative := t != [] && t[0] == '-';
    var u := if t != [] && (t[0] == '-' || t[0] == '+') then t[1..] else t;
    var hex := |u| >= 2 && u[0] == '0' && (u[1] == 'x' || u[1] == 'X');
    var radix := if hex then 16 else 10;
    var body := if hex then u[2..] else u;
    var n := DigitRun(body, radix);
    if n == 0 then NaN
    else
      var magnitude := RadixValue(body[..n], radix);
      var signed: int := if negative then 0 - magnitude else magnitude;
      Int(signed)
  }

  /** `s.substring(0, k)`. */
  function Prefix(s: string, k: nat): (p: string)
    ensures |p| == if |s| < k then |s| else k
    ensures p <= s
  {
    if |s| < k then s else s[..k]
  }

  /** On a non-empty string of decimal digits, `parseInt` reads its decimal value. */
  lemma ParseIntOfDigits(s: string)
    requires s != [] && AllDecimal(s)
    ensures ParseInt(s) == Int(DecimalValue(s))
  {
    assert TrimStart(s) == s;
    assert DigitRun(s, 10) == |s| by {
      DigitRunAll(s);
    }
    assert s[..|s|] == s;
  }

  lemma {:induction false} DigitRunAll(s: string)
    requires AllDecimal(s)
    ensures DigitRun(s, 10) == |s|
  {
    if s != [] {
      DigitRunAll(s[1..]);
    }
  }
}
