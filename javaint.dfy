/**
 * Java `int` arithmetic as the runtime uses it: 32-bit two's-complement
 * wrap-around, `/` truncating toward zero, `%` taking the dividend's sign,
 * `Integer.parseInt` on digit strings and `Integer.toString`.
 */
module JavaInt {

  import opened Exceptions

  const TWO_32: int := 0x1_0000_0000
  const MIN_INT: int := -0x8000_0000
  const MAX_INT: int := 0x7fff_ffff

  type int32 = x: int | MIN_INT <= x <= MAX_INT

  /** A Java `byte`, held as its bit pattern read unsigned. */
  newtype byte = x: int | 0 <= x < 256

  predicate InRange(x: int) { MIN_INT <= x <= MAX_INT }

  /** Narrowing of an exact result to 32 bits, as every Java `int` operation does. */
  function Wrap(x: int): (r: int32)
    ensures (x - r) % TWO_32 == 0
    ensures InRange(x) ==> r == x
  {
    var m := x % TWO_32;
    if m > MAX_INT then m - TWO_32 else m
  }

  /** An exact result leaves 32 bits exactly when wrapping changes it. */
  lemma WrapChangesIffOverflow(x: int)
    ensures Wrap(x) == x <==> InRange(x)
  {
  }

  function Abs(x: int): nat { if x < 0 then -x else x }

  /** Java's `/` on exact operands: the quotient rounded toward zero. */
  function Quot(a: int, b: int): int
    requires b != 0
  {
    if (a < 0) != (b < 0) then -(Abs(a) / Abs(b)) else Abs(a) / Abs(b)
  }

  /** Java's `%`: the remainder carries the sign of the dividend. */
  function Rem(a: int, b: int): int
    requires b != 0
  {
    if a < 0 then -(Abs(a) % Abs(b)) else Abs(a) % Abs(b)
  }

  /** Quotient and remainder together recompose the dividend, the remainder is
      smaller than the divisor and never has the opposite sign to the dividend,
      and the quotient never exceeds the dividend in magnitude. */
  lemma QuotRem(a: int, b: int)
    requires b != 0
    ensures a == b * Quot(a, b) + Rem(a, b)
    ensures Abs(Rem(a, b)) < Abs(b)
    ensures (a >= 0 ==> Rem(a, b) >= 0) && (a <= 0 ==> Rem(a, b) <= 0)
    ensures Abs(Quot(a, b)) <= Abs(a)
  {
    var bigA, bigB := Abs(a), Abs(b);
    var q: int, r: int := bigA / bigB, bigA % bigB;
    DivModNat(bigA, bigB);
    QuotientBound(bigA, bigB);
    SignedRecompose(a, b, q, r);
  }

  lemma DivModNat(x: nat, y: nat)
    requires y > 0
    ensures x == y * (x / y) + x % y && 0 <= x % y < y
  {
  }

  lemma SignedRecompose(a: int, b: int, q: int, r: int)
    requires b != 0 && Abs(a) == Abs(b) * q + r
    requires q == Abs(a) / Abs(b) && r == Abs(a) % Abs(b)
    ensures a == b * Quot(a, b) + Rem(a, b)
  {
    var p := Abs(b) * q;
    NegTimes(Abs(b), q);
    if a < 0 && b < 0 {
      assert b * Quot(a, b) == -p;
    } else if a < 0 {
      assert b * Quot(a, b) == -p;
    } else if b < 0 {
      assert b * Quot(a, b) == p;
    }
  }

  lemma NegTimes(x: int, y: int)
    ensures (-x) * y == -(x * y) && (-x) * (-y) == x * y && x * (-y) == -(x * y)
  {
  }

  lemma MulNonNeg(x: nat, y: nat)
    ensures x * y >= 0
  {
  }

  lemma QuotientBound(x: nat, y: nat)
    requires y > 0
    ensures x / y <= x
    ensures y > 1 ==> x / y <= x / 2
  {
    var q, r := x / y, x % y;
    assert x == y * q + r && r >= 0;
    MulNonNeg(y - 1, q);
    assert y * q == q + (y - 1) * q;
    if y > 1 {
      MulNonNeg(y - 2, q);
      assert y * q == 2 * q + (y - 2) * q;
    }
  }

  /** `a / b` on Java ints: only MIN_INT / -1 leaves the range, and wraps back to MIN_INT. */
  function IntDiv(a: int32, b: int32): (r: int32)
    requires b != 0
  {
    Wrap(Quot(a, b))
  }

  lemma IntDivOverflowsOnlyAtMin(a: int32, b: int32)
    requires b != 0
    ensures IntDiv(a, b) != Quot(a, b) <==> a == MIN_INT && b == -1
  {
    WrapChangesIffOverflow(Quot(a, b));
    QuotOutOfRange(a, b);
  }

  lemma QuotOutOfRange(a: int32, b: int32)
    requires b != 0
    ensures !InRange(Quot(a, b)) <==> a == MIN_INT && b == -1
  {
    var bigA, bigB := Abs(a), Abs(b);
    assert bigA <= 0x8000_0000;
    var q := bigA / bigB;
    if bigB == 1 {
      assert q == bigA;
      if b == 1 {
        assert Quot(a, b) == a;
      } else {
        assert Quot(a, b) == -(a as int);
      }
    } else {
      QuotientBound(bigA, bigB);
      assert q <= 0x4000_0000;
      assert Quot(a, b) == q as int || Quot(a, b) == -(q as int);
    }
  }

  /** `a % b` on Java ints: the remainder is smaller than the divisor, so it
      never leaves the range. */
  function IntRem(a: int32, b: int32): (r: int32)
    requires b != 0
    ensures r == Rem(a, b)
  {
    QuotRem(a, b);
    Rem(a, b)
  }

  /** An int's two's-complement bit pattern, and back. */
  function Bits(a: int32): bv32
  {
    (if a < 0 then a + TWO_32 else a as int) as bv32
  }

  function FromBits(b: bv32): int32
  {
    var u := b as int;
    if u > MAX_INT then u - TWO_32 else u
  }

  /** `&`, `|` and `^` on Java ints. */
  function BitAnd(a: int32, b: int32): int32 { FromBits(Bits(a) & Bits(b)) }
  function BitOr(a: int32, b: int32): int32 { FromBits(Bits(a) | Bits(b)) }
  function BitXor(a: int32, b: int32): int32 { FromBits(Bits(a) ^ Bits(b)) }

  /** `a` to the power `e`, exactly. */
  function Power(a: int, e: nat): int
  {
    if e == 0 then 1 else a * Power(a, e - 1)
  }

  /** The `(int)` cast of a `double`: out-of-range values saturate. */
  function Saturate(x: int): (r: int32)
    ensures InRange(x) ==> r == x
  {
    if x > MAX_INT then MAX_INT else if x < MIN_INT then MIN_INT else x
  }

  /** `(int) Math.pow(a, e)` on two ints. `Math.pow` is exact on integral
      arguments whenever the result fits a double, and every result that does
      not fit one lies beyond the int range, so a natural exponent gives the
      saturated exact power. A negative exponent gives a fraction of magnitude
      below one, truncated to 0, except for the bases 1 and -1, and for the
      base 0, whose power is positive infinity. */
  function IntPow(a: int32, e: int32): int32
  {
    if e >= 0 then Saturate(Power(a, e))
    else if a == 0 then MAX_INT
    else if a == 1 then 1
    else if a == -1 then (if e % 2 == 0 then 1 else -1)
    else 0
  }

  /** Unary minus on a Java int: `-MIN_INT` wraps back to MIN_INT. */
  function Negate(a: int32): (r: int32)
    ensures r == -(a as int) || (a == MIN_INT && r == MIN_INT)
  {
    Wrap(-(a as int))
  }

  predicate IsDigit(c: char) { '0' <= c <= '9' }

  function DigitValue(c: char): nat
    requires IsDigit(c)
  {
    c as int - '0' as int
  }

  function DigitChar(d: nat): (c: char)
    requires d < 10
    ensures IsDigit(c) && DigitValue(c) == d
  {
    ('0' as int + d) as char
  }

  /** The value of a string of decimal digits, most significant first. */
  function DigitsValue(s: string): nat
    requires forall i :: 0 <= i < |s| ==> IsDigit(s[i])
  {
    if s == [] then 0 else DigitsValue(s[..|s| - 1]) * 10 + DigitValue(s[|s| - 1])
  }

  /** The shortest decimal digit string of `n`. */
  function Digits(n: nat): (s: string)
    ensures |s| > 0 && forall i :: 0 <= i < |s| ==> IsDigit(s[i])
  {
    if n < 10 then [DigitChar(n)] else Digits(n / 10) + [DigitChar(n % 10)]
  }

  lemma {:induction false} DigitsRoundTrip(n: nat)
    ensures DigitsValue(Digits(n)) == n
  {
    if n >= 10 {
      var s := Digits(n);
      assert s[..|s| - 1] == Digits(n / 10);
      DigitsRoundTrip(n / 10);
    }
  }

  /** `Integer.toString(n)`. */
  function DecimalString(n: int): string
  {
    if n < 0 then "-" + Digits(-n) else Digits(n)
  }

  /** All of `s` is decimal digits. */
  predicate AllDigits(s: string)
  {
    forall i :: 0 <= i < |s| ==> IsDigit(s[i])
  }

  /** `Integer.parseInt(s)` on unsigned text: `None` is the
      NumberFormatException raised for an empty string, a character that is
      not a digit, or a value above MAX_INT. */
  function ParseInt(s: string): (r: Option<int32>)
    ensures r.Some? <==> s != [] && AllDigits(s) && DigitsValue(s) <= MAX_INT
    ensures r.Some? ==> r.value == DigitsValue(s)
  {
    if s != [] && AllDigits(s) && DigitsValue(s) <= MAX_INT then Some(DigitsValue(s)) else None
  }

  /** Printing a non-negative int and parsing it back gives the same int. */
  lemma ParsePrinted(n: int32)
    requires n >= 0
    ensures ParseInt(DecimalString(n)) == Some(n)
  {
    DigitsRoundTrip(n);
  }
}
