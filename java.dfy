/**
 * The parts of the Java runtime the game relies on, written out: 32-bit int
 * wrap-around, truncating casts and divisions, the floating-point remainder,
 * Integer.parseInt / Integer.toString on decimal text, and the exceptions the
 * model turns into values.
 */
module JavaLang {

  datatype Option<T> = None | Some(value: T)

  /** The runtime exceptions the modelled code can raise and does not catch. */
  datatype Exception =
    | NullPointer
    | IndexOutOfBounds
    | NumberFormat
    | Arithmetic
    | NegativeArraySize
    | IllegalArgument

  /** A value, or the exception that replaced it. */
  datatype Result<T> = Ok(value: T) | Throw(ex: Exception)

  /** The outcome of a statement that returns nothing. */
  datatype Status = Done | Raised(ex: Exception)

  /**
   * A statement that changes state and may throw: on success the new state
   * is the computed one, on an exception nothing changed.
   */
  predicate Applied<T(==)>(before: T, r: Result<T>, s: Status, after: T) {
    match r
    case Ok(v) => s == Done && after == v
    case Throw(e) => s == Raised(e) && after == before
  }

  const INT_MIN: int := -0x8000_0000
  const INT_MAX: int := 0x7fff_ffff
  const TWO_32: int := 0x1_0000_0000

  predicate IsInt32(x: int) { INT_MIN <= x <= INT_MAX }

  /** Java `int` arithmetic: the unbounded result reduced into the 32-bit range. */
  function Wrap32(x: int): (r: int)
    ensures IsInt32(r)
    ensures (x - r) % TWO_32 == 0
    ensures IsInt32(x) ==> r == x
  {
    var m := (x - INT_MIN) % TWO_32;
    m + INT_MIN
  }

  /** The cast `(int) d` of a double: rounds toward zero. */
  function Trunc(d: real): (n: int)
    ensures d >= 0.0 ==> n as real <= d < n as real + 1.0
    ensures d < 0.0 ==> n as real - 1.0 < d <= n as real
  {
    if d >= 0.0 then d.Floor else -((-d).Floor)
  }

  /** Java's `a / b` on ints: the quotient rounded toward zero. */
  function IDiv(a: int, b: int): (q: int)
    requires b != 0
  {
    if a >= 0 && b > 0 then a / b
    else if a >= 0 then -(a / -b)
    else if b > 0 then -((-a) / b)
    else (-a) / (-b)
  }

  /** Java's `a % b` on ints: the remainder carries the sign of the dividend. */
  function IRem(a: int, b: int): (r: int)
    requires b != 0
    ensures Abs(r) < Abs(b)
    ensures a >= 0 ==> r >= 0
    ensures a <= 0 ==> r <= 0
  {
    if a >= 0 && b > 0 then a % b
    else if a >= 0 then a % -b
    else if b > 0 then -((-a) % b)
    else -((-a) % (-b))
  }

  function Abs(x: int): nat { if x < 0 then -x else x }

  /** Java's quotient and remainder put the dividend back together. */
  lemma DivRem(a: int, b: int)
    requires b != 0
    ensures IDiv(a, b) * b + IRem(a, b) == a
  {
    if a >= 0 && b > 0 {
    } else if a >= 0 {
      DivRemNegDivisor(a, -b);
    } else if b > 0 {
      DivRemNegDividend(-a, b);
    } else {
      DivRemBothNeg(-a, -b);
    }
  }

  lemma DivRemNegDivisor(a: int, nb: int)
    requires a >= 0 && nb > 0
    ensures IDiv(a, -nb) * -nb + IRem(a, -nb) == a
  {
    var q: int, r: int := a / nb, a % nb;
    assert IDiv(a, -nb) == -q && IRem(a, -nb) == r;
    assert (-q) * (-nb) == q * nb;
  }

  lemma DivRemNegDividend(na: int, b: int)
    requires b > 0 && na > 0
    ensures IDiv(-na, b) * b + IRem(-na, b) == -na
  {
    var q: int, r: int := na / b, na % b;
    assert IDiv(-na, b) == -q && IRem(-na, b) == -r;
    assert (-q) * b == -(q * b);
  }

  lemma DivRemBothNeg(na: int, nb: int)
    requires nb > 0 && na > 0
    ensures IDiv(-na, -nb) * -nb + IRem(-na, -nb) == -na
  {
    var q: int, r: int := na / nb, na % nb;
    assert IDiv(-na, -nb) == q && IRem(-na, -nb) == -r;
    assert q * (-nb) == -(q * nb);
  }

  /** Division of non-negative numbers is determined by quotient and remainder. */
  lemma DivModUnique(k: int, d: int, q: int, r: int)
    requires d >= 1 && 0 <= r < d && k == q * d + r
    ensures k / d == q && k % d == r
  {
    var q', r' := k / d, k % d;
    assert k == q' * d + r' && 0 <= r' < d;
    assert (q - q') * d == r' - r;
    if q > q' {
      MulAtLeast(q - q', d);
    } else if q < q' {
      MulAtLeast(q' - q, d);
    }
  }

  lemma MulAtLeast(k: int, c: int)
    requires k >= 1 && c > 0
    ensures k * c >= c
  {
    var j := k - 1;
    assert k * c == j * c + c;
    assert j * c >= 0;
  }

  /** Java's `x % m` on doubles (IEEE remainder rounded toward zero) for a positive modulus. */
  function FMod(x: real, m: real): (r: real)
    requires m > 0.0
    ensures x >= 0.0 ==> 0.0 <= r < m
    ensures x < 0.0 ==> -m < r <= 0.0
    ensures 0.0 <= x < m ==> r == x
  {
    var q := Trunc(x / m);
    FModBounds(x, m, q);
    x - m * (q as real)
  }

  lemma FModBounds(x: real, m: real, q: int)
    requires m > 0.0 && q == Trunc(x / m)
    ensures x >= 0.0 ==> 0.0 <= x - m * (q as real) < m
    ensures x < 0.0 ==> -m < x - m * (q as real) <= 0.0
    ensures 0.0 <= x < m ==> q == 0
  {
    if x >= 0.0 {
      FModNonNegative(x, m, q);
    } else {
      FModNegative(x, m, q);
    }
  }

  lemma FModNonNegative(x: real, m: real, q: int)
    requires m > 0.0 && q == Trunc(x / m) && x >= 0.0
    ensures 0.0 <= x - m * (q as real) < m
    ensures x < m ==> q == 0
  {
    var d := x / m;
    var k := q as real;
    assert x == m * d;
    if d < 0.0 {
      MulMonoStrict(m, d, 0.0);
    }
    assert k <= d < k + 1.0;
    MulMono(m, k, d);
    MulMonoStrict(m, d, k + 1.0);
    assert m * (k + 1.0) == m * k + m;
    assert x < m * k + m;
    if x < m && d >= 1.0 {
      MulMono(m, 1.0, d);
    }
  }

  lemma FModNegative(x: real, m: real, q: int)
    requires m > 0.0 && q == Trunc(x / m) && x < 0.0
    ensures -m < x - m * (q as real) <= 0.0
  {
    var d := x / m;
    var k := q as real;
    assert x == m * d;
    if d >= 0.0 {
      MulMono(m, 0.0, d);
    }
    assert k - 1.0 < d <= k;
    MulMonoStrict(m, k - 1.0, d);
    MulMono(m, d, k);
    assert m * (k - 1.0) == m * k - m;
    assert m * k - m < x;
  }

  lemma MulMono(m: real, a: real, b: real)
    requires m > 0.0 && a <= b
    ensures m * a <= m * b
  {
    assert m * b - m * a == m * (b - a);
  }

  lemma MulMonoStrict(m: real, a: real, b: real)
    requires m > 0.0 && a < b
    ensures m * a < m * b
  {
    assert m * b - m * a == m * (b - a);
  }

  // ---------------------------------------------------------------------
  // Decimal text

  predicate IsDigit(c: char) { '0' <= c <= '9' }

  function DigitValue(c: char): nat
    requires IsDigit(c)
  {
    c as int - '0' as int
  }

  function DigitChar(d: nat): (c: char)
    requires d < 10
    ensures IsDigit(c) && DigitValue(c) == d
  {
    ('0' as int + d) as char
  }

  predicate AllDigits(s: string) { forall i :: 0 <= i < |s| ==> IsDigit(s[i]) }

  /** The number a run of decimal digits denotes (most significant digit first). */
  function DigitsValue(s: string): nat
    requires AllDigits(s)
  {
    if |s| == 0 then 0 else DigitsValue(s[..|s| - 1]) * 10 + DigitValue(s[|s| - 1])
  }

  /** The shortest decimal digits of `n`. */
  function NatDigits(n: nat): (s: string)
    ensures |s| > 0 && AllDigits(s)
    ensures DigitsValue(s) == n
  {
    if n < 10 then [DigitChar(n)]
    else
      var s := NatDigits(n / 10) + [DigitChar(n % 10)];
      assert s[..|s| - 1] == NatDigits(n / 10);
      s
  }

  /** `Integer.toString(n)` (also what `"" + n` produces). */
  function IntToString(n: int): (s: string)
    ensures |s| > 0
    ensures n < 0 <==> s[0] == '-'
  {
    if n < 0 then "-" + NatDigits(-n) else NatDigits(n)
  }

  /**
   * `Integer.parseInt(s)`: an optional sign and at least one decimal digit
   * whose value fits in an int; anything else is a NumberFormatException.
   * Only ASCII digits are modelled.
   */
  function ParseInt(s: string): (r: Option<int>)
    ensures r.Some? ==> IsInt32(r.value)
    ensures |s| == 0 ==> r == None
  {
    if |s| == 0 then None
    else if s[0] == '-' || s[0] == '+' then
      var body := s[1..];
      if |body| == 0 || !AllDigits(body) then None
      else
        var magnitude: int := DigitsValue(body);
        var v := if s[0] == '-' then -magnitude else magnitude;
        if IsInt32(v) then Some(v) else None
    else if !AllDigits(s) then None
    else if DigitsValue(s) <= INT_MAX then Some(DigitsValue(s))
    else None
  }

  /** Printing an int and parsing the text back gives the int again. */
  lemma ParseIntToString(n: int)
    requires IsInt32(n)
    ensures ParseInt(IntToString(n)) == Some(n)
  {
    var s := IntToString(n);
    if n < 0 {
      assert s[1..] == NatDigits(-n);
    } else {
      assert s == NatDigits(n);
      assert IsDigit(s[0]);
    }
  }

  /** Character.toLowerCase on the ASCII upper-case letters. */
  function ToLower(c: char): (l: char)
    ensures 'A' <= c <= 'Z' ==> 'a' <= l <= 'z' && l as int == c as int + 32
    ensures !('A' <= c <= 'Z') ==> l == c
  {
    if 'A' <= c <= 'Z' then (c as int + 32) as char else c
  }
}
