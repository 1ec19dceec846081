/**
 * Python numeric semantics that the BOM quantity rules depend on.
 *
 * Python floats are modelled as exact reals (binary representation effects
 * are not modelled). `round(x)` rounds to the nearest integer with ties going
 * to the even neighbour; `round(x, 2)` rounds to hundredths the same way;
 * `math.ceil(q * 2) / 2` and `math.floor(q * 2) / 2` round to half steps.
 */
module PyNum {

  /**
   * `math.pi`, the double nearest to pi. Only its sign matters to the
   * properties proved about circumference quantities.
   */
  const Pi: real := 3.141592653589793

  predicate IsEven(n: int) { n % 2 == 0 }
  predicate IsOdd(n: int) { n % 2 == 1 }

  /** A quantity that is a whole odd number. */
  predicate IsOddCount(x: real) { x.Floor as real == x && IsOdd(x.Floor) }

  /** A quantity that is a whole even number. */
  predicate IsEvenCount(x: real) { x.Floor as real == x && IsEven(x.Floor) }

  /** Adding one to an even integer and keeping an odd one gives an odd integer. */
  lemma MadeOdd(q: int)
    ensures IsOdd(if q % 2 == 0 then q + 1 else q)
  {
    if q % 2 == 0 {
      assert (q + 1) % 2 == 1;
    }
  }

  /** One more than a whole even number is a whole odd number. */
  lemma EvenThenOdd(x: real)
    requires IsEvenCount(x)
    ensures IsOddCount(x + 1.0) && !IsEvenCount(x + 1.0)
  {
    assert (x + 1.0).Floor == x.Floor + 1;
  }

  /** A value that is a whole multiple of 0.5 (a whole or half flight turn). */
  predicate IsHalfStep(x: real) { (2.0 * x).Floor as real == 2.0 * x }

  /** A value that is a whole number of hundredths. */
  predicate IsHundredths(x: real) { (100.0 * x).Floor as real == 100.0 * x }

  function Abs(x: real): (r: real)
    ensures r >= 0.0 && (r == x || r == -x)
  {
    if x < 0.0 then -x else x
  }

  /** `math.floor`: the greatest integer not above `x`. */
  function Floor(x: real): (r: int)
    ensures r as real <= x < r as real + 1.0
  {
    x.Floor
  }

  /** `math.ceil`: the least integer not below `x`. */
  function Ceil(x: real): (r: int)
    ensures x <= r as real < x + 1.0
  {
    -((-x).Floor)
  }

  /** Python's built-in `round(x)`: the nearest integer, a tie going to the even one. */
  function Round(x: real): (r: int)
    ensures -0.5 <= r as real - x <= 0.5
    ensures (r as real - x == 0.5 || x - r as real == 0.5) ==> IsEven(r)
  {
    var f := x.Floor;
    var d := x - f as real;
    if d < 0.5 then f
    else if d > 0.5 then f + 1
    else if IsEven(f) then f
    else f + 1
  }

  /** The two properties of `Round` determine it: no other integer has them. */
  lemma RoundUnique(x: real, n: int)
    requires -0.5 <= n as real - x <= 0.5
    requires (n as real - x == 0.5 || x - n as real == 0.5) ==> IsEven(n)
    ensures Round(x) == n
  {
    var r := Round(x);
    if n == r + 1 || r == n + 1 {
      assert false;
    }
  }

  /** `round` never reverses the order of two numbers. */
  lemma RoundMonotone(x: real, y: real)
    requires x <= y
    ensures Round(x) <= Round(y)
  {
  }

  /** `round(x, 2)` never reverses the order of two numbers. */
  lemma Round2Monotone(x: real, y: real)
    requires x <= y
    ensures Round2(x) <= Round2(y)
  {
    RoundMonotone(x * 100.0, y * 100.0);
  }

  /** Dividing a whole number by a positive scale and multiplying back is exact. */
  lemma Unscale(n: int, k: real)
    requires k > 0.0
    ensures k * (n as real / k) == n as real
    ensures (k * (n as real / k)).Floor == n
  {
  }

  /** `round(x, 2)`: the nearest number of hundredths, a tie going to the even one. */
  function Round2(x: real): (r: real)
    ensures IsHundredths(r)
    ensures -0.005 <= r - x <= 0.005
  {
    var n := Round(x * 100.0);
    Unscale(n, 100.0);
    n as real / 100.0
  }

  /** `math.ceil(q * 2) / 2`: the least multiple of 0.5 that is at least `q`. */
  function CeilHalf(q: real): (r: real)
    ensures IsHalfStep(r)
    ensures q <= r < q + 0.5
  {
    var c := Ceil(q * 2.0);
    Unscale(c, 2.0);
    c as real / 2.0
  }

  /** `math.floor(q * 2) / 2`: the greatest multiple of 0.5 that is at most `q`. */
  function FloorHalf(q: real): (r: real)
    ensures IsHalfStep(r)
    ensures q - 0.5 < r <= q
  {
    var f := Floor(q * 2.0);
    Unscale(f, 2.0);
    f as real / 2.0
  }

  /** No half step lies between `q` and `CeilHalf(q)`. */
  lemma CeilHalfIsLeast(q: real, m: real)
    requires IsHalfStep(m) && q <= m
    ensures CeilHalf(q) <= m
  {
    var c := Ceil(q * 2.0);
    var b := (2.0 * m).Floor;
    assert c as real - 1.0 < 2.0 * q <= b as real;
    assert c <= b;
  }

  /** No half step lies between `FloorHalf(q)` and `q`. */
  lemma FloorHalfIsGreatest(q: real, m: real)
    requires IsHalfStep(m) && m <= q
    ensures m <= FloorHalf(q)
  {
    var f := Floor(q * 2.0);
    var b := (2.0 * m).Floor;
    assert b as real <= 2.0 * q < f as real + 1.0;
    assert b <= f;
  }

  /** Python float `x % 2` for the divisor 2: never negative, below 2. */
  function FMod2(x: real): (r: real)
    ensures 0.0 <= r < 2.0
    ensures IsHalfStep(x) ==> IsHalfStep(r)
  {
    var k := Floor(x / 2.0);
    assert 2.0 * (x - 2.0 * k as real) == 2.0 * x - 4.0 * k as real;
    assert (2.0 * x - 4.0 * k as real).Floor == (2.0 * x).Floor - 4 * k;
    x - 2.0 * k as real
  }
}
