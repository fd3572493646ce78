/**
 * The JavaScript number arithmetic the statistics code performs, kept exact.
 * Every quotient the modelled code forms has integer operands (counts,
 * seconds, minutes, cents), so a finite result is held as a fraction;
 * division by zero gives the IEEE values JavaScript produces.
 */
module JsNumbers {

  type Positive = n: int | n > 0 witness 1

  /** `Math.round(n / d)`: the nearest integer, halves rounded up. */
  function RoundDiv(n: int, d: Positive): (r: int)
    ensures 2 * d * r - d <= 2 * n < 2 * d * r + d
  {
    var q := (2 * n + d) / (2 * d);
    assert 2 * n + d == 2 * d * q + (2 * n + d) % (2 * d);
    q
  }

  /** The bounds above single out one integer: RoundDiv is the rounding of n / d. */
  lemma RoundDivUnique(n: int, d: Positive, r: int)
    requires 2 * d * r - d <= 2 * n < 2 * d * r + d
    ensures r == RoundDiv(n, d)
  {
    var q := RoundDiv(n, d);
    var k := r - q;
    // the two bounds put 2 * d * r and 2 * d * q less than 2 * d apart
    assert 2 * d * r - 2 * d * q == 2 * d * k;
    assert -2 * d < 2 * d * k < 2 * d;
    if k >= 1 {
      MulAtLeast(2 * d, k);
    }
  }

  /** A rounded quotient of a value between d * lo and d * hi lies between lo and hi. */
  lemma RoundDivBetween(n: int, d: Positive, lo: int, hi: int)
    requires d * lo <= n <= d * hi
    ensures lo <= RoundDiv(n, d) <= hi
  {
    var r := RoundDiv(n, d);
    if r > hi {
      MulAtLeast(2 * d, r - hi);
    }
    if r < lo {
      MulAtLeast(2 * d, lo - r);
    }
  }

  lemma MulAtLeast(a: Positive, k: int)
    requires k >= 1
    ensures a * k >= a
  {
    assert a * k == a + a * (k - 1);
  }

  /** A JavaScript number that arose from integers: a fraction, an infinity or NaN. */
  datatype JsNumber = Fraction(num: int, den: Positive) | PositiveInfinity | NegativeInfinity | NaN

  /** `n / d`. */
  function Divide(n: int, d: int): (x: JsNumber)
    ensures d != 0 ==> x.Fraction? && x.num * d == n * x.den
    ensures d == 0 && n > 0 ==> x == PositiveInfinity
    ensures d == 0 && n < 0 ==> x == NegativeInfinity
    ensures d == 0 && n == 0 ==> x == NaN
  {
    if d > 0 then Fraction(n, d)
    else if d < 0 then Fraction(-n, -d)
    else if n > 0 then PositiveInfinity
    else if n < 0 then NegativeInfinity
    else NaN
  }

  /** `Math.round(x)`: infinities and NaN come back unchanged. */
  function Round(x: JsNumber): (r: JsNumber)
    ensures x.Fraction? ==> r.Fraction? && r.den == 1
    ensures x.Fraction? ==> 2 * x.den * r.num - x.den <= 2 * x.num < 2 * x.den * r.num + x.den
    ensures !x.Fraction? ==> r == x
  {
    match x
    case Fraction(n, d) => Fraction(RoundDiv(n, d), 1)
    case _ => x
  }

  /** `x > c`; every comparison with NaN is false. */
  predicate GreaterThan(x: JsNumber, c: int) {
    match x
    case Fraction(n, d) => n > c * d
    case PositiveInfinity => true
    case NegativeInfinity => false
    case NaN => false
  }

  /** `Math.min(x, c)`; NaN wins over any number. */
  function Min(x: JsNumber, c: int): (r: JsNumber)
    ensures x.NaN? <==> r.NaN?
    ensures x.Fraction? && !GreaterThan(x, c) ==> r == x
    ensures GreaterThan(x, c) ==> r == Fraction(c, 1)
  {
    match x
    case Fraction(n, d) => if n <= c * d then x else Fraction(c, 1)
    case PositiveInfinity => Fraction(c, 1)
    case NegativeInfinity => x
    case NaN => NaN
  }
}
