/**
 * The corex helpers that the optimizer and the scenes rely on: the 2D point
 * type with its componentwise operations, the uniform sampler, `clamp` and
 * the non-negative `mod`. Their headers (ds/Point.hpp, math_functions.hpp)
 * are not part of this model, so each is given its obvious definition here.
 */
module CorexMath {

  /** A 2D point; `float` coordinates are modelled as reals. */
  datatype Point = Point(x: real, y: real)

  function Add(p: Point, q: Point): Point { Point(p.x + q.x, p.y + q.y) }

  function Sub(p: Point, q: Point): Point { Point(p.x - q.x, p.y - q.y) }

  /** Division of both coordinates by a non-zero scalar (`operator/`). */
  function DivScalar(p: Point, d: real): Point
    requires d != 0.0
  {
    Point(p.x / d, p.y / d)
  }

  function RealAbs(r: real): (v: real)
    ensures v >= 0.0 && (v == r || v == -r)
  {
    if r < 0.0 then -r else r
  }

  /** `vec2Abs`: componentwise absolute value. */
  function Vec2Abs(p: Point): Point { Point(RealAbs(p.x), RealAbs(p.y)) }

  /** `pairwiseMult`: componentwise (Hadamard) product. */
  function PairwiseMult(p: Point, q: Point): Point { Point(p.x * q.x, p.y * q.y) }

  /**
   * Squared Euclidean distance. The square root is monotone, so comparing
   * squared distances orders points exactly as comparing `fabs(distance2D)`.
   */
  function Distance2DSquared(p: Point, q: Point): real
  {
    (p.x - q.x) * (p.x - q.x) + (p.y - q.y) * (p.y - q.y)
  }

  /** One draw of the injected random source is a real in [0, 1]. */
  ghost predicate IsUnitDraw(u: real) { 0.0 <= u <= 1.0 }

  /**
   * `getRandomRealUniformly(lo, hi)` fed with the unit draw `u`: the draw is
   * mapped affinely onto [lo, hi].
   */
  function Uniform(lo: real, hi: real, u: real): real
  {
    lo + (hi - lo) * u
  }

  lemma UniformInRange(lo: real, hi: real, u: real)
    requires lo <= hi
    requires IsUnitDraw(u)
    ensures lo <= Uniform(lo, hi, u) <= hi
  {
    assert 0.0 <= (hi - lo) * u by { NonNegProduct(hi - lo, u); }
    assert (hi - lo) * u <= hi - lo by { NonNegProduct(hi - lo, 1.0 - u); }
  }

  lemma NonNegProduct(p: real, q: real)
    requires p >= 0.0 && q >= 0.0
    ensures p * q >= 0.0
  {
  }

  /**
   * `cx::clamp(v, lo, hi)`, taken to be `std::clamp`:
   * `v < lo ? lo : (hi < v ? hi : v)`.
   */
  function Clamp(v: int, lo: int, hi: int): int
  {
    if v < lo then lo else if hi < v then hi else v
  }

  /** With a non-empty interval, clamping lands inside it and fixes every value already inside. */
  lemma ClampRange(v: int, lo: int, hi: int)
    requires lo <= hi
    ensures lo <= Clamp(v, lo, hi) <= hi
    ensures lo <= v <= hi <==> Clamp(v, lo, hi) == v
  {
  }

  /** `cx::mod(a, n)`, taken to be the non-negative remainder for a positive modulus. */
  function Mod(a: int, n: int): (r: int)
    requires n > 0
    ensures 0 <= r < n
    ensures 0 <= a < n ==> r == a
  {
    a % n
  }

  /** The two wrap-around points of `Mod`: n wraps to 0 and -1 wraps to n - 1. */
  lemma ModWraps(n: int)
    requires n > 0
    ensures Mod(n, n) == 0
    ensures Mod(-1, n) == n - 1
  {
    var q := n / n;
    assert n == n * q + n % n;
    assert q == 1;
    var p := -1 / n;
    assert -1 == n * p + (-1) % n;
    assert p == -1;
  }

  /** Stepping back and then forward from an index in [0, n) returns to it. */
  lemma BackThenForward(c: int, n: int)
    requires 0 <= c < n
    ensures Mod(Mod(c - 1, n) + 1, n) == c
  {
    if c == 0 {
      ModWraps(n);
    } else {
      assert Mod(c - 1, n) == c - 1;
      assert Mod(c, n) == c;
    }
  }

  /** Stepping forward and then back from an index in [0, n) returns to it. */
  lemma ForwardThenBack(c: int, n: int)
    requires 0 <= c < n
    ensures Mod(Mod(c + 1, n) - 1, n) == c
  {
    if c == n - 1 {
      ModWraps(n);
    } else {
      assert Mod(c + 1, n) == c + 1;
      assert Mod(c, n) == c;
    }
  }
}
