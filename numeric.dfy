/**
 * Numbers as the scenes use them: real arithmetic instead of IEEE doubles,
 * `Math.random()` as a stream of draws, and the transcendental functions of
 * `Math` as function parameters whose needed identities are stated, not assumed.
 */
module Numeric {

  /** A point or a vector in scene-local units. */
  datatype Vec3 = Vec3(x: real, y: real, z: real)

  function Add(a: Vec3, b: Vec3): Vec3 { Vec3(a.x + b.x, a.y + b.y, a.z + b.z) }

  function ScaleBy(a: Vec3, k: real): Vec3 { Vec3(a.x * k, a.y * k, a.z * k) }

  function NormSq(a: Vec3): real { a.x * a.x + a.y * a.y + a.z * a.z }

  /** `Math.PI` to the precision of a double's shortest decimal form. */
  const PI: real := 3.141592653589793

  function Min(a: real, b: real): (r: real)
    ensures r <= a && r <= b && (r == a || r == b)
  {
    if a <= b then a else b
  }

  function Max(a: real, b: real): (r: real)
    ensures r >= a && r >= b && (r == a || r == b)
  {
    if a >= b then a else b
  }

  function Abs(a: real): (r: real)
    ensures r >= 0.0 && (r == a || r == -a)
  {
    if a < 0.0 then -a else a
  }

  /** `Math.max(lo, Math.min(hi, v))`, the clamp the scenes write out by hand. */
  function Clamp(lo: real, hi: real, v: real): (r: real)
    requires lo <= hi
    ensures lo <= r <= hi
    ensures lo <= v <= hi ==> r == v
    ensures v < lo ==> r == lo
    ensures v > hi ==> r == hi
  {
    Max(lo, Min(hi, v))
  }

  /**
   * A stream of `Math.random()` results: the k-th call made by a computation
   * returns `rnd(k)`. Methods that draw take the index of their first draw and
   * return the index after their last one.
   */
  type RandomStream = nat -> real

  ghost predicate IsUnitStream(rnd: RandomStream) {
    forall k: nat :: 0.0 <= rnd(k) < 1.0
  }

  /**
   * n values drawn one after another: each `step` takes the cursor of its first
   * draw and returns its value with the cursor after its last draw.
   */
  function InSequence<T>(step: nat -> (T, nat), k: nat, n: nat): (r: (seq<T>, nat))
    ensures |r.0| == n
  {
    if n == 0 then ([], k)
    else
      var prev := InSequence(step, k, n - 1);
      var s := step(prev.1);
      (prev.0 + [s.0], s.1)
  }

  /** The i-th value is the step taken at the cursor where the first i values end. */
  lemma {:induction false} InSequenceAt<T>(step: nat -> (T, nat), k: nat, n: nat, i: nat)
    requires i < n
    ensures InSequence(step, k, n).0[i] == step(InSequence(step, k, i).1).0
  {
    var prev := InSequence(step, k, n - 1);
    assert InSequence(step, k, n).0 == prev.0 + [step(prev.1).0];
    if i < n - 1 {
      InSequenceAt(step, k, n - 1, i);
      assert InSequence(step, k, n).0[i] == prev.0[i];
    }
  }

  /**
   * The items of xs transformed in order, each step drawing from the cursor
   * where the previous one stopped; returns the results and the final cursor.
   */
  function Threaded<S, T>(step: (S, nat) -> (T, nat), xs: seq<S>, k: nat): (r: (seq<T>, nat))
    ensures |r.0| == |xs|
  {
    if xs == [] then ([], k)
    else
      var init := Threaded(step, xs[..|xs| - 1], k);
      var s := step(xs[|xs| - 1], init.1);
      (init.0 + [s.0], s.1)
  }

  /** Threading one more item through the step. */
  lemma ThreadedSnoc<S, T>(step: (S, nat) -> (T, nat), xs: seq<S>, i: nat, k: nat)
    requires i < |xs|
    ensures var prev := Threaded(step, xs[..i], k);
      var s := step(xs[i], prev.1);
      Threaded(step, xs[..i + 1], k) == (prev.0 + [s.0], s.1)
  {
    assert xs[..i + 1][..i] == xs[..i];
  }

  /** `Math.floor(r * n)`, the index the scenes pick with a random draw. */
  function RandomIndex(r: real, n: nat): (i: int)
    ensures 0.0 <= r < 1.0 && n > 0 ==> 0 <= i < n
  {
    var x := r * n as real;
    assert 0.0 <= r < 1.0 && n > 0 ==> 0.0 <= x < n as real by {
      if 0.0 <= r < 1.0 && n > 0 {
        assert r * n as real < 1.0 * n as real;
      }
    }
    x.Floor
  }

  /**
   * The functions of JavaScript's `Math` object that the scenes call. They are
   * parameters: a proof that needs one of their properties says so with one of
   * the predicates below.
   */
  datatype MathLib = MathLib(
    sin: real -> real,
    cos: real -> real,
    sqrt: real -> real,
    exp: real -> real,
    atan: real -> real,
    atan2: (real, real) -> real,
    acos: real -> real,
    cosh: real -> real,
    pow: (real, real) -> real)

  /** sin² + cos² = 1 at every angle. */
  ghost predicate UnitCircle(m: MathLib) {
    forall a: real {:trigger m.sin(a)} :: m.sin(a) * m.sin(a) + m.cos(a) * m.cos(a) == 1.0
  }

  /** sin 0 = 0 and cos 0 = 1. */
  predicate ZeroAngle(m: MathLib) {
    m.sin(0.0) == 0.0 && m.cos(0.0) == 1.0
  }

  /** `Math.pow` of a positive base is positive. */
  ghost predicate PowPositive(m: MathLib) {
    forall b: real, e: real {:trigger m.pow(b, e)} :: b > 0.0 ==> m.pow(b, e) > 0.0
  }

  lemma MulMonotone(a: real, b: real, c: real)
    requires a <= b && c >= 0.0
    ensures a * c <= b * c
  {
    assert b * c - a * c == (b - a) * c;
  }

  lemma MulStrict(a: real, b: real, c: real)
    requires a < b && c > 0.0
    ensures a * c < b * c
  {
    assert b * c - a * c == (b - a) * c;
  }

  /** `(x, y, z) = (r·sin θ·cos φ, r·sin θ·sin φ, r·cos θ)`. */
  function Spherical(m: MathLib, r: real, theta: real, phi: real): Vec3 {
    Vec3(r * m.sin(theta) * m.cos(phi), r * m.sin(theta) * m.sin(phi), r * m.cos(theta))
  }

  /** With sin² + cos² = 1 the sampled point lies on the sphere of radius r. */
  lemma SphericalRadius(m: MathLib, r: real, theta: real, phi: real)
    requires UnitCircle(m)
    ensures NormSq(Spherical(m, r, theta, phi)) == r * r
  {
    var s, c := m.sin(theta), m.cos(theta);
    var sp, cp := m.sin(phi), m.cos(phi);
    assert s * s + c * c == 1.0;
    assert sp * sp + cp * cp == 1.0;
    var rs := r * s;
    var v := Spherical(m, r, theta, phi);
    assert v.x * v.x + v.y * v.y == rs * rs * (cp * cp + sp * sp);
    assert rs * rs == r * r * (s * s);
    assert v.z * v.z == r * r * (c * c);
    assert NormSq(v) == r * r * (s * s + c * c);
  }

  /** `(Math.random() − 0.5) · width`. */
  function Centred(u: real, width: real): real {
    (u - 0.5) * width
  }

  /** A draw in [0, 1) centres to [−width/2, width/2). */
  lemma CentredBounds(u: real, width: real)
    requires 0.0 <= u < 1.0 && width > 0.0
    ensures -width / 2.0 <= Centred(u, width) < width / 2.0
  {
    MulMonotone(-0.5, u - 0.5, width);
    MulStrict(u - 0.5, 0.5, width);
  }

  /** `Math.cos(a) · r` and `Math.sin(a) · r`. */
  function Polar(m: MathLib, a: real, r: real): (real, real) {
    (m.cos(a) * r, m.sin(a) * r)
  }

  /** A point placed at angle a and distance r is at distance r. */
  lemma PolarRadius(m: MathLib, a: real, r: real)
    requires UnitCircle(m)
    ensures var xz := Polar(m, a, r); xz.0 * xz.0 + xz.1 * xz.1 == r * r
  {
    var c, s := m.cos(a), m.sin(a);
    assert s * s + c * c == 1.0;
    assert (c * r) * (c * r) + (s * r) * (s * r) == (c * c + s * s) * (r * r);
  }

  /** A square is never negative. */
  lemma SquareNonNegative(a: real)
    ensures a * a >= 0.0
  {
    if a < 0.0 {
      MulStrict(a, 0.0, -a);
    } else {
      MulMonotone(0.0, a, a);
    }
  }

  /** With sin² + cos² = 1, both lie in [−1, 1]. */
  lemma TrigBounded(m: MathLib, a: real)
    requires UnitCircle(m)
    ensures -1.0 <= m.sin(a) <= 1.0 && -1.0 <= m.cos(a) <= 1.0
  {
    var s, c := m.sin(a), m.cos(a);
    assert s * s + c * c == 1.0;
    SquareNonNegative(s);
    SquareNonNegative(c);
    UnitSquare(s, 1.0 - c * c);
    UnitSquare(c, 1.0 - s * s);
  }

  /** A number whose square is at most 1 lies in [−1, 1]. */
  lemma UnitSquare(a: real, sq: real)
    requires a * a == sq && sq <= 1.0
    ensures -1.0 <= a <= 1.0
  {
    if a > 1.0 {
      MulStrict(1.0, a, a);
      MulStrict(1.0, a, 1.0);
    } else if a < -1.0 {
      MulStrict(1.0, -a, -a);
      MulStrict(1.0, -a, 1.0);
    }
  }

  /** Extending a prefix by one element. */
  lemma PrefixSnoc<T>(s: seq<T>, i: nat)
    requires i < |s|
    ensures s[..i + 1] == s[..i] + [s[i]]
  {
  }
}
