/**
 * The star-formation scene: a molecular cloud whose dust falls towards its
 * centre, a protostellar disc whose dust orbits, falls in and is fed back at
 * the rim, and a stellar atmosphere that is only drawn.
 */
module StarFormation {
  import opened Numeric
  import Projector
  import Camera

  datatype Stage = Cloud | Accretion | Atmosphere

  /** A cloud grain's colour is an `hsla` hue; disc grains are orange (`#fb923c`). */
  datatype DustColour = Hue(h: real) | Orange

  datatype Dust = Dust(pos: Vec3, vel: Vec3, size: real, colour: DustColour)

  const CloudCount: nat := 2000
  const DiscCount: nat := 1500
  const MinZoom: real := 0.5
  const MaxZoom: real := 3.0

  // ---------------------------------------------------------------- initial particles

  /** A cloud grain from eight draws: distance in [200, 500), azimuth, polar angle `acos(2u − 1)`, velocity, size, hue. */
  function CloudGrainAt(m: MathLib, rnd: RandomStream, k: nat): Dust {
    var r := 200.0 + rnd(k) * 300.0;
    var theta := rnd(k + 1) * PI * 2.0;
    var phi := m.acos(2.0 * rnd(k + 2) - 1.0);
    Dust(Spherical(m, r, phi, theta),
         Vec3(Centred(rnd(k + 3), 0.5), Centred(rnd(k + 4), 0.5), Centred(rnd(k + 5), 0.5)),
         rnd(k + 6) * 3.0 + 1.0, Hue(240.0 + rnd(k + 7) * 60.0))
  }

  /** A disc grain from four draws: angle, distance in [50, 300), height, size; it starts on a circular orbit at speed 2. */
  function DiscGrainAt(m: MathLib, rnd: RandomStream, k: nat): Dust {
    var angle := rnd(k) * PI * 2.0;
    var r := 50.0 + rnd(k + 1) * 250.0;
    var xz := Polar(m, angle, r);
    Dust(Vec3(xz.0, Centred(rnd(k + 2), 20.0), xz.1),
         Vec3(-m.sin(angle) * 2.0, 0.0, m.cos(angle) * 2.0),
         rnd(k + 3) * 2.0 + 1.0, Orange)
  }

  function CloudGrains(m: MathLib, rnd: RandomStream, k: nat): (ps: seq<Dust>)
    ensures |ps| == CloudCount
  {
    seq(CloudCount, i requires 0 <= i => CloudGrainAt(m, rnd, k + 8 * i))
  }

  /** The i-th cloud grain takes the eight draws from k + 8i. */
  lemma CloudGrainIs(m: MathLib, rnd: RandomStream, k: nat, i: nat)
    requires i < CloudCount
    ensures CloudGrains(m, rnd, k)[i] == CloudGrainAt(m, rnd, k + 8 * i)
  {
  }

  function DiscGrains(m: MathLib, rnd: RandomStream, k: nat): (ps: seq<Dust>)
    ensures |ps| == DiscCount
  {
    seq(DiscCount, i requires 0 <= i => DiscGrainAt(m, rnd, k + 4 * i))
  }

  /** The i-th disc grain takes the four draws from k + 4i. */
  lemma DiscGrainIs(m: MathLib, rnd: RandomStream, k: nat, i: nat)
    requires i < DiscCount
    ensures DiscGrains(m, rnd, k)[i] == DiscGrainAt(m, rnd, k + 4 * i)
  {
  }

  /** `initStage`: the grains a stage starts with, and the next draw. */
  function Initial(s: Stage, m: MathLib, rnd: RandomStream, k: nat): (r: (seq<Dust>, nat))
    ensures |r.0| == (match s case Cloud => CloudCount case Accretion => DiscCount case Atmosphere => 0)
  {
    match s
    case Cloud => (CloudGrains(m, rnd, k), k + 8 * CloudCount)
    case Accretion => (DiscGrains(m, rnd, k), k + 4 * DiscCount)
    case Atmosphere => ([], k)
  }

  /** The distance drawn for the i-th cloud grain. */
  function CloudRadius(rnd: RandomStream, k: nat, i: nat): real {
    200.0 + rnd(k + 8 * i) * 300.0
  }

  /**
   * Every cloud grain lies on the sphere of its drawn radius r ∈ [200, 500),
   * drifts at under 0.25 along each axis, has size in [1, 4) and a hue in [240, 300).
   */
  lemma CloudGrainsInShell(m: MathLib, rnd: RandomStream, k: nat)
    requires IsUnitStream(rnd) && UnitCircle(m)
    ensures forall i :: 0 <= i < CloudCount ==> InShell(CloudGrains(m, rnd, k)[i], CloudRadius(rnd, k, i))
  {
    forall i | 0 <= i < CloudCount
      ensures InShell(CloudGrains(m, rnd, k)[i], CloudRadius(rnd, k, i))
    {
      CloudGrainIs(m, rnd, k, i);
      CloudGrainFacts(m, rnd, k + 8 * i);
    }
  }

  /**
   * A cloud grain at distance r ∈ [200, 500) from the centre, moving at under
   * 0.25 along each axis, of size in [1, 4) and hue in [240, 300).
   */
  predicate InShell(p: Dust, r: real) {
    200.0 <= r < 500.0 && NormSq(p.pos) == r * r &&
    -0.25 <= p.vel.x < 0.25 && -0.25 <= p.vel.y < 0.25 && -0.25 <= p.vel.z < 0.25 &&
    1.0 <= p.size < 4.0 && p.colour.Hue? && 240.0 <= p.colour.h < 300.0
  }

  /** One cloud grain from unit draws is in the shell at its drawn distance. */
  lemma CloudGrainFacts(m: MathLib, rnd: RandomStream, j: nat)
    requires IsUnitStream(rnd) && UnitCircle(m)
    ensures InShell(CloudGrainAt(m, rnd, j), 200.0 + rnd(j) * 300.0)
  {
    SphericalRadius(m, 200.0 + rnd(j) * 300.0, m.acos(2.0 * rnd(j + 2) - 1.0), rnd(j + 1) * PI * 2.0);
    CentredBounds(rnd(j + 3), 0.5);
    CentredBounds(rnd(j + 4), 0.5);
    CentredBounds(rnd(j + 5), 0.5);
    assert 0.0 <= rnd(j) < 1.0 && 0.0 <= rnd(j + 6) < 1.0 && 0.0 <= rnd(j + 7) < 1.0;
  }

  /** The distance drawn for the i-th disc grain. */
  function DiscRadius(rnd: RandomStream, k: nat, i: nat): real {
    50.0 + rnd(k + 4 * i + 1) * 250.0
  }

  /**
   * Every disc grain lies at its drawn planar distance r ∈ [50, 300) from the
   * axis, at a height in [−10, 10), has size in [1, 3), and moves in the disc
   * plane at right angles to its radius, with speed 2.
   */
  lemma DiscGrainsInAnnulus(m: MathLib, rnd: RandomStream, k: nat)
    requires IsUnitStream(rnd) && UnitCircle(m)
    ensures forall i :: 0 <= i < DiscCount ==> var p, r := DiscGrains(m, rnd, k)[i], DiscRadius(rnd, k, i);
      50.0 <= r < 300.0 && p.pos.x * p.pos.x + p.pos.z * p.pos.z == r * r && -10.0 <= p.pos.y < 10.0 &&
      p.vel.y == 0.0 && p.vel.x * p.pos.x + p.vel.z * p.pos.z == 0.0 && NormSq(p.vel) == 4.0 &&
      1.0 <= p.size < 3.0 && p.colour == Orange
  {
    forall i | 0 <= i < DiscCount
      ensures var p, r := DiscGrains(m, rnd, k)[i], DiscRadius(rnd, k, i);
        50.0 <= r < 300.0 && p.pos.x * p.pos.x + p.pos.z * p.pos.z == r * r && -10.0 <= p.pos.y < 10.0 &&
        p.vel.y == 0.0 && p.vel.x * p.pos.x + p.vel.z * p.pos.z == 0.0 && NormSq(p.vel) == 4.0 &&
        1.0 <= p.size < 3.0 && p.colour == Orange
    {
      DiscGrainIs(m, rnd, k, i);
      DiscGrainFacts(m, rnd, k + 4 * i);
    }
  }

  /** One disc grain from unit draws, as `DiscGrainsInAnnulus` states for each. */
  lemma DiscGrainFacts(m: MathLib, rnd: RandomStream, j: nat)
    requires IsUnitStream(rnd) && UnitCircle(m)
    ensures var p, r := DiscGrainAt(m, rnd, j), 50.0 + rnd(j + 1) * 250.0;
      50.0 <= r < 300.0 && p.pos.x * p.pos.x + p.pos.z * p.pos.z == r * r && -10.0 <= p.pos.y < 10.0 &&
      p.vel.y == 0.0 && p.vel.x * p.pos.x + p.vel.z * p.pos.z == 0.0 && NormSq(p.vel) == 4.0 &&
      1.0 <= p.size < 3.0 && p.colour == Orange
  {
    var a, r := rnd(j) * PI * 2.0, 50.0 + rnd(j + 1) * 250.0;
    PolarRadius(m, a, r);
    TangentialVelocity(m, a, r);
    CentredBounds(rnd(j + 2), 20.0);
    assert 0.0 <= rnd(j + 1) < 1.0 && 0.0 <= rnd(j + 3) < 1.0;
  }

  /** The starting velocity `(−sin a · 2, 0, cos a · 2)` is perpendicular to the radius `(cos a · r, sin a · r)` and has speed 2. */
  lemma TangentialVelocity(m: MathLib, a: real, r: real)
    requires UnitCircle(m)
    ensures var s, c := m.sin(a), m.cos(a);
      (-s * 2.0) * (c * r) + (c * 2.0) * (s * r) == 0.0 &&
      (-s * 2.0) * (-s * 2.0) + 0.0 * 0.0 + (c * 2.0) * (c * 2.0) == 4.0
  {
    var s, c := m.sin(a), m.cos(a);
    assert s * s + c * c == 1.0;
    assert (-s * 2.0) * (-s * 2.0) + (c * 2.0) * (c * 2.0) == 4.0 * (s * s + c * c);
    assert (-s * 2.0) * (c * r) + (c * 2.0) * (s * r) == 2.0 * r * (c * s - s * c);
  }

  // ---------------------------------------------------------------- the cloud step

  /** `Math.sqrt(x² + y² + z²)`. */
  function Distance(m: MathLib, v: Vec3): real {
    m.sqrt(NormSq(v))
  }

  /** `(p.x / dist) · 0.1 · timeScale` on each axis: the pull towards the centre. */
  function Pull(pos: Vec3, dist: real, ts: real): Vec3
    requires dist != 0.0
  {
    Vec3(pos.x / dist * 0.1 * ts, pos.y / dist * 0.1 * ts, pos.z / dist * 0.1 * ts)
  }

  /** `a − b` on each axis. */
  function Minus(a: Vec3, b: Vec3): Vec3 {
    Vec3(a.x - b.x, a.y - b.y, a.z - b.z)
  }

  /** A grain away from the centre, where the cloud step's division is defined. */
  predicate AwayFromCentre(m: MathLib, p: Dust) {
    Distance(m, p.pos) != 0.0
  }

  /**
   * One cloud grain's frame: the velocity first loses the pull, then the
   * position moves by the new velocity · timeScale. The second component is
   * whether the grain is drawn hot (red): exactly when its distance before
   * the step was below 100.
   */
  function CloudStep(m: MathLib, p: Dust, ts: real): (r: (Dust, bool))
    requires AwayFromCentre(m, p)
    ensures r.1 <==> Distance(m, p.pos) < 100.0
    ensures r.0.size == p.size && r.0.colour == p.colour
  {
    var dist := Distance(m, p.pos);
    var v := Minus(p.vel, Pull(p.pos, dist, ts));
    (p.(vel := v, pos := Add(p.pos, ScaleBy(v, ts))), dist < 100.0)
  }

  /** `Math.sqrt` is exact at x: a non-negative root whose square is x. */
  ghost predicate ExactRoot(m: MathLib, x: real) {
    m.sqrt(x) >= 0.0 && m.sqrt(x) * m.sqrt(x) == x
  }

  /** With an exact root, the pull has length 0.1 · timeScale: a unit vector towards the centre, scaled. */
  lemma PullLength(m: MathLib, pos: Vec3, ts: real)
    requires Distance(m, pos) != 0.0 && ExactRoot(m, NormSq(pos))
    ensures NormSq(Pull(pos, Distance(m, pos), ts)) == (0.1 * ts) * (0.1 * ts)
  {
    var d := Distance(m, pos);
    PullLengthAt(pos, d, ts);
  }

  lemma PullLengthAt(pos: Vec3, d: real, ts: real)
    requires d != 0.0 && d * d == NormSq(pos)
    ensures NormSq(Pull(pos, d, ts)) == (0.1 * ts) * (0.1 * ts)
  {
    AxisShare(pos.x, d, ts);
    AxisShare(pos.y, d, ts);
    AxisShare(pos.z, d, ts);
    assert Pull(pos, d, ts) == ScaleBy(pos, 0.1 * ts / d);
    ScaledNormSq(pos, 0.1 * ts / d);
    UnitScale(NormSq(pos), d, 0.1 * ts);
  }

  /** If d² = n then n · (c / d)² = c². */
  lemma UnitScale(n: real, d: real, c: real)
    requires d != 0.0 && d * d == n
    ensures n * ((c / d) * (c / d)) == c * c
  {
    var g := c / d;
    assert g * d == c;
    assert (d * d) * (g * g) == (g * d) * (g * d);
  }

  lemma AxisShare(x: real, d: real, ts: real)
    requires d != 0.0
    ensures x / d * 0.1 * ts == x * (0.1 * ts / d)
  {
  }

  lemma ScaledNormSq(v: Vec3, g: real)
    ensures NormSq(ScaleBy(v, g)) == NormSq(v) * (g * g)
  {
  }

  /**
   * Velocity is updated before position: a grain at rest moves straight
   * towards the centre by 0.1 · timeScale² in the very frame it is pulled.
   */
  lemma VelocityFirst(m: MathLib, p: Dust, ts: real)
    requires AwayFromCentre(m, p) && p.vel == Vec3(0.0, 0.0, 0.0)
    ensures var d := Distance(m, p.pos);
      CloudStep(m, p, ts).0.pos == ScaleBy(p.pos, 1.0 - 0.1 * ts * ts / d)
  {
    FallFromRest(p.pos, Distance(m, p.pos), ts);
  }

  lemma FallFromRest(pos: Vec3, d: real, ts: real)
    requires d != 0.0
    ensures Add(pos, ScaleBy(Minus(Vec3(0.0, 0.0, 0.0), Pull(pos, d, ts)), ts)) == ScaleBy(pos, 1.0 - 0.1 * ts * ts / d)
  {
    FallsFromRest(pos.x, d, ts);
    FallsFromRest(pos.y, d, ts);
    FallsFromRest(pos.z, d, ts);
  }

  /** On one axis, from rest: `x + (0 − (x / d) · 0.1 · ts) · ts = x · (1 − 0.1 · ts² / d)`. */
  lemma FallsFromRest(x: real, d: real, ts: real)
    requires d != 0.0
    ensures x + (0.0 - x / d * 0.1 * ts) * ts == x * (1.0 - 0.1 * ts * ts / d)
  {
    assert x / d * 0.1 * ts * ts == x * (0.1 * ts * ts / d);
  }

  /** The cloud frame: every grain stepped on its own. */
  function CloudPass(m: MathLib, ps: seq<Dust>, ts: real): (qs: seq<Dust>)
    requires forall i :: 0 <= i < |ps| ==> AwayFromCentre(m, ps[i])
    ensures |qs| == |ps|
  {
    seq(|ps|, i requires 0 <= i < |ps| => CloudStep(m, ps[i], ts).0)
  }

  /** Which grains the cloud frame draws hot. */
  function HotGrains(m: MathLib, ps: seq<Dust>): (hot: seq<bool>)
    ensures |hot| == |ps|
    ensures forall i :: 0 <= i < |ps| ==> (hot[i] <==> Distance(m, ps[i].pos) < 100.0)
  {
    seq(|ps|, i requires 0 <= i < |ps| => Distance(m, ps[i].pos) < 100.0)
  }

  // ---------------------------------------------------------------- the accretion step

  /** `Math.sqrt(x² + z²)`. */
  function PlanarRadius(m: MathLib, v: Vec3): real {
    m.sqrt(v.x * v.x + v.z * v.z)
  }

  /** A grain off the disc's axis, where the accretion step's divisions are defined. */
  predicate OffAxis(m: MathLib, p: Dust) {
    PlanarRadius(m, p.pos) != 0.0
  }

  /** `Math.cos(Math.random() · 6.28) · 300` and `Math.sin(Math.random() · 6.28) · 300`, from two separate draws. */
  function Respawned(m: MathLib, u: real, w: real): (real, real) {
    (m.cos(u * 6.28) * 300.0, m.sin(w * 6.28) * 300.0)
  }

  /**
   * One disc grain's frame: the planar velocity is reset to the orbital
   * velocity `√(2000 / r)` plus two draws of noise, the grain moves by it
   * less an infall of 0.5 towards the axis, and a grain that started within
   * 20 of the axis is put back at the rim from two more draws.
   */
  function AccretionStep(m: MathLib, p: Dust, ts: real, rnd: RandomStream, k: nat): (r: (Dust, nat))
    requires OffAxis(m, p)
    ensures r.0.pos.y == p.pos.y && r.0.vel.y == p.vel.y && r.0.size == p.size && r.0.colour == p.colour
    ensures r.1 == if PlanarRadius(m, p.pos) < 20.0 then k + 4 else k + 2
  {
    var r := PlanarRadius(m, p.pos);
    var v := OrbitVelocity(m, m.atan2(p.pos.z, p.pos.x), r, rnd(k), rnd(k + 1));
    var q := p.(vel := Vec3(v.0, p.vel.y, v.1));
    if r < 20.0 then
      var xz := Respawned(m, rnd(k + 2), rnd(k + 3));
      (q.(pos := Vec3(xz.0, p.pos.y, xz.1)), k + 4)
    else
      (q.(pos := Vec3(Infall(p.pos.x, v.0, r, ts), p.pos.y, Infall(p.pos.z, v.1, r, ts))), k + 2)
  }

  /** `(−sin a · √(2000 / r), cos a · √(2000 / r))` plus a noise draw `(u − 0.5) · 0.5` on each axis. */
  function OrbitVelocity(m: MathLib, angle: real, r: real, u: real, w: real): (real, real)
    requires r != 0.0
  {
    var speed := m.sqrt(2000.0 / r);
    (-m.sin(angle) * speed + Centred(u, 0.5), m.cos(angle) * speed + Centred(w, 0.5))
  }

  /** `x + (v − (x / r) · 0.5) · timeScale`: the move along one axis, with an infall of 0.5 towards the axis. */
  function Infall(x: real, v: real, r: real, ts: real): real
    requires r != 0.0
  {
    x + (v - x / r * 0.5) * ts
  }

  /** A grain that started within 20 of the axis is respawned inside the square [−300, 300]² of the disc plane. */
  lemma RespawnInSquare(m: MathLib, p: Dust, ts: real, rnd: RandomStream, k: nat)
    requires OffAxis(m, p) && UnitCircle(m) && PlanarRadius(m, p.pos) < 20.0
    ensures var q := AccretionStep(m, p, ts, rnd, k).0;
      q.pos.x == m.cos(rnd(k + 2) * 6.28) * 300.0 && q.pos.z == m.sin(rnd(k + 3) * 6.28) * 300.0 &&
      -300.0 <= q.pos.x <= 300.0 && -300.0 <= q.pos.z <= 300.0
  {
    var c, s := m.cos(rnd(k + 2) * 6.28), m.sin(rnd(k + 3) * 6.28);
    TrigBounded(m, rnd(k + 2) * 6.28);
    TrigBounded(m, rnd(k + 3) * 6.28);
    MulMonotone(-1.0, c, 300.0);
    MulMonotone(c, 1.0, 300.0);
    MulMonotone(-1.0, s, 300.0);
    MulMonotone(s, 1.0, 300.0);
  }

  /** The step overwrites the planar velocity: where a grain goes does not depend on its old planar velocity. */
  lemma AccretionForgetsVelocity(m: MathLib, p: Dust, w: Vec3, ts: real, rnd: RandomStream, k: nat)
    requires OffAxis(m, p) && w.y == p.vel.y
    ensures AccretionStep(m, p.(vel := w), ts, rnd, k) == AccretionStep(m, p, ts, rnd, k)
  {
    assert p.(vel := w).pos == p.pos;
  }

  /** The accretion frame: each grain in turn, drawing from the stream in list order. */
  function AccretionPass(m: MathLib, ps: seq<Dust>, ts: real, rnd: RandomStream, k: nat): (r: (seq<Dust>, nat))
    requires forall i :: 0 <= i < |ps| ==> OffAxis(m, ps[i])
    ensures |r.0| == |ps|
  {
    Threaded(Accretor(m, ts, rnd), ps, k)
  }

  /**
   * The accretion step as a step on (grain, cursor); a grain on the axis, which
   * `AccretionPass` excludes, is passed through unchanged.
   */
  function Accretor(m: MathLib, ts: real, rnd: RandomStream): (Dust, nat) -> (Dust, nat) {
    (p, j) => if OffAxis(m, p) then AccretionStep(m, p, ts, rnd, j) else (p, j)
  }

  /** Unfolding the accretion pass of a prefix by one grain. */
  lemma AccretionPassSnoc(m: MathLib, ps: seq<Dust>, i: nat, ts: real, rnd: RandomStream, k: nat)
    requires i < |ps| && forall j :: 0 <= j < |ps| ==> OffAxis(m, ps[j])
    ensures var prev := AccretionPass(m, ps[..i], ts, rnd, k);
      var s := AccretionStep(m, ps[i], ts, rnd, prev.1);
      AccretionPass(m, ps[..i + 1], ts, rnd, k) == (prev.0 + [s.0], s.1)
  {
    ThreadedSnoc(Accretor(m, ts, rnd), ps, i, k);
    var prev := AccretionPass(m, ps[..i], ts, rnd, k);
    assert Accretor(m, ts, rnd)(ps[i], prev.1) == AccretionStep(m, ps[i], ts, rnd, prev.1);
  }

  /** The accretion frame keeps every grain's height, and the draw count is between 2 and 4 per grain. */
  lemma {:induction false} AccretionPassFacts(m: MathLib, ps: seq<Dust>, ts: real, rnd: RandomStream, k: nat)
    requires forall i :: 0 <= i < |ps| ==> OffAxis(m, ps[i])
    ensures var r := AccretionPass(m, ps, ts, rnd, k);
      (forall i :: 0 <= i < |ps| ==> r.0[i].pos.y == ps[i].pos.y && r.0[i].size == ps[i].size && r.0[i].colour == ps[i].colour) &&
      k + 2 * |ps| <= r.1 <= k + 4 * |ps|
  {
    if ps != [] {
      var n := |ps| - 1;
      var init := ps[..n];
      AccretionPassFacts(m, init, ts, rnd, k);
      AccretionPassSnoc(m, ps, n, ts, rnd, k);
      assert ps[..n + 1] == ps;
      var prev := AccretionPass(m, init, ts, rnd, k);
      var s := AccretionStep(m, ps[n], ts, rnd, prev.1);
      var r := AccretionPass(m, ps, ts, rnd, k);
      assert r.0 == prev.0 + [s.0];
      forall i | 0 <= i < |ps|
        ensures r.0[i].pos.y == ps[i].pos.y && r.0[i].size == ps[i].size && r.0[i].colour == ps[i].colour
      {
        if i < |init| {
          assert r.0[i] == prev.0[i];
          assert ps[i] == init[i];
        }
      }
    }
  }

  /** What one frame does to the grains; the atmosphere frame only draws. */
  predicate CanStep(s: Stage, m: MathLib, ps: seq<Dust>) {
    match s
    case Cloud => forall i :: 0 <= i < |ps| ==> AwayFromCentre(m, ps[i])
    case Accretion => forall i :: 0 <= i < |ps| ==> OffAxis(m, ps[i])
    case Atmosphere => true
  }

  // ---------------------------------------------------------------- the component

  class StarFormationViz {
    var stage: Stage
    var isPaused: bool
    var timeScale: real
    var rotation: Projector.Rotation
    var showMagneticFields: bool
    var showDust: bool
    var zoom: real
    var isDragging: bool
    var lastMouse: (real, real)
    var particles: seq<Dust>
    var time: real

    ghost predicate Valid()
      reads this
    {
      MinZoom <= zoom <= MaxZoom && 0.1 <= timeScale <= 10.0
    }

    constructor ()
      ensures Valid()
      ensures stage == Cloud && !isPaused && timeScale == 1.0 && rotation == Projector.Rotation(0.4, -0.4)
      ensures showMagneticFields && showDust && zoom == 1.0 && !isDragging && particles == [] && time == 0.0
    {
      stage := Cloud;
      isPaused := false;
      timeScale := 1.0;
      rotation := Projector.Rotation(0.4, -0.4);
      showMagneticFields := true;
      showDust := true;
      zoom := 1.0;
      isDragging := false;
      lastMouse := (0.0, 0.0);
      particles := [];
      time := 0.0;
    }

    /** The mount effect initialises the starting stage. */
    method Mount(m: MathLib, rnd: RandomStream, k0: nat) returns (k: nat)
      modifies this
      ensures (particles, k) == Initial(stage, m, rnd, k0)
      ensures stage == old(stage) && isPaused == old(isPaused) && timeScale == old(timeScale) && rotation == old(rotation)
      ensures showMagneticFields == old(showMagneticFields) && showDust == old(showDust) && zoom == old(zoom)
      ensures isDragging == old(isDragging) && lastMouse == old(lastMouse) && time == old(time)
    {
      particles, k := InitStage(stage, m, rnd, k0);
    }

    /** `initStage`: the list emptied, then the stage's grains pushed one by one. */
    static method InitStage(s: Stage, m: MathLib, rnd: RandomStream, k0: nat) returns (ps: seq<Dust>, k: nat)
      ensures (ps, k) == Initial(s, m, rnd, k0)
    {
      if s == Cloud {
        ps, k := CloudLoop(m, rnd, k0);
      } else if s == Accretion {
        ps, k := DiscLoop(m, rnd, k0);
      } else {
        ps, k := [], k0;
      }
    }

    static method CloudLoop(m: MathLib, rnd: RandomStream, k0: nat) returns (ps: seq<Dust>, k: nat)
      ensures ps == CloudGrains(m, rnd, k0) && k == k0 + 8 * CloudCount
    {
      ps, k := [], k0;
      var i := 0;
      while i < CloudCount
        invariant 0 <= i <= CloudCount && k == k0 + 8 * i
        invariant ps == CloudGrains(m, rnd, k0)[..i]
      {
        var p := DrawCloudGrain(m, rnd, k);
        CloudGrainIs(m, rnd, k0, i);
        PrefixSnoc(CloudGrains(m, rnd, k0), i);
        ps := ps + [p];
        k := k + 8;
        i := i + 1;
      }
      assert CloudGrains(m, rnd, k0)[..i] == CloudGrains(m, rnd, k0);
    }

    /** The body of the cloud loop: eight draws, in the order the grain's fields are written. */
    static method DrawCloudGrain(m: MathLib, rnd: RandomStream, k: nat) returns (p: Dust)
      ensures p == CloudGrainAt(m, rnd, k)
    {
      var r := 200.0 + rnd(k) * 300.0;
      var theta := rnd(k + 1) * PI * 2.0;
      var phi := m.acos(2.0 * rnd(k + 2) - 1.0);
      p := Dust(Spherical(m, r, phi, theta),
                Vec3(Centred(rnd(k + 3), 0.5), Centred(rnd(k + 4), 0.5), Centred(rnd(k + 5), 0.5)),
                rnd(k + 6) * 3.0 + 1.0, Hue(240.0 + rnd(k + 7) * 60.0));
    }

    /** The body of the disc loop: four draws, in the order the grain's fields are written. */
    static method DrawDiscGrain(m: MathLib, rnd: RandomStream, k: nat) returns (p: Dust)
      ensures p == DiscGrainAt(m, rnd, k)
    {
      var angle := rnd(k) * PI * 2.0;
      var r := 50.0 + rnd(k + 1) * 250.0;
      var xz := Polar(m, angle, r);
      p := Dust(Vec3(xz.0, Centred(rnd(k + 2), 20.0), xz.1),
                Vec3(-m.sin(angle) * 2.0, 0.0, m.cos(angle) * 2.0),
                rnd(k + 3) * 2.0 + 1.0, Orange);
    }

    static method DiscLoop(m: MathLib, rnd: RandomStream, k0: nat) returns (ps: seq<Dust>, k: nat)
      ensures ps == DiscGrains(m, rnd, k0) && k == k0 + 4 * DiscCount
    {
      ps, k := [], k0;
      var i := 0;
      while i < DiscCount
        invariant 0 <= i <= DiscCount && k == k0 + 4 * i
        invariant ps == DiscGrains(m, rnd, k0)[..i]
      {
        var p := DrawDiscGrain(m, rnd, k);
        ps := ps + [p];
        k := k + 4;
        DiscGrainIs(m, rnd, k0, i);
        PrefixSnoc(DiscGrains(m, rnd, k0), i);
        i := i + 1;
      }
      assert DiscGrains(m, rnd, k0)[..i] == DiscGrains(m, rnd, k0);
    }

    /**
     * One rendered frame: the clock advances by 0.016·timeScale only when
     * unpaused, but the stage's grain update runs either way. `hot` lists
     * which cloud grains are drawn red.
     */
    method Frame(m: MathLib, rnd: RandomStream, k0: nat) returns (k: nat, hot: seq<bool>)
      requires CanStep(stage, m, particles)
      modifies this
      ensures time == if old(isPaused) then old(time) else old(time) + 0.016 * old(timeScale)
      ensures old(stage) == Cloud ==> particles == CloudPass(m, old(particles), timeScale) && hot == HotGrains(m, old(particles)) && k == k0
      ensures old(stage) == Accretion ==> (particles, k) == AccretionPass(m, old(particles), timeScale, rnd, k0) && hot == []
      ensures old(stage) == Atmosphere ==> particles == old(particles) && k == k0 && hot == []
      ensures stage == old(stage) && isPaused == old(isPaused) && timeScale == old(timeScale) && rotation == old(rotation)
      ensures showMagneticFields == old(showMagneticFields) && showDust == old(showDust) && zoom == old(zoom)
      ensures isDragging == old(isDragging) && lastMouse == old(lastMouse)
    {
      if !isPaused {
        time := time + 0.016 * timeScale;
      }
      k, hot := k0, [];
      if stage == Cloud {
        particles, hot := CloudFrame(m, particles, timeScale);
      } else if stage == Accretion {
        particles, k := AccretionLoop(m, particles, timeScale, rnd, k0);
      }
    }

    /** The cloud `forEach`: each grain updated in place. */
    static method CloudFrame(m: MathLib, ps0: seq<Dust>, ts: real) returns (ps: seq<Dust>, hot: seq<bool>)
      requires forall i :: 0 <= i < |ps0| ==> AwayFromCentre(m, ps0[i])
      ensures ps == CloudPass(m, ps0, ts) && hot == HotGrains(m, ps0)
    {
      ps, hot := ps0, [];
      var i := 0;
      while i < |ps0|
        invariant 0 <= i <= |ps0| == |ps|
        invariant forall j :: 0 <= j < i ==> ps[j] == CloudStep(m, ps0[j], ts).0
        invariant forall j :: i <= j < |ps| ==> ps[j] == ps0[j]
        invariant hot == HotGrains(m, ps0)[..i]
      {
        var p := ps[i];
        var dist := Distance(m, p.pos);
        var v := Minus(p.vel, Pull(p.pos, dist, ts));
        ps := ps[i := p.(vel := v, pos := Add(p.pos, ScaleBy(v, ts)))];
        hot := hot + [dist < 100.0];
        assert HotGrains(m, ps0)[..i + 1] == HotGrains(m, ps0)[..i] + [HotGrains(m, ps0)[i]];
        i := i + 1;
      }
      assert HotGrains(m, ps0)[..i] == HotGrains(m, ps0);
    }

    /** The accretion `forEach`: each grain updated in place, drawing in list order. */
    static method AccretionLoop(m: MathLib, ps0: seq<Dust>, ts: real, rnd: RandomStream, k0: nat) returns (ps: seq<Dust>, k: nat)
      requires forall i :: 0 <= i < |ps0| ==> OffAxis(m, ps0[i])
      ensures (ps, k) == AccretionPass(m, ps0, ts, rnd, k0)
    {
      ps, k := ps0, k0;
      var i := 0;
      while i < |ps0|
        invariant 0 <= i <= |ps0| == |ps|
        invariant (ps[..i], k) == AccretionPass(m, ps0[..i], ts, rnd, k0)
        invariant ps[i..] == ps0[i..]
      {
        ghost var done := ps[..i];
        assert ps[i] == ps0[i];
        var s := AccretionStep(m, ps[i], ts, rnd, k);
        ps := ps[i := s.0];
        k := s.1;
        AccretionPassSnoc(m, ps0, i, ts, rnd, k0);
        assert ps[..i + 1] == done + [s.0];
        i := i + 1;
      }
      assert ps0[..i] == ps0 && ps[..i] == ps;
    }

    /**
     * A stage button: the clock restarts; the grains are re-initialised only
     * when the stage actually changes, as the effect keyed on it runs only then.
     */
    method SelectStage(s: Stage, m: MathLib, rnd: RandomStream, k0: nat) returns (k: nat)
      modifies this
      ensures stage == s && time == 0.0
      ensures s != old(stage) ==> (particles, k) == Initial(s, m, rnd, k0)
      ensures s == old(stage) ==> particles == old(particles) && k == k0
      ensures isPaused == old(isPaused) && timeScale == old(timeScale) && rotation == old(rotation)
      ensures showMagneticFields == old(showMagneticFields) && showDust == old(showDust) && zoom == old(zoom)
      ensures isDragging == old(isDragging) && lastMouse == old(lastMouse)
    {
      time := 0.0;
      k := k0;
      if s != stage {
        stage := s;
        particles, k := InitStage(s, m, rnd, k0);
      }
    }

    /** The play/pause, magnetic-field and dust buttons each flip their flag. */
    method Toggle(b: Switch)
      modifies this
      ensures isPaused == (if b == PlayPause then !old(isPaused) else old(isPaused))
      ensures showMagneticFields == (if b == MagneticFields then !old(showMagneticFields) else old(showMagneticFields))
      ensures showDust == (if b == DustLayers then !old(showDust) else old(showDust))
      ensures stage == old(stage) && timeScale == old(timeScale) && rotation == old(rotation) && zoom == old(zoom)
      ensures isDragging == old(isDragging) && lastMouse == old(lastMouse) && particles == old(particles) && time == old(time)
    {
      match b
      case PlayPause => isPaused := !isPaused;
      case MagneticFields => showMagneticFields := !showMagneticFields;
      case DustLayers => showDust := !showDust;
    }

    /** The speed slider: a value in [0.1, 10] in steps of 0.1. */
    method SetTimeScale(v: real)
      requires Valid() && 0.1 <= v <= 10.0
      modifies this
      ensures Valid() && timeScale == v
      ensures stage == old(stage) && isPaused == old(isPaused) && rotation == old(rotation) && zoom == old(zoom)
      ensures showMagneticFields == old(showMagneticFields) && showDust == old(showDust)
      ensures isDragging == old(isDragging) && lastMouse == old(lastMouse) && particles == old(particles) && time == old(time)
    {
      timeScale := v;
    }

    /** The zoom buttons (the toolbox's settings button also zooms out): steps of 0.1 within [0.5, 3]. */
    method ZoomButton(zoomIn: bool)
      requires Valid()
      modifies this
      ensures Valid()
      ensures zoom == if zoomIn then Camera.ZoomIn(old(zoom), MaxZoom) else Camera.ZoomOut(old(zoom), MinZoom)
      ensures stage == old(stage) && isPaused == old(isPaused) && timeScale == old(timeScale) && rotation == old(rotation)
      ensures showMagneticFields == old(showMagneticFields) && showDust == old(showDust)
      ensures isDragging == old(isDragging) && lastMouse == old(lastMouse) && particles == old(particles) && time == old(time)
    {
      Camera.ZoomStaysInRange(zoom, MinZoom, MaxZoom);
      zoom := if zoomIn then Camera.ZoomIn(zoom, MaxZoom) else Camera.ZoomOut(zoom, MinZoom);
    }

    method MouseDown(cx: real, cy: real)
      modifies this
      ensures isDragging && lastMouse == (cx, cy)
      ensures stage == old(stage) && isPaused == old(isPaused) && timeScale == old(timeScale) && rotation == old(rotation)
      ensures showMagneticFields == old(showMagneticFields) && showDust == old(showDust) && zoom == old(zoom)
      ensures particles == old(particles) && time == old(time)
    {
      isDragging := true;
      lastMouse := (cx, cy);
    }

    /** A drag turns the camera about both axes at 0.005 per pixel, with no clamp on either. */
    method MouseMove(cx: real, cy: real)
      modifies this
      ensures old(isDragging) ==> (lastMouse == (cx, cy) &&
        rotation == Projector.Rotation(Camera.DragYaw(old(rotation).pitch, cy - old(lastMouse).1, 0.005),
                                       Camera.DragYaw(old(rotation).yaw, cx - old(lastMouse).0, 0.005)))
      ensures !old(isDragging) ==> lastMouse == old(lastMouse) && rotation == old(rotation)
      ensures isDragging == old(isDragging)
      ensures stage == old(stage) && isPaused == old(isPaused) && timeScale == old(timeScale)
      ensures showMagneticFields == old(showMagneticFields) && showDust == old(showDust) && zoom == old(zoom)
      ensures particles == old(particles) && time == old(time)
    {
      if !isDragging {
        return;
      }
      var dx := cx - lastMouse.0;
      var dy := cy - lastMouse.1;
      rotation := Projector.Rotation(rotation.pitch + dy * 0.005, rotation.yaw + dx * 0.005);
      lastMouse := (cx, cy);
    }

    method MouseUp()
      modifies this
      ensures !isDragging && lastMouse == old(lastMouse)
      ensures stage == old(stage) && isPaused == old(isPaused) && timeScale == old(timeScale) && rotation == old(rotation)
      ensures showMagneticFields == old(showMagneticFields) && showDust == old(showDust) && zoom == old(zoom)
      ensures particles == old(particles) && time == old(time)
    {
      isDragging := false;
    }
  }

  datatype Switch = PlayPause | MagneticFields | DustLayers
}
