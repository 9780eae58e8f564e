/**
 * The cosmology scene: four epochs of the early universe. The singularity and
 * inflation epochs hold a cube of quantum particles, inflation blowing it up
 * by 5% a frame; the structure epoch holds a disc of stars that attract one
 * another pairwise, updated in place in list order; the CMB epoch draws a
 * fixed sphere of noise.
 */
module Cosmology {
  import opened Numeric
  import Projector
  import Camera

  datatype Stage = Singularity | Inflation | Cmb | Structure

  datatype Kind = Quantum | Star

  /** The particle colours: `#fff` and `#ffffff` are both white, `#60a5fa` is blue. */
  datatype Tint = White | Blue

  datatype CosmicParticle = CosmicParticle(pos: Vec3, vel: Vec3, size: real, tint: Tint, kind: Kind, mass: real)

  /** A point of the CMB sphere: its angles and its temperature draw. */
  datatype NoisePoint = NoisePoint(phi: real, theta: real, val: real)

  const QuantumCount: nat := 1000
  const StarCount: nat := 500
  const NoiseCount: nat := 400
  const MinZoom: real := 0.4
  const MaxZoom: real := 3.0

  // ---------------------------------------------------------------- initial particles

  /** A quantum particle from seven draws: position, velocity, size, in that order. */
  function QuantumAt(rnd: RandomStream, k: nat): CosmicParticle {
    CosmicParticle(
      Vec3(Centred(rnd(k), 10.0), Centred(rnd(k + 1), 10.0), Centred(rnd(k + 2), 10.0)),
      Vec3(Centred(rnd(k + 3), 2.0), Centred(rnd(k + 4), 2.0), Centred(rnd(k + 5), 2.0)),
      rnd(k + 6) * 2.0, White, Quantum, 1.0)
  }

  /** The distance drawn for a star, `Math.random() · 400`. */
  function StarRadius(u: real): real { u * 400.0 }

  /** The i-th star from five draws: distance, angle, height, size, mass; every tenth star is blue. */
  function StarAt(m: MathLib, i: nat, rnd: RandomStream, k: nat): CosmicParticle {
    var r := StarRadius(rnd(k));
    var a := rnd(k + 1) * PI * 2.0;
    var xz := Polar(m, a, r);
    CosmicParticle(
      Vec3(xz.0, Centred(rnd(k + 2), 50.0), xz.1), Vec3(0.0, 0.0, 0.0),
      rnd(k + 3) * 4.0 + 1.0, if i % 10 == 0 then Blue else White, Star, rnd(k + 4) * 10.0 + 5.0)
  }

  function Quanta(rnd: RandomStream, k: nat, n: nat): (ps: seq<CosmicParticle>)
    ensures |ps| == n
  {
    seq(n, i requires 0 <= i => QuantumAt(rnd, k + 7 * i))
  }

  function Stars(m: MathLib, rnd: RandomStream, k: nat, n: nat): (ps: seq<CosmicParticle>)
    ensures |ps| == n
  {
    seq(n, i requires 0 <= i => StarAt(m, i, rnd, k + 5 * i))
  }

  /** The i-th quantum fluctuation takes the seven draws from k + 7i. */
  lemma QuantumIs(rnd: RandomStream, k: nat, n: nat, i: nat)
    requires i < n
    ensures Quanta(rnd, k, n)[i] == QuantumAt(rnd, k + 7 * i)
  {
  }

  /** The i-th star takes the five draws from k + 5i. */
  lemma StarIs(m: MathLib, rnd: RandomStream, k: nat, n: nat, i: nat)
    requires i < n
    ensures Stars(m, rnd, k, n)[i] == StarAt(m, i, rnd, k + 5 * i)
  {
  }

  /** `initStage`: the particle list an epoch starts with, and the next draw. */
  function Initial(s: Stage, m: MathLib, rnd: RandomStream, k: nat): (r: (seq<CosmicParticle>, nat))
    ensures |r.0| == (match s case Singularity => QuantumCount case Inflation => QuantumCount case Structure => StarCount case Cmb => 0)
  {
    match s
    case Singularity => (Quanta(rnd, k, QuantumCount), k + 7 * QuantumCount)
    case Inflation => (Quanta(rnd, k, QuantumCount), k + 7 * QuantumCount)
    case Structure => (Stars(m, rnd, k, StarCount), k + 5 * StarCount)
    case Cmb => ([], k)
  }

  /**
   * The singularity and inflation epochs start with unit-mass white quantum
   * particles inside the cube [−5, 5)³, moving at under 1 along each axis,
   * with sizes in [0, 2).
   */
  lemma QuantaInCube(rnd: RandomStream, k: nat, n: nat)
    requires IsUnitStream(rnd)
    ensures forall i :: 0 <= i < n ==> var p := Quanta(rnd, k, n)[i];
      -5.0 <= p.pos.x < 5.0 && -5.0 <= p.pos.y < 5.0 && -5.0 <= p.pos.z < 5.0 &&
      -1.0 <= p.vel.x < 1.0 && -1.0 <= p.vel.y < 1.0 && -1.0 <= p.vel.z < 1.0 &&
      0.0 <= p.size < 2.0 && p.mass == 1.0 && p.kind == Quantum && p.tint == White
  {
    forall i | 0 <= i < n
      ensures var p := Quanta(rnd, k, n)[i];
        -5.0 <= p.pos.x < 5.0 && -5.0 <= p.pos.y < 5.0 && -5.0 <= p.pos.z < 5.0 &&
        -1.0 <= p.vel.x < 1.0 && -1.0 <= p.vel.y < 1.0 && -1.0 <= p.vel.z < 1.0 &&
        0.0 <= p.size < 2.0 && p.mass == 1.0 && p.kind == Quantum && p.tint == White
    {
      var j := k + 7 * i;
      CentredBounds(rnd(j), 10.0);
      CentredBounds(rnd(j + 1), 10.0);
      CentredBounds(rnd(j + 2), 10.0);
      CentredBounds(rnd(j + 3), 2.0);
      CentredBounds(rnd(j + 4), 2.0);
      CentredBounds(rnd(j + 5), 2.0);
      assert 0.0 <= rnd(j + 6) < 1.0;
    }
  }

  /**
   * The structure epoch starts with resting stars of mass in [5, 15) and size
   * in [1, 5), at heights in [−25, 25), each at its drawn distance
   * r ∈ [0, 400) from the axis; exactly every tenth star is blue.
   */
  lemma StarsInDisc(m: MathLib, rnd: RandomStream, k: nat, n: nat)
    requires IsUnitStream(rnd) && UnitCircle(m)
    ensures forall i :: 0 <= i < n ==> var p, r := Stars(m, rnd, k, n)[i], StarRadius(rnd(k + 5 * i));
      0.0 <= r < 400.0 && p.pos.x * p.pos.x + p.pos.z * p.pos.z == r * r &&
      -25.0 <= p.pos.y < 25.0 && p.vel == Vec3(0.0, 0.0, 0.0) &&
      5.0 <= p.mass < 15.0 && 1.0 <= p.size < 5.0 && p.kind == Star && (p.tint == Blue <==> i % 10 == 0)
  {
    forall i | 0 <= i < n
      ensures var p, r := Stars(m, rnd, k, n)[i], StarRadius(rnd(k + 5 * i));
        0.0 <= r < 400.0 && p.pos.x * p.pos.x + p.pos.z * p.pos.z == r * r &&
        -25.0 <= p.pos.y < 25.0 && p.vel == Vec3(0.0, 0.0, 0.0) &&
        5.0 <= p.mass < 15.0 && 1.0 <= p.size < 5.0 && p.kind == Star && (p.tint == Blue <==> i % 10 == 0)
    {
      StarIs(m, rnd, k, n, i);
      StarFacts(m, i, rnd, k + 5 * i);
    }
  }

  /** One star from unit draws, as `StarsInDisc` states for each. */
  lemma StarFacts(m: MathLib, i: nat, rnd: RandomStream, k: nat)
    requires IsUnitStream(rnd) && UnitCircle(m)
    ensures var p, r := StarAt(m, i, rnd, k), StarRadius(rnd(k));
      0.0 <= r < 400.0 && p.pos.x * p.pos.x + p.pos.z * p.pos.z == r * r &&
      -25.0 <= p.pos.y < 25.0 && p.vel == Vec3(0.0, 0.0, 0.0) &&
      5.0 <= p.mass < 15.0 && 1.0 <= p.size < 5.0 && p.kind == Star && (p.tint == Blue <==> i % 10 == 0)
  {
    var r := StarRadius(rnd(k));
    var a := rnd(k + 1) * PI * 2.0;
    PolarRadius(m, a, r);
    CentredBounds(rnd(k + 2), 50.0);
    assert 0.0 <= rnd(k) < 1.0 && 0.0 <= rnd(k + 3) < 1.0 && 0.0 <= rnd(k + 4) < 1.0;
  }

  /** A CMB point from three draws: an azimuth, a polar angle `acos(2u − 1)`, and a value. */
  function NoiseAt(m: MathLib, rnd: RandomStream, k: nat): NoisePoint {
    NoisePoint(rnd(k) * PI * 2.0, m.acos(2.0 * rnd(k + 1) - 1.0), rnd(k + 2))
  }

  /** The memoised CMB noise: 400 points, three draws each. */
  function Noise(m: MathLib, rnd: RandomStream, k: nat): (pts: seq<NoisePoint>)
    ensures |pts| == NoiseCount
  {
    seq(NoiseCount, i requires 0 <= i => NoiseAt(m, rnd, k + 3 * i))
  }

  /** The i-th noise point takes the three draws from k + 3i. */
  lemma NoiseIs(m: MathLib, rnd: RandomStream, k: nat, i: nat)
    requires i < NoiseCount
    ensures Noise(m, rnd, k)[i] == NoiseAt(m, rnd, k + 3 * i)
  {
  }

  /** Every CMB point has an azimuth in [0, 2π), a value in [0, 1), and its polar angle from a cosine in [−1, 1). */
  lemma NoiseInRange(m: MathLib, rnd: RandomStream, k: nat)
    requires IsUnitStream(rnd)
    ensures forall i :: 0 <= i < NoiseCount ==> var pt := Noise(m, rnd, k)[i];
      0.0 <= pt.phi < PI * 2.0 && 0.0 <= pt.val < 1.0 &&
      -1.0 <= 2.0 * rnd(k + 3 * i + 1) - 1.0 < 1.0 && pt.theta == m.acos(2.0 * rnd(k + 3 * i + 1) - 1.0)
  {
    forall i | 0 <= i < NoiseCount
      ensures var pt := Noise(m, rnd, k)[i];
        0.0 <= pt.phi < PI * 2.0 && 0.0 <= pt.val < 1.0 &&
        -1.0 <= 2.0 * rnd(k + 3 * i + 1) - 1.0 < 1.0 && pt.theta == m.acos(2.0 * rnd(k + 3 * i + 1) - 1.0)
    {
      var u := rnd(k + 3 * i);
      assert 0.0 <= u < 1.0 && 0.0 <= rnd(k + 3 * i + 1) < 1.0 && 0.0 <= rnd(k + 3 * i + 2) < 1.0;
      MulStrict(u * PI, PI, 2.0) by {
        MulStrict(u, 1.0, PI);
      }
      MulMonotone(0.0, u * PI, 2.0) by {
        MulMonotone(0.0, u, PI);
      }
    }
  }

  // ---------------------------------------------------------------- the epochs' updates

  /** The inflation frame: every position scaled by 1.05, in place. */
  function Inflated(ps: seq<CosmicParticle>): (qs: seq<CosmicParticle>)
    ensures |qs| == |ps|
  {
    seq(|ps|, i requires 0 <= i < |ps| => ps[i].(pos := ScaleBy(ps[i].pos, 1.05)))
  }

  /**
   * Inflation moves each particle straight away from the origin: its squared
   * distance grows by exactly 1.05², and nothing but its position changes.
   */
  lemma InflationExpands(ps: seq<CosmicParticle>, i: nat)
    requires i < |ps|
    ensures var p, q := ps[i], Inflated(ps)[i];
      NormSq(q.pos) == 1.1025 * NormSq(p.pos) && q.pos == ScaleBy(p.pos, 1.05) &&
      q.vel == p.vel && q.size == p.size && q.tint == p.tint && q.kind == p.kind && q.mass == p.mass
  {
    var v := ps[i].pos;
    assert (v.x * 1.05) * (v.x * 1.05) == 1.1025 * (v.x * v.x);
    assert (v.y * 1.05) * (v.y * 1.05) == 1.1025 * (v.y * v.y);
    assert (v.z * 1.05) * (v.z * 1.05) == 1.1025 * (v.z * v.z);
  }

  /** `(other.x − p.x, other.y − p.y, other.z − p.z)`. */
  function Delta(from: Vec3, to: Vec3): Vec3 {
    Vec3(to.x - from.x, to.y - from.y, to.z - from.z)
  }

  /** `dx² + dy² + dz² + 1000`: the softened squared distance, never below 1000. */
  function Softened(d: Vec3): (r: real)
    ensures r >= 1000.0
  {
    SquareNonNegative(d.x);
    SquareNonNegative(d.y);
    SquareNonNegative(d.z);
    d.x * d.x + d.y * d.y + d.z * d.z + 1000.0
  }

  /**
   * `f = other.mass · 0.05 / d2`: the pull's strength, defined for every
   * separation because the softening keeps `d2` at least 1000; a positive
   * mass pulls with a strength in (0, mass / 20000].
   */
  function Strength(mass: real, d: Vec3): (f: real)
    ensures mass >= 0.0 ==> 0.0 <= f <= mass * 0.00005
    ensures mass > 0.0 ==> f > 0.0
  {
    var d2 := Softened(d);
    var f := mass * 0.05 / d2;
    assert mass >= 0.0 ==> f <= mass * 0.00005 by {
      if mass >= 0.0 {
        assert f * d2 == mass * 0.05;
        if f > mass * 0.00005 {
          MulStrict(mass * 0.00005, f, d2);
          MulMonotone(1000.0, d2, mass * 0.00005);
        }
      }
    }
    f
  }

  /** One pull: the velocity `v` of a particle at `at` gains `Δ · f` towards `other`. */
  function Pulled(v: Vec3, at: Vec3, other: CosmicParticle): Vec3 {
    var d := Delta(at, other.pos);
    Add(v, ScaleBy(d, Strength(other.mass, d)))
  }

  /** The velocity of particle i after the inner pass has visited the first j particles of `ps`, skipping itself. */
  function PullUpTo(ps: seq<CosmicParticle>, i: nat, j: nat): Vec3
    requires i < |ps| && j <= |ps|
  {
    if j == 0 then ps[i].vel
    else
      var v := PullUpTo(ps, i, j - 1);
      if j - 1 == i then v else Pulled(v, ps[i].pos, ps[j - 1])
  }

  /** Particle i after its turn: the pull of every other particle, then a move by `v · timeScale`. */
  function Moved(ps: seq<CosmicParticle>, i: nat, ts: real): CosmicParticle
    requires i < |ps|
  {
    var v := PullUpTo(ps, i, |ps|);
    ps[i].(vel := v, pos := Add(ps[i].pos, ScaleBy(v, ts)))
  }

  /** The outer pass after its first n turns: each particle replaced in place, in list order. */
  function AttractUpTo(ps: seq<CosmicParticle>, n: nat, ts: real): (qs: seq<CosmicParticle>)
    requires n <= |ps|
    ensures |qs| == |ps|
  {
    if n == 0 then ps
    else
      var prev := AttractUpTo(ps, n - 1, ts);
      prev[n - 1 := Moved(prev, n - 1, ts)]
  }

  /** The structure frame. */
  function Attracted(ps: seq<CosmicParticle>, ts: real): (qs: seq<CosmicParticle>)
    ensures |qs| == |ps|
  {
    AttractUpTo(ps, |ps|, ts)
  }

  /**
   * After n turns, the particles from n on are untouched, and particle j < n
   * was moved on its own turn, against the list as it stood then: the
   * particles before it already moved, those after it not yet.
   */
  lemma {:induction false} AttractInOrder(ps: seq<CosmicParticle>, n: nat, ts: real)
    requires n <= |ps|
    ensures var qs := AttractUpTo(ps, n, ts);
      (forall j :: n <= j < |ps| ==> qs[j] == ps[j]) &&
      (forall j :: 0 <= j < n ==> qs[j] == Moved(AttractUpTo(ps, j, ts), j, ts))
  {
    if n > 0 {
      AttractInOrder(ps, n - 1, ts);
      var prev := AttractUpTo(ps, n - 1, ts);
      var qs := AttractUpTo(ps, n, ts);
      assert qs == prev[n - 1 := Moved(prev, n - 1, ts)];
      forall j | 0 <= j < n ensures qs[j] == Moved(AttractUpTo(ps, j, ts), j, ts) {
        if j < n - 1 {
          assert qs[j] == prev[j];
        }
      }
    }
  }

  /** The turn of particle j sees the original particles from j on, itself included. */
  lemma TurnSeesLaterOriginals(ps: seq<CosmicParticle>, j: nat, ts: real)
    requires j < |ps|
    ensures var cur := AttractUpTo(ps, j, ts);
      forall l :: j <= l < |ps| ==> cur[l] == ps[l]
  {
    AttractInOrder(ps, j, ts);
  }

  /** A particle's turn changes only its position and velocity. */
  lemma MovedKeepsBody(ps: seq<CosmicParticle>, i: nat, ts: real)
    requires i < |ps|
    ensures var p, q := ps[i], Moved(ps, i, ts);
      q.size == p.size && q.tint == p.tint && q.kind == p.kind && q.mass == p.mass &&
      q.pos == Add(p.pos, ScaleBy(q.vel, ts))
  {
  }

  /** The attraction pass keeps every particle's size, colour, kind and mass: the stars' masses stay in [5, 15). */
  lemma {:induction false} AttractKeepsBodies(ps: seq<CosmicParticle>, n: nat, ts: real)
    requires n <= |ps|
    ensures var qs := AttractUpTo(ps, n, ts);
      forall j :: 0 <= j < |ps| ==>
        qs[j].size == ps[j].size && qs[j].tint == ps[j].tint && qs[j].kind == ps[j].kind && qs[j].mass == ps[j].mass
  {
    if n > 0 {
      AttractKeepsBodies(ps, n - 1, ts);
      MovedKeepsBody(AttractUpTo(ps, n - 1, ts), n - 1, ts);
    }
  }

  /** A lone particle feels no pull: skipping the self-pair leaves it drifting at its own velocity. */
  lemma LoneParticleDrifts(p: CosmicParticle, ts: real)
    ensures Attracted([p], ts) == [p.(pos := Add(p.pos, ScaleBy(p.vel, ts)))]
  {
    assert AttractUpTo([p], 0, ts) == [p];
    assert PullUpTo([p], 0, 1) == p.vel;
  }

  /** What one frame does to the particles of an epoch; the singularity and CMB frames only draw. */
  function Evolved(s: Stage, ps: seq<CosmicParticle>, ts: real): (qs: seq<CosmicParticle>)
    ensures |qs| == |ps|
  {
    match s
    case Inflation => Inflated(ps)
    case Structure => Attracted(ps, ts)
    case _ => ps
  }

  // ---------------------------------------------------------------- the component

  class CosmologyViz {
    var stage: Stage
    var isPaused: bool
    var timeScale: real
    var rotation: Projector.Rotation
    var zoom: real
    var isDragging: bool
    var lastMouse: (real, real)
    var time: real
    var particles: seq<CosmicParticle>
    var cmbNoise: seq<NoisePoint>

    ghost predicate Valid()
      reads this
    {
      MinZoom <= zoom <= MaxZoom && 0.1 <= timeScale <= 10.0
    }

    constructor ()
      ensures Valid()
      ensures stage == Singularity && !isPaused && timeScale == 1.0 && rotation == Projector.Rotation(0.5, -0.5)
      ensures zoom == 0.8 && !isDragging && time == 0.0 && particles == [] && cmbNoise == []
    {
      stage := Singularity;
      isPaused := false;
      timeScale := 1.0;
      rotation := Projector.Rotation(0.5, -0.5);
      zoom := 0.8;
      isDragging := false;
      lastMouse := (0.0, 0.0);
      time := 0.0;
      particles := [];
      cmbNoise := [];
    }

    /** The first render memoises the CMB noise; the mount effect then initialises the starting epoch. */
    method Mount(m: MathLib, rnd: RandomStream, k0: nat) returns (k: nat)
      modifies this
      ensures cmbNoise == Noise(m, rnd, k0)
      ensures (particles, k) == Initial(stage, m, rnd, k0 + 3 * NoiseCount)
      ensures stage == old(stage) && isPaused == old(isPaused) && timeScale == old(timeScale) && rotation == old(rotation)
      ensures zoom == old(zoom) && isDragging == old(isDragging) && lastMouse == old(lastMouse) && time == old(time)
    {
      var pts := NoiseLoop(m, rnd, k0);
      cmbNoise := pts;
      particles, k := InitStage(stage, m, rnd, k0 + 3 * NoiseCount);
    }

    /** The body of the noise loop: three draws. */
    static method DrawNoise(m: MathLib, rnd: RandomStream, k: nat) returns (p: NoisePoint)
      ensures p == NoiseAt(m, rnd, k)
    {
      p := NoisePoint(rnd(k) * PI * 2.0, m.acos(2.0 * rnd(k + 1) - 1.0), rnd(k + 2));
    }

    /** The body of the singularity loop: seven draws, in the order the fields are written. */
    static method DrawQuantum(rnd: RandomStream, k: nat) returns (p: CosmicParticle)
      ensures p == QuantumAt(rnd, k)
    {
      p := CosmicParticle(
        Vec3(Centred(rnd(k), 10.0), Centred(rnd(k + 1), 10.0), Centred(rnd(k + 2), 10.0)),
        Vec3(Centred(rnd(k + 3), 2.0), Centred(rnd(k + 4), 2.0), Centred(rnd(k + 5), 2.0)),
        rnd(k + 6) * 2.0, White, Quantum, 1.0);
    }

    /** The body of the structure loop: five draws; every tenth star is blue. */
    static method DrawStar(m: MathLib, i: nat, rnd: RandomStream, k: nat) returns (p: CosmicParticle)
      ensures p == StarAt(m, i, rnd, k)
    {
      var r := StarRadius(rnd(k));
      var a := rnd(k + 1) * PI * 2.0;
      var xz := Polar(m, a, r);
      p := CosmicParticle(
        Vec3(xz.0, Centred(rnd(k + 2), 50.0), xz.1), Vec3(0.0, 0.0, 0.0),
        rnd(k + 3) * 4.0 + 1.0, if i % 10 == 0 then Blue else White, Star, rnd(k + 4) * 10.0 + 5.0);
    }

    static method NoiseLoop(m: MathLib, rnd: RandomStream, k0: nat) returns (pts: seq<NoisePoint>)
      ensures pts == Noise(m, rnd, k0)
    {
      pts := [];
      var i := 0;
      while i < NoiseCount
        invariant 0 <= i <= NoiseCount
        invariant pts == Noise(m, rnd, k0)[..i]
      {
        var p := DrawNoise(m, rnd, k0 + 3 * i);
        NoiseIs(m, rnd, k0, i);
        PrefixSnoc(Noise(m, rnd, k0), i);
        pts := pts + [p];
        i := i + 1;
      }
    }

    /** `initStage`: the list emptied, then the epoch's particles pushed one by one. */
    static method InitStage(s: Stage, m: MathLib, rnd: RandomStream, k0: nat) returns (ps: seq<CosmicParticle>, k: nat)
      ensures (ps, k) == Initial(s, m, rnd, k0)
    {
      if s == Inflation || s == Singularity {
        ps, k := QuantaLoop(rnd, k0);
      } else if s == Structure {
        ps, k := StarsLoop(m, rnd, k0);
      } else {
        ps, k := [], k0;
      }
    }

    static method QuantaLoop(rnd: RandomStream, k0: nat) returns (ps: seq<CosmicParticle>, k: nat)
      ensures ps == Quanta(rnd, k0, QuantumCount) && k == k0 + 7 * QuantumCount
    {
      ps, k := [], k0;
      var i := 0;
      while i < QuantumCount
        invariant 0 <= i <= QuantumCount && k == k0 + 7 * i
        invariant ps == Quanta(rnd, k0, QuantumCount)[..i]
      {
        var p := DrawQuantum(rnd, k);
        QuantumIs(rnd, k0, QuantumCount, i);
        PrefixSnoc(Quanta(rnd, k0, QuantumCount), i);
        ps := ps + [p];
        k := k + 7;
        i := i + 1;
      }
      assert Quanta(rnd, k0, QuantumCount)[..i] == Quanta(rnd, k0, QuantumCount);
    }

    static method StarsLoop(m: MathLib, rnd: RandomStream, k0: nat) returns (ps: seq<CosmicParticle>, k: nat)
      ensures ps == Stars(m, rnd, k0, StarCount) && k == k0 + 5 * StarCount
    {
      ps, k := [], k0;
      var i := 0;
      while i < StarCount
        invariant 0 <= i <= StarCount && k == k0 + 5 * i
        invariant ps == Stars(m, rnd, k0, StarCount)[..i]
      {
        var p := DrawStar(m, i, rnd, k);
        StarIs(m, rnd, k0, StarCount, i);
        PrefixSnoc(Stars(m, rnd, k0, StarCount), i);
        ps := ps + [p];
        k := k + 5;
        i := i + 1;
      }
      assert Stars(m, rnd, k0, StarCount)[..i] == Stars(m, rnd, k0, StarCount);
    }

    /**
     * One rendered frame: the clock advances by 0.016·timeScale only when
     * unpaused, but the epoch's particle update runs either way.
     */
    method Frame()
      modifies this
      ensures time == if old(isPaused) then old(time) else old(time) + 0.016 * old(timeScale)
      ensures particles == Evolved(stage, old(particles), timeScale)
      ensures stage == old(stage) && isPaused == old(isPaused) && timeScale == old(timeScale) && rotation == old(rotation)
      ensures zoom == old(zoom) && isDragging == old(isDragging) && lastMouse == old(lastMouse) && cmbNoise == old(cmbNoise)
    {
      if !isPaused {
        time := time + 0.016 * timeScale;
      }
      if stage == Inflation {
        particles := InflateLoop(particles);
      } else if stage == Structure {
        particles := AttractLoop(particles, timeScale);
      }
    }

    static method InflateLoop(ps0: seq<CosmicParticle>) returns (ps: seq<CosmicParticle>)
      ensures ps == Inflated(ps0)
    {
      ps := ps0;
      var i := 0;
      while i < |ps|
        invariant 0 <= i <= |ps| == |ps0|
        invariant forall j :: 0 <= j < i ==> ps[j] == Inflated(ps0)[j]
        invariant forall j :: i <= j < |ps| ==> ps[j] == ps0[j]
      {
        var p := ps[i];
        ps := ps[i := p.(pos := Vec3(p.pos.x * 1.05, p.pos.y * 1.05, p.pos.z * 1.05))];
        i := i + 1;
      }
    }

    /** The nested pass of the structure epoch: each particle in turn is pulled by every other, then moved. */
    static method AttractLoop(ps0: seq<CosmicParticle>, ts: real) returns (ps: seq<CosmicParticle>)
      ensures ps == Attracted(ps0, ts)
    {
      ps := ps0;
      var i := 0;
      while i < |ps0|
        invariant 0 <= i <= |ps0|
        invariant ps == AttractUpTo(ps0, i, ts)
      {
        var v := PullLoop(ps, i);
        var p := ps[i];
        ps := ps[i := p.(vel := v, pos := Add(p.pos, ScaleBy(v, ts)))];
        i := i + 1;
      }
    }

    /** The inner pass for particle i: its velocity accumulates the pull of each other particle. */
    static method PullLoop(ps: seq<CosmicParticle>, i: nat) returns (v: Vec3)
      requires i < |ps|
      ensures v == PullUpTo(ps, i, |ps|)
    {
      var p := ps[i];
      v := p.vel;
      var j := 0;
      while j < |ps|
        invariant 0 <= j <= |ps|
        invariant v == PullUpTo(ps, i, j)
      {
        if j != i {
          var other := ps[j];
          var d := Delta(p.pos, other.pos);
          var f := Strength(other.mass, d);
          v := Add(v, ScaleBy(d, f));
        }
        j := j + 1;
      }
    }

    /**
     * An epoch button: the clock restarts; the particles are re-initialised
     * only when the epoch actually changes, as the effect keyed on it runs
     * only then.
     */
    method SelectStage(s: Stage, m: MathLib, rnd: RandomStream, k0: nat) returns (k: nat)
      modifies this
      ensures stage == s && time == 0.0
      ensures s != old(stage) ==> (particles, k) == Initial(s, m, rnd, k0)
      ensures s == old(stage) ==> particles == old(particles) && k == k0
      ensures isPaused == old(isPaused) && timeScale == old(timeScale) && rotation == old(rotation) && zoom == old(zoom)
      ensures isDragging == old(isDragging) && lastMouse == old(lastMouse) && cmbNoise == old(cmbNoise)
    {
      time := 0.0;
      k := k0;
      if s != stage {
        stage := s;
        particles, k := InitStage(s, m, rnd, k0);
      }
    }

    method TogglePause()
      modifies this
      ensures isPaused == !old(isPaused)
      ensures stage == old(stage) && timeScale == old(timeScale) && rotation == old(rotation) && zoom == old(zoom) && time == old(time)
      ensures particles == old(particles) && isDragging == old(isDragging) && lastMouse == old(lastMouse) && cmbNoise == old(cmbNoise)
    {
      isPaused := !isPaused;
    }

    /** The speed slider: a value in [0.1, 10] in steps of 0.1. */
    method SetTimeScale(v: real)
      requires Valid() && 0.1 <= v <= 10.0
      modifies this
      ensures Valid() && timeScale == v
      ensures stage == old(stage) && isPaused == old(isPaused) && rotation == old(rotation) && zoom == old(zoom) && time == old(time)
      ensures particles == old(particles) && isDragging == old(isDragging) && lastMouse == old(lastMouse) && cmbNoise == old(cmbNoise)
    {
      timeScale := v;
    }

    /** The zoom buttons: steps of 0.1 within [0.4, 3]. */
    method ZoomButton(zoomIn: bool)
      requires Valid()
      modifies this
      ensures Valid()
      ensures zoom == if zoomIn then Camera.ZoomIn(old(zoom), MaxZoom) else Camera.ZoomOut(old(zoom), MinZoom)
      ensures stage == old(stage) && isPaused == old(isPaused) && timeScale == old(timeScale) && rotation == old(rotation) && time == old(time)
      ensures particles == old(particles) && isDragging == old(isDragging) && lastMouse == old(lastMouse) && cmbNoise == old(cmbNoise)
    {
      Camera.ZoomStaysInRange(zoom, MinZoom, MaxZoom);
      zoom := if zoomIn then Camera.ZoomIn(zoom, MaxZoom) else Camera.ZoomOut(zoom, MinZoom);
    }

    method MouseDown(cx: real, cy: real)
      modifies this
      ensures isDragging && lastMouse == (cx, cy)
      ensures stage == old(stage) && isPaused == old(isPaused) && timeScale == old(timeScale) && rotation == old(rotation)
      ensures zoom == old(zoom) && time == old(time) && particles == old(particles) && cmbNoise == old(cmbNoise)
    {
      isDragging := true;
      lastMouse := (cx, cy);
    }

    /** A drag turns the camera about both axes at 0.005 per pixel, with no clamp on either. */
    method MouseMove(cx: real, cy: real)
      modifies this
      ensures old(isDragging) ==> (lastMouse == (cx, cy) &&
        rotation == Projector.Rotation(Camera.DragYaw(old(rotation).pitch, cy - old(lastMouse).1, 0.005),
                                       Camera.DragYaw(old(rotation).yaw, cx - old(lastMouse).0, 0.005)))
      ensures !old(isDragging) ==> lastMouse == old(lastMouse) && rotation == old(rotation)
      ensures isDragging == old(isDragging)
      ensures stage == old(stage) && isPaused == old(isPaused) && timeScale == old(timeScale)
      ensures zoom == old(zoom) && time == old(time) && particles == old(particles) && cmbNoise == old(cmbNoise)
    {
      if !isDragging {
        return;
      }
      var dx := cx - lastMouse.0;
      var dy := cy - lastMouse.1;
      rotation := Projector.Rotation(rotation.pitch + dy * 0.005, rotation.yaw + dx * 0.005);
      lastMouse := (cx, cy);
    }

    method MouseUp()
      modifies this
      ensures !isDragging && lastMouse == old(lastMouse)
      ensures stage == old(stage) && isPaused == old(isPaused) && timeScale == old(timeScale) && rotation == old(rotation)
      ensures zoom == old(zoom) && time == old(time) && particles == old(particles) && cmbNoise == old(cmbNoise)
    {
      isDragging := false;
    }
  }
}
