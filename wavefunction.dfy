/**
 * The wave-function scene: a cloud of 1200 electron positions sampled from a
 * shell whose radius grows with the energy level, a measurement that eases every
 * position towards one chosen eigenstate over 1200 ms, and a toggle between
 * superposition and the observed state.
 */
module Wavefunction {
  import opened Wrappers
  import opened Numeric
  import Projector
  import Camera

  /** A particle's fill: `hsla(180 + 40·draw, 80%, 60%, 0.6)` in the cloud, `#06b6d4` for the eigenstate. */
  datatype Colour = Hsla(hue: real) | Cyan

  /** A cloud particle: its position, the start it is drawn from, its spherical coordinates, phase, size and fill. */
  datatype QuantumParticle = QuantumParticle(
    pos: Vec3, start: Vec3, r: real, theta: real, phi: real, phase: real, size: real, colour: Colour)

  const CloudSize: nat := 1200

  /** The collapse animation lasts 1200 ms. */
  const CollapseDuration: real := 1200.0

  const MinEnergy: int := 1
  const MaxEnergy: int := 3
  const MinZoom: real := 0.5
  const MaxZoom: real := 2.5

  // ---------------------------------------------------------------- sampling the cloud

  /** `(draw − 0.5)·40·level`, the radial spread of level `level`. */
  function Spread(u: real, level: int): (d: real)
    ensures 0.0 <= u < 1.0 && level >= 1 ==> -20.0 * level as real <= d < 20.0 * level as real
  {
    var l := level as real;
    assert 0.0 <= u < 1.0 && level >= 1 ==> -20.0 * l <= (u - 0.5) * 40.0 * l < 20.0 * l by {
      if 0.0 <= u < 1.0 && level >= 1 {
        MulMonotone(-20.0, (u - 0.5) * 40.0, l);
        MulStrict((u - 0.5) * 40.0, 20.0, l);
      }
    }
    (u - 0.5) * 40.0 * l
  }

  /**
   * The angular bias of the level, from the draws starting at k: level 2 moves θ
   * to 0.2π or 0.8π when a draw exceeds |cos θ|, level 3 shifts φ by
   * `sin(3θ)·0.5` on a coin flip. Returns θ, φ and the next draw.
   */
  function Shape(level: int, m: MathLib, theta: real, phi: real, rnd: RandomStream, k: nat): (r: (real, real, nat))
    ensures k <= r.2 <= k + 2
  {
    if level == 2 then
      if rnd(k) > Abs(m.cos(theta)) then ((if rnd(k + 1) > 0.5 then 0.2 else 0.8) * PI, phi, k + 2)
      else (theta, phi, k + 1)
    else if level == 3 then
      (theta, if rnd(k) > 0.5 then phi + m.sin(theta * 3.0) * 0.5 else phi, k + 1)
    else (theta, phi, k)
  }

  /** One particle of `generateCloud(level)` from the draws starting at k, with the next draw. */
  function Sample(level: int, m: MathLib, rnd: RandomStream, k: nat): (QuantumParticle, nat) {
    var r := 60.0 * level as real + Spread(rnd(k), level);
    var shape := Shape(level, m, m.acos(2.0 * rnd(k + 1) - 1.0), rnd(k + 2) * PI * 2.0, rnd, k + 3);
    var j := shape.2;
    var pos := Spherical(m, r, shape.0, shape.1);
    (QuantumParticle(pos, pos, r, shape.0, shape.1, rnd(j) * PI * 2.0, rnd(j + 1) * 1.5 + 0.5, Hsla(180.0 + rnd(j + 2) * 40.0)), j + 3)
  }

  /**
   * A sampled particle starts where it is, at its spherical coordinates; with
   * draws in [0, 1) its radius is within 20·level of 60·level, its size in
   * [0.5, 2), its phase in [0, 2π), its hue in [180, 220), and it used six to
   * eight draws.
   */
  lemma SampleFacts(level: int, m: MathLib, rnd: RandomStream, k: nat)
    requires IsUnitStream(rnd) && level >= 1
    ensures var s := Sample(level, m, rnd, k); var q := s.0;
      q.start == q.pos && q.pos == Spherical(m, q.r, q.theta, q.phi) &&
      40.0 * level as real <= q.r < 80.0 * level as real &&
      0.5 <= q.size < 2.0 && 0.0 <= q.phase < 2.0 * PI &&
      q.colour.Hsla? && 180.0 <= q.colour.hue < 220.0 &&
      k + 6 <= s.1 <= k + 8
  {
    var j := Shape(level, m, m.acos(2.0 * rnd(k + 1) - 1.0), rnd(k + 2) * PI * 2.0, rnd, k + 3).2;
    assert 0.0 <= rnd(k) < 1.0 && 0.0 <= rnd(j) < 1.0 && 0.0 <= rnd(j + 1) < 1.0 && 0.0 <= rnd(j + 2) < 1.0;
  }

  /** The sampling step of one particle, as a draw step. */
  function Sampler(level: int, m: MathLib, rnd: RandomStream): nat -> (QuantumParticle, nat) {
    j => Sample(level, m, rnd, j)
  }

  /** The first n particles of the cloud, with the next draw. */
  function Cloud(level: int, m: MathLib, rnd: RandomStream, k: nat, n: nat): (r: (seq<QuantumParticle>, nat))
    ensures |r.0| == n
  {
    InSequence(Sampler(level, m, rnd), k, n)
  }

  /** The i-th particle of the cloud is the sample taken at the draw where the first i end. */
  lemma CloudAt(level: int, m: MathLib, rnd: RandomStream, k: nat, n: nat, i: nat)
    requires i < n
    ensures Cloud(level, m, rnd, k, n).0[i] == Sample(level, m, rnd, Cloud(level, m, rnd, k, i).1).0
  {
    InSequenceAt(Sampler(level, m, rnd), k, n, i);
  }

  /** One more particle of the cloud is the sample taken where the cloud so far ends. */
  lemma CloudSnoc(level: int, m: MathLib, rnd: RandomStream, k: nat, n: nat)
    ensures var prev, s := Cloud(level, m, rnd, k, n), Sample(level, m, rnd, Cloud(level, m, rnd, k, n).1);
      Cloud(level, m, rnd, k, n + 1) == (prev.0 + [s.0], s.1)
  {
    assert Sampler(level, m, rnd)(Cloud(level, m, rnd, k, n).1) == Sample(level, m, rnd, Cloud(level, m, rnd, k, n).1);
  }

  /** Every particle of a cloud sampled from unit draws has the properties of `SampleFacts`. */
  lemma CloudFacts(level: int, m: MathLib, rnd: RandomStream, k: nat, n: nat)
    requires IsUnitStream(rnd) && level >= 1
    ensures forall i :: 0 <= i < n ==> var q := Cloud(level, m, rnd, k, n).0[i];
      q.start == q.pos && q.pos == Spherical(m, q.r, q.theta, q.phi) &&
      40.0 * level as real <= q.r < 80.0 * level as real && 0.5 <= q.size < 2.0
  {
    forall i | 0 <= i < n
      ensures var q := Cloud(level, m, rnd, k, n).0[i];
        q.start == q.pos && q.pos == Spherical(m, q.r, q.theta, q.phi) &&
        40.0 * level as real <= q.r < 80.0 * level as real && 0.5 <= q.size < 2.0
    {
      CloudAt(level, m, rnd, k, n, i);
      SampleFacts(level, m, rnd, Cloud(level, m, rnd, k, i).1);
    }
  }

  /**
   * `collapsedState = { ...p[floor(draw·p.length)], size: 4, color: '#06b6d4' }`.
   * An index outside the cloud (an empty cloud) yields no eigenstate.
   */
  function Target(cloud: seq<QuantumParticle>, u: real): (t: Option<QuantumParticle>)
    ensures 0.0 <= u < 1.0 && |cloud| > 0 ==> t.Some?
    ensures t.Some? ==> (t.value.size == 4.0 && t.value.colour == Cyan &&
      exists i :: 0 <= i < |cloud| && t.value == cloud[i].(size := 4.0, colour := Cyan))
  {
    var i := RandomIndex(u, |cloud|);
    if 0 <= i < |cloud| then Some(cloud[i].(size := 4.0, colour := Cyan)) else None
  }

  // ---------------------------------------------------------------- the collapse animation

  /** `Math.min(elapsed / 1200, 1)`. */
  function LinearProgress(elapsed: real): (p: real)
    ensures p <= 1.0
    ensures p == 1.0 <==> elapsed >= CollapseDuration
    ensures elapsed >= 0.0 ==> 0.0 <= p
  {
    Min(elapsed / CollapseDuration, 1.0)
  }

  function Cube(p: real): real {
    p * p * p
  }

  /** Cubing is monotone. */
  lemma CubeMonotone(a: real, b: real)
    requires a <= b
    ensures Cube(a) <= Cube(b)
  {
    var d := b - a;
    assert Cube(b) - Cube(a) == d * (a * a + a * b + b * b);
    assert a * a + a * b + b * b == (a + b / 2.0) * (a + b / 2.0) + 3.0 * (b * b) / 4.0;
    assert (a + b / 2.0) * (a + b / 2.0) >= 0.0;
    MulMonotone(0.0, a * a + a * b + b * b, d);
  }

  /** The eased progress `progress³` of the collapse. */
  function Eased(elapsed: real): (e: real)
    ensures elapsed >= 0.0 ==> 0.0 <= e <= 1.0
    ensures e == 1.0 <==> elapsed >= CollapseDuration
  {
    var p := LinearProgress(elapsed);
    if p < 1.0 then
      CubeMonotone(p, 1.0);
      if p >= 0.0 then
        CubeMonotone(0.0, p);
        assert Cube(p) <= p * p by {
          MulMonotone(p, 1.0, p * p);
        }
        MulMonotone(p, 1.0, p);
        MulStrict(p, 1.0, 1.0);
        Cube(p)
      else
        CubeMonotone(p, 0.0);
        Cube(p)
    else
      Cube(p)
  }

  /** A later timestamp never shows a smaller eased progress. */
  lemma EasedMonotone(a: real, b: real)
    requires a <= b
    ensures Eased(a) <= Eased(b)
  {
    var pa, pb := LinearProgress(a), LinearProgress(b);
    assert a / CollapseDuration <= b / CollapseDuration;
    assert pa <= pb;
    CubeMonotone(pa, pb);
  }

  // ---------------------------------------------------------------- drawing the cloud

  /** A fraction p in [0, 1] of a non-negative width lies within it. */
  lemma FractionOf(w: real, p: real)
    requires w >= 0.0 && 0.0 <= p <= 1.0
    ensures 0.0 <= w * p <= w
  {
    MulMonotone(0.0, p, w);
    MulMonotone(p, 1.0, w);
  }

  /** `start + (target − start)·progress`. */
  function Lerp(s: real, t: real, p: real): (r: real)
    ensures p == 0.0 ==> r == s
    ensures p == 1.0 ==> r == t
  {
    s + (t - s) * p
  }

  /** For a progress in [0, 1] the interpolated value lies between its two ends. */
  lemma LerpBetween(s: real, t: real, p: real)
    requires 0.0 <= p <= 1.0
    ensures Min(s, t) <= Lerp(s, t, p) <= Max(s, t)
  {
    var r := Lerp(s, t, p);
    if s <= t {
      LerpUpward(s, t, p);
      assert s <= r <= t;
    } else {
      LerpUpward(t, s, 1.0 - p);
      LerpSymmetric(s, t, p);
      assert t <= r <= s;
    }
  }

  /** From a lower end upwards the interpolated value stays between the ends. */
  lemma LerpUpward(s: real, t: real, p: real)
    requires s <= t && 0.0 <= p <= 1.0
    ensures s <= Lerp(s, t, p) <= t
  {
    FractionOf(t - s, p);
  }

  /** Interpolating from the other end with the complementary progress gives the same value. */
  lemma LerpSymmetric(s: real, t: real, p: real)
    ensures Lerp(t, s, 1.0 - p) == Lerp(s, t, p)
  {
    assert (s - t) * (1.0 - p) == (s - t) - (s - t) * p;
    assert (s - t) * p == -((t - s) * p);
  }

  function Toward(s: Vec3, t: Vec3, p: real): Vec3 {
    Vec3(Lerp(s.x, t.x, p), Lerp(s.y, t.y, p), Lerp(s.z, t.z, p))
  }

  /** The wobble multiplier: `1 − progress` while collapsing, else 1. */
  function JitterMult(collapsing: bool, progress: real): real {
    if collapsing then 1.0 - progress else 1.0
  }

  /** `sin(2·time + phase)·2·mult`. */
  function Jitter(m: MathLib, time: real, phase: real, mult: real): (j: real)
    ensures mult == 0.0 ==> j == 0.0
  {
    m.sin(time * 2.0 + phase) * 2.0 * mult
  }

  /** The point a cloud particle is drawn at: pulled towards the eigenstate while collapsing, plus the wobble on every axis. */
  function DrawnAt(m: MathLib, p: QuantumParticle, target: Option<QuantumParticle>, collapsing: bool, progress: real, time: real): Vec3 {
    var base := if collapsing && target.Some? then Toward(p.start, target.value.start, progress) else p.start;
    var j := Jitter(m, time, p.phase, JitterMult(collapsing, progress));
    Vec3(base.x + j, base.y + j, base.z + j)
  }

  /** The cloud is drawn unless the state is observed and no longer collapsing. */
  predicate CloudDrawn(observed: bool, collapsing: bool) {
    !observed || collapsing
  }

  /** The points a frame draws for the cloud, in cloud order; none once observed. */
  function DrawnCloud(m: MathLib, cloud: seq<QuantumParticle>, target: Option<QuantumParticle>,
                      observed: bool, collapsing: bool, progress: real, time: real): (ps: seq<Vec3>)
    ensures CloudDrawn(observed, collapsing) ==> |ps| == |cloud|
    ensures !CloudDrawn(observed, collapsing) ==> ps == []
  {
    if CloudDrawn(observed, collapsing) then
      seq(|cloud|, i requires 0 <= i < |cloud| => DrawnAt(m, cloud[i], target, collapsing, progress, time))
    else []
  }

  /** At the end of the collapse every cloud particle is drawn exactly at the eigenstate's start, with no wobble. */
  lemma CollapseEndsAtTarget(m: MathLib, cloud: seq<QuantumParticle>, t: QuantumParticle, observed: bool, time: real)
    ensures forall i :: 0 <= i < |cloud| ==> DrawnCloud(m, cloud, Some(t), observed, true, 1.0, time)[i] == t.start
  {
    forall i | 0 <= i < |cloud| ensures DrawnCloud(m, cloud, Some(t), observed, true, 1.0, time)[i] == t.start {
      assert Jitter(m, time, cloud[i].phase, JitterMult(true, 1.0)) == 0.0;
    }
  }

  /** At the start of the collapse, and in superposition, a particle is drawn at its start plus the full wobble. */
  lemma CollapseStartsAtCloud(m: MathLib, p: QuantumParticle, target: Option<QuantumParticle>, collapsing: bool, time: real)
    ensures var j := m.sin(time * 2.0 + p.phase) * 2.0;
      DrawnAt(m, p, target, collapsing, 0.0, time) == Vec3(p.start.x + j, p.start.y + j, p.start.z + j)
  {
    assert JitterMult(collapsing, 0.0) == 1.0;
    if collapsing && target.Some? {
      assert Toward(p.start, target.value.start, 0.0) == p.start;
    }
  }

  /** While collapsing, every coordinate of the pulled point lies between the particle's start and the eigenstate's. */
  lemma PullStaysBetween(p: QuantumParticle, t: QuantumParticle, progress: real)
    requires 0.0 <= progress <= 1.0
    ensures var b := Toward(p.start, t.start, progress);
      Min(p.start.x, t.start.x) <= b.x <= Max(p.start.x, t.start.x) &&
      Min(p.start.y, t.start.y) <= b.y <= Max(p.start.y, t.start.y) &&
      Min(p.start.z, t.start.z) <= b.z <= Max(p.start.z, t.start.z)
  {
    LerpBetween(p.start.x, t.start.x, progress);
    LerpBetween(p.start.y, t.start.y, progress);
    LerpBetween(p.start.z, t.start.z, progress);
  }

  // ---------------------------------------------------------------- the component

  class QuantumScene {
    var cloud: seq<QuantumParticle>
    var collapsed: Option<QuantumParticle>
    var observed: bool
    var isCollapsing: bool
    var collapseProgress: real
    var energyLevel: int
    var rotation: Projector.Rotation
    var zoom: real
    var showProbabilityMap: bool
    var time: real
    var isDragging: bool
    var lastMouse: (real, real)

    /**
     * The states the controls keep: the energy level in [1, 3], the zoom in
     * [0.5, 2.5], the progress in [0, 1], and never observed while collapsing.
     */
    ghost predicate Valid()
      reads this
    {
      MinEnergy <= energyLevel <= MaxEnergy && MinZoom <= zoom <= MaxZoom &&
      0.0 <= collapseProgress <= 1.0 && !(observed && isCollapsing)
    }

    /** The mounted component before its first effect. */
    constructor ()
      ensures Valid()
      ensures cloud == [] && collapsed == None && !observed && !isCollapsing && collapseProgress == 0.0
      ensures energyLevel == 1 && rotation == Projector.Rotation(0.3, -0.4) && zoom == 1.0 && showProbabilityMap
      ensures time == 0.0 && !isDragging && lastMouse == (0.0, 0.0)
    {
      cloud := [];
      collapsed := None;
      observed := false;
      isCollapsing := false;
      collapseProgress := 0.0;
      energyLevel := 1;
      rotation := Projector.Rotation(0.3, -0.4);
      zoom := 1.0;
      showProbabilityMap := true;
      time := 0.0;
      isDragging := false;
      lastMouse := (0.0, 0.0);
    }

    /** One pass of the `generateCloud` loop body: the draws of one particle. */
    static method DrawParticle(level: int, m: MathLib, rnd: RandomStream, k0: nat) returns (q: QuantumParticle, k: nat)
      ensures (q, k) == Sample(level, m, rnd, k0)
    {
      var r := 60.0 * level as real + Spread(rnd(k0), level);
      var theta := m.acos(2.0 * rnd(k0 + 1) - 1.0);
      var phi := rnd(k0 + 2) * PI * 2.0;
      theta, phi, k := DrawShape(level, m, theta, phi, rnd, k0 + 3);
      assert Sample(level, m, rnd, k0).1 == k + 3;
      var pos := Spherical(m, r, theta, phi);
      q := QuantumParticle(pos, pos, r, theta, phi, rnd(k) * PI * 2.0, rnd(k + 1) * 1.5 + 0.5, Hsla(180.0 + rnd(k + 2) * 40.0));
      k := k + 3;
    }

    /** The level-dependent bias of the angles, drawn after θ and φ. */
    static method DrawShape(level: int, m: MathLib, theta0: real, phi0: real, rnd: RandomStream, k0: nat)
      returns (theta: real, phi: real, k: nat)
      ensures (theta, phi, k) == Shape(level, m, theta0, phi0, rnd, k0)
    {
      theta, phi, k := theta0, phi0, k0;
      if level == 2 {
        var bias := m.cos(theta);
        var d := rnd(k);
        k := k + 1;
        if d > Abs(bias) {
          theta := (if rnd(k) > 0.5 then 0.2 else 0.8) * PI;
          k := k + 1;
        }
      } else if level == 3 {
        var d := rnd(k);
        k := k + 1;
        if d > 0.5 {
          phi := phi + m.sin(theta * 3.0) * 0.5;
        }
      }
    }

    /** The `for (i = 0; i < 1200; i++)` loop of `generateCloud`. */
    static method SampleCloud(level: int, m: MathLib, rnd: RandomStream, k0: nat) returns (p: seq<QuantumParticle>, k: nat)
      ensures (p, k) == Cloud(level, m, rnd, k0, CloudSize)
      ensures |p| == CloudSize
    {
      p, k := [], k0;
      var i := 0;
      while i < CloudSize
        invariant 0 <= i <= CloudSize
        invariant (p, k) == Cloud(level, m, rnd, k0, i)
      {
        CloudSnoc(level, m, rnd, k0, i);
        var q;
        q, k := DrawParticle(level, m, rnd, k);
        p := p + [q];
        i := i + 1;
      }
    }

    /** `generateCloud(level)`: a fresh cloud and a fresh eigenstate, drawn last. */
    method GenerateCloud(level: int, m: MathLib, rnd: RandomStream, k0: nat) returns (k: nat)
      modifies this
      ensures var c := Cloud(level, m, rnd, k0, CloudSize);
        cloud == c.0 && collapsed == Target(c.0, rnd(c.1)) && k == c.1 + 1
      ensures IsUnitStream(rnd) ==> collapsed.Some?
      ensures observed == old(observed) && isCollapsing == old(isCollapsing) && collapseProgress == old(collapseProgress)
      ensures energyLevel == old(energyLevel) && rotation == old(rotation) && zoom == old(zoom)
      ensures showProbabilityMap == old(showProbabilityMap) && time == old(time)
      ensures isDragging == old(isDragging) && lastMouse == old(lastMouse)
    {
      var p;
      p, k := SampleCloud(level, m, rnd, k0);
      cloud := p;
      collapsed := Target(p, rnd(k));
      k := k + 1;
    }

    /**
     * One frame of `animateCollapse` at `elapsed` ms after the first: the eased
     * progress is shown, and once the linear progress reaches 1 the collapse ends
     * in the observed state.
     */
    method CollapseFrame(elapsed: real)
      requires Valid() && isCollapsing && elapsed >= 0.0
      modifies this
      ensures Valid()
      ensures collapseProgress == Eased(elapsed)
      ensures LinearProgress(elapsed) < 1.0 ==> isCollapsing && !observed
      ensures LinearProgress(elapsed) >= 1.0 ==> !isCollapsing && observed && collapseProgress == 1.0
      ensures cloud == old(cloud) && collapsed == old(collapsed) && energyLevel == old(energyLevel)
      ensures rotation == old(rotation) && zoom == old(zoom) && showProbabilityMap == old(showProbabilityMap)
      ensures time == old(time) && isDragging == old(isDragging) && lastMouse == old(lastMouse)
    {
      var progress := LinearProgress(elapsed);
      collapseProgress := Eased(elapsed);
      if progress >= 1.0 {
        isCollapsing := false;
        observed := true;
      }
    }

    /**
     * `handleToggleObservation`: from superposition it starts a collapse at
     * progress 0; from any other state it returns to superposition with a fresh
     * cloud. (The button is disabled while collapsing.)
     */
    method ToggleObservation(m: MathLib, rnd: RandomStream, k0: nat) returns (k: nat)
      requires Valid()
      modifies this
      ensures Valid()
      ensures collapseProgress == 0.0
      ensures !old(observed) && !old(isCollapsing) ==>
        isCollapsing && !observed && cloud == old(cloud) && collapsed == old(collapsed) && k == k0
      ensures old(observed) || old(isCollapsing) ==>
        !isCollapsing && !observed &&
        var c := Cloud(energyLevel, m, rnd, k0, CloudSize); cloud == c.0 && collapsed == Target(c.0, rnd(c.1)) && k == c.1 + 1
      ensures energyLevel == old(energyLevel) && rotation == old(rotation) && zoom == old(zoom)
      ensures showProbabilityMap == old(showProbabilityMap) && time == old(time)
      ensures isDragging == old(isDragging) && lastMouse == old(lastMouse)
    {
      k := k0;
      if !observed && !isCollapsing {
        collapseProgress := 0.0;
        isCollapsing := true;
      } else {
        observed := false;
        isCollapsing := false;
        collapseProgress := 0.0;
        k := GenerateCloud(energyLevel, m, rnd, k0);
      }
    }

    /**
     * The energy buttons: one level up to at most 3 or down to at least 1; the
     * effect on `energyLevel` regenerates the cloud only when the level changed.
     */
    method EnergyButton(up: bool, m: MathLib, rnd: RandomStream, k0: nat) returns (k: nat)
      requires Valid()
      modifies this
      ensures Valid()
      ensures up ==> energyLevel == if old(energyLevel) < MaxEnergy then old(energyLevel) + 1 else MaxEnergy
      ensures !up ==> energyLevel == if old(energyLevel) > MinEnergy then old(energyLevel) - 1 else MinEnergy
      ensures energyLevel == old(energyLevel) ==> cloud == old(cloud) && collapsed == old(collapsed) && k == k0
      ensures energyLevel != old(energyLevel) ==>
        var c := Cloud(energyLevel, m, rnd, k0, CloudSize); cloud == c.0 && collapsed == Target(c.0, rnd(c.1)) && k == c.1 + 1
      ensures observed == old(observed) && isCollapsing == old(isCollapsing) && collapseProgress == old(collapseProgress)
      ensures rotation == old(rotation) && zoom == old(zoom) && showProbabilityMap == old(showProbabilityMap)
      ensures time == old(time) && isDragging == old(isDragging) && lastMouse == old(lastMouse)
    {
      k := k0;
      var level := if up then (if energyLevel + 1 < MaxEnergy then energyLevel + 1 else MaxEnergy)
        else (if energyLevel - 1 > MinEnergy then energyLevel - 1 else MinEnergy);
      if level != energyLevel {
        energyLevel := level;
        k := GenerateCloud(level, m, rnd, k0);
      }
    }

    /** The zoom buttons: steps of 0.1 within [0.5, 2.5]. */
    method ZoomButton(zoomIn: bool)
      requires Valid()
      modifies this
      ensures Valid()
      ensures zoom == if zoomIn then Camera.ZoomIn(old(zoom), MaxZoom) else Camera.ZoomOut(old(zoom), MinZoom)
      ensures cloud == old(cloud) && collapsed == old(collapsed) && observed == old(observed)
      ensures isCollapsing == old(isCollapsing) && collapseProgress == old(collapseProgress) && energyLevel == old(energyLevel)
      ensures rotation == old(rotation) && showProbabilityMap == old(showProbabilityMap)
      ensures time == old(time) && isDragging == old(isDragging) && lastMouse == old(lastMouse)
    {
      Camera.ZoomStaysInRange(zoom, MinZoom, MaxZoom);
      zoom := if zoomIn then Camera.ZoomIn(zoom, MaxZoom) else Camera.ZoomOut(zoom, MinZoom);
    }

    /** The probability-map button flips the ring overlay. */
    method ToggleProbabilityMap()
      modifies this
      ensures showProbabilityMap == !old(showProbabilityMap)
      ensures cloud == old(cloud) && collapsed == old(collapsed) && observed == old(observed)
      ensures isCollapsing == old(isCollapsing) && collapseProgress == old(collapseProgress) && energyLevel == old(energyLevel)
      ensures rotation == old(rotation) && zoom == old(zoom)
      ensures time == old(time) && isDragging == old(isDragging) && lastMouse == old(lastMouse)
    {
      showProbabilityMap := !showProbabilityMap;
    }

    /** Each rendered frame advances the wobble clock by 0.02. */
    method RenderFrame()
      modifies this
      ensures time == old(time) + 0.02
      ensures cloud == old(cloud) && collapsed == old(collapsed) && observed == old(observed)
      ensures isCollapsing == old(isCollapsing) && collapseProgress == old(collapseProgress) && energyLevel == old(energyLevel)
      ensures rotation == old(rotation) && zoom == old(zoom) && showProbabilityMap == old(showProbabilityMap)
      ensures isDragging == old(isDragging) && lastMouse == old(lastMouse)
    {
      time := time + 0.02;
    }

    method MouseDown(cx: real, cy: real)
      modifies this
      ensures isDragging && lastMouse == (cx, cy)
      ensures cloud == old(cloud) && collapsed == old(collapsed) && observed == old(observed)
      ensures isCollapsing == old(isCollapsing) && collapseProgress == old(collapseProgress) && energyLevel == old(energyLevel)
      ensures rotation == old(rotation) && zoom == old(zoom) && showProbabilityMap == old(showProbabilityMap)
      ensures time == old(time)
    {
      isDragging := true;
      lastMouse := (cx, cy);
    }

    /** A drag turns the camera by 0.005 per pixel about both axes, with no clamp. */
    method MouseMove(cx: real, cy: real)
      modifies this
      ensures old(isDragging) ==>
        rotation == Projector.Rotation(Camera.DragYaw(old(rotation).pitch, cy - old(lastMouse).1, 0.005),
                                       Camera.DragYaw(old(rotation).yaw, cx - old(lastMouse).0, 0.005)) &&
        lastMouse == (cx, cy)
      ensures !old(isDragging) ==> rotation == old(rotation) && lastMouse == old(lastMouse)
      ensures cloud == old(cloud) && collapsed == old(collapsed) && observed == old(observed)
      ensures isCollapsing == old(isCollapsing) && collapseProgress == old(collapseProgress) && energyLevel == old(energyLevel)
      ensures zoom == old(zoom) && showProbabilityMap == old(showProbabilityMap)
      ensures time == old(time) && isDragging == old(isDragging)
    {
      if !isDragging {
        return;
      }
      var dx := cx - lastMouse.0;
      var dy := cy - lastMouse.1;
      rotation := Projector.Rotation(Camera.DragYaw(rotation.pitch, dy, 0.005), Camera.DragYaw(rotation.yaw, dx, 0.005));
      lastMouse := (cx, cy);
    }

    method MouseUp()
      modifies this
      ensures !isDragging
      ensures cloud == old(cloud) && collapsed == old(collapsed) && observed == old(observed)
      ensures isCollapsing == old(isCollapsing) && collapseProgress == old(collapseProgress) && energyLevel == old(energyLevel)
      ensures rotation == old(rotation) && zoom == old(zoom) && showProbabilityMap == old(showProbabilityMap)
      ensures time == old(time) && lastMouse == old(lastMouse)
    {
      isDragging := false;
    }
  }

  /**
   * The observation cycle: from superposition a toggle starts the collapse, the
   * last frame lands in the observed state with the cloud hidden, and the next
   * toggle returns to superposition with the cloud drawn again.
   */
  method ObservationCycle(s: QuantumScene, m: MathLib, rnd: RandomStream, k0: nat) returns (k: nat)
    requires s.Valid() && !s.observed && !s.isCollapsing
    modifies s
    ensures s.Valid() && !s.observed && !s.isCollapsing && s.collapseProgress == 0.0
    ensures CloudDrawn(s.observed, s.isCollapsing)
  {
    k := s.ToggleObservation(m, rnd, k0);
    assert s.isCollapsing && CloudDrawn(s.observed, s.isCollapsing);
    s.CollapseFrame(CollapseDuration);
    assert s.observed && !CloudDrawn(s.observed, s.isCollapsing) && s.collapseProgress == 1.0;
    k := s.ToggleObservation(m, rnd, k);
  }
}
