/**
 * The connectome scene: 510 neurons in five brain regions, wired at random
 * without self-loops; each frame flashes fade, neurons fire pulses along their
 * connections while fewer than 1500 are in flight, and pulses advance until they
 * arrive. The mouse hovers the nearest neuron within 12 pixels and a click
 * toggles the selection.
 */
module Connectome {
  import opened Wrappers
  import opened Numeric
  import opened Text
  import Projector
  import Camera

  datatype Region = Frontal | Parietal | Temporal | Occipital | Cerebellum

  function RegionName(r: Region): string {
    match r
    case Frontal => "Frontal"
    case Parietal => "Parietal"
    case Temporal => "Temporal"
    case Occipital => "Occipital"
    case Cerebellum => "Cerebellum"
  }

  /** How many neurons `initConnectome` places in each region. */
  function RegionCount(r: Region): nat {
    match r
    case Frontal => 140
    case Parietal => 90
    case Temporal => 110
    case Occipital => 70
    case Cerebellum => 100
  }

  /** The regions are placed in the order Frontal, Parietal, Temporal, Occipital, Cerebellum. */
  function RegionStart(r: Region): nat {
    match r
    case Frontal => 0
    case Parietal => 140
    case Temporal => 230
    case Occipital => 340
    case Cerebellum => 410
  }

  const NeuronCount: nat := 510

  /** The region of the i-th neuron placed. */
  function RegionAt(i: nat): Region {
    if i < 140 then Frontal else if i < 230 then Parietal else if i < 340 then Temporal
    else if i < 410 then Occipital else Cerebellum
  }

  /** 140 + 90 + 110 + 70 + 100 = 510, and each region owns the block of neurons that follows the previous one. */
  lemma RegionBlocks(i: nat, r: Region)
    requires i < NeuronCount
    ensures RegionAt(i) == r <==> RegionStart(r) <= i < RegionStart(r) + RegionCount(r)
    ensures RegionStart(Cerebellum) + RegionCount(Cerebellum) == NeuronCount
  {
  }

  /** A neuron id `${region}-${i}`, kept as its two parts. */
  datatype NeuronKey = NeuronKey(region: Region, index: nat)

  /** The id of a neuron that `initConnectome` creates. */
  predicate KeyValid(k: NeuronKey) {
    k.index < RegionCount(k.region)
  }

  /** The id of the i-th neuron placed. */
  function KeyAt(i: nat): (k: NeuronKey)
    requires i < NeuronCount
    ensures KeyValid(k) && k.region == RegionAt(i)
  {
    var r := RegionAt(i);
    NeuronKey(r, i - RegionStart(r))
  }

  /** The position of the neuron with id k in the placement order. */
  function Ordinal(k: NeuronKey): nat
    requires KeyValid(k)
  {
    RegionStart(k.region) + k.index
  }

  /** Ids and placement positions are in one-to-one correspondence, so the 510 ids are distinct and each valid id names a neuron. */
  lemma KeyOrdinal(i: nat, k: NeuronKey)
    requires i < NeuronCount && KeyValid(k)
    ensures Ordinal(k) < NeuronCount && KeyAt(Ordinal(k)) == k
    ensures KeyAt(i) == k <==> Ordinal(k) == i
  {
    RegionBlocks(Ordinal(k), k.region);
    RegionBlocks(i, RegionAt(i));
  }

  function IdText(k: NeuronKey): string {
    RegionName(k.region) + "-" + NatToString(k.index)
  }

  /** The id strings are distinct: region names contain no '-'. */
  lemma IdTextInjective(a: NeuronKey, b: NeuronKey)
    requires IdText(a) == IdText(b)
    ensures a == b
  {
    var pa, pb := RegionName(a.region), RegionName(b.region);
    assert forall i :: 0 <= i < |pa| ==> pa[i] != '-';
    assert forall i :: 0 <= i < |pb| ==> pb[i] != '-';
    DashJoinInjective(pa, NatToString(a.index), pb, NatToString(b.index));
    NatToStringInjective(a.index, b.index);
  }

  datatype Neuron = Neuron(id: NeuronKey, pos: Vec3, region: Region, size: real, firingRate: real,
                           connections: seq<NeuronKey>, flash: real)

  datatype Pulse = Pulse(fromId: NeuronKey, toId: NeuronKey, progress: real, speed: real)

  // ---------------------------------------------------------------- placement

  /** `(Math.random() - 0.5) * w`. */
  function Offset(r: real, w: real): real {
    (r - 0.5) * w
  }

  /** The region's base point for the i-th neuron of the region, from three draws, and the region's spread. */
  function Base(region: Region, i: nat, r0: real, r1: real, r2: real): (Vec3, real) {
    match region
    case Frontal => (Vec3(Offset(r0, 80.0), -140.0 - r1 * 40.0, 20.0 + Offset(r2, 70.0)), 65.0)
    case Parietal => (Vec3(Offset(r0, 110.0), -40.0 + Offset(r1, 90.0), 130.0 + r2 * 40.0), 55.0)
    case Temporal =>
      (Vec3((if i % 2 == 0 then 150.0 else -150.0) + Offset(r0, 40.0), -20.0 + Offset(r1, 110.0), -20.0 + Offset(r2, 70.0)), 55.0)
    case Occipital => (Vec3(Offset(r0, 80.0), 130.0 + r1 * 40.0, 20.0 + Offset(r2, 60.0)), 50.0)
    case Cerebellum => (Vec3(Offset(r0, 130.0), 90.0 + r1 * 40.0, -110.0 - r2 * 40.0), 60.0)
  }

  /** The o-th neuron, from the eight draws starting at k: base point, jitter, size and firing rate. */
  function MakeNeuron(o: nat, rnd: RandomStream, k: nat): Neuron
    requires o < NeuronCount
  {
    var key := KeyAt(o);
    var b := Base(key.region, key.index, rnd(k), rnd(k + 1), rnd(k + 2));
    var p := Vec3(b.0.x + Offset(rnd(k + 3), b.1), b.0.y + Offset(rnd(k + 4), b.1), b.0.z + Offset(rnd(k + 5), b.1));
    Neuron(key, p, key.region, 1.5 + rnd(k + 6) * 2.5, 0.03 + rnd(k + 7) * 0.07, [], 0.0)
  }

  /** The neurons placed from draw k0 on, before any wiring. */
  function Placed(rnd: RandomStream, k0: nat): (ns: seq<Neuron>)
    ensures |ns| == NeuronCount
  {
    seq(NeuronCount, o requires 0 <= o < NeuronCount => MakeNeuron(o, rnd, k0 + 8 * o))
  }

  /** The o-th neuron placed takes the eight draws from k0 + 8o. */
  lemma PlacedIs(rnd: RandomStream, k0: nat, o: nat)
    requires o < NeuronCount
    ensures Placed(rnd, k0)[o] == MakeNeuron(o, rnd, k0 + 8 * o)
  {
  }

  /** The ids and regions are those of the placement order. */
  predicate Laid(ns: seq<Neuron>) {
    |ns| == NeuronCount &&
    forall i :: 0 <= i < NeuronCount ==> ns[i].id == KeyAt(i) && ns[i].region == ns[i].id.region
  }

  /** Every connection names an existing neuron other than its owner. */
  predicate WellWired(ns: seq<Neuron>) {
    forall i, t :: 0 <= i < |ns| && t in ns[i].connections ==> KeyValid(t) && t != ns[i].id
  }

  /** The placement: ids `${region}-${i}` region by region, nothing flashing, no connections; rates in [0.03, 0.1). */
  lemma PlacedFacts(rnd: RandomStream, k0: nat)
    ensures Laid(Placed(rnd, k0)) && WellWired(Placed(rnd, k0))
    ensures forall i :: 0 <= i < NeuronCount ==> Placed(rnd, k0)[i].flash == 0.0 && Placed(rnd, k0)[i].connections == []
    ensures IsUnitStream(rnd) ==> forall i :: 0 <= i < NeuronCount ==> 0.03 <= Placed(rnd, k0)[i].firingRate < 0.1
  {
    var ns := Placed(rnd, k0);
    forall i | 0 <= i < NeuronCount
      ensures ns[i].id == KeyAt(i) && ns[i].region == ns[i].id.region && ns[i].connections == [] && ns[i].flash == 0.0
    {
      assert ns[i] == MakeNeuron(i, rnd, k0 + 8 * i);
    }
    if IsUnitStream(rnd) {
      forall i | 0 <= i < NeuronCount ensures 0.03 <= ns[i].firingRate < 0.1 {
        var r := rnd(k0 + 8 * i + 7);
        assert ns[i].firingRate == 0.03 + r * 0.07;
        MulMonotone(0.0, r, 0.07);
        MulStrict(r, 1.0, 0.07);
      }
    }
  }

  // ---------------------------------------------------------------- wiring

  /** JavaScript's `s[i]`: undefined outside the list. */
  function At<T>(s: seq<T>, i: int): (r: Option<T>)
    ensures r.Some? <==> 0 <= i < |s|
    ensures r.Some? ==> r.value == s[i]
  {
    if 0 <= i < |s| then Some(s[i]) else None
  }

  /** `newNeurons.filter(other => other.region === n.region && other.id !== n.id)`. */
  function SameRegion(pool: seq<Neuron>, n: Neuron): (r: seq<Neuron>)
    ensures |r| <= |pool|
    ensures forall x :: x in r ==> x in pool && x.region == n.region && x.id != n.id
  {
    if pool == [] then []
    else
      var x := pool[|pool| - 1];
      SameRegion(pool[..|pool| - 1], n) + (if x.region == n.region && x.id != n.id then [x] else [])
  }

  /** Neurons of n's region other than n are all kept by the filter. */
  lemma {:induction false} SameRegionKeeps(pool: seq<Neuron>, n: Neuron, x: Neuron)
    requires x in pool && x.region == n.region && x.id != n.id
    ensures x in SameRegion(pool, n)
  {
    var init := pool[..|pool| - 1];
    if x != pool[|pool| - 1] {
      var i :| 0 <= i < |pool| && pool[i] == x;
      assert init[i] == x;
      SameRegionKeeps(init, n, x);
    }
  }

  /**
   * One connection attempt of neuron n, from the draws at k and k+1: a long-range
   * target anywhere when the first draw exceeds 0.94, else one of n's region; the
   * target's id is kept unless the target is missing or is n itself.
   */
  function Attempt(pool: seq<Neuron>, n: Neuron, rnd: RandomStream, k: nat): Option<NeuronKey> {
    var target := if rnd(k) > 0.94 then At(pool, RandomIndex(rnd(k + 1), |pool|))
      else var same := SameRegion(pool, n); At(same, RandomIndex(rnd(k + 1), |same|));
    if target.Some? && target.value.id != n.id then Some(target.value.id) else None
  }

  /** The first `count` attempts, with the index of the next draw. */
  function Attempts(pool: seq<Neuron>, n: Neuron, count: nat, rnd: RandomStream, k: nat): (seq<NeuronKey>, nat) {
    if count == 0 then ([], k)
    else
      var prev := Attempts(pool, n, count - 1, rnd, k);
      var a := Attempt(pool, n, rnd, prev.1);
      (prev.0 + (if a.Some? then [a.value] else []), prev.1 + 2)
  }

  /** One more attempt from the state (cs, kc) of the first `count`: its connection, if any, is appended. */
  lemma AttemptsStep(pool: seq<Neuron>, n: Neuron, count: nat, rnd: RandomStream, k: nat,
                     cs: seq<NeuronKey>, kc: nat, a: Option<NeuronKey>)
    requires (cs, kc) == Attempts(pool, n, count, rnd, k) && a == Attempt(pool, n, rnd, kc)
    ensures Attempts(pool, n, count + 1, rnd, k) == (if a.Some? then cs + [a.value] else cs, kc + 2)
  {
    if a.None? {
      assert cs + [] == cs;
    }
  }

  /** `3 + Math.floor(Math.random() * 4)` attempts; a negative count would run none. */
  function ConnCount(r: real): (c: nat)
    ensures 0.0 <= r < 1.0 ==> 3 <= c <= 6
  {
    var i := 3 + RandomIndex(r, 4);
    if i < 0 then 0 else i
  }

  /** The connections of neuron n, drawn from k on, with the index of the next draw. */
  function Wiring(pool: seq<Neuron>, n: Neuron, rnd: RandomStream, k: nat): (seq<NeuronKey>, nat) {
    Attempts(pool, n, ConnCount(rnd(k)), rnd, k + 1)
  }

  /** An attempt on a laid-out pool keeps an existing neuron other than n; a short-range one stays in n's region. */
  lemma AttemptFacts(pool: seq<Neuron>, n: Neuron, rnd: RandomStream, k: nat)
    requires Laid(pool)
    ensures var a := Attempt(pool, n, rnd, k);
      a.Some? ==> KeyValid(a.value) && a.value != n.id && (rnd(k) <= 0.94 ==> a.value.region == n.region)
    ensures IsUnitStream(rnd) && rnd(k) <= 0.94 && |SameRegion(pool, n)| > 0 ==> Attempt(pool, n, rnd, k).Some?
  {
    var a := Attempt(pool, n, rnd, k);
    if a.Some? {
      var target := if rnd(k) > 0.94 then At(pool, RandomIndex(rnd(k + 1), |pool|))
        else var same := SameRegion(pool, n); At(same, RandomIndex(rnd(k + 1), |same|));
      assert target.value in pool;
      var j :| 0 <= j < |pool| && pool[j] == target.value;
      assert a.value == pool[j].id == KeyAt(j);
    }
  }

  /** The attempts keep at most one id each, all of existing neurons other than n, and use two draws each. */
  lemma {:induction false} AttemptsFacts(pool: seq<Neuron>, n: Neuron, count: nat, rnd: RandomStream, k: nat)
    requires Laid(pool)
    ensures forall t :: t in Attempts(pool, n, count, rnd, k).0 ==> KeyValid(t) && t != n.id
  {
    if count > 0 {
      AttemptsFacts(pool, n, count - 1, rnd, k);
      AttemptFacts(pool, n, rnd, Attempts(pool, n, count - 1, rnd, k).1);
    }
  }

  /** Each attempt keeps at most one id and uses two draws. */
  lemma {:induction false} AttemptsCount(pool: seq<Neuron>, n: Neuron, count: nat, rnd: RandomStream, k: nat)
    ensures |Attempts(pool, n, count, rnd, k).0| <= count && Attempts(pool, n, count, rnd, k).1 == k + 2 * count
  {
    if count > 0 {
      AttemptsCount(pool, n, count - 1, rnd, k);
    }
  }

  /** The wiring pass over the first `upto` neurons: each in turn gets its connections, drawn against the current list. */
  function WireUpTo(ns: seq<Neuron>, upto: nat, rnd: RandomStream, k: nat): (r: (seq<Neuron>, nat))
    requires upto <= |ns|
    ensures |r.0| == |ns|
  {
    if upto == 0 then (ns, k)
    else
      var prev := WireUpTo(ns, upto - 1, rnd, k);
      var n := prev.0[upto - 1];
      var w := Wiring(prev.0, n, rnd, prev.1);
      (prev.0[upto - 1 := n.(connections := w.0)], w.1)
  }

  /** Wiring changes nothing but the connections of the neurons it has passed. */
  lemma {:induction false} WireUpToKeeps(ns: seq<Neuron>, upto: nat, rnd: RandomStream, k: nat)
    requires upto <= |ns|
    ensures forall i :: 0 <= i < |ns| ==> WireUpTo(ns, upto, rnd, k).0[i] == ns[i].(connections := WireUpTo(ns, upto, rnd, k).0[i].connections)
    ensures forall i :: upto <= i < |ns| ==> WireUpTo(ns, upto, rnd, k).0[i] == ns[i]
  {
    if upto > 0 {
      WireUpToKeeps(ns, upto - 1, rnd, k);
    }
  }

  /** Giving neuron j a list of valid, non-self connections keeps the layout well wired. */
  lemma RewireOk(ns: seq<Neuron>, j: nat, cs: seq<NeuronKey>)
    requires Laid(ns) && WellWired(ns) && j < |ns|
    requires forall t :: t in cs ==> KeyValid(t) && t != ns[j].id
    ensures Laid(ns[j := ns[j].(connections := cs)]) && WellWired(ns[j := ns[j].(connections := cs)])
  {
    var r := ns[j := ns[j].(connections := cs)];
    forall i, t | 0 <= i < |r| && t in r[i].connections ensures KeyValid(t) && t != r[i].id {
      if i != j {
        assert r[i] == ns[i];
      }
    }
  }

  /** Wiring keeps the layout: every connection names an existing neuron other than its owner. */
  lemma {:induction false} WireUpToFacts(ns: seq<Neuron>, upto: nat, rnd: RandomStream, k: nat)
    requires Laid(ns) && WellWired(ns) && upto <= |ns|
    ensures Laid(WireUpTo(ns, upto, rnd, k).0) && WellWired(WireUpTo(ns, upto, rnd, k).0)
  {
    if upto > 0 {
      WireUpToFacts(ns, upto - 1, rnd, k);
      var prev := WireUpTo(ns, upto - 1, rnd, k);
      var n := prev.0[upto - 1];
      var w := Wiring(prev.0, n, rnd, prev.1);
      assert WireUpTo(ns, upto, rnd, k).0 == prev.0[upto - 1 := n.(connections := w.0)];
      AttemptsFacts(prev.0, n, ConnCount(rnd(prev.1)), rnd, prev.1 + 1);
      assert forall t :: t in w.0 ==> KeyValid(t) && t != n.id;
      RewireOk(prev.0, upto - 1, w.0);
    }
  }

  /** With draws in [0, 1), wiring gives each neuron at most 6 connections (3 to 6 attempts, some of which may fail). */
  lemma {:induction false} WireUpToBound(ns: seq<Neuron>, upto: nat, rnd: RandomStream, k: nat)
    requires IsUnitStream(rnd) && upto <= |ns| && forall i :: 0 <= i < |ns| ==> |ns[i].connections| <= 6
    ensures forall i :: 0 <= i < |ns| ==> |WireUpTo(ns, upto, rnd, k).0[i].connections| <= 6
  {
    if upto > 0 {
      WireUpToBound(ns, upto - 1, rnd, k);
      var prev := WireUpTo(ns, upto - 1, rnd, k);
      var n := prev.0[upto - 1];
      var c := ConnCount(rnd(prev.1));
      assert 0.0 <= rnd(prev.1) < 1.0;
      AttemptsCount(prev.0, n, c, rnd, prev.1 + 1);
      var cs := Attempts(prev.0, n, c, rnd, prev.1 + 1).0;
      var r := WireUpTo(ns, upto, rnd, k).0;
      assert r == prev.0[upto - 1 := n.(connections := cs)];
      forall i | 0 <= i < |ns| ensures |r[i].connections| <= 6 {
        if i != upto - 1 {
          assert r[i] == prev.0[i];
        }
      }
    }
  }

  // ---------------------------------------------------------------- one frame

  /** The flash fade: a positive flash drops by 0.05 and stops at 0. */
  function FadeFlash(f: real): (r: real)
    ensures f <= 0.0 ==> r == f
    ensures f > 0.0 ==> r == Max(0.0, f - 0.05)
    ensures 0.0 <= f ==> 0.0 <= r <= f
  {
    if f > 0.0 then (if f - 0.05 < 0.0 then 0.0 else f - 0.05) else f
  }

  function FlashFaded(ns: seq<Neuron>): (r: seq<Neuron>)
    ensures |r| == |ns|
  {
    seq(|ns|, i requires 0 <= i < |ns| => ns[i].(flash := FadeFlash(ns[i].flash)))
  }

  /** `n.firingRate * firingRateMult * 0.08`. */
  function Chance(rate: real, mult: real): real {
    rate * mult * 0.08
  }

  /** `(0.01 + Math.random() * 0.02) * pulseSpeedMult`. */
  function PulseSpeed(r: real, mult: real): real {
    (0.01 + r * 0.02) * mult
  }

  /**
   * The spawn callback on neuron n: below its chance it picks one of its
   * connections; if there is one it flashes and sends a pulse there.
   */
  function SpawnOne(n: Neuron, rateMult: real, speedMult: real, rnd: RandomStream, k: nat): (r: (Neuron, seq<Pulse>, nat))
    ensures r.0 == n || r.0 == n.(flash := 1.0)
    ensures |r.1| <= 1
    ensures n.connections == [] ==> r.0 == n && r.1 == []
    ensures r.1 != [] ==>
      r.0.flash == 1.0 && r.1[0].fromId == n.id && r.1[0].toId in n.connections && r.1[0].progress == 0.0
  {
    if rnd(k) < Chance(n.firingRate, rateMult) then
      match At(n.connections, RandomIndex(rnd(k + 1), |n.connections|))
      case Some(t) => (n.(flash := 1.0), [Pulse(n.id, t, 0.0, PulseSpeed(rnd(k + 2), speedMult))], k + 3)
      case None => (n, [], k + 2)
    else (n, [], k + 1)
  }

  /** The spawn pass over the first `upto` neurons, each updated in place. */
  function SpawnUpTo(ns: seq<Neuron>, upto: nat, rateMult: real, speedMult: real, rnd: RandomStream, k: nat): (r: (seq<Neuron>, seq<Pulse>, nat))
    requires upto <= |ns|
    ensures |r.0| == |ns| && |r.1| <= upto
  {
    if upto == 0 then (ns, [], k)
    else
      var prev := SpawnUpTo(ns, upto - 1, rateMult, speedMult, rnd, k);
      var o := SpawnOne(prev.0[upto - 1], rateMult, speedMult, rnd, prev.2);
      (prev.0[upto - 1 := o.0], prev.1 + o.1, o.2)
  }

  /** The whole spawn pass. */
  function Spawned(ns: seq<Neuron>, rateMult: real, speedMult: real, rnd: RandomStream, k: nat): (r: (seq<Neuron>, seq<Pulse>, nat))
    ensures |r.0| == |ns| && |r.1| <= |ns|
  {
    SpawnUpTo(ns, |ns|, rateMult, speedMult, rnd, k)
  }

  /** A pulse between two distinct existing neurons. */
  predicate PulseOk(p: Pulse) {
    KeyValid(p.fromId) && KeyValid(p.toId) && p.fromId != p.toId
  }

  /** The spawn pass only lights neurons up, never one without connections, and keeps the rest of each neuron. */
  lemma {:induction false} SpawnUpToNeurons(ns: seq<Neuron>, upto: nat, rateMult: real, speedMult: real, rnd: RandomStream, k: nat)
    requires upto <= |ns|
    ensures var r := SpawnUpTo(ns, upto, rateMult, speedMult, rnd, k);
      (forall i :: 0 <= i < |ns| ==> r.0[i] == ns[i] || r.0[i] == ns[i].(flash := 1.0)) &&
      (forall i :: 0 <= i < |ns| && ns[i].connections == [] ==> r.0[i] == ns[i])
  {
    if upto > 0 {
      SpawnUpToNeurons(ns, upto - 1, rateMult, speedMult, rnd, k);
      var prev := SpawnUpTo(ns, upto - 1, rateMult, speedMult, rnd, k);
      var j := upto - 1;
      var o := SpawnOne(prev.0[j], rateMult, speedMult, rnd, prev.2);
      var r := SpawnUpTo(ns, upto, rateMult, speedMult, rnd, k);
      assert r.0 == prev.0[j := o.0];
      forall i | 0 <= i < |ns| ensures r.0[i] == ns[i] || r.0[i] == ns[i].(flash := 1.0) {
        if i != j {
          assert r.0[i] == prev.0[i];
        }
      }
    }
  }

  /** The pulse leaves some neuron of ns towards one of that neuron's connections. */
  predicate SentAlong(p: Pulse, ns: seq<Neuron>) {
    exists i :: 0 <= i < |ns| && p.fromId == ns[i].id && p.toId in ns[i].connections
  }

  /** Each pulse of the spawn pass starts at progress 0 from a neuron towards one of its connections. */
  lemma {:induction false} SpawnUpToPulses(ns: seq<Neuron>, upto: nat, rateMult: real, speedMult: real, rnd: RandomStream, k: nat)
    requires upto <= |ns|
    ensures var r := SpawnUpTo(ns, upto, rateMult, speedMult, rnd, k);
      forall p :: p in r.1 ==> p.progress == 0.0 && SentAlong(p, ns)
  {
    if upto > 0 {
      SpawnUpToPulses(ns, upto - 1, rateMult, speedMult, rnd, k);
      var j := upto - 1;
      SpawnUpToKeepsIdentity(ns, j, rateMult, speedMult, rnd, k, j);
      var prev := SpawnUpTo(ns, j, rateMult, speedMult, rnd, k);
      var n := prev.0[j];
      var o := SpawnOne(n, rateMult, speedMult, rnd, prev.2);
      assert SpawnUpTo(ns, upto, rateMult, speedMult, rnd, k).1 == prev.1 + o.1;
      PulsesExtend(ns, j, n, prev.1, o.1);
    }
  }

  /** After the spawn pass over a prefix every neuron keeps its id and its connections. */
  lemma SpawnUpToKeepsIdentity(ns: seq<Neuron>, upto: nat, rateMult: real, speedMult: real, rnd: RandomStream, k: nat, j: nat)
    requires upto <= |ns| && j < |ns|
    ensures var r := SpawnUpTo(ns, upto, rateMult, speedMult, rnd, k);
      r.0[j].id == ns[j].id && r.0[j].connections == ns[j].connections
  {
    SpawnUpToNeurons(ns, upto, rateMult, speedMult, rnd, k);
    KeepsIdentity(ns, SpawnUpTo(ns, upto, rateMult, speedMult, rnd, k).0, j);
  }

  /** A neuron that is kept or only lit up keeps its id and its connections. */
  lemma KeepsIdentity(ns: seq<Neuron>, lit: seq<Neuron>, j: nat)
    requires |lit| == |ns| && j < |ns|
    requires forall i :: 0 <= i < |ns| ==> lit[i] == ns[i] || lit[i] == ns[i].(flash := 1.0)
    ensures lit[j].id == ns[j].id && lit[j].connections == ns[j].connections
  {
  }

  /** Appending the at most one pulse neuron n sent, where n is the j-th neuron up to its flash. */
  lemma PulsesExtend(ns: seq<Neuron>, j: nat, n: Neuron, before: seq<Pulse>, sent: seq<Pulse>)
    requires j < |ns| && n.id == ns[j].id && n.connections == ns[j].connections
    requires forall p :: p in before ==> p.progress == 0.0 && SentAlong(p, ns)
    requires |sent| <= 1 && (sent != [] ==> sent[0].fromId == n.id && sent[0].toId in n.connections && sent[0].progress == 0.0)
    ensures forall p :: p in before + sent ==> p.progress == 0.0 && SentAlong(p, ns)
  {
    forall p | p in before + sent ensures p.progress == 0.0 && SentAlong(p, ns) {
      if p !in before {
        assert p == sent[0];
        assert p.fromId == ns[j].id && p.toId in ns[j].connections;
      }
    }
  }

  /** On a well-wired list every spawned pulse joins two distinct existing neurons. */
  lemma SpawnedPulsesOk(ns: seq<Neuron>, rateMult: real, speedMult: real, rnd: RandomStream, k: nat)
    requires WellWired(ns) && forall i :: 0 <= i < |ns| ==> KeyValid(ns[i].id)
    ensures forall p :: p in Spawned(ns, rateMult, speedMult, rnd, k).1 ==> PulseOk(p) && p.progress == 0.0
  {
    SpawnUpToPulses(ns, |ns|, rateMult, speedMult, rnd, k);
    forall p | p in Spawned(ns, rateMult, speedMult, rnd, k).1 ensures PulseOk(p) {
      var i :| 0 <= i < |ns| && p.fromId == ns[i].id && p.toId in ns[i].connections;
    }
  }

  /**
   * One frame keeps the neuron list laid out and well wired with flashes in [0, 1],
   * and every new pulse is a valid pulse at progress 0.
   */
  lemma FrameNeuronsOk(ns: seq<Neuron>, spawn: bool, rateMult: real, speedMult: real, rnd: RandomStream, k: nat)
    requires Laid(ns) && WellWired(ns) && forall i :: 0 <= i < |ns| ==> 0.0 <= ns[i].flash <= 1.0
    ensures var faded := FlashFaded(ns);
      var sp := if spawn then Spawned(faded, rateMult, speedMult, rnd, k) else (faded, [], k);
      Laid(sp.0) && WellWired(sp.0) && (forall i :: 0 <= i < |sp.0| ==> 0.0 <= sp.0[i].flash <= 1.0) &&
      forall p :: p in sp.1 ==> PulseOk(p) && p.progress == 0.0
  {
    var faded := FlashFaded(ns);
    assert Laid(faded) && WellWired(faded);
    forall i | 0 <= i < |faded| ensures KeyValid(faded[i].id) {
      assert faded[i].id == KeyAt(i);
    }
    if spawn {
      SpawnUpToNeurons(faded, |faded|, rateMult, speedMult, rnd, k);
      SpawnedPulsesOk(faded, rateMult, speedMult, rnd, k);
    }
  }

  /** One frame of a pulse. */
  function Step(p: Pulse): Pulse {
    p.(progress := p.progress + p.speed)
  }

  /** `pulses.filter(p => { p.progress += p.speed; return p.progress < 1 })`. */
  function Advanced(ps: seq<Pulse>): seq<Pulse> {
    if ps == [] then []
    else
      var q := Step(ps[|ps| - 1]);
      Advanced(ps[..|ps| - 1]) + (if q.progress < 1.0 then [q] else [])
  }

  /** The surviving pulses are exactly the advanced ones still short of their target, and no more than before. */
  lemma {:induction false} AdvancedFacts(ps: seq<Pulse>)
    ensures |Advanced(ps)| <= |ps|
    ensures forall q :: q in Advanced(ps) <==> q.progress < 1.0 && exists p :: p in ps && q == Step(p)
  {
    if ps != [] {
      var init := ps[..|ps| - 1];
      AdvancedFacts(init);
      forall q ensures q in Advanced(ps) <==> q.progress < 1.0 && exists p :: p in ps && q == Step(p) {
        if q.progress < 1.0 && exists p :: p in ps && q == Step(p) {
          var p :| p in ps && q == Step(p);
          if p != ps[|ps| - 1] {
            assert p in init by {
              var i :| 0 <= i < |ps| && ps[i] == p;
              assert init[i] == p;
            }
          }
        }
        if q in Advanced(init) {
          var p :| p in init && q == Step(p);
          assert p in ps;
        }
      }
    }
  }

  /** Advancing valid pulses leaves valid pulses short of their target. */
  lemma AdvancedOk(ps: seq<Pulse>)
    requires forall p :: p in ps ==> PulseOk(p)
    ensures |Advanced(ps)| <= |ps|
    ensures forall q :: q in Advanced(ps) ==> PulseOk(q) && q.progress < 1.0
  {
    AdvancedFacts(ps);
    forall q | q in Advanced(ps) ensures PulseOk(q) {
      var p :| p in ps && q == Step(p);
    }
  }

  // ---------------------------------------------------------------- selection

  /** The selected neuron and region. */
  datatype Selection = Selection(neuron: Option<NeuronKey>, region: Option<Region>)

  /** `handleCanvasClick`: clicking the selected neuron or empty space clears, clicking another neuron selects it and its region. */
  function Click(hovered: Option<Neuron>, sel: Selection): (r: Selection)
    ensures hovered.None? ==> r == Selection(None, None)
    ensures hovered.Some? && sel.neuron == Some(hovered.value.id) ==> r == Selection(None, None)
    ensures hovered.Some? && sel.neuron != Some(hovered.value.id) ==>
      r == Selection(Some(hovered.value.id), Some(hovered.value.region))
  {
    match hovered
    case None => Selection(None, None)
    case Some(h) => if sel.neuron == Some(h.id) then Selection(None, None) else Selection(Some(h.id), Some(h.region))
  }

  /** Clicking the same neuron twice toggles it: back to nothing selected, unless it was selected to begin with. */
  lemma ClickTwice(h: Neuron, sel: Selection)
    ensures Click(Some(h), Click(Some(h), sel)) ==
      (if sel.neuron == Some(h.id) then Selection(Some(h.id), Some(h.region)) else Selection(None, None))
  {
  }

  // ---------------------------------------------------------------- the brain shell

  /** The region that colours a shell point: a priority ladder over y, z and |x|; it never yields the cerebellum. */
  function ShellRegion(x: real, y: real, z: real): (r: Region)
    ensures r == Occipital <==> y > 100.0
    ensures r == Parietal <==> y <= 100.0 && z > 80.0
    ensures r == Temporal <==> y <= 100.0 && -30.0 <= z <= 80.0 && Abs(x) > 100.0
    ensures r == Frontal <==> y <= 100.0 && (z < -30.0 || (z <= 80.0 && Abs(x) <= 100.0))
    ensures r != Cerebellum
  {
    if y > 100.0 then Occipital
    else if z < -30.0 then Frontal
    else if z > 80.0 then Parietal
    else if Abs(x) > 100.0 then Temporal
    else Frontal
  }

  // ---------------------------------------------------------------- picking

  /** The mouse position and the view the neurons are projected with. */
  datatype View = View(rot: Projector.Rotation, width: real, height: real, fov: real, mx: real, my: real)

  /**
   * The distance from the mouse to a neuron's projection, through the copy of the
   * projector without the depth floor; a point on the eye plane has none (its
   * distance is Infinity or NaN, which never compares below the radius).
   */
  function ScreenDist(m: MathLib, v: View, p: Vec3): Option<real> {
    match Projector.ProjectUnfloored(m, p, v.rot, v.width, v.height, v.fov)
    case None => None
    case Some(q) => Some(m.sqrt((q.x - v.mx) * (q.x - v.mx) + (q.y - v.my) * (q.y - v.my)))
  }

  /** A distance that exists and is below `bound`. */
  predicate Below(d: Option<real>, bound: real) {
    d.Some? && d.value < bound
  }

  /** The distance function the hover scan uses for a view. */
  function HoverDist(m: MathLib, v: View): Vec3 -> Option<real> {
    p => ScreenDist(m, v, p)
  }

  /**
   * The hover rule: none when no neuron is below 12; otherwise neuron `best`,
   * at the smallest distance, and the first neuron at that distance.
   */
  predicate Picked(dist: Vec3 -> Option<real>, ns: seq<Neuron>, found: Option<Neuron>, best: int) {
    (found.None? ==> forall j :: 0 <= j < |ns| ==> !Below(dist(ns[j].pos), 12.0)) &&
    (found.Some? ==>
      0 <= best < |ns| && found == Some(ns[best]) && Below(dist(ns[best].pos), 12.0) &&
      (forall j :: 0 <= j < |ns| ==> !Below(dist(ns[j].pos), dist(ns[best].pos).value)) &&
      (forall j :: 0 <= j < best ==> dist(ns[j].pos) != dist(ns[best].pos)))
  }

  /** What the hover scan knows after the first i neurons. */
  predicate Scanned(dist: Vec3 -> Option<real>, ns: seq<Neuron>, found: Option<Neuron>, best: int, minDist: real, i: int) {
    0 <= i <= |ns| &&
    (found.None? ==> minDist == 12.0 && forall j :: 0 <= j < i ==> !Below(dist(ns[j].pos), 12.0)) &&
    (found.Some? ==>
      0 <= best < i && found == Some(ns[best]) && dist(ns[best].pos) == Some(minDist) && minDist < 12.0 &&
      (forall j :: 0 <= j < i ==> !Below(dist(ns[j].pos), minDist)) &&
      (forall j :: 0 <= j < best ==> !Below(dist(ns[j].pos), minDist) && dist(ns[j].pos) != Some(minDist)))
  }

  // ---------------------------------------------------------------- the scene

  const MinZoom: real := 0.4
  const MaxZoom: real := 2.5
  /** At most this many pulses are in flight: spawning stops at 1500 and each neuron adds at most one. */
  const PulseCap: nat := 1499 + NeuronCount

  class Connectome {
    var neurons: seq<Neuron>
    var pulses: seq<Pulse>
    var time: real
    var rotation: Projector.Rotation
    var zoom: real
    var isDragging: bool
    var lastMouse: (real, real)
    var hovered: Option<Neuron>
    var selection: Selection

    /** The scene's invariant between frames. */
    ghost predicate Valid()
      reads this
    {
      Laid(neurons) && WellWired(neurons) &&
      (forall i :: 0 <= i < |neurons| ==> 0.0 <= neurons[i].flash <= 1.0) &&
      (forall p :: p in pulses ==> PulseOk(p) && p.progress < 1.0) &&
      |pulses| <= PulseCap &&
      MinZoom <= zoom <= MaxZoom
    }

    /** The mounted component before its first effect: rotation (0.3, −0.4), zoom 0.85, nothing hovered or selected. */
    constructor ()
      ensures neurons == [] && pulses == [] && time == 0.0
      ensures rotation == Projector.Rotation(0.3, -0.4) && zoom == 0.85
      ensures !isDragging && lastMouse == (0.0, 0.0) && hovered == None && selection == Selection(None, None)
    {
      neurons, pulses, time := [], [], 0.0;
      rotation, zoom := Projector.Rotation(0.3, -0.4), 0.85;
      isDragging, lastMouse := false, (0.0, 0.0);
      hovered, selection := None, Selection(None, None);
    }

    /** `initConnectome`: place the 510 neurons, wire them, and drop every pulse. */
    method InitConnectome(rnd: RandomStream, k0: nat) returns (k: nat)
      requires MinZoom <= zoom <= MaxZoom
      modifies this
      ensures var w := WireUpTo(Placed(rnd, k0), NeuronCount, rnd, k0 + 8 * NeuronCount);
        neurons == w.0 && k == w.1
      ensures pulses == [] && Valid()
      ensures IsUnitStream(rnd) ==> forall i :: 0 <= i < |neurons| ==> |neurons[i].connections| <= 6
      ensures time == old(time) && rotation == old(rotation) && zoom == old(zoom) && isDragging == old(isDragging)
      ensures lastMouse == old(lastMouse) && hovered == old(hovered) && selection == old(selection)
    {
      var placed := Place(rnd, k0);
      PlacedFacts(rnd, k0);
      WireUpToFacts(placed, NeuronCount, rnd, k0 + 8 * NeuronCount);
      if IsUnitStream(rnd) {
        WireUpToBound(placed, NeuronCount, rnd, k0 + 8 * NeuronCount);
      }
      var ns;
      ns, k := Wire(placed, rnd, k0 + 8 * NeuronCount);
      WireUpToKeeps(placed, NeuronCount, rnd, k0 + 8 * NeuronCount);
      assert forall i :: 0 <= i < |ns| ==> ns[i].flash == placed[i].flash;
      neurons := ns;
      pulses := [];
    }

    /** The placement loops: region by region, `count` neurons each, eight draws per neuron. */
    static method Place(rnd: RandomStream, k0: nat) returns (ns: seq<Neuron>)
      ensures ns == Placed(rnd, k0)
    {
      ns := [];
      var regions := [Frontal, Parietal, Temporal, Occipital, Cerebellum];
      var ri := 0;
      while ri < 5
        invariant 0 <= ri <= 5
        invariant |ns| == (if ri == 5 then NeuronCount else RegionStart(regions[ri]))
        invariant ns == Placed(rnd, k0)[..|ns|]
      {
        var region := regions[ri];
        var i := 0;
        while i < RegionCount(region)
          invariant 0 <= i <= RegionCount(region) && |ns| == RegionStart(region) + i
          invariant ns == Placed(rnd, k0)[..|ns|]
        {
          RegionBlocks(|ns|, region);
          PlacedIs(rnd, k0, |ns|);
          PrefixSnoc(Placed(rnd, k0), |ns|);
          ns := ns + [MakeNeuron(|ns|, rnd, k0 + 8 * |ns|)];
          i := i + 1;
        }
        ri := ri + 1;
      }
      assert Placed(rnd, k0)[..NeuronCount] == Placed(rnd, k0);
    }

    /** The wiring loop: each neuron in turn gets its connections. */
    static method Wire(ns0: seq<Neuron>, rnd: RandomStream, k0: nat) returns (ns: seq<Neuron>, k: nat)
      ensures (ns, k) == WireUpTo(ns0, |ns0|, rnd, k0)
    {
      ns, k := ns0, k0;
      var i := 0;
      while i < |ns0|
        invariant 0 <= i <= |ns0|
        invariant (ns, k) == WireUpTo(ns0, i, rnd, k0)
      {
        var n := ns[i];
        var cs;
        cs, k := WireOne(ns, n, rnd, k);
        ns := ns[i := n.(connections := cs)];
        i := i + 1;
      }
    }

    /** The attempts loop of one neuron: `3 + floor(draw·4)` attempts, long-range with probability 0.06. */
    static method WireOne(pool: seq<Neuron>, n: Neuron, rnd: RandomStream, k0: nat) returns (cs: seq<NeuronKey>, k: nat)
      ensures (cs, k) == Wiring(pool, n, rnd, k0)
    {
      var numConn := ConnCount(rnd(k0));
      cs, k := [], k0 + 1;
      var j := 0;
      while j < numConn
        invariant 0 <= j <= numConn
        invariant (cs, k) == Attempts(pool, n, j, rnd, k0 + 1)
      {
        var target := DrawTarget(pool, n, rnd, k);
        var a := if target.Some? && target.value.id != n.id then Some(target.value.id) else None;
        AttemptsStep(pool, n, j, rnd, k0 + 1, cs, k, a);
        if a.Some? {
          cs := cs + [a.value];
        }
        k := k + 2;
        j := j + 1;
      }
    }

    /** The target of one attempt: anywhere when the draw exceeds 0.94, else in n's region other than n. */
    static method DrawTarget(pool: seq<Neuron>, n: Neuron, rnd: RandomStream, k: nat) returns (target: Option<Neuron>)
      ensures (if target.Some? && target.value.id != n.id then Some(target.value.id) else None) == Attempt(pool, n, rnd, k)
    {
      var isLongRange := rnd(k) > 0.94;
      if isLongRange {
        target := At(pool, RandomIndex(rnd(k + 1), |pool|));
      } else {
        var sameRegion := SameRegion(pool, n);
        target := At(sameRegion, RandomIndex(rnd(k + 1), |sameRegion|));
      }
    }

    /**
     * One frame: nothing while paused; otherwise the clock advances, flashes fade,
     * neurons fire while fewer than 1500 pulses are in flight, and every pulse
     * (the new ones too) advances, those arriving being dropped.
     */
    method Tick(paused: bool, rateMult: real, speedMult: real, rnd: RandomStream, k0: nat) returns (k: nat)
      requires Valid()
      modifies this
      ensures Valid()
      ensures paused ==> neurons == old(neurons) && pulses == old(pulses) && time == old(time) && k == k0
      ensures !paused ==>
        var faded := FlashFaded(old(neurons));
        var sp := if |old(pulses)| < 1500 then Spawned(faded, rateMult, speedMult, rnd, k0) else (faded, [], k0);
        time == old(time) + 0.016 && neurons == sp.0 && pulses == Advanced(old(pulses) + sp.1) && k == sp.2
      ensures rotation == old(rotation) && zoom == old(zoom) && isDragging == old(isDragging)
      ensures lastMouse == old(lastMouse) && hovered == old(hovered) && selection == old(selection)
    {
      k := k0;
      if paused {
        return;
      }
      time := time + 0.016;
      var ns := FadeFlashes(neurons);
      var added: seq<Pulse> := [];
      if |pulses| < 1500 {
        ns, added, k := SpawnLoop(ns, rateMult, speedMult, rnd, k);
      }
      FrameNeuronsOk(neurons, |pulses| < 1500, rateMult, speedMult, rnd, k0);
      var all := pulses + added;
      var live := AdvanceLoop(all);
      AdvancedOk(all);
      neurons := ns;
      pulses := live;
    }

    /** The flash loop over the neurons. */
    static method FadeFlashes(ns0: seq<Neuron>) returns (ns: seq<Neuron>)
      ensures ns == FlashFaded(ns0)
    {
      ns := ns0;
      var i := 0;
      while i < |ns|
        invariant 0 <= i <= |ns| == |ns0|
        invariant forall j :: 0 <= j < i ==> ns[j] == ns0[j].(flash := FadeFlash(ns0[j].flash))
        invariant forall j :: i <= j < |ns| ==> ns[j] == ns0[j]
      {
        var n := ns[i];
        if n.flash > 0.0 {
          n := n.(flash := n.flash - 0.05);
          if n.flash < 0.0 {
            n := n.(flash := 0.0);
          }
        }
        ns := ns[i := n];
        i := i + 1;
      }
    }

    /** The spawn loop: each neuron in order may fire, updating itself in place. */
    static method SpawnLoop(ns0: seq<Neuron>, rateMult: real, speedMult: real, rnd: RandomStream, k0: nat)
      returns (ns: seq<Neuron>, added: seq<Pulse>, k: nat)
      ensures (ns, added, k) == Spawned(ns0, rateMult, speedMult, rnd, k0)
    {
      ns, added, k := ns0, [], k0;
      var i := 0;
      while i < |ns0|
        invariant 0 <= i <= |ns0|
        invariant (ns, added, k) == SpawnUpTo(ns0, i, rateMult, speedMult, rnd, k0)
      {
        var n, ps;
        n, ps, k := SpawnStep(ns[i], rateMult, speedMult, rnd, k);
        ns := ns[i := n];
        added := added + ps;
        i := i + 1;
      }
    }

    /** The callback on one neuron: a chance draw, then a connection drawn, flash and pulse if there is one. */
    static method SpawnStep(n0: Neuron, rateMult: real, speedMult: real, rnd: RandomStream, k0: nat)
      returns (n: Neuron, ps: seq<Pulse>, k: nat)
      ensures (n, ps, k) == SpawnOne(n0, rateMult, speedMult, rnd, k0)
    {
      n, ps := n0, [];
      if rnd(k0) < Chance(n.firingRate, rateMult) {
        var targetId := At(n.connections, RandomIndex(rnd(k0 + 1), |n.connections|));
        if targetId.Some? {
          n := n.(flash := 1.0);
          ps := [Pulse(n.id, targetId.value, 0.0, PulseSpeed(rnd(k0 + 2), speedMult))];
          k := k0 + 3;
        } else {
          k := k0 + 2;
        }
      } else {
        k := k0 + 1;
      }
    }

    /** The pulse filter loop. */
    static method AdvanceLoop(ps: seq<Pulse>) returns (live: seq<Pulse>)
      ensures live == Advanced(ps)
    {
      live := [];
      var i := 0;
      while i < |ps|
        invariant 0 <= i <= |ps|
        invariant live == Advanced(ps[..i])
      {
        assert ps[..i + 1][..i] == ps[..i];
        var p := ps[i];
        p := p.(progress := p.progress + p.speed);
        if p.progress < 1.0 {
          live := live + [p];
        }
        i := i + 1;
      }
      assert ps[..i] == ps;
    }

    /** The hover scan: the first neuron at the smallest distance below 12, else none. */
    static method Pick(dist: Vec3 -> Option<real>, ns: seq<Neuron>) returns (found: Option<Neuron>, ghost best: int)
      ensures Picked(dist, ns, found, best)
      ensures found.None? <==> forall j :: 0 <= j < |ns| ==> !Below(dist(ns[j].pos), 12.0)
      ensures found.Some? ==> found.value in ns
    {
      found, best := None, -1;
      var minDist := 12.0;
      var i := 0;
      while i < |ns|
        invariant Scanned(dist, ns, found, best, minDist, i)
      {
        var d := dist(ns[i].pos);
        if d.Some? && d.value < minDist {
          minDist := d.value;
          found, best := Some(ns[i]), i;
        }
        i := i + 1;
      }
    }

    /** `onMouseDown`: a drag starts at the pressed client position. */
    method MouseDown(cx: real, cy: real)
      modifies this
      ensures isDragging && lastMouse == (cx, cy)
      ensures neurons == old(neurons) && pulses == old(pulses) && time == old(time) && rotation == old(rotation)
      ensures zoom == old(zoom) && hovered == old(hovered) && selection == old(selection)
    {
      isDragging := true;
      lastMouse := (cx, cy);
    }

    /** `onMouseUp`: the drag ends. */
    method MouseUp()
      modifies this
      ensures !isDragging && lastMouse == old(lastMouse)
      ensures neurons == old(neurons) && pulses == old(pulses) && time == old(time) && rotation == old(rotation)
      ensures zoom == old(zoom) && hovered == old(hovered) && selection == old(selection)
    {
      isDragging := false;
    }

    /**
     * `handleMouseMove`: a drag turns the camera by 0.005 per pixel, pitch
     * unclamped; otherwise the hovered neuron is picked again (fov `750·zoom`).
     */
    method MouseMove(cx: real, cy: real, left: real, top: real, m: MathLib) returns (ghost best: int)
      modifies this
      ensures old(isDragging) ==>
        rotation == Projector.Rotation(old(rotation).pitch + (cy - old(lastMouse).1) * 0.005,
                                       old(rotation).yaw + (cx - old(lastMouse).0) * 0.005) &&
        lastMouse == (cx, cy) && hovered == old(hovered)
      ensures !old(isDragging) ==> rotation == old(rotation) && lastMouse == old(lastMouse)
      ensures !old(isDragging) ==>
        Picked(HoverDist(m, View(rotation, 800.0, 600.0, 750.0 * zoom, cx - left, cy - top)), neurons, hovered, best)
      ensures neurons == old(neurons) && pulses == old(pulses) && time == old(time) && isDragging == old(isDragging)
      ensures zoom == old(zoom) && selection == old(selection)
    {
      best := -1;
      if isDragging {
        var dx, dy := cx - lastMouse.0, cy - lastMouse.1;
        rotation := Projector.Rotation(rotation.pitch + dy * 0.005, rotation.yaw + dx * 0.005);
        lastMouse := (cx, cy);
        return;
      }
      var v := View(rotation, 800.0, 600.0, 750.0 * zoom, cx - left, cy - top);
      var found;
      found, best := Pick(HoverDist(m, v), neurons);
      hovered := found;
    }

    /** `handleCanvasClick`. */
    method CanvasClick()
      modifies this
      ensures selection == Click(old(hovered), old(selection))
      ensures neurons == old(neurons) && pulses == old(pulses) && time == old(time) && rotation == old(rotation)
      ensures zoom == old(zoom) && hovered == old(hovered) && isDragging == old(isDragging) && lastMouse == old(lastMouse)
    {
      if hovered.Some? {
        if selection.neuron == Some(hovered.value.id) {
          selection := Selection(None, None);
        } else {
          selection := Selection(Some(hovered.value.id), Some(hovered.value.region));
        }
      } else {
        selection := Selection(None, None);
      }
    }

    /** The reset button: a fresh connectome and nothing selected. */
    method ResetButton(rnd: RandomStream, k0: nat) returns (k: nat)
      requires MinZoom <= zoom <= MaxZoom
      modifies this
      ensures var w := WireUpTo(Placed(rnd, k0), NeuronCount, rnd, k0 + 8 * NeuronCount);
        neurons == w.0 && k == w.1
      ensures Valid() && pulses == [] && selection == Selection(None, None)
      ensures time == old(time) && rotation == old(rotation) && zoom == old(zoom) && isDragging == old(isDragging)
      ensures lastMouse == old(lastMouse) && hovered == old(hovered)
    {
      k := InitConnectome(rnd, k0);
      selection := Selection(None, None);
    }

    /** The zoom buttons: steps of 0.1 within [0.4, 2.5]. */
    method ZoomButton(zoomIn: bool)
      requires Valid()
      modifies this
      ensures zoom == (if zoomIn then Camera.ZoomIn(old(zoom), MaxZoom) else Camera.ZoomOut(old(zoom), MinZoom))
      ensures Valid()
      ensures neurons == old(neurons) && pulses == old(pulses) && time == old(time) && rotation == old(rotation)
      ensures hovered == old(hovered) && selection == old(selection) && isDragging == old(isDragging) && lastMouse == old(lastMouse)
    {
      Camera.ZoomStaysInRange(zoom, MinZoom, MaxZoom);
      zoom := if zoomIn then Camera.ZoomIn(zoom, MaxZoom) else Camera.ZoomOut(zoom, MinZoom);
    }
  }
}
