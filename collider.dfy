/**
 * The collider scene: an event generator that fills the detector with helical
 * tracks and calorimeter deposits, an event clock, a particle-type filter, and
 * hover picking over the part of each track revealed so far.
 */
module Collider {
  import opened Wrappers
  import opened Numeric
  import Projector
  import Camera

  datatype ParticleType = Muon | Electron | Pion | Photon | Neutrino | Jet | Quark | Gluon | WBoson
  datatype EventType = Higgs | QCD | WDecay
  datatype CaloLayer = ECAL | HCAL

  /** A track; its random base-36 id is kept as the draw it was printed from. */
  datatype Track = Track(
    id: real, kind: ParticleType, pT: real, phi: real, eta: real,
    charge: int, energy: real, points: seq<Vec3>, isVertex: bool)

  datatype Deposit = Deposit(theta: real, phi: real, energy: real, layer: CaloLayer)

  /** The filter the scene starts with: every particle type. */
  const AllTypes: seq<ParticleType> := [Muon, Electron, Pion, Photon, Neutrino, Jet, Quark, Gluon, WBoson]

  /** The scene's zoom range. */
  const MinZoom: real := 0.3
  const MaxZoom: real := 2.5

  lemma AllTypesComplete(t: ParticleType)
    ensures t in AllTypes
  {
  }

  /** The particle types whose tracks bend in the field. */
  predicate Charged(t: ParticleType) {
    t == Muon || t == Electron || t == Pion || t == Quark
  }

  /** The charge `createTrack` gives a type, using one draw only for charged types. */
  function ChargeOf(t: ParticleType, draw: real): (c: int)
    ensures Charged(t) ==> (c == 1 || c == -1) && (c == 1 <==> draw > 0.5)
    ensures !Charged(t) ==> c == 0
  {
    if Charged(t) then (if draw > 0.5 then 1 else -1) else 0
  }

  /** How far a track runs: the short jets of partons, and the full detector radius for the rest. */
  function MaxRadius(t: ParticleType): (r: real)
    ensures t == Quark || t == Gluon || t == WBoson ==> r == 80.0
    ensures !(t == Quark || t == Gluon || t == WBoson) ==> r == 450.0
  {
    if t == Quark || t == Gluon || t == WBoson then 80.0 else 450.0
  }

  /** The polar angle of a pseudorapidity: `2·atan(exp(−η))`. */
  function Theta(m: MathLib, eta: real): real {
    2.0 * m.atan(m.exp(-eta))
  }

  function Curvature(field: real, charge: int, pT: real): real
    requires pT + 0.01 != 0.0
  {
    0.28 * field * charge as real / (pT + 0.01)
  }

  /** A track's energy from its transverse momentum and pseudorapidity: `pT·cosh(η)`. */
  function Energy(m: MathLib, pT: real, eta: real): real {
    pT * m.cosh(eta)
  }

  /** The radial parameter of the i-th of 100 track points. */
  function RadialParam(i: nat, maxR: real): real {
    (i as real / 100.0) * maxR
  }

  /** The points start at r = 0 and are spaced maxR/100 apart, all short of maxR. */
  lemma RadialParamSpacing(i: nat, maxR: real)
    requires maxR > 0.0
    ensures RadialParam(0, maxR) == 0.0
    ensures RadialParam(i + 1, maxR) - RadialParam(i, maxR) == maxR / 100.0
    ensures i < 100 ==> 0.0 <= RadialParam(i, maxR) < maxR
  {
    var a := i as real / 100.0;
    var b := (i + 1) as real / 100.0;
    assert b == a + 0.01;
    assert RadialParam(i, maxR) == a * maxR && RadialParam(i + 1, maxR) == b * maxR;
    assert b * maxR == a * maxR + 0.01 * maxR;
    assert 0.01 * maxR == maxR / 100.0;
    MulMonotone(0.0, a, maxR);
    if i < 100 {
      assert a < 1.0;
      MulStrict(a, 1.0, maxR);
    }
  }

  /** The point at radial parameter r on a helix that leaves the origin at polar angle θ and azimuth φ. */
  function TrackPoint(m: MathLib, theta: real, phi: real, curvature: real, r: real): Vec3 {
    var localPhi := phi + r * curvature * 0.05;
    Vec3(r * m.sin(theta) * m.cos(localPhi), r * m.sin(theta) * m.sin(localPhi), r * m.cos(theta))
  }

  /** The first n points of a track, at radial parameters RadialParam(0..n−1). */
  function TrackPoints(m: MathLib, theta: real, phi: real, curvature: real, maxR: real, n: nat): (ps: seq<Vec3>)
    ensures |ps| == n
  {
    if n == 0 then []
    else TrackPoints(m, theta, phi, curvature, maxR, n - 1) + [TrackPoint(m, theta, phi, curvature, RadialParam(n - 1, maxR))]
  }

  /** The j-th track point lies on the helix at radial parameter j·maxR/100; the first is the origin. */
  lemma {:induction false} TrackPointsAt(m: MathLib, theta: real, phi: real, curvature: real, maxR: real, n: nat, j: nat)
    requires j < n
    ensures TrackPoints(m, theta, phi, curvature, maxR, n)[j] == TrackPoint(m, theta, phi, curvature, RadialParam(j, maxR))
    ensures j == 0 ==> TrackPoints(m, theta, phi, curvature, maxR, n)[j] == Vec3(0.0, 0.0, 0.0)
  {
    if j < n - 1 {
      TrackPointsAt(m, theta, phi, curvature, maxR, n - 1, j);
    }
    if j == 0 {
      assert RadialParam(0, maxR) == 0.0;
      TrackPointAtOrigin(m, theta, phi, curvature);
    }
  }

  /** Every helix starts at the interaction point. */
  lemma TrackPointAtOrigin(m: MathLib, theta: real, phi: real, curvature: real)
    ensures TrackPoint(m, theta, phi, curvature, 0.0) == Vec3(0.0, 0.0, 0.0)
  {
  }

  /** The number of partons, leptons and hadrons of each event type (and always 4 photons). */
  function NumPartons(ev: EventType): nat { if ev == QCD then 6 else 2 }

  function NumLeptons(ev: EventType): nat {
    match ev
    case Higgs => 4
    case WDecay => 2
    case QCD => 0
  }

  function NumHadrons(ev: EventType): nat { if ev == QCD then 60 else 35 }

  function TrackCount(ev: EventType): nat {
    NumPartons(ev) + NumLeptons(ev) + NumHadrons(ev) + 4
  }

  lemma EventSizes()
    ensures TrackCount(Higgs) == 45 && TrackCount(QCD) == 70 && TrackCount(WDecay) == 43
  {
  }

  /** The type of the i-th track of an event: partons, then leptons, then pions, then four photons. */
  predicate TypeAt(ev: EventType, i: int, t: ParticleType) {
    var np, nl, nh := NumPartons(ev), NumLeptons(ev), NumHadrons(ev);
    if i < np then t == Quark || t == Gluon
    else if i < np + nl then
      (if ev == Higgs then t == (if (i - np) % 2 == 0 then Muon else Electron)
       else t == (if i == np then Electron else Neutrino))
    else if i < np + nl + nh then t == Pion
    else t == Photon
  }

  /** The deposits of one calorimeter layer, counted. */
  function CountLayer(ds: seq<Deposit>, layer: CaloLayer): (n: nat)
    ensures n <= |ds|
  {
    if ds == [] then 0
    else CountLayer(ds[..|ds| - 1], layer) + (if ds[|ds| - 1].layer == layer then 1 else 0)
  }

  lemma CountLayerPush(ds: seq<Deposit>, d: Deposit, layer: CaloLayer)
    ensures CountLayer(ds + [d], layer) == CountLayer(ds, layer) + (if d.layer == layer then 1 else 0)
  {
    assert (ds + [d])[..|ds|] == ds;
  }

  /** Every deposit is in one of the two layers. */
  lemma {:induction false} CountLayerSplit(ds: seq<Deposit>)
    ensures CountLayer(ds, ECAL) + CountLayer(ds, HCAL) == |ds|
  {
    if ds != [] {
      CountLayerSplit(ds[..|ds| - 1]);
    }
  }

  /** A photon's ECAL deposit: same azimuth and all of its energy. */
  predicate PhotonDeposit(t: Track, d: Deposit) {
    d.layer == ECAL && d.phi == t.phi && d.energy == t.energy
  }

  /** What the mouse is over and how the scene is viewed. */
  datatype View = View(rot: Projector.Rotation, width: real, height: real, fov: real, mx: real, my: real)

  /** The on-screen distance from the mouse to a point, through the floored projector. */
  function ScreenDist(m: MathLib, v: View, p: Vec3): real {
    var q := Projector.Project(m, p, v.rot, v.width, v.height, v.fov, false);
    m.sqrt((q.x - v.mx) * (q.x - v.mx) + (q.y - v.my) * (q.y - v.my))
  }

  /** How many draws `createTrack` takes before the charge: one for each of η and φ it is not given. */
  function DrawsBeforeCharge(eta: Option<real>, phi: Option<real>): nat {
    (if eta.None? then 1 else 0) + (if phi.None? then 1 else 0)
  }

  /** The distance function the hover scan uses for a view. */
  function HoverDist(m: MathLib, v: View): Vec3 -> real {
    p => ScreenDist(m, v, p)
  }

  /** How many of n points are revealed at clock progress p ∈ [0, 1]: `Math.floor(n·p)`. */
  function RevealedCount(n: nat, progress: real): (c: int)
    requires 0.0 <= progress <= 1.0
    ensures 0 <= c <= n
    ensures progress == 1.0 ==> c == n
  {
    var x := n as real * progress;
    assert 0.0 <= x <= n as real by {
      MulMonotone(0.0, progress, n as real);
      MulMonotone(progress, 1.0, n as real);
      assert progress * n as real == x;
    }
    x.Floor
  }

  /** `toggleFilter`: drop every occurrence of a shown type, or append a hidden one. */
  function ToggleFilter(filter: seq<ParticleType>, t: ParticleType): (r: seq<ParticleType>)
    ensures t in r <==> t !in filter
    ensures forall u :: u != t ==> (u in r <==> u in filter)
  {
    if t in filter then RemoveAll(filter, t) else filter + [t]
  }

  function RemoveAll(s: seq<ParticleType>, t: ParticleType): (r: seq<ParticleType>)
    ensures t !in r
    ensures forall u :: u != t ==> (u in r <==> u in s)
    ensures |r| <= |s|
  {
    if s == [] then []
    else (if s[0] == t then [] else [s[0]]) + RemoveAll(s[1..], t)
  }

  /** Toggling a type twice shows exactly the types that were shown before. */
  lemma ToggleTwice(filter: seq<ParticleType>, t: ParticleType)
    ensures forall u :: u in ToggleFilter(ToggleFilter(filter, t), t) <==> u in filter
  {
  }

  /** One frame of the event clock while colliding: fast before the collision, slow after, capped at 2. */
  function NextEventTime(t: real): (r: real)
    ensures r <= 2.0
    ensures t <= 2.0 ==> t <= r
    ensures t < 2.0 ==> t < r
    ensures t < 0.0 ==> r == t + 0.035
    ensures 0.0 <= t <= 1.988 ==> r == t + 0.012
  {
    var speed := if t < 0.0 then 0.035 else 0.012;
    Min(2.0, t + speed)
  }

  class Collider {
    var tracks: seq<Track>
    var deposits: seq<Deposit>
    var eventTime: real
    var isColliding: bool
    var magneticField: real
    var filter: seq<ParticleType>
    var eventType: EventType
    var hovered: Option<Track>
    var rotation: Projector.Rotation
    var zoom: real
    var isDragging: bool
    var lastMouse: (real, real)

    constructor ()
      ensures tracks == [] && deposits == [] && eventTime == -1.5 && !isColliding
      ensures magneticField == 3.8 && filter == AllTypes && eventType == Higgs && hovered == None
      ensures rotation == Projector.Rotation(0.4, -0.6) && zoom == 0.85 && !isDragging
    {
      tracks := [];
      deposits := [];
      eventTime := -1.5;
      isColliding := false;
      magneticField := 3.8;
      filter := AllTypes;
      eventType := Higgs;
      hovered := None;
      rotation := Projector.Rotation(0.4, -0.6);
      zoom := 0.85;
      isDragging := false;
      lastMouse := (0.0, 0.0);
    }

    /** The charge draw of `createTrack`, taken only for charged types. */
    static method DrawCharge(kind: ParticleType, rnd: RandomStream, k0: nat) returns (charge: int, k: nat)
      ensures charge == ChargeOf(kind, rnd(k0)) && k == k0 + (if Charged(kind) then 1 else 0)
    {
      charge, k := ChargeOf(kind, rnd(k0)), k0;
      if Charged(kind) {
        k := k + 1;
      }
    }

    /**
     * `createTrack`: draws the missing η and φ, a charge for charged types and
     * an id, and lays out 100 helix points in the current field.
     */
    method CreateTrack(kind: ParticleType, pT: real, eta: Option<real>, phi: Option<real>, isVertex: bool,
                       m: MathLib, rnd: RandomStream, k0: nat) returns (t: Track, k: nat)
      requires IsUnitStream(rnd)
      requires pT + 0.01 != 0.0
      ensures t.kind == kind && t.pT == pT && t.isVertex == isVertex
      ensures eta.Some? ==> t.eta == eta.value
      ensures eta.None? ==> -2.5 <= t.eta < 2.5
      ensures phi.Some? ==> t.phi == phi.value
      ensures phi.None? ==> 0.0 <= t.phi < 2.0 * PI
      ensures (t.charge == 1 || t.charge == -1) <==> Charged(kind)
      ensures t.charge == 0 <==> !Charged(kind)
      ensures t.charge == ChargeOf(kind, rnd(k0 + DrawsBeforeCharge(eta, phi)))
      ensures t.energy == Energy(m, pT, t.eta)
      ensures |t.points| == 100
      ensures t.points == TrackPoints(m, Theta(m, t.eta), t.phi, Curvature(magneticField, t.charge, pT), MaxRadius(kind), 100)
      ensures t.points[0] == Vec3(0.0, 0.0, 0.0)
      ensures k0 < k
    {
      k := k0;
      var e: real;
      if eta.Some? {
        e := eta.value;
      } else {
        e := (rnd(k) - 0.5) * 5.0;
        k := k + 1;
      }
      var ph: real;
      if phi.Some? {
        ph := phi.value;
      } else {
        ph := rnd(k) * PI * 2.0;
        k := k + 1;
      }
      var theta := Theta(m, e);
      assert k == k0 + DrawsBeforeCharge(eta, phi);
      var charge;
      charge, k := DrawCharge(kind, rnd, k);
      var points := LayPoints(m, theta, ph, Curvature(magneticField, charge, pT), MaxRadius(kind));
      var id := rnd(k);
      k := k + 1;
      t := Track(id, kind, pT, ph, e, charge, Energy(m, pT, e), points, isVertex);
    }

    /** The `for (i = 0; i < 100; i++)` loop of `createTrack`: the 100 helix points, starting at the origin. */
    static method LayPoints(m: MathLib, theta: real, phi: real, curvature: real, maxR: real) returns (points: seq<Vec3>)
      ensures points == TrackPoints(m, theta, phi, curvature, maxR, 100)
      ensures points[0] == Vec3(0.0, 0.0, 0.0)
    {
      points := [];
      var i := 0;
      while i < 100
        invariant 0 <= i <= 100
        invariant points == TrackPoints(m, theta, phi, curvature, maxR, i)
      {
        points := points + [TrackPoint(m, theta, phi, curvature, RadialParam(i, maxR))];
        i := i + 1;
      }
      TrackPointsAt(m, theta, phi, curvature, maxR, 100, 0);
    }

    /** The tracks of an event so far follow the event's type layout. */
    ghost predicate Laid(ev: EventType, ts: seq<Track>) {
      forall i :: 0 <= i < |ts| ==>
        TypeAt(ev, i, ts[i].kind) && |ts[i].points| == 100 &&
        (ts[i].isVertex <==> i < NumPartons(ev) + NumLeptons(ev))
    }

    /** Appending a track of the kind its position expects keeps the event laid out. */
    lemma LaidSnoc(ev: EventType, ts: seq<Track>, t: Track)
      requires Laid(ev, ts) && TypeAt(ev, |ts|, t.kind) && |t.points| == 100
      requires t.isVertex <==> |ts| < NumPartons(ev) + NumLeptons(ev)
      ensures Laid(ev, ts + [t])
    {
      forall i | 0 <= i < |ts| + 1
        ensures TypeAt(ev, i, (ts + [t])[i].kind) && |(ts + [t])[i].points| == 100
        ensures ((ts + [t])[i].isVertex <==> i < NumPartons(ev) + NumLeptons(ev))
      {
        if i < |ts| { assert (ts + [t])[i] == ts[i]; }
      }
    }

    /** The parton jets every event starts with. */
    method AddPartons(ev: EventType, m: MathLib, rnd: RandomStream, k0: nat) returns (ts: seq<Track>, k: nat)
      requires IsUnitStream(rnd)
      ensures |ts| == NumPartons(ev) && Laid(ev, ts)
      ensures k0 + 3 * |ts| <= k
    {
      ts := [];
      k := k0;
      var n := if ev == QCD then 6 else 2;
      var i := 0;
      while i < n
        invariant 0 <= i <= n && |ts| == i && Laid(ev, ts)
        invariant k0 + 3 * i <= k
      {
        var kind := if rnd(k) > 0.4 then Quark else Gluon;
        var pT := 20.0 + rnd(k + 1) * 50.0;
        var t;
        t, k := CreateTrack(kind, pT, None, None, true, m, rnd, k + 2);
        LaidSnoc(ev, ts, t);
        ts := ts + [t];
        i := i + 1;
      }
    }

    /** The decay products: four alternating muons and electrons for a Higgs, an electron and a neutrino for a W. */
    method AddLeptons(ev: EventType, ts0: seq<Track>, m: MathLib, rnd: RandomStream, k0: nat) returns (ts: seq<Track>, k: nat)
      requires IsUnitStream(rnd)
      requires |ts0| == NumPartons(ev) && Laid(ev, ts0)
      ensures |ts| == NumPartons(ev) + NumLeptons(ev) && Laid(ev, ts) && ts[..|ts0|] == ts0
      ensures k0 + 4 * (|ts| - |ts0|) <= k
    {
      ts := ts0;
      k := k0;
      var np := |ts0|;
      if ev == Higgs {
        var phiOffset := rnd(k) * PI;
        k := k + 1;
        var i := 0;
        while i < 4
          invariant 0 <= i <= 4 && |ts| == np + i && Laid(ev, ts) && ts[..np] == ts0
          invariant k0 + 4 * i <= k
        {
          var isMuon := i % 2 == 0;
          var phi := phiOffset + (i as real * PI / 2.0) + (rnd(k) - 0.5) * 0.4;
          var pT := 60.0 + rnd(k + 1) * 120.0;
          var eta := (rnd(k + 2) - 0.5) * 2.0;
          var t;
          t, k := CreateTrack(if isMuon then Muon else Electron, pT, Some(eta), Some(phi), true, m, rnd, k + 3);
          LaidSnoc(ev, ts, t);
          assert (ts + [t])[..np] == ts[..np];
          ts := ts + [t];
          i := i + 1;
        }
      } else if ev == WDecay {
        ts, k := AddWLeptons(ts0, m, rnd, k0);
      }
    }

    /** The W decay's electron and neutrino, after the two partons. */
    method AddWLeptons(ts0: seq<Track>, m: MathLib, rnd: RandomStream, k0: nat) returns (ts: seq<Track>, k: nat)
      requires IsUnitStream(rnd)
      requires |ts0| == NumPartons(WDecay) && Laid(WDecay, ts0)
      ensures |ts| == |ts0| + 2 && Laid(WDecay, ts) && ts[..|ts0|] == ts0
      ensures k0 + 8 <= k
    {
      var t1, t2;
      t1, k := CreateTrack(Electron, 80.0 + rnd(k0) * 40.0, Some((rnd(k0 + 1) - 0.5) * 1.5), Some(rnd(k0 + 2) * 6.28), true, m, rnd, k0 + 3);
      t2, k := CreateTrack(Neutrino, 80.0 + rnd(k) * 40.0, Some((rnd(k + 1) - 0.5) * 1.5), Some(rnd(k + 2) * 6.28), true, m, rnd, k + 3);
      LaidSnoc(WDecay, ts0, t1);
      LaidSnoc(WDecay, ts0 + [t1], t2);
      ts := ts0 + [t1] + [t2];
      assert ts[..|ts0|] == ts0;
    }

    /** The soft pions, each leaving an HCAL deposit when its draw exceeds 0.6. */
    method AddHadrons(ev: EventType, ts0: seq<Track>, m: MathLib, rnd: RandomStream, k0: nat)
      returns (ts: seq<Track>, ds: seq<Deposit>, k: nat)
      requires IsUnitStream(rnd)
      requires |ts0| == NumPartons(ev) + NumLeptons(ev) && Laid(ev, ts0)
      ensures |ts| == |ts0| + NumHadrons(ev) && Laid(ev, ts) && ts[..|ts0|] == ts0
      ensures CountLayer(ds, ECAL) == 0 && CountLayer(ds, HCAL) == |ds| <= NumHadrons(ev)
      ensures k0 + 2 * (|ts| - |ts0|) <= k
    {
      ts := ts0;
      ds := [];
      k := k0;
      var n := if ev == QCD then 60 else 35;
      var j := 0;
      while j < n
        invariant 0 <= j <= n && |ts| == |ts0| + j && Laid(ev, ts) && ts[..|ts0|] == ts0
        invariant CountLayer(ds, ECAL) == 0 && CountLayer(ds, HCAL) == |ds| <= j
        invariant k0 + 2 * j <= k
      {
        var trk;
        trk, k := CreateTrack(Pion, 2.0 + rnd(k) * 20.0, None, None, false, m, rnd, k + 1);
        ts := ts + [trk];
        if rnd(k) > 0.6 {
          var d := Deposit(2.0 * m.atan(m.exp(-trk.eta)), trk.phi, trk.energy * (0.3 + rnd(k + 1) * 0.7), HCAL);
          CountLayerPush(ds, d, ECAL);
          CountLayerPush(ds, d, HCAL);
          ds := ds + [d];
          k := k + 2;
        } else {
          k := k + 1;
        }
        j := j + 1;
      }
    }

    /** The four photons, each with one ECAL deposit carrying its direction and energy. */
    method AddPhotons(ev: EventType, ts0: seq<Track>, ds0: seq<Deposit>, m: MathLib, rnd: RandomStream, k0: nat)
      returns (ts: seq<Track>, ds: seq<Deposit>, k: nat)
      requires IsUnitStream(rnd)
      requires |ts0| == NumPartons(ev) + NumLeptons(ev) + NumHadrons(ev) && Laid(ev, ts0)
      ensures |ts| == |ts0| + 4 && Laid(ev, ts) && ts[..|ts0|] == ts0
      ensures |ds| == |ds0| + 4 && ds[..|ds0|] == ds0
      ensures CountLayer(ds, ECAL) == CountLayer(ds0, ECAL) + 4 && CountLayer(ds, HCAL) == CountLayer(ds0, HCAL)
      ensures forall j :: |ds0| <= j < |ds| ==> PhotonDeposit(ts[j - |ds0| + |ts0|], ds[j])
      ensures k0 + 2 * (|ts| - |ts0|) <= k
    {
      ts := ts0;
      ds := ds0;
      k := k0;
      var i := 0;
      while i < 4
        invariant 0 <= i <= 4 && |ts| == |ts0| + i && Laid(ev, ts) && ts[..|ts0|] == ts0
        invariant |ds| == |ds0| + i && ds[..|ds0|] == ds0
        invariant CountLayer(ds, ECAL) == CountLayer(ds0, ECAL) + i && CountLayer(ds, HCAL) == CountLayer(ds0, HCAL)
        invariant forall j :: |ds0| <= j < |ds| ==> PhotonDeposit(ts[j - |ds0| + |ts0|], ds[j])
        invariant k0 + 2 * i <= k
      {
        var ph;
        ph, k := CreateTrack(Photon, 10.0 + rnd(k) * 40.0, None, None, false, m, rnd, k + 1);
        ts := ts + [ph];
        var d := Deposit(2.0 * m.atan(m.exp(-ph.eta)), ph.phi, ph.energy, ECAL);
        CountLayerPush(ds, d, ECAL);
        CountLayerPush(ds, d, HCAL);
        ds := ds + [d];
        i := i + 1;
      }
    }

    /**
     * An event of type ev as `generateEvent` builds it: its tracks follow the
     * type's layout (100 points each, exactly the partons and leptons from the
     * vertex), and its deposits are at most one HCAL deposit per pion followed
     * by one ECAL deposit per photon, with that photon's direction and energy.
     */
    static ghost predicate EventShape(ev: EventType, ts: seq<Track>, ds: seq<Deposit>) {
      |ts| == TrackCount(ev) &&
      (forall i :: 0 <= i < |ts| ==> TypeAt(ev, i, ts[i].kind) && |ts[i].points| == 100) &&
      (forall i :: 0 <= i < |ts| ==> (ts[i].isVertex <==> i < NumPartons(ev) + NumLeptons(ev))) &&
      CountLayer(ds, ECAL) == 4 && CountLayer(ds, HCAL) <= NumHadrons(ev) &&
      |ds| == CountLayer(ds, HCAL) + 4 &&
      (forall j :: |ds| - 4 <= j < |ds| ==> PhotonDeposit(ts[j - |ds| + |ts|], ds[j]))
    }

    /** The tracks and deposits of one event, in the order `generateEvent` pushes them. */
    method BuildEvent(ev: EventType, m: MathLib, rnd: RandomStream, k0: nat)
      returns (ts: seq<Track>, ds: seq<Deposit>, k: nat)
      requires IsUnitStream(rnd)
      ensures EventShape(ev, ts, ds)
      ensures k0 + 2 * |ts| <= k
    {
      ts, k := AddPartons(ev, m, rnd, k0);
      ts, k := AddLeptons(ev, ts, m, rnd, k);
      var hcal;
      ts, hcal, k := AddHadrons(ev, ts, m, rnd, k);
      ts, ds, k := AddPhotons(ev, ts, hcal, m, rnd, k);
    }

    /** `generateEvent(type)`: replaces the event and restarts the clock, colliding and with nothing hovered. */
    method GenerateEvent(ev: EventType, m: MathLib, rnd: RandomStream, k0: nat) returns (k: nat)
      requires IsUnitStream(rnd)
      modifies this`eventType, this`tracks, this`deposits, this`eventTime, this`isColliding, this`hovered
      ensures eventType == ev && eventTime == -1.5 && isColliding && hovered == None
      ensures EventShape(ev, tracks, deposits)
      ensures k0 + 2 * |tracks| <= k && k0 < k
      ensures filter == old(filter) && magneticField == old(magneticField)
      ensures rotation == old(rotation) && zoom == old(zoom) && isDragging == old(isDragging) && lastMouse == old(lastMouse)
    {
      var ts, ds;
      ts, ds, k := BuildEvent(ev, m, rnd, k0);
      tracks, deposits := ts, ds;
      eventType, eventTime, isColliding, hovered := ev, -1.5, true, None;
    }

    /** The clock step at the top of each frame, with its one throttle draw while colliding. */
    method AdvanceClock(rnd: RandomStream, k0: nat) returns (k: nat)
      modifies this
      ensures eventTime == (if old(isColliding) then NextEventTime(old(eventTime)) else old(eventTime))
      ensures k == if old(isColliding) then k0 + 1 else k0
      ensures tracks == old(tracks) && deposits == old(deposits) && isColliding == old(isColliding)
      ensures filter == old(filter) && hovered == old(hovered) && magneticField == old(magneticField)
      ensures eventType == old(eventType)
      ensures rotation == old(rotation) && zoom == old(zoom) && isDragging == old(isDragging) && lastMouse == old(lastMouse)
    {
      k := k0;
      if isColliding {
        var speed := if eventTime < 0.0 then 0.035 else 0.012;
        eventTime := Min(2.0, eventTime + speed);
        k := k + 1;
      }
    }

    /** The sampled point s of track ti is a hover candidate: the type is shown, s is revealed and a multiple of 4. */
    ghost predicate Candidate(ti: int, s: int)
      reads this`tracks, this`filter, this`eventTime
    {
      0 <= ti < |tracks| && tracks[ti].kind in filter && eventTime > 0.0 &&
      0 <= s < RevealedCount(|tracks[ti].points|, Min(1.0, eventTime)) && s % 4 == 0
    }

    ghost function CandidateDist(dist: Vec3 -> real, ti: int, s: int): real
      reads this`tracks, this`filter, this`eventTime
      requires Candidate(ti, s)
    {
      dist(tracks[ti].points[s])
    }

    /** (ti, s) comes strictly before (tj, sj) in the scan order. */
    static predicate Before(ti: int, s: int, tj: int, sj: int) {
      ti < tj || (ti == tj && s < sj)
    }

    /**
     * The hover rule: none when no candidate is below 18; otherwise the track of
     * candidate (bt, bs), at the smallest distance, with every earlier candidate farther.
     */
    ghost predicate Picked(dist: Vec3 -> real, found: Option<Track>, bt: int, bs: int)
      reads this`tracks, this`filter, this`eventTime
    {
      (found.None? ==> forall ti, s :: Candidate(ti, s) ==> CandidateDist(dist, ti, s) >= 18.0) &&
      (found.Some? ==>
        Candidate(bt, bs) && found == Some(tracks[bt]) && CandidateDist(dist, bt, bs) < 18.0 &&
        (forall ti, s :: Candidate(ti, s) ==> CandidateDist(dist, ti, s) >= CandidateDist(dist, bt, bs)) &&
        (forall ti, s :: Candidate(ti, s) && Before(ti, s, bt, bs) ==> CandidateDist(dist, ti, s) > CandidateDist(dist, bt, bs)))
    }

    /** The scan's state after every candidate before (ti, i) has been looked at. */
    ghost predicate Scanned(dist: Vec3 -> real, found: Option<Track>, bt: int, bs: int, minDist: real, ti: int, i: int)
      reads this
    {
      minDist <= 18.0 &&
      (forall tj, sj :: Candidate(tj, sj) && Before(tj, sj, ti, i) ==> CandidateDist(dist, tj, sj) >= minDist) &&
      (found.None? ==> minDist == 18.0) &&
      (found.Some? ==>
        Candidate(bt, bs) && Before(bt, bs, ti, i) && found == Some(tracks[bt]) &&
        minDist == CandidateDist(dist, bt, bs) && minDist < 18.0 &&
        (forall tj, sj :: Candidate(tj, sj) && Before(tj, sj, bt, bs) ==> CandidateDist(dist, tj, sj) > minDist))
    }

    /** The candidates of track ti are exactly its sampled points below RevealedCount, so all of them precede (ti + 1, 0). */
    lemma CandidatesOfTrack(ti: int, count: int)
      requires 0 <= ti < |tracks| && eventTime > 0.0
      requires count == RevealedCount(|tracks[ti].points|, Min(1.0, eventTime))
      ensures forall s :: Candidate(ti, s) <==> tracks[ti].kind in filter && 0 <= s < count && s % 4 == 0
    {
    }

    /** Between two sampled points 4 apart there is no other sampled point. */
    static lemma BeforeNext(tj: int, sj: int, ti: int, i: int)
      requires sj % 4 == 0 && i % 4 == 0 && Before(tj, sj, ti, i + 4)
      ensures Before(tj, sj, ti, i) || (tj == ti && sj == i)
    {
    }

    /** A scanned point no closer than the best so far leaves the best as it is. */
    lemma ScanKeep(dist: Vec3 -> real, found: Option<Track>, bt: int, bs: int, minDist: real, ti: int, i: int)
      requires i % 4 == 0 && Candidate(ti, i) && Scanned(dist, found, bt, bs, minDist, ti, i)
      requires CandidateDist(dist, ti, i) >= minDist
      ensures Scanned(dist, found, bt, bs, minDist, ti, i + 4)
    {
      forall tj, sj | Candidate(tj, sj) && Before(tj, sj, ti, i + 4)
        ensures CandidateDist(dist, tj, sj) >= minDist
      {
        BeforeNext(tj, sj, ti, i);
      }
    }

    /** A scanned point strictly closer than the best so far becomes the best. */
    lemma ScanTake(dist: Vec3 -> real, found: Option<Track>, bt: int, bs: int, minDist: real, ti: int, i: int)
      requires i % 4 == 0 && Candidate(ti, i) && Scanned(dist, found, bt, bs, minDist, ti, i)
      requires CandidateDist(dist, ti, i) < minDist
      ensures Scanned(dist, Some(tracks[ti]), ti, i, CandidateDist(dist, ti, i), ti, i + 4)
    {
      var d := CandidateDist(dist, ti, i);
      forall tj, sj | Candidate(tj, sj) && Before(tj, sj, ti, i + 4)
        ensures CandidateDist(dist, tj, sj) >= d
      {
        BeforeNext(tj, sj, ti, i);
      }
    }

    /** A sampled point below the revealed count of a shown track is a candidate, at its own distance. */
    lemma CandidateAt(dist: Vec3 -> real, ti: int, i: int, count: int)
      requires 0 <= ti < |tracks| && eventTime > 0.0 && tracks[ti].kind in filter
      requires count == RevealedCount(|tracks[ti].points|, Min(1.0, eventTime))
      requires 0 <= i < count && i % 4 == 0
      ensures Candidate(ti, i) && CandidateDist(dist, ti, i) == dist(tracks[ti].points[i])
    {
    }

    /** Past the revealed count of track ti, or on a hidden track, the scan moves on to track ti + 1. */
    lemma ScanTrackDone(dist: Vec3 -> real, found: Option<Track>, bt: int, bs: int, minDist: real, ti: int, i: int, count: int)
      requires 0 <= ti < |tracks| && eventTime > 0.0
      requires count == RevealedCount(|tracks[ti].points|, Min(1.0, eventTime))
      requires count <= i || tracks[ti].kind !in filter
      requires Scanned(dist, found, bt, bs, minDist, ti, i)
      ensures Scanned(dist, found, bt, bs, minDist, ti + 1, 0)
    {
      CandidatesOfTrack(ti, count);
      ScanRowDone(dist, found, bt, bs, minDist, ti, i);
    }

    /** Once every candidate of track ti is scanned, the scan is at the start of track ti + 1. */
    lemma ScanRowDone(dist: Vec3 -> real, found: Option<Track>, bt: int, bs: int, minDist: real, ti: int, i: int)
      requires Scanned(dist, found, bt, bs, minDist, ti, i)
      requires forall s :: Candidate(ti, s) ==> s < i
      ensures Scanned(dist, found, bt, bs, minDist, ti + 1, 0)
    {
    }

    /**
     * The inner loop of the hover scan, over the revealed points of track ti
     * with i += 4: afterwards every candidate up to the next track is looked at.
     */
    method ScanTrack(dist: Vec3 -> real, ti: int, found0: Option<Track>, ghost bt0: int, ghost bs0: int, minDist0: real)
      returns (found: Option<Track>, ghost bt: int, ghost bs: int, minDist: real)
      requires eventTime > 0.1 && 0 <= ti < |tracks|
      requires Scanned(dist, found0, bt0, bs0, minDist0, ti, 0)
      ensures Scanned(dist, found, bt, bs, minDist, ti + 1, 0)
    {
      found, bt, bs, minDist := found0, bt0, bs0, minDist0;
      var track := tracks[ti];
      var count := RevealedCount(|track.points|, Min(1.0, eventTime));
      if track.kind !in filter {
        ScanTrackDone(dist, found, bt, bs, minDist, ti, 0, count);
        return;
      }
      var i := 0;
      while i < count
        invariant 0 <= i && i % 4 == 0
        invariant Scanned(dist, found, bt, bs, minDist, ti, i)
      {
        var d := dist(track.points[i]);
        CandidateAt(dist, ti, i, count);
        if d < minDist {
          ScanTake(dist, found, bt, bs, minDist, ti, i);
          minDist := d;
          found := Some(track);
          bt, bs := ti, i;
        } else {
          ScanKeep(dist, found, bt, bs, minDist, ti, i);
        }
        i := i + 4;
      }
      ScanTrackDone(dist, found, bt, bs, minDist, ti, i, count);
    }

    /**
     * Hover picking in `handleMouseMove`: over the revealed points of the shown
     * tracks, every 4th one, the first track with the smallest distance strictly
     * below 18, or none. `dist` is the on-screen distance from the mouse.
     */
    method Pick(dist: Vec3 -> real) returns (found: Option<Track>, ghost bt: int, ghost bs: int)
      requires eventTime > 0.1
      ensures Picked(dist, found, bt, bs)
      ensures found.None? <==> forall ti, s :: Candidate(ti, s) ==> CandidateDist(dist, ti, s) >= 18.0
      ensures found.Some? ==> found.value in tracks && found.value.kind in filter
    {
      found := None;
      bt, bs := -1, -1;
      var minDist := 18.0;
      var ti := 0;
      while ti < |tracks|
        invariant 0 <= ti <= |tracks|
        invariant Scanned(dist, found, bt, bs, minDist, ti, 0)
      {
        found, bt, bs, minDist := ScanTrack(dist, ti, found, bt, bs, minDist);
        ti := ti + 1;
      }
      assert forall tj, sj :: Candidate(tj, sj) ==> Before(tj, sj, ti, 0);
    }

    /** `setHoveredTrack(found)` after the scan: only the hover changes. */
    method Rehover(dist: Vec3 -> real) returns (ghost bt: int, ghost bs: int)
      requires eventTime > 0.1
      modifies this`hovered
      ensures Picked(dist, hovered, bt, bs)
      ensures hovered.Some? ==> hovered.value in tracks && hovered.value.kind in filter
    {
      var found;
      found, bt, bs := Pick(dist);
      hovered := found;
    }

    /** `onMouseDown`: a drag starts at the pressed client position. */
    method MouseDown(cx: real, cy: real)
      modifies this
      ensures isDragging && lastMouse == (cx, cy)
      ensures tracks == old(tracks) && deposits == old(deposits) && eventTime == old(eventTime) && hovered == old(hovered)
      ensures filter == old(filter) && isColliding == old(isColliding) && magneticField == old(magneticField)
      ensures eventType == old(eventType) && zoom == old(zoom) && rotation == old(rotation)
    {
      isDragging := true;
      lastMouse := (cx, cy);
    }

    /** `onMouseUp`: the drag ends. */
    method MouseUp()
      modifies this
      ensures !isDragging && lastMouse == old(lastMouse)
      ensures tracks == old(tracks) && deposits == old(deposits) && eventTime == old(eventTime) && hovered == old(hovered)
      ensures filter == old(filter) && isColliding == old(isColliding) && magneticField == old(magneticField)
      ensures eventType == old(eventType) && zoom == old(zoom) && rotation == old(rotation)
    {
      isDragging := false;
    }

    /**
     * `handleMouseMove` at client position (cx, cy) over an 800 × 600 canvas whose
     * corner is at (left, top): a drag turns the camera by 0.005 rad per pixel
     * moved (no clamp in this scene); otherwise, once the clock is past 0.1, the
     * hover is recomputed by `Pick` with the distance through the floored projector.
     */
    method MouseMove(cx: real, cy: real, left: real, top: real, m: MathLib) returns (ghost bt: int, ghost bs: int)
      modifies this
      ensures old(isDragging) ==>
        rotation == Projector.Rotation(old(rotation).pitch + (cy - old(lastMouse).1) * 0.005,
                                       old(rotation).yaw + (cx - old(lastMouse).0) * 0.005) &&
        lastMouse == (cx, cy) && hovered == old(hovered)
      ensures !old(isDragging) ==> rotation == old(rotation) && lastMouse == old(lastMouse)
      ensures !old(isDragging) && old(eventTime) <= 0.1 ==> hovered == old(hovered)
      ensures !old(isDragging) && old(eventTime) > 0.1 ==>
        Picked(HoverDist(m, View(rotation, 800.0, 600.0, 750.0 * zoom, cx - left, cy - top)), hovered, bt, bs)
      ensures hovered.Some? && hovered != old(hovered) ==> hovered.value in tracks && hovered.value.kind in filter
      ensures tracks == old(tracks) && deposits == old(deposits) && eventTime == old(eventTime) && isDragging == old(isDragging)
      ensures filter == old(filter) && isColliding == old(isColliding) && magneticField == old(magneticField)
      ensures eventType == old(eventType) && zoom == old(zoom)
    {
      var mx, my := cx - left, cy - top;
      bt, bs := -1, -1;
      if isDragging {
        var dx, dy := cx - lastMouse.0, cy - lastMouse.1;
        rotation := Projector.Rotation(rotation.pitch + dy * 0.005, rotation.yaw + dx * 0.005);
        lastMouse := (cx, cy);
        return;
      }
      if eventTime > 0.1 {
        var v := View(rotation, 800.0, 600.0, 750.0 * zoom, mx, my);
        bt, bs := Rehover(HoverDist(m, v));
      }
    }

    /** The zoom buttons: steps of 0.1 within [0.3, 2.5]. */
    method ZoomButton(zoomIn: bool)
      modifies this
      ensures zoom == (if zoomIn then Camera.ZoomIn(old(zoom), MaxZoom) else Camera.ZoomOut(old(zoom), MinZoom))
      ensures MinZoom <= old(zoom) <= MaxZoom ==> MinZoom <= zoom <= MaxZoom
      ensures tracks == old(tracks) && deposits == old(deposits) && eventTime == old(eventTime) && hovered == old(hovered)
      ensures filter == old(filter) && isColliding == old(isColliding) && magneticField == old(magneticField)
      ensures eventType == old(eventType) && rotation == old(rotation) && isDragging == old(isDragging)
      ensures lastMouse == old(lastMouse)
    {
      if MinZoom <= zoom <= MaxZoom {
        Camera.ZoomStaysInRange(zoom, MinZoom, MaxZoom);
      }
      zoom := if zoomIn then Camera.ZoomIn(zoom, MaxZoom) else Camera.ZoomOut(zoom, MinZoom);
    }

    /** A click on a filter chip. */
    method ToggleFilterChip(t: ParticleType)
      modifies this
      ensures filter == ToggleFilter(old(filter), t)
      ensures tracks == old(tracks) && deposits == old(deposits) && eventTime == old(eventTime)
      ensures hovered == old(hovered) && isColliding == old(isColliding) && magneticField == old(magneticField)
      ensures eventType == old(eventType)
      ensures rotation == old(rotation) && zoom == old(zoom) && isDragging == old(isDragging) && lastMouse == old(lastMouse)
    {
      filter := ToggleFilter(filter, t);
    }
  }
}
