/**
 * The orbital scene: eight planets on closed-form circular orbits about the
 * Sun, a camera dragged within a pitch range, and a click that selects the
 * first planet whose enlarged hit circle contains the pointer.
 */
module SolarSystem {
  import opened Wrappers
  import opened Numeric
  import Projector
  import Camera

  /** A strictly positive real, as an orbital period is. */
  type PosReal = x: real | x > 0.0 witness 1.0

  /** The fields of a planet that the scene computes with (the texts shown in the panel are left out). */
  datatype PlanetInfo = PlanetInfo(name: string, au: real, size: real, orbitalPeriod: PosReal, hasRings: bool)

  const Planets: seq<PlanetInfo> := [
    PlanetInfo("Mercury", 0.387, 4.0, 88.0, false),
    PlanetInfo("Venus", 0.723, 9.0, 224.7, false),
    PlanetInfo("Earth", 1.000, 10.0, 365.2, false),
    PlanetInfo("Mars", 1.524, 5.0, 687.0, false),
    PlanetInfo("Jupiter", 5.203, 22.0, 4331.0, false),
    PlanetInfo("Saturn", 9.537, 18.0, 10747.0, true),
    PlanetInfo("Uranus", 19.191, 14.0, 30589.0, false),
    PlanetInfo("Neptune", 30.069, 13.0, 59800.0, false)
  ]

  const CanvasWidth: real := 800.0
  const CanvasHeight: real := 600.0
  const MinZoom: real := 0.2
  const MaxZoom: real := 3.0

  /** No two planets share a name. */
  lemma NamesDistinct()
    ensures forall i, j :: 0 <= i < j < |Planets| ==> Planets[i].name != Planets[j].name
  {
    forall i, j | 0 <= i < j < |Planets| ensures Planets[i].name != Planets[j].name {
      var a, b := Planets[i].name, Planets[j].name;
      assert |a| != |b| || a[0] != b[0];
    }
  }

  // ---------------------------------------------------------------- orbits

  /** `80 + √au · 250`. */
  function OrbitalRadius(m: MathLib, au: real): real {
    80.0 + m.sqrt(au) * 250.0
  }

  /** `(time / (period / 365.2)) · 0.1`: one tenth of a radian per Earth year of scene time. */
  function OrbitAngle(time: real, period: PosReal): real {
    time / (period / 365.2) * 0.1
  }

  /** Where a planet is at a scene time: on its orbit in the plane y = 0. */
  function OrbitPosition(m: MathLib, p: PlanetInfo, time: real): (v: Vec3)
    ensures v.y == 0.0
  {
    var radius := OrbitalRadius(m, p.au);
    var angle := OrbitAngle(time, p.orbitalPeriod);
    Vec3(m.cos(angle) * radius, 0.0, m.sin(angle) * radius)
  }

  /** `Math.sqrt` of a non-negative number is non-negative. */
  ghost predicate SqrtNonNegative(m: MathLib) {
    forall x: real {:trigger m.sqrt(x)} :: x >= 0.0 ==> m.sqrt(x) >= 0.0
  }

  /** A planet is always on the circle of its orbital radius, which is at least 80. */
  lemma OnItsOrbit(m: MathLib, p: PlanetInfo, time: real)
    requires UnitCircle(m)
    ensures var v, r := OrbitPosition(m, p, time), OrbitalRadius(m, p.au);
      v.x * v.x + v.z * v.z == r * r
    ensures SqrtNonNegative(m) && p.au >= 0.0 ==> OrbitalRadius(m, p.au) >= 80.0
  {
    var r := OrbitalRadius(m, p.au);
    var a := OrbitAngle(time, p.orbitalPeriod);
    var c, s := m.cos(a), m.sin(a);
    assert s * s + c * c == 1.0;
    assert OrbitPosition(m, p, time).x * OrbitPosition(m, p, time).x == c * c * (r * r);
    assert OrbitPosition(m, p, time).z * OrbitPosition(m, p, time).z == s * s * (r * r);
    if SqrtNonNegative(m) && p.au >= 0.0 {
      assert m.sqrt(p.au) >= 0.0;
    }
  }

  /** The Earth turns through 0.1 rad per unit of scene time; a planet with a longer period turns more slowly. */
  lemma AngularSpeeds(time: real, p: PlanetInfo)
    requires time > 0.0 && p.orbitalPeriod > 365.2
    ensures OrbitAngle(time, 365.2) == time * 0.1
    ensures 0.0 < OrbitAngle(time, p.orbitalPeriod) < OrbitAngle(time, 365.2)
  {
    var q := p.orbitalPeriod / 365.2;
    assert q > 1.0;
    assert time / q > 0.0;
    MulStrict(1.0, q, time / q);
    assert q * (time / q) == time;
  }

  // ---------------------------------------------------------------- the hit list

  /** An entry of `projectedPlanets`: where a planet was drawn and how far a click may miss it. */
  datatype HitTarget = HitTarget(name: string, x: real, y: real, r: real)

  /** The planet's projection this frame: as seen from the camera at fov `fov`, on the 800 × 600 canvas. */
  function PlanetProjection(m: MathLib, p: PlanetInfo, time: real, rot: Projector.Rotation, fov: real): Projector.Projected {
    Projector.Project(m, OrbitPosition(m, p, time), rot, CanvasWidth, CanvasHeight, fov, false)
  }

  /** The hit entry of one planet: kept only in front of the camera, with radius `max(drawn radius, 15)`. */
  function HitOf(p: PlanetInfo, q: Projector.Projected): (hs: seq<HitTarget>)
    ensures |hs| <= 1
    ensures forall h :: h in hs ==> h.name == p.name && h.r >= 15.0
    ensures |hs| == 1 <==> q.scale > 0.0
  {
    if q.scale > 0.0 then [Entry(p, q)] else []
  }

  /** The pushed object: the projected centre and the drawn radius `max(0.1, size · scale)` raised to 15. */
  function Entry(p: PlanetInfo, q: Projector.Projected): (h: HitTarget)
    ensures h.name == p.name && h.r >= 15.0
  {
    HitTarget(p.name, q.x, q.y, Max(Max(0.1, p.size * q.scale), 15.0))
  }

  /** The hit list a frame builds, in planet order. */
  function Hits(m: MathLib, ps: seq<PlanetInfo>, time: real, rot: Projector.Rotation, fov: real): (hs: seq<HitTarget>)
  {
    if ps == [] then [] else Hits(m, ps[..|ps| - 1], time, rot, fov) + HitOf(ps[|ps| - 1], PlanetProjection(m, ps[|ps| - 1], time, rot, fov))
  }

  /** Unfolding the hit list of a prefix by one planet. */
  lemma HitsSnoc(m: MathLib, ps: seq<PlanetInfo>, i: nat, time: real, rot: Projector.Rotation, fov: real)
    requires i < |ps|
    ensures Hits(m, ps[..i + 1], time, rot, fov) == Hits(m, ps[..i], time, rot, fov) + HitOf(ps[i], PlanetProjection(m, ps[i], time, rot, fov))
  {
    assert ps[..i + 1][..i] == ps[..i];
  }

  /** Every hit entry has radius at least 15 and names a planet of the list, and there is at most one per planet. */
  lemma {:induction false} HitsBounded(m: MathLib, ps: seq<PlanetInfo>, time: real, rot: Projector.Rotation, fov: real)
    ensures var hs := Hits(m, ps, time, rot, fov);
      |hs| <= |ps| &&
      forall i :: 0 <= i < |hs| ==> hs[i].r >= 15.0 && exists j :: 0 <= j < |ps| && hs[i].name == ps[j].name
  {
    if ps != [] {
      var init := ps[..|ps| - 1];
      HitsBounded(m, init, time, rot, fov);
      var hs, prev, last := Hits(m, ps, time, rot, fov), Hits(m, init, time, rot, fov), HitOf(ps[|ps| - 1], PlanetProjection(m, ps[|ps| - 1], time, rot, fov));
      assert hs == prev + last;
      forall i | 0 <= i < |hs| ensures hs[i].r >= 15.0 && exists j :: 0 <= j < |ps| && hs[i].name == ps[j].name {
        if i < |prev| {
          var j :| 0 <= j < |init| && prev[i].name == init[j].name;
          assert ps[j] == init[j];
        } else {
          assert hs[i] in last;
          assert hs[i].name == ps[|ps| - 1].name;
        }
      }
    }
  }

  /** With a positive fov (so a positive scale, by the projector's floor) every planet has its entry, in order. */
  lemma {:induction false} HitsComplete(m: MathLib, ps: seq<PlanetInfo>, time: real, rot: Projector.Rotation, fov: real)
    requires fov > 0.0
    ensures var hs := Hits(m, ps, time, rot, fov);
      |hs| == |ps| && forall i :: 0 <= i < |ps| ==> hs[i].name == ps[i].name
  {
    if ps != [] {
      var init := ps[..|ps| - 1];
      HitsComplete(m, init, time, rot, fov);
      var hs, prev, last := Hits(m, ps, time, rot, fov), Hits(m, init, time, rot, fov), HitOf(ps[|ps| - 1], PlanetProjection(m, ps[|ps| - 1], time, rot, fov));
      assert hs == prev + last;
      forall i | 0 <= i < |ps| ensures hs[i].name == ps[i].name {
        if i < |init| {
          assert hs[i] == prev[i];
          assert ps[i] == init[i];
        } else {
          assert hs[i] == last[0];
        }
      }
    }
  }

  /** The hit list of a frame holds one entry per planet, in order, each of radius at least 15. */
  lemma HitsOfFrame(m: MathLib, time: real, rot: Projector.Rotation, fov: real)
    requires fov > 0.0
    ensures var hs := Hits(m, Planets, time, rot, fov);
      |hs| == |Planets| && forall h :: h in hs ==> h.r >= 15.0
  {
    HitsBounded(m, Planets, time, rot, fov);
    HitsComplete(m, Planets, time, rot, fov);
  }

  // ---------------------------------------------------------------- clicking

  /** Where the pointer went down, where it last moved while dragging, and whether a drag is on. */
  datatype Pointer = Pointer(isDragging: bool, lastMouse: (real, real), press: (real, real))

  /** `handleMouseDown`. */
  function PressedAt(c: (real, real)): Pointer {
    Pointer(true, c, c)
  }

  /** `handleMouseMove`: while dragging, the last position follows the pointer. */
  function MovedTo(p: Pointer, c: (real, real)): Pointer {
    if p.isDragging then p.(lastMouse := c) else p
  }

  /** A sequence of pointer moves. */
  function MovedAlong(p: Pointer, cs: seq<(real, real)>): (r: Pointer)
    ensures r.isDragging == p.isDragging && r.press == p.press
  {
    if cs == [] then p else MovedTo(MovedAlong(p, cs[..|cs| - 1]), cs[|cs| - 1])
  }

  /** Less than 10 pixels both ways. */
  predicate Close(a: (real, real), b: (real, real)) {
    Abs(b.0 - a.0) < 10.0 && Abs(b.1 - a.1) < 10.0
  }

  /** `handleMouseUp` as written: the release is a click when it is close to the last *move* position. */
  predicate ReleaseIsClickAsWritten(p: Pointer, c: (real, real)) {
    p.isDragging && Close(p.lastMouse, c)
  }

  /** The intended rule: the release is a click when it is close to where the button went down. */
  predicate ReleaseIsClick(p: Pointer, c: (real, real)) {
    p.isDragging && Close(p.press, c)
  }

  /**
   * As written, a 100-pixel drag counts as a click: the move handler has
   * already moved the last position to where the button comes up.
   */
  lemma DragCountsAsClickAsWritten()
    ensures var p := MovedTo(PressedAt((0.0, 0.0)), (100.0, 0.0));
      ReleaseIsClickAsWritten(p, (100.0, 0.0)) && !ReleaseIsClick(p, (100.0, 0.0))
  {
  }

  /**
   * As written, every drag that ends where the pointer last moved is a click,
   * from any press and however far the moves went.
   */
  lemma ReleaseAfterMovesIsClickAsWritten(a: (real, real), cs: seq<(real, real)>)
    requires cs != []
    ensures ReleaseIsClickAsWritten(MovedAlong(PressedAt(a), cs), cs[|cs| - 1])
  {
  }

  /** With the press position, a release after any moves is a click exactly when it lands within 10 pixels of the press. */
  lemma ClickMeansSmallTravel(a: (real, real), cs: seq<(real, real)>, c: (real, real))
    ensures ReleaseIsClick(MovedAlong(PressedAt(a), cs), c) <==> Close(a, c)
  {
  }

  /** The canvas's bounding rectangle on the page. */
  datatype Rect = Rect(left: real, top: real, width: real, height: real)

  /**
   * The click in canvas pixels: `(client − corner) · canvas size / rect size`.
   * A zero-sized rectangle makes the factor infinite in JavaScript, so no
   * distance is below the hit radius; here there is no click point.
   */
  function ClickPoint(c: (real, real), rect: Rect): (r: Option<(real, real)>)
    ensures r.Some? <==> rect.width != 0.0 && rect.height != 0.0
  {
    if rect.width == 0.0 || rect.height == 0.0 then None
    else Some(((c.0 - rect.left) * (CanvasWidth / rect.width), (c.1 - rect.top) * (CanvasHeight / rect.height)))
  }

  /** `Math.sqrt((x − cx)² + (y − cy)²) < r + 10`. */
  predicate Near(m: MathLib, h: HitTarget, pt: (real, real)) {
    m.sqrt((h.x - pt.0) * (h.x - pt.0) + (h.y - pt.1) * (h.y - pt.1)) < h.r + 10.0
  }

  /** `projectedPlanets.find(...)`: the first entry near the click. */
  function FirstHit(m: MathLib, hs: seq<HitTarget>, pt: (real, real)): (r: Option<HitTarget>)
    ensures r.Some? ==> r.value in hs && Near(m, r.value, pt)
    ensures r.None? ==> forall h :: h in hs ==> !Near(m, h, pt)
  {
    if hs == [] then None
    else if Near(m, hs[0], pt) then Some(hs[0])
    else FirstHit(m, hs[1..], pt)
  }

  /** The entry found is the earliest near one: every entry before it misses. */
  lemma {:induction false} FirstHitIsFirst(m: MathLib, hs: seq<HitTarget>, pt: (real, real)) returns (i: nat)
    requires FirstHit(m, hs, pt).Some?
    ensures i < |hs| && FirstHit(m, hs, pt).value == hs[i]
    ensures forall j :: 0 <= j < i ==> !Near(m, hs[j], pt)
  {
    if Near(m, hs[0], pt) {
      i := 0;
    } else {
      var i' := FirstHitIsFirst(m, hs[1..], pt);
      i := i' + 1;
      forall j | 0 <= j < i ensures !Near(m, hs[j], pt) {
        if j > 0 {
          assert hs[j] == hs[1..][j - 1];
        }
      }
    }
  }

  /** `PLANET_DATA.find(p => p.name === name)`. */
  function FindByName(ps: seq<PlanetInfo>, name: string): (r: Option<PlanetInfo>)
    ensures r.Some? ==> r.value in ps && r.value.name == name
  {
    if ps == [] then None
    else if ps[0].name == name then Some(ps[0])
    else FindByName(ps[1..], name)
  }

  /** Looking a planet up by its own name finds it. */
  lemma FindOwnName(i: nat)
    requires i < |Planets|
    ensures FindByName(Planets, Planets[i].name) == Some(Planets[i])
  {
    NamesDistinct();
    FindFirst(Planets, i);
  }

  lemma {:induction false} FindFirst(ps: seq<PlanetInfo>, i: nat)
    requires i < |ps| && forall j :: 0 <= j < i ==> ps[j].name != ps[i].name
    ensures FindByName(ps, ps[i].name) == Some(ps[i])
  {
    if i > 0 {
      forall j | 0 <= j < i - 1 ensures ps[1..][j].name != ps[1..][i - 1].name {
        assert ps[1..][j] == ps[j + 1];
      }
      FindFirst(ps[1..], i - 1);
    }
  }

  /**
   * The selection after a click: the planet named by the first entry hit, or
   * none; a hit whose name names no planet leaves the selection alone.
   */
  function Selected(m: MathLib, hs: seq<HitTarget>, pt: Option<(real, real)>, sel: Option<PlanetInfo>): Option<PlanetInfo> {
    var found := if pt.Some? then FirstHit(m, hs, pt.value) else None;
    if found.Some? then
      var planet := FindByName(Planets, found.value.name);
      if planet.Some? then planet else sel
    else None
  }

  /**
   * On this frame's hit list (positive fov) a click selects the planet of the
   * first entry it hits, and clears the selection when it hits none.
   */
  lemma ClickSelects(m: MathLib, time: real, rot: Projector.Rotation, fov: real, pt: (real, real), sel: Option<PlanetInfo>)
    requires fov > 0.0
    ensures var hs := Hits(m, Planets, time, rot, fov);
      var r := Selected(m, hs, Some(pt), sel);
      (FirstHit(m, hs, pt).None? ==> r == None) &&
      (FirstHit(m, hs, pt).Some? ==>
        exists i :: 0 <= i < |Planets| && i < |hs| && r == Some(Planets[i]) && Near(m, hs[i], pt) &&
          (forall j :: 0 <= j < i ==> !Near(m, hs[j], pt)))
  {
    var hs := Hits(m, Planets, time, rot, fov);
    HitsComplete(m, Planets, time, rot, fov);
    if FirstHit(m, hs, pt).Some? {
      var i := FirstHitIsFirst(m, hs, pt);
      FindOwnName(i);
      assert Selected(m, hs, Some(pt), sel) == Some(Planets[i]);
    }
  }

  // ---------------------------------------------------------------- the component

  class SolarSystemViz {
    var rotation: Projector.Rotation
    var zoom: real
    var timeScale: real
    var isPaused: bool
    var showLabels: bool
    var showOrbits: bool
    var selected: Option<PlanetInfo>
    var isDragging: bool
    var lastMouse: (real, real)
    /** Where the button went down: the position the click test compares with. */
    var press: (real, real)
    var time: real
    var hits: seq<HitTarget>

    ghost predicate Valid()
      reads this
    {
      MinZoom <= zoom <= MaxZoom && 0.1 <= timeScale <= 10.0 &&
      (forall h :: h in hits ==> h.r >= 15.0) &&
      (selected.Some? ==> selected.value in Planets)
    }

    function PointerState(): Pointer
      reads this
    {
      Pointer(isDragging, lastMouse, press)
    }

    constructor ()
      ensures Valid()
      ensures rotation == Projector.Rotation(0.6, -0.4) && zoom == 0.8 && timeScale == 1.0
      ensures !isPaused && showLabels && showOrbits && selected == None
      ensures !isDragging && time == 0.0 && hits == []
    {
      rotation := Projector.Rotation(0.6, -0.4);
      zoom := 0.8;
      timeScale := 1.0;
      isPaused := false;
      showLabels := true;
      showOrbits := true;
      selected := None;
      isDragging := false;
      lastMouse := (0.0, 0.0);
      press := (0.0, 0.0);
      time := 0.0;
      hits := [];
    }

    /**
     * One rendered frame: unless paused the clock advances by 0.05·timeScale,
     * then the hit list is rebuilt from the planets' new places at fov 800·zoom.
     */
    method Frame(m: MathLib)
      requires Valid()
      modifies this
      ensures Valid()
      ensures time == if old(isPaused) then old(time) else old(time) + 0.05 * old(timeScale)
      ensures time >= old(time)
      ensures hits == Hits(m, Planets, time, rotation, 800.0 * zoom)
      ensures |hits| == |Planets|
      ensures rotation == old(rotation) && zoom == old(zoom) && timeScale == old(timeScale) && isPaused == old(isPaused)
      ensures showLabels == old(showLabels) && showOrbits == old(showOrbits) && selected == old(selected)
      ensures PointerState() == old(PointerState())
    {
      var t := if isPaused then time else time + 0.05 * timeScale;
      var fov := 800.0 * zoom;
      var hs := BuildHits(m, Planets, t, rotation, fov);
      HitsOfFrame(m, t, rotation, fov);
      time, hits := t, hs;
    }

    /** The `PLANET_DATA.forEach` pass: `projectedPlanets` emptied, then one push per planet in front of the camera. */
    static method BuildHits(m: MathLib, ps: seq<PlanetInfo>, time: real, rot: Projector.Rotation, fov: real) returns (hs: seq<HitTarget>)
      ensures hs == Hits(m, ps, time, rot, fov)
    {
      hs := [];
      var i := 0;
      while i < |ps|
        invariant 0 <= i <= |ps|
        invariant hs == Hits(m, ps[..i], time, rot, fov)
      {
        var p := ps[i];
        var q := PlanetProjection(m, p, time, rot, fov);
        ghost var before := hs;
        if q.scale > 0.0 {
          hs := hs + [Entry(p, q)];
        }
        assert hs == before + HitOf(p, q);
        HitsSnoc(m, ps, i, time, rot, fov);
        i := i + 1;
      }
      assert ps[..i] == ps;
    }

    method MouseDown(cx: real, cy: real)
      modifies this
      ensures PointerState() == PressedAt((cx, cy))
      ensures rotation == old(rotation) && zoom == old(zoom) && timeScale == old(timeScale) && isPaused == old(isPaused)
      ensures showLabels == old(showLabels) && showOrbits == old(showOrbits) && selected == old(selected)
      ensures time == old(time) && hits == old(hits)
    {
      isDragging := true;
      lastMouse := (cx, cy);
      press := (cx, cy);
    }

    /** A drag tilts the camera within [−0.2, π/2] and turns it without limit, at 0.005 per pixel. */
    method MouseMove(cx: real, cy: real)
      modifies this
      ensures PointerState() == MovedTo(old(PointerState()), (cx, cy))
      ensures old(isDragging) ==>
        rotation == Projector.Rotation(Camera.DragPitch(old(rotation).pitch, cy - old(lastMouse).1, 0.005, -0.2, PI / 2.0),
                                       Camera.DragYaw(old(rotation).yaw, cx - old(lastMouse).0, 0.005)) &&
        -0.2 <= rotation.pitch <= PI / 2.0
      ensures !old(isDragging) ==> rotation == old(rotation)
      ensures zoom == old(zoom) && timeScale == old(timeScale) && isPaused == old(isPaused)
      ensures showLabels == old(showLabels) && showOrbits == old(showOrbits) && selected == old(selected)
      ensures time == old(time) && hits == old(hits)
    {
      if !isDragging {
        return;
      }
      var dx := cx - lastMouse.0;
      var dy := cy - lastMouse.1;
      rotation := Projector.Rotation(Camera.DragPitch(rotation.pitch, dy, 0.005, -0.2, PI / 2.0), Camera.DragYaw(rotation.yaw, dx, 0.005));
      lastMouse := (cx, cy);
    }

    /**
     * `handleMouseUp`, with the click test against the press position: a click
     * selects the planet of the first hit entry, or clears the selection.
     */
    method MouseUp(cx: real, cy: real, rect: Rect, m: MathLib)
      requires Valid()
      modifies this
      ensures Valid()
      ensures !isDragging && lastMouse == old(lastMouse) && press == old(press)
      ensures ReleaseIsClick(old(PointerState()), (cx, cy)) ==>
        selected == Selected(m, hits, ClickPoint((cx, cy), rect), old(selected))
      ensures !ReleaseIsClick(old(PointerState()), (cx, cy)) ==> selected == old(selected)
      ensures rotation == old(rotation) && zoom == old(zoom) && timeScale == old(timeScale) && isPaused == old(isPaused)
      ensures showLabels == old(showLabels) && showOrbits == old(showOrbits)
      ensures time == old(time) && hits == old(hits)
    {
      if isDragging {
        var dx := Abs(cx - press.0);
        var dy := Abs(cy - press.1);
        if dx < 10.0 && dy < 10.0 {
          var pt := ClickPoint((cx, cy), rect);
          var found := if pt.Some? then FirstHit(m, hits, pt.value) else None;
          if found.Some? {
            var planet := FindByName(Planets, found.value.name);
            if planet.Some? {
              selected := planet;
            }
          } else {
            selected := None;
          }
        }
      }
      isDragging := false;
    }

    method MouseLeave()
      modifies this
      ensures !isDragging && lastMouse == old(lastMouse) && press == old(press)
      ensures rotation == old(rotation) && zoom == old(zoom) && timeScale == old(timeScale) && isPaused == old(isPaused)
      ensures showLabels == old(showLabels) && showOrbits == old(showOrbits) && selected == old(selected)
      ensures time == old(time) && hits == old(hits)
    {
      isDragging := false;
    }

    /** The zoom buttons: steps of 0.1 within [0.2, 3]. */
    method ZoomButton(zoomIn: bool)
      requires Valid()
      modifies this
      ensures Valid()
      ensures zoom == if zoomIn then Camera.ZoomIn(old(zoom), MaxZoom) else Camera.ZoomOut(old(zoom), MinZoom)
      ensures rotation == old(rotation) && timeScale == old(timeScale) && isPaused == old(isPaused)
      ensures showLabels == old(showLabels) && showOrbits == old(showOrbits) && selected == old(selected)
      ensures time == old(time) && hits == old(hits) && PointerState() == old(PointerState())
    {
      Camera.ZoomStaysInRange(zoom, MinZoom, MaxZoom);
      zoom := if zoomIn then Camera.ZoomIn(zoom, MaxZoom) else Camera.ZoomOut(zoom, MinZoom);
    }

    /** The speed slider: a value in [0.1, 10] in steps of 0.1. */
    method SetTimeScale(v: real)
      requires Valid() && 0.1 <= v <= 10.0
      modifies this
      ensures Valid() && timeScale == v
      ensures rotation == old(rotation) && zoom == old(zoom) && isPaused == old(isPaused)
      ensures showLabels == old(showLabels) && showOrbits == old(showOrbits) && selected == old(selected)
      ensures time == old(time) && hits == old(hits) && PointerState() == old(PointerState())
    {
      timeScale := v;
    }

    /** The play/pause, label and orbit buttons each flip their flag; the panel's close button clears the selection. */
    method Button(b: SolarButton)
      requires Valid()
      modifies this
      ensures Valid()
      ensures isPaused == (if b == PlayPause then !old(isPaused) else old(isPaused))
      ensures showLabels == (if b == Labels then !old(showLabels) else old(showLabels))
      ensures showOrbits == (if b == Orbits then !old(showOrbits) else old(showOrbits))
      ensures selected == (if b == ClosePanel then None else old(selected))
      ensures rotation == old(rotation) && zoom == old(zoom) && timeScale == old(timeScale)
      ensures time == old(time) && hits == old(hits) && PointerState() == old(PointerState())
    {
      match b
      case PlayPause => isPaused := !isPaused;
      case Labels => showLabels := !showLabels;
      case Orbits => showOrbits := !showOrbits;
      case ClosePanel => selected := None;
    }
  }

  datatype SolarButton = PlayPause | Labels | Orbits | ClosePanel
}
