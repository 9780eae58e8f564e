/**
 * The fallback space scene and the scene dispatch: a concept string chooses the
 * scene's mode, and in the gravitational-wave mode two black holes spiral in
 * (INSPIRAL), merge (MERGER), ring down (RINGDOWN) and start over.
 */
module SpaceScene {
  import opened Wrappers
  import opened Numeric
  import opened Text
  import Projector
  import Camera

  // ---------------------------------------------------------------- the mode of the scene

  datatype Mode = Waves | Accretion

  datatype Config = Config(mode: Mode, particleCount: nat)

  /** The concept mentions a merger of compact objects. */
  predicate MentionsMerger(c: string) {
    Contains(c, "gravitational wave") || Contains(c, "ligo") || Contains(c, "collision") || Contains(c, "merger")
  }

  /** The concept mentions a black hole. */
  predicate MentionsBlackHole(c: string) {
    Contains(c, "black hole") || Contains(c, "singularity")
  }

  /** `config`: the lowered concept (or "" without one) picks the mode; merger words are checked first. */
  function ConfigOf(concept: Option<string>): (cfg: Config)
    ensures cfg == Config(Waves, 0) || cfg == Config(Accretion, 1600)
  {
    var c := Lower(concept.GetOr(""));
    if MentionsMerger(c) then Config(Waves, 0)
    else if MentionsBlackHole(c) then Config(Accretion, 1600)
    else Config(Waves, 0)
  }

  /**
   * The accretion mode is chosen exactly for a concept that mentions a black
   * hole and none of the merger words, whatever its case.
   */
  lemma AccretionIff(concept: Option<string>)
    ensures var c := Lower(concept.GetOr(""));
      ConfigOf(concept).mode == Accretion <==> MentionsBlackHole(c) && !MentionsMerger(c)
    ensures ConfigOf(concept).particleCount == 1600 <==> ConfigOf(concept).mode == Accretion
  {
  }

  /** The merger words win: "Black Hole Merger" is a wave scene. */
  lemma MergerWordsComeFirst()
    ensures ConfigOf(Some("Black Hole Merger")) == Config(Waves, 0)
  {
    var c := Lower("Black Hole Merger");
    assert c == "black hole merger";
    assert OccursAt(c, "merger", 11);
    ContainsAt(c, "merger");
  }

  /** Without a concept the scene shows waves. */
  lemma NoConceptIsWaves()
    ensures ConfigOf(None) == Config(Waves, 0)
  {
    assert Lower("") == "";
    assert !MentionsMerger("") && !MentionsBlackHole("");
  }

  // ---------------------------------------------------------------- the gravitational-wave phase machine

  datatype Phase = Inspiral | Merger | Ringdown

  /**
   * The wave refs: the phase, the orbital radius, the wave phase, frequency
   * and amplitude, the recoil of the remnant, the merger and ring-down timers,
   * and the radius of the outgoing merger wave.
   */
  datatype Wave = Wave(
    phase: Phase, radius: real, wavePhase: real, frequency: real, amplitude: real,
    recoil: Vec3, mergerTime: real, ringdownTime: real, waveRadius: real)

  /** The state `resetSimulation` restores: an inspiral at radius 180. */
  const Fresh: Wave := Wave(Inspiral, 180.0, 0.0, 0.04, 0.1, Vec3(0.0, 0.0, 0.0), 0.0, 0.0, 0.0)

  /** `0.00025·(180 / max(8, r))^3.5`, the orbital decay per unit of speed. */
  function Decay(m: MathLib, radius: real): (d: real)
    ensures PowPositive(m) ==> d > 0.0
  {
    0.00025 * m.pow(180.0 / Max(8.0, radius), 3.5)
  }

  /** `decay · speed`. */
  function Shrink(decay: real, speed: real): (s: real)
    ensures decay > 0.0 && speed > 0.0 ==> s > 0.0
  {
    assert decay > 0.0 && speed > 0.0 ==> decay * speed > 0.0 by {
      if decay > 0.0 && speed > 0.0 {
        MulStrict(0.0, decay, speed);
      }
    }
    decay * speed
  }

  /** `0.035·(180 / max(5, r))^1.5`, the wave frequency at radius r. */
  function Frequency(m: MathLib, radius: real): real {
    0.035 * m.pow(180.0 / Max(5.0, radius), 1.5)
  }

  /** The INSPIRAL frame: the orbit shrinks, the wave speeds up and grows, and below radius 10 the merger begins. */
  function InspiralStep(m: MathLib, w: Wave, speed: real): (v: Wave)
    requires w.phase == Inspiral
    ensures PowPositive(m) && speed > 0.0 ==> v.radius < w.radius
    ensures v.phase == Merger <==> v.radius < 10.0
    ensures v.phase == Merger ==> v.mergerTime == 1.0
    ensures v.phase != Merger ==> v.phase == Inspiral && v.mergerTime == w.mergerTime
    ensures v.recoil == w.recoil && v.ringdownTime == w.ringdownTime && v.waveRadius == w.waveRadius
  {
    var radius := w.radius - Shrink(Decay(m, w.radius), speed);
    var frequency := Frequency(m, radius);
    var v := w.(radius := radius, frequency := frequency, wavePhase := w.wavePhase + frequency * speed,
                amplitude := 0.1 + 180.0 / Max(20.0, radius) * 0.5);
    if radius < 10.0 then v.(phase := Merger, mergerTime := 1.0) else v
  }

  /** The MERGER frame: the timer runs down by 0.03 per unit of speed, the merger wave spreads, and below 0.2 the ring-down begins with a recoil. */
  function MergerStep(w: Wave, speed: real, r0: real, r1: real, r2: real): (v: Wave)
    requires w.phase == Merger
    ensures v.mergerTime == w.mergerTime - 0.03 * speed && v.waveRadius == w.waveRadius + 15.0 * speed
    ensures v.phase == Ringdown <==> v.mergerTime < 0.2
    ensures v.phase == Ringdown ==> v.ringdownTime == 1.0 && v.recoil == Vec3(Offset(r0), Offset(r1), Offset(r2))
    ensures v.phase != Ringdown ==> v.phase == Merger && v.ringdownTime == w.ringdownTime && v.recoil == w.recoil
    ensures v.radius == w.radius
  {
    var v := w.(mergerTime := w.mergerTime - 0.03 * speed, waveRadius := w.waveRadius + 15.0 * speed);
    if v.mergerTime < 0.2 then v.(phase := Ringdown, ringdownTime := 1.0, recoil := Vec3(Offset(r0), Offset(r1), Offset(r2)))
    else v
  }

  /** `(draw − 0.5)·30`, one component of the remnant's recoil. */
  function Offset(r: real): real {
    (r - 0.5) * 30.0
  }

  /** The RINGDOWN frame: the timer and the recoil decay, the wave spreads, and a faded, far wave resets the scene. */
  function RingdownStep(w: Wave, speed: real): (v: Wave)
    requires w.phase == Ringdown
    ensures var t, wr := w.ringdownTime * 0.97, w.waveRadius + 15.0 * speed;
      (t < 0.01 && wr > 1200.0 ==> v == Fresh) &&
      (!(t < 0.01 && wr > 1200.0) ==> (v.phase == Ringdown && v.ringdownTime == t && v.waveRadius == wr &&
        v.recoil == ScaleBy(w.recoil, 0.94) && v.radius == w.radius))
  {
    var v := w.(ringdownTime := w.ringdownTime * 0.97, waveRadius := w.waveRadius + 15.0 * speed,
                recoil := ScaleBy(w.recoil, 0.94));
    if v.ringdownTime < 0.01 && v.waveRadius > 1200.0 then Fresh else v
  }

  /** One frame of the wave mode. */
  function Evolve(m: MathLib, w: Wave, speed: real, r0: real, r1: real, r2: real): Wave {
    match w.phase
    case Inspiral => InspiralStep(m, w, speed)
    case Merger => MergerStep(w, speed, r0, r1, r2)
    case Ringdown => RingdownStep(w, speed)
  }

  /** Which draws a frame takes: three for the recoil, only when the merger ends. */
  function Draws(m: MathLib, w: Wave, speed: real, rnd: RandomStream, k: nat): (Wave, nat) {
    var v := Evolve(m, w, speed, rnd(k), rnd(k + 1), rnd(k + 2));
    (v, if w.phase == Merger && v.phase == Ringdown then k + 3 else k)
  }

  /** The phases only ever move forward, INSPIRAL → MERGER → RINGDOWN → (reset) INSPIRAL. */
  lemma PhaseOrder(m: MathLib, w: Wave, speed: real, r0: real, r1: real, r2: real)
    ensures var v := Evolve(m, w, speed, r0, r1, r2);
      (w.phase == Inspiral ==> v.phase in {Inspiral, Merger}) &&
      (w.phase == Merger ==> v.phase in {Merger, Ringdown}) &&
      (w.phase == Ringdown ==> v.phase in {Ringdown, Inspiral}) &&
      (w.phase == Ringdown && v.phase == Inspiral ==> v == Fresh)
  {
  }

  /** n frames of the wave mode at unit speed, with the same recoil draws. */
  function Frames(m: MathLib, w: Wave, n: nat, r0: real, r1: real, r2: real): Wave {
    if n == 0 then w else Evolve(m, Frames(m, w, n - 1, r0, r1, r2), 1.0, r0, r1, r2)
  }

  /** From a fresh merger (timer 1.0) at unit speed the timer drops by 0.03 a frame for 26 frames. */
  lemma {:induction false} MergerCountdown(m: MathLib, w: Wave, n: nat, r0: real, r1: real, r2: real)
    requires w.phase == Merger && w.mergerTime == 1.0 && n <= 26
    ensures Frames(m, w, n, r0, r1, r2).phase == Merger
    ensures Frames(m, w, n, r0, r1, r2).mergerTime == 1.0 - 0.03 * n as real
  {
    if n > 0 {
      MergerCountdown(m, w, n - 1, r0, r1, r2);
    }
  }

  /** So the ring-down begins on the 27th frame of the merger, and not before. */
  lemma MergerEndsOnFrame27(m: MathLib, w: Wave, r0: real, r1: real, r2: real)
    requires w.phase == Merger && w.mergerTime == 1.0
    ensures Frames(m, w, 26, r0, r1, r2).phase == Merger
    ensures Frames(m, w, 27, r0, r1, r2).phase == Ringdown
  {
    MergerCountdown(m, w, 26, r0, r1, r2);
  }

  // ---------------------------------------------------------------- the black holes

  /** A black hole of the scene: position, drawn size, orbital angle and orbital radius. */
  datatype Body = Body(pos: Vec3, size: real, angle: real, radius: real)

  /** The pair `resetSimulation` places: size 22 at angles 0 and π on radius 180. */
  const FreshPair: seq<Body> := [Body(Vec3(0.0, 0.0, 0.0), 22.0, 0.0, 180.0), Body(Vec3(0.0, 0.0, 0.0), 22.0, PI, 180.0)]

  /** `0.04·(180 / max(5, r))^1.5 · speed`, the angle a hole turns through in one inspiral frame. */
  function Turn(m: MathLib, radius: real, speed: real): real {
    0.04 * m.pow(180.0 / Max(5.0, radius), 1.5) * speed
  }

  /**
   * One frame of a hole, by the phase at the start of the frame: while
   * inspiralling it turns and sits on the current orbit in the y = 0 plane,
   * otherwise it sits at the recoil with size 44.
   */
  function MoveBody(m: MathLib, b: Body, phase: Phase, radius: real, recoil: Vec3, speed: real): (r: Body)
    ensures phase == Inspiral ==> r.size == b.size && r.pos.y == b.pos.y && r.angle - b.angle == Turn(m, radius, speed)
    ensures phase != Inspiral ==> r == b.(pos := recoil, size := 44.0)
  {
    if phase == Inspiral then
      var angle := b.angle + Turn(m, radius, speed);
      b.(angle := angle, pos := Vec3(m.cos(angle) * radius, b.pos.y, m.sin(angle) * radius))
    else
      b.(pos := recoil, size := 44.0)
  }

  /** An inspiralling hole lies on the circle of the current radius. */
  lemma OnOrbit(m: MathLib, b: Body, radius: real, recoil: Vec3, speed: real)
    requires UnitCircle(m)
    ensures var r := MoveBody(m, b, Inspiral, radius, recoil, speed);
      r.pos.x * r.pos.x + r.pos.z * r.pos.z == radius * radius
  {
    var r := MoveBody(m, b, Inspiral, radius, recoil, speed);
    var c, s := m.cos(r.angle), m.sin(r.angle);
    assert s * s + c * c == 1.0;
    assert r.pos.x * r.pos.x == c * c * (radius * radius);
    assert r.pos.z * r.pos.z == s * s * (radius * radius);
  }

  /** Both holes turn by the same angle, so a pair placed half a turn apart stays half a turn apart. */
  lemma PairStaysOpposite(m: MathLib, a: Body, b: Body, radius: real, recoil: Vec3, speed: real)
    requires b.angle - a.angle == PI
    ensures MoveBody(m, b, Inspiral, radius, recoil, speed).angle - MoveBody(m, a, Inspiral, radius, recoil, speed).angle == PI
  {
  }

  // ---------------------------------------------------------------- the scene dispatch

  datatype Topic = Astronomy | Astrophysics | Cosmology | QuantumPhysics | ParticlePhysics | AI | QuantumComputing | Neuroscience

  /** The enum's string values. */
  function TopicName(t: Topic): string {
    match t
    case Astronomy => "Astronomy"
    case Astrophysics => "Astrophysics"
    case Cosmology => "Cosmology"
    case QuantumPhysics => "Quantum Physics"
    case ParticlePhysics => "Particle Physics"
    case AI => "Artificial Intelligence"
    case QuantumComputing => "Quantum Computing"
    case Neuroscience => "Neuroscience"
  }

  datatype Scene = SolarSystemViz | StarFormationViz | CosmologyViz | QuantumPhysicsViz | QuantumComputingViz
    | ParticlePhysicsViz | AINeuralNetworkViz | NeuroscienceViz | SpaceViz3D

  /** `InteractiveViz`: the `switch` on the topic string, with the space scene as the default. */
  function SceneFor(topic: string): Scene {
    if topic == "Astronomy" then SolarSystemViz
    else if topic == "Astrophysics" then StarFormationViz
    else if topic == "Cosmology" then CosmologyViz
    else if topic == "Quantum Physics" then QuantumPhysicsViz
    else if topic == "Quantum Computing" then QuantumComputingViz
    else if topic == "Particle Physics" then ParticlePhysicsViz
    else if topic == "Artificial Intelligence" then AINeuralNetworkViz
    else if topic == "Neuroscience" then NeuroscienceViz
    else SpaceViz3D
  }

  /** A string that names no topic falls through to the space scene. */
  lemma OtherTopicIsSpace(topic: string)
    requires forall t: Topic :: topic != TopicName(t)
    ensures SceneFor(topic) == SpaceViz3D
  {
    assert topic != TopicName(Astronomy) && topic != TopicName(Astrophysics) && topic != TopicName(Cosmology) &&
      topic != TopicName(QuantumPhysics) && topic != TopicName(ParticlePhysics) && topic != TopicName(AI) &&
      topic != TopicName(QuantumComputing) && topic != TopicName(Neuroscience);
  }

  /** Every topic has its own scene: none falls through to the default, and no two share one. */
  lemma EveryTopicHasItsScene(t: Topic, u: Topic)
    ensures SceneFor(TopicName(t)) != SpaceViz3D
    ensures SceneFor(TopicName(t)) == SceneFor(TopicName(u)) ==> t == u
  {
  }

  // ---------------------------------------------------------------- the component

  class SpaceViz {
    const config: Config
    var rotation: Projector.Rotation
    var zoom: real
    var speed: real
    var isDragging: bool
    var lastMouse: (real, real)
    var time: real
    var gwState: Phase
    var gwPhase: real
    var gwRadius: real
    var gwFrequency: real
    var gwAmplitude: real
    var gwRecoil: Vec3
    var mergerTime: real
    var ringdownTime: real
    var mergerWaveRadius: real
    var particles: seq<Body>

    /** The wave refs as one value. */
    function WaveState(): Wave
      reads this
    {
      Wave(gwState, gwRadius, gwPhase, gwFrequency, gwAmplitude, gwRecoil, mergerTime, ringdownTime, mergerWaveRadius)
    }

    /** The mounted component for a concept, before its first effect: the refs hold a fresh inspiral, and there are no holes yet. */
    constructor (concept: Option<string>)
      ensures config == ConfigOf(concept)
      ensures rotation == Projector.Rotation(0.4, -0.4) && zoom == 1.0 && speed == 1.0
      ensures !isDragging && lastMouse == (0.0, 0.0) && time == 0.0
      ensures WaveState() == Fresh && particles == []
    {
      config := ConfigOf(concept);
      rotation := Projector.Rotation(0.4, -0.4);
      zoom := 1.0;
      speed := 1.0;
      isDragging := false;
      lastMouse := (0.0, 0.0);
      time := 0.0;
      gwState := Inspiral;
      gwPhase := 0.0;
      gwRadius := 180.0;
      gwFrequency := 0.04;
      gwAmplitude := 0.1;
      gwRecoil := Vec3(0.0, 0.0, 0.0);
      mergerTime := 0.0;
      ringdownTime := 0.0;
      mergerWaveRadius := 0.0;
      particles := [];
    }

    /** `resetSimulation`: the clock restarts, and in the wave mode a fresh inspiral with the two holes half a turn apart. */
    method ResetSimulation()
      modifies this
      ensures time == 0.0
      ensures config.mode == Waves ==> WaveState() == Fresh && particles == FreshPair
      ensures config.mode != Waves ==> WaveState() == old(WaveState()) && particles == old(particles)
      ensures rotation == old(rotation) && zoom == old(zoom) && speed == old(speed)
      ensures isDragging == old(isDragging) && lastMouse == old(lastMouse)
    {
      time := 0.0;
      if config.mode == Waves {
        SetFreshWave();
        particles := FreshPair;
      }
    }

    /** The wave refs of `resetSimulation`, set one by one. */
    method SetFreshWave()
      modifies this
      ensures WaveState() == Fresh
      ensures time == old(time) && particles == old(particles)
      ensures rotation == old(rotation) && zoom == old(zoom) && speed == old(speed)
      ensures isDragging == old(isDragging) && lastMouse == old(lastMouse)
    {
      gwState, gwRadius, gwPhase, gwFrequency, gwAmplitude := Inspiral, 180.0, 0.0, 0.04, 0.1;
      gwRecoil, mergerTime, mergerWaveRadius, ringdownTime := Vec3(0.0, 0.0, 0.0), 0.0, 0.0, 0.0;
    }

    /**
     * One rendered frame: the clock advances by 0.016·speed; in the wave mode
     * the phase machine takes its step (resetting the scene when the ring-down
     * ends); then every hole moves by the phase the frame started in.
     */
    method Frame(m: MathLib, rnd: RandomStream, k0: nat) returns (k: nat)
      modifies this
      ensures var w := old(WaveState());
        var d := if config.mode == Waves then Draws(m, w, old(speed), rnd, k0) else (w, k0);
        var reset := config.mode == Waves && w.phase == Ringdown && d.0 == Fresh;
        WaveState() == d.0 && k == d.1 &&
        time == (if reset then 0.0 else old(time) + 0.016 * old(speed)) &&
        particles == Moved(m, if reset then FreshPair else old(particles), w.phase, gwRadius, gwRecoil, speed)
      ensures rotation == old(rotation) && zoom == old(zoom) && speed == old(speed)
      ensures isDragging == old(isDragging) && lastMouse == old(lastMouse)
    {
      k := k0;
      var phase0 := gwState;
      time := time + 0.016 * speed;
      if config.mode == Waves {
        if gwState == Inspiral {
          InspiralFrame(m);
        } else if gwState == Merger {
          k := MergerFrame(rnd, k0);
        } else {
          RingdownFrame();
        }
      }
      particles := MoveBodies(m, particles, phase0, gwRadius, gwRecoil, speed);
    }

    /** The INSPIRAL branch of the frame, on the refs in place. */
    method InspiralFrame(m: MathLib)
      requires gwState == Inspiral
      modifies this
      ensures WaveState() == InspiralStep(m, old(WaveState()), speed)
      ensures time == old(time) && particles == old(particles)
      ensures rotation == old(rotation) && zoom == old(zoom) && speed == old(speed)
      ensures isDragging == old(isDragging) && lastMouse == old(lastMouse)
    {
      var decay := Decay(m, gwRadius);
      gwRadius := gwRadius - Shrink(decay, speed);
      gwFrequency := Frequency(m, gwRadius);
      gwPhase := gwPhase + gwFrequency * speed;
      gwAmplitude := 0.1 + 180.0 / Max(20.0, gwRadius) * 0.5;
      if gwRadius < 10.0 {
        gwState := Merger;
        mergerTime := 1.0;
      }
    }

    /** The MERGER branch of the frame: three draws for the recoil when the ring-down begins. */
    method MergerFrame(rnd: RandomStream, k0: nat) returns (k: nat)
      requires gwState == Merger
      modifies this
      ensures WaveState() == MergerStep(old(WaveState()), speed, rnd(k0), rnd(k0 + 1), rnd(k0 + 2))
      ensures k == if gwState == Ringdown then k0 + 3 else k0
      ensures time == old(time) && particles == old(particles)
      ensures rotation == old(rotation) && zoom == old(zoom) && speed == old(speed)
      ensures isDragging == old(isDragging) && lastMouse == old(lastMouse)
    {
      k := k0;
      mergerTime := mergerTime - 0.03 * speed;
      mergerWaveRadius := mergerWaveRadius + 15.0 * speed;
      if mergerTime < 0.2 {
        gwState := Ringdown;
        ringdownTime := 1.0;
        gwRecoil := Vec3(Offset(rnd(k)), Offset(rnd(k + 1)), Offset(rnd(k + 2)));
        k := k + 3;
      }
    }

    /** The RINGDOWN branch of the frame: a faded, far wave resets the scene. */
    method RingdownFrame()
      requires gwState == Ringdown && config.mode == Waves
      modifies this
      ensures WaveState() == RingdownStep(old(WaveState()), speed)
      ensures WaveState() == Fresh ==> time == 0.0 && particles == FreshPair
      ensures WaveState() != Fresh ==> time == old(time) && particles == old(particles)
      ensures rotation == old(rotation) && zoom == old(zoom) && speed == old(speed)
      ensures isDragging == old(isDragging) && lastMouse == old(lastMouse)
    {
      ringdownTime := ringdownTime * 0.97;
      mergerWaveRadius := mergerWaveRadius + 15.0 * speed;
      gwRecoil := ScaleBy(gwRecoil, 0.94);
      if ringdownTime < 0.01 && mergerWaveRadius > 1200.0 {
        ResetSimulation();
      }
    }

    /** The `particles.current.map` pass: each hole is moved in place, in order. */
    static method MoveBodies(m: MathLib, bs0: seq<Body>, phase: Phase, radius: real, recoil: Vec3, speed: real)
      returns (bs: seq<Body>)
      ensures bs == Moved(m, bs0, phase, radius, recoil, speed)
    {
      bs := bs0;
      var i := 0;
      while i < |bs|
        invariant 0 <= i <= |bs| == |bs0|
        invariant forall j :: 0 <= j < i ==> bs[j] == MoveBody(m, bs0[j], phase, radius, recoil, speed)
        invariant forall j :: i <= j < |bs| ==> bs[j] == bs0[j]
      {
        bs := bs[i := MoveBody(m, bs[i], phase, radius, recoil, speed)];
        i := i + 1;
      }
    }

    method MouseDown(cx: real, cy: real)
      modifies this
      ensures isDragging && lastMouse == (cx, cy)
      ensures rotation == old(rotation) && zoom == old(zoom) && speed == old(speed) && time == old(time)
      ensures WaveState() == old(WaveState()) && particles == old(particles)
    {
      isDragging := true;
      lastMouse := (cx, cy);
    }

    /** A drag tilts the camera within [−0.1, π/2] and turns it without limit, at 0.008 per pixel. */
    method MouseMove(cx: real, cy: real)
      modifies this
      ensures old(isDragging) ==>
        rotation == Projector.Rotation(Camera.DragPitch(old(rotation).pitch, cy - old(lastMouse).1, 0.008, -0.1, PI / 2.0),
                                       Camera.DragYaw(old(rotation).yaw, cx - old(lastMouse).0, 0.008)) &&
        -0.1 <= rotation.pitch <= PI / 2.0 && lastMouse == (cx, cy)
      ensures !old(isDragging) ==> rotation == old(rotation) && lastMouse == old(lastMouse)
      ensures isDragging == old(isDragging) && zoom == old(zoom) && speed == old(speed) && time == old(time)
      ensures WaveState() == old(WaveState()) && particles == old(particles)
    {
      if !isDragging {
        return;
      }
      rotation := Projector.Rotation(Camera.DragPitch(rotation.pitch, cy - lastMouse.1, 0.008, -0.1, PI / 2.0),
                                     Camera.DragYaw(rotation.yaw, cx - lastMouse.0, 0.008));
      lastMouse := (cx, cy);
    }

    method MouseUp()
      modifies this
      ensures !isDragging
      ensures rotation == old(rotation) && lastMouse == old(lastMouse) && zoom == old(zoom) && speed == old(speed)
      ensures time == old(time) && WaveState() == old(WaveState()) && particles == old(particles)
    {
      isDragging := false;
    }
  }

  /** Every hole moved by one frame. */
  function Moved(m: MathLib, bs: seq<Body>, phase: Phase, radius: real, recoil: Vec3, speed: real): (r: seq<Body>)
    ensures |r| == |bs|
    ensures forall i :: 0 <= i < |bs| ==> r[i] == MoveBody(m, bs[i], phase, radius, recoil, speed)
  {
    seq(|bs|, i requires 0 <= i < |bs| => MoveBody(m, bs[i], phase, radius, recoil, speed))
  }

  /**
   * A fresh wave scene keeps its two holes half a turn apart, on the current
   * orbit, for as long as it inspirals.
   */
  lemma InspiralPair(m: MathLib, bs: seq<Body>, radius: real, recoil: Vec3, speed: real)
    requires UnitCircle(m) && |bs| == 2 && bs[1].angle - bs[0].angle == PI
    ensures var r := Moved(m, bs, Inspiral, radius, recoil, speed);
      r[1].angle - r[0].angle == PI &&
      forall i :: 0 <= i < 2 ==> r[i].pos.x * r[i].pos.x + r[i].pos.z * r[i].pos.z == radius * radius
  {
    PairStaysOpposite(m, bs[0], bs[1], radius, recoil, speed);
    OnOrbit(m, bs[0], radius, recoil, speed);
    OnOrbit(m, bs[1], radius, recoil, speed);
  }
}
