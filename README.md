# Nexus EduScholar scene rules, modelled in Dafny

Nexus EduScholar is a teaching app. Each topic page shows an interactive canvas
scene, and a content service fetches the text around it. Each scene carries a
small simulation rule inside its drawing code. This project models those rules
over `real` and proves their properties:

- the layered neural-network signal sweep (`NeuralNetwork`);
- the connectome pulse simulator and its neuron picking (`Connectome`);
- the collider event generator, its event clock and hover picking (`Collider`);
- the two-qubit register and its gates (`QuantumRegister`);
- the wave-function collapse animation (`Wavefunction`);
- the shared projector (`Projector`), the gravitational-wave phase machine and the
  topic dispatch (`SpaceScene`);
- the orbital scene's orbits, hit list and click test (`SolarSystem`);
- the cosmology stages: inflation and pairwise attraction (`Cosmology`);
- the star-formation stages: radial collapse and accretion with respawn (`StarFormation`);
- the content service's error classification, no-key fallbacks, model choice and
  grounding-source filter (`ContentService`).

How the model treats the runtime:

- `Math.random` is a stream `rnd: nat -> real` of values in [0, 1), read through a
  cursor. Each method takes the cursor it starts at and returns the cursor after
  its last draw, and the draws happen in the order the source makes them.
- `Math.sin`, `cos`, `sqrt`, `exp`, `acos`, `atan2`, `cosh` and `pow` are fields of a
  `MathLib` value passed in. Only the identities a proof needs are assumed of them,
  as `requires` (for example `sin² + cos² = 1`, or `cos 0 = 1` and `sin 0 = 0`).
- Mutable React refs and state become fields of a class per scene. One animation
  frame, one button press or one mouse event is one method call.
- Shared modules: `Wrappers` (Option), `Numeric` (vectors, clamps, the random
  stream, and generic sequence builders), `Text` (ASCII lower-casing, substring
  search, decimal printing) and `Camera` (zoom buttons and drag clamps).

## Model

| member | source | states |
|---|---|---|
| Camera.ZoomIn | components/SolarSystemViz.tsx:378 | the "+" button adds 0.1 and never goes above the scene's top zoom; the result is exactly zoom + 0.1 when that fits, otherwise the top |
| Camera.ZoomOut | components/SolarSystemViz.tsx:376 | the "−" button subtracts 0.1 and never goes below the scene's bottom zoom; exactly zoom − 0.1 when that fits, otherwise the bottom |
| Camera.ZoomStaysInRange | components/CosmologyViz.tsx:291-293 | a zoom inside [lo, hi] stays inside it after either button; "+" never lowers it and "−" never raises it |
| Camera.DragPitch | components/SolarSystemViz.tsx:213 | the dragged pitch always lies in [lo, hi], and equals pitch + dy·sensitivity whenever that is already inside |
| Camera.DragYaw | components/SolarSystemViz.tsx:214 | the yaw turns by exactly dx·sensitivity, with no clamp |
| Projector.Rotate | components/Visualizations.tsx:16-22 | yaw then pitch; with both angles 0 (where cos 0 = 1 and sin 0 = 0) the point is unchanged |
| Projector.Lens | components/Visualizations.tsx:24-32 | the warp never changes the depth z2, and leaves the point unchanged when z2 ≤ −50 |
| Projector.Scale | components/Visualizations.tsx:34 | for fov > 0 the scale is positive and at most fov; it is fov/(fov + z2) when fov + z2 ≥ 1 and fov when the floor applies |
| Projector.Project | components/Visualizations.tsx:15-39 | the raw inputs are returned unchanged, z is the rotated depth, and for fov > 0 the scale lies in (0, fov] |
| Projector.Placed | components/Visualizations.tsx:34-38 | the scale is the floored perspective factor of the view depth, the depth is kept, and the raw inputs are returned |
| Projector.ProjectUnrotated | components/Visualizations.tsx:15-38 | with zero rotation and no lens the point lands at (w/2 + x·scale, h/2 + y·scale), with z = the input z |
| Projector.LensKeepsScaleAndDepth | components/Visualizations.tsx:24-34 | with and without the lens, scale and depth are identical, and behind z2 = −50 the whole projection is identical |
| Projector.ProjectUnfloored | components/NeuroscienceViz.tsx:30 | the copy without the floor has no projection exactly when fov + z2 = 0, and otherwise the scale is fov/(fov + z2) |
| Projector.UnflooredScaleCanBeNegative | components/NeuroscienceViz.tsx:30 | a point behind the eye gets a negative scale from that copy, so no positive scale is claimed for it |
| Text.Lower | services/geminiService.ts:5 | lower-casing keeps the length, maps A–Z into a–z and leaves every other character alone |
| Text.LowerIdempotent | services/geminiService.ts:5 | lower-casing a lowered string changes nothing |
| Text.ContainsAt | services/geminiService.ts:6 | `includes` holds exactly when the keyword occurs at some offset |
| Text.NatToStringInjective | components/NeuroscienceViz.tsx:211 | two different indices print as different decimal strings |
| Text.DashJoinInjective | components/NeuroscienceViz.tsx:211 | `region-i` determines both the region and the index when the region has no '-' |
| QuantumRegister.InitialRegister | components/QuantumComputingViz.tsx:51-54 | two qubits with ids 1 and 2, each α = 1, β = 0, not entangled and with no target |
| QuantumRegister.Reset | components/QuantumComputingViz.tsx:101-107 | the register is the initial one again and `isObserving` is cleared |
| QuantumRegister.Hadamard | components/QuantumComputingViz.tsx:65-75 | the qubit with the id gets ((α+β)/√2, (α−β)/√2); every other qubit is unchanged; no qubit changes id, place, colour, name or entanglement |
| QuantumRegister.HadamardInvolution | components/QuantumComputingViz.tsx:68-70 | applying the gate twice to the same id gives back the register |
| QuantumRegister.HadamardPreservesNorm | components/QuantumComputingViz.tsx:68-70 | every qubit keeps α² + β² under the gate |
| QuantumRegister.Entangle | components/QuantumComputingViz.tsx:77-88 | no qubit changes identity, and each one's target is its partner (1 ↔ 2) |
| QuantumRegister.EntangleBellState | components/QuantumComputingViz.tsx:80-86 | after entangling, every qubit is entangled with α = β and both probabilities ½ |
| QuantumRegister.EntanglePairsQubits | components/QuantumComputingViz.tsx:85 | on the initial register, qubit 1 points at 2 and qubit 2 at 1 |
| QuantumRegister.Outcome | components/QuantumComputingViz.tsx:91 | the outcome is 0 exactly when the draw exceeds ½, else 1 |
| QuantumRegister.Measure | components/QuantumComputingViz.tsx:90-99 | the register keeps its length, and no qubit changes identity |
| QuantumRegister.MeasureCollapses | components/QuantumComputingViz.tsx:90-99 | every qubit lands in the same basis state, \|0⟩ exactly when the draw exceeds ½, unentangled and with no target, and prob0 + prob1 = 1 |
| Wavefunction.Spread | components/QuantumPhysicsViz.tsx:65 | for a unit draw and level ≥ 1 the radial offset lies in [−20·level, 20·level) |
| Wavefunction.Shape | components/QuantumPhysicsViz.tsx:69-78 | the level bias uses at most two extra draws |
| Wavefunction.SampleFacts | components/QuantumPhysicsViz.tsx:63-91 | a sampled particle starts where it is, sits on the sphere of its r, θ, φ, has r in [40·level, 80·level), size in [0.5, 2), phase in [0, 2π) and hue in [180, 220) |
| Wavefunction.Cloud | components/QuantumPhysicsViz.tsx:60-93 | the first n samples form a cloud of exactly n particles |
| Wavefunction.CloudAt | components/QuantumPhysicsViz.tsx:63-92 | particle i of the cloud is the sample taken where the first i samples end |
| Wavefunction.CloudSnoc | components/QuantumPhysicsViz.tsx:84-91 | one more pass of the loop appends the next sample |
| Wavefunction.CloudFacts | components/QuantumPhysicsViz.tsx:63-93 | every particle of a sampled cloud has the properties of one sample |
| Wavefunction.Target | components/QuantumPhysicsViz.tsx:95-96 | for a unit draw and a non-empty cloud there is an eigenstate; it is a copy of some cloud particle with size 4 and the cyan fill |
| Wavefunction.LinearProgress | components/QuantumPhysicsViz.tsx:111 | the linear progress is at most 1, is non-negative for a non-negative elapsed time, and is 1 exactly when elapsed ≥ 1200 |
| Wavefunction.CubeMonotone | components/QuantumPhysicsViz.tsx:112 | cubing preserves order |
| Wavefunction.Eased | components/QuantumPhysicsViz.tsx:111-112 | the eased progress lies in [0, 1] and is 1 exactly when elapsed ≥ 1200 |
| Wavefunction.EasedMonotone | components/QuantumPhysicsViz.tsx:110-112 | a later timestamp never shows a smaller eased progress |
| Wavefunction.Lerp | components/QuantumPhysicsViz.tsx:164 | the interpolation is the start at progress 0 and the target at progress 1 |
| Wavefunction.LerpBetween | components/QuantumPhysicsViz.tsx:164-166 | for a progress in [0, 1] the interpolated value lies between its two ends |
| Wavefunction.LerpSymmetric | components/QuantumPhysicsViz.tsx:164 | interpolating back from the target with 1 − progress gives the same point |
| Wavefunction.Jitter | components/QuantumPhysicsViz.tsx:169-170 | a zero multiplier gives no wobble |
| Wavefunction.DrawnCloud | components/QuantumPhysicsViz.tsx:156-172 | the cloud is drawn, one point per particle, exactly when not observed or collapsing, and nothing is drawn otherwise |
| Wavefunction.CollapseEndsAtTarget | components/QuantumPhysicsViz.tsx:162-170 | at progress 1 every particle is drawn exactly at the eigenstate's start, with no wobble |
| Wavefunction.CollapseStartsAtCloud | components/QuantumPhysicsViz.tsx:158-170 | at progress 0 a particle is drawn at its own start plus the full wobble |
| Wavefunction.PullStaysBetween | components/QuantumPhysicsViz.tsx:162-167 | while collapsing, each coordinate of the pulled point lies between the particle's start and the eigenstate's |
| Wavefunction.QuantumScene.constructor | components/QuantumPhysicsViz.tsx:42-57 | the mounted scene: no cloud yet, not observed, not collapsing, level 1, zoom 1, rotation (0.3, −0.4), map shown |
| Wavefunction.QuantumScene.DrawParticle | components/QuantumPhysicsViz.tsx:64-91 | one loop pass draws exactly the sample of the draws it starts at |
| Wavefunction.QuantumScene.DrawShape | components/QuantumPhysicsViz.tsx:69-78 | the level-2 and level-3 bias draw exactly as the shape function says |
| Wavefunction.QuantumScene.SampleCloud | components/QuantumPhysicsViz.tsx:60-93 | the loop builds exactly the 1200-particle cloud of its draws |
| Wavefunction.QuantumScene.GenerateCloud | components/QuantumPhysicsViz.tsx:59-97 | the cloud is the sampled one, the eigenstate is drawn from it with the next draw (and exists for unit draws), and nothing else changes |
| Wavefunction.QuantumScene.CollapseFrame | components/QuantumPhysicsViz.tsx:108-121 | the shown progress is the eased one; before linear progress 1 it is still collapsing, and at 1 it is observed, no longer collapsing, at progress 1 |
| Wavefunction.QuantumScene.ToggleObservation | components/QuantumPhysicsViz.tsx:251-261 | from superposition a collapse starts at progress 0 with the same cloud; from any other state it returns to superposition at progress 0 with a fresh cloud |
| Wavefunction.QuantumScene.EnergyButton | components/QuantumPhysicsViz.tsx:309-316 | the level moves one step within [1, 3], and the cloud is regenerated only when the level changed |
| Wavefunction.QuantumScene.ZoomButton | components/QuantumPhysicsViz.tsx:351-353 | the zoom moves by 0.1 within [0.5, 2.5], and nothing else changes |
| Wavefunction.QuantumScene.ToggleProbabilityMap | components/QuantumPhysicsViz.tsx:324 | the ring overlay flips, and nothing else changes |
| Wavefunction.QuantumScene.RenderFrame | components/QuantumPhysicsViz.tsx:135 | each frame advances the wobble clock by 0.02, and nothing else changes |
| Wavefunction.QuantumScene.MouseDown | components/QuantumPhysicsViz.tsx:270 | a press starts a drag at the pressed point |
| Wavefunction.QuantumScene.MouseMove | components/QuantumPhysicsViz.tsx:271-277 | while dragging, both angles turn by 0.005 per pixel with no clamp, and the last point moves; otherwise nothing changes |
| Wavefunction.QuantumScene.MouseUp | components/QuantumPhysicsViz.tsx:278 | a release ends the drag |
| Wavefunction.ObservationCycle | components/QuantumPhysicsViz.tsx:251-261 | toggle, a completed collapse and a second toggle return to superposition at progress 0, with the cloud drawn again |
| SolarSystem.NamesDistinct | components/SolarSystemViz.tsx:22-31 | no two planets of the table share a name |
| SolarSystem.OrbitPosition | components/SolarSystemViz.tsx:121-127 | a planet's position always lies in the plane y = 0 |
| SolarSystem.OnItsOrbit | components/SolarSystemViz.tsx:122-127 | a planet lies on the circle of radius 80 + √au·250 (where sin² + cos² = 1), and that radius is at least 80 |
| SolarSystem.AngularSpeeds | components/SolarSystemViz.tsx:123 | the Earth turns 0.1 rad per unit of scene time, and a planet with a longer period turns more slowly |
| SolarSystem.HitOf | components/SolarSystemViz.tsx:141-146 | a planet gets at most one entry, with its name and radius at least 15, and gets one exactly when its scale is positive |
| SolarSystem.Entry | components/SolarSystemViz.tsx:143-146 | the stored radius is at least 15 and carries the planet's name |
| SolarSystem.HitsSnoc | components/SolarSystemViz.tsx:121-146 | one more planet of the forEach appends that planet's entry, if any |
| SolarSystem.HitsBounded | components/SolarSystemViz.tsx:102-146 | the list has at most one entry per planet, each of radius at least 15 and naming a planet of the table |
| SolarSystem.HitsComplete | components/SolarSystemViz.tsx:102-146 | with a positive fov every planet has its entry, in table order |
| SolarSystem.HitsOfFrame | components/SolarSystemViz.tsx:102-146 | a frame's hit list has one entry per planet, each of radius at least 15 |
| SolarSystem.MovedAlong | components/SolarSystemViz.tsx:207-216 | moves never start or end a drag and never change the press position |
| SolarSystem.DragCountsAsClickAsWritten | components/SolarSystemViz.tsx:218-224 | as written, pressing at (0, 0), moving to (100, 0) and releasing there counts as a click |
| SolarSystem.ReleaseAfterMovesIsClickAsWritten | components/SolarSystemViz.tsx:206-224 | as written, from any press, a release where the last move ended is always a click, however far the moves went |
| SolarSystem.ClickMeansSmallTravel | components/SolarSystemViz.tsx:218-224 | measured from the press, a release after any moves is a click exactly when it lands within 10 pixels both ways |
| SolarSystem.ClickPoint | components/SolarSystemViz.tsx:229-233 | the click is scaled to canvas pixels, and exists exactly when the rectangle has a non-zero size |
| SolarSystem.FirstHit | components/SolarSystemViz.tsx:235-238 | the entry found is in the list and within r + 10 of the click; when none is found, no entry is |
| SolarSystem.FirstHitIsFirst | components/SolarSystemViz.tsx:235-238 | the entry found is at some index, and every entry before it misses |
| SolarSystem.FindByName | components/SolarSystemViz.tsx:241 | a planet found by name is a planet of the table with that name |
| SolarSystem.FindOwnName | components/SolarSystemViz.tsx:241 | looking a planet up by its own name finds that planet |
| SolarSystem.FindFirst | components/SolarSystemViz.tsx:241 | a name that no earlier planet has finds that planet |
| SolarSystem.ClickSelects | components/SolarSystemViz.tsx:235-245 | on a frame's hit list a click selects the planet of the first entry it hits, with every earlier entry missed, and clears the selection when it hits none |
| SolarSystem.SolarSystemViz.constructor | components/SolarSystemViz.tsx:46-56 | the mounted scene: rotation (0.6, −0.4), zoom 0.8, speed 1, running, labels and orbits shown, nothing selected |
| SolarSystem.SolarSystemViz.Frame | components/SolarSystemViz.tsx:77-146 | the clock advances by 0.05·timeScale only when running and never goes back; the hit list is rebuilt from the new places at fov 800·zoom, one entry per planet |
| SolarSystem.SolarSystemViz.BuildHits | components/SolarSystemViz.tsx:102-146 | the loop builds exactly the hit list of the planets |
| SolarSystem.SolarSystemViz.MouseDown | components/SolarSystemViz.tsx:202-205 | a press starts a drag and records the press position |
| SolarSystem.SolarSystemViz.MouseMove | components/SolarSystemViz.tsx:207-216 | while dragging the pitch moves by 0.005 per pixel within [−0.2, π/2] and the yaw by 0.005 per pixel without limit |
| SolarSystem.SolarSystemViz.MouseUp | components/SolarSystemViz.tsx:218-250 | the drag ends; a release near the press selects the first planet hit, or clears the selection; any other release keeps it |
| SolarSystem.SolarSystemViz.MouseLeave | components/SolarSystemViz.tsx:262 | leaving the canvas ends the drag |
| SolarSystem.SolarSystemViz.ZoomButton | components/SolarSystemViz.tsx:376-378 | the zoom moves by 0.1 within [0.2, 3] |
| SolarSystem.SolarSystemViz.SetTimeScale | components/SolarSystemViz.tsx:369-371 | the slider sets the speed within [0.1, 10] |
| SolarSystem.SolarSystemViz.Button | components/SolarSystemViz.tsx:352-360 | play/pause, labels and orbits each flip only their own flag |
| Cosmology.Quanta | components/CosmologyViz.tsx:80-93 | the singularity loop pushes exactly n particles |
| Cosmology.Stars | components/CosmologyViz.tsx:95-108 | the structure loop pushes exactly n stars |
| Cosmology.QuantumIs | components/CosmologyViz.tsx:81-92 | quantum particle i is built from the seven draws that start at k + 7i |
| Cosmology.StarIs | components/CosmologyViz.tsx:96-107 | star i is built from the five draws that start at k + 5i |
| Cosmology.Initial | components/CosmologyViz.tsx:77-110 | an epoch starts with 1000 particles for the singularity and inflation, 500 stars for structure, and none for the CMB |
| Cosmology.QuantaInCube | components/CosmologyViz.tsx:80-93 | every quantum particle lies in the cube [−5, 5)³, with each velocity component in [−1, 1), size in [0, 2), mass 1 and the white fill |
| Cosmology.StarsInDisc | components/CosmologyViz.tsx:95-108 | every star is at rest at its drawn distance r ∈ [0, 400) from the axis, with height in [−25, 25), mass in [5, 15) and size in [1, 5); it is blue exactly when its index is a multiple of 10 |
| Cosmology.StarFacts | components/CosmologyViz.tsx:96-107 | one star built from unit draws has the properties `StarsInDisc` states |
| Cosmology.Noise | components/CosmologyViz.tsx:65-75 | the CMB noise has exactly 400 points |
| Cosmology.NoiseIs | components/CosmologyViz.tsx:67-73 | noise point i is built from the three draws that start at k + 3i |
| Cosmology.NoiseInRange | components/CosmologyViz.tsx:67-73 | every noise point has its azimuth in [0, 2π), its value in [0, 1), and its polar angle taken from a cosine in [−1, 1) |
| Cosmology.Inflated | components/CosmologyViz.tsx:164-165 | the inflation frame keeps the number of particles |
| Cosmology.InflationExpands | components/CosmologyViz.tsx:165 | each position is scaled by 1.05, so its squared distance from the origin grows by exactly 1.05², and nothing else about the particle changes |
| Cosmology.Softened | components/CosmologyViz.tsx:193 | the softened squared distance is never below 1000, so the division never divides by zero |
| Cosmology.Strength | components/CosmologyViz.tsx:194 | a non-negative mass pulls with a strength in [0, mass/20000], and a positive mass with a positive strength |
| Cosmology.AttractUpTo | components/CosmologyViz.tsx:189-197 | the outer pass keeps the number of particles |
| Cosmology.Attracted | components/CosmologyViz.tsx:188-205 | the structure frame keeps the number of particles |
| Cosmology.AttractInOrder | components/CosmologyViz.tsx:189-197 | after n turns the particles from n on are untouched, and particle j < n was pulled and moved on its own turn, against the list as it stood then |
| Cosmology.TurnSeesLaterOriginals | components/CosmologyViz.tsx:189-196 | on particle j's turn, the particles from j on still hold their values from the start of the frame |
| Cosmology.MovedKeepsBody | components/CosmologyViz.tsx:195-197 | a turn changes only position and velocity, and the position moves by the new velocity times timeScale |
| Cosmology.AttractKeepsBodies | components/CosmologyViz.tsx:189-197 | the attraction pass keeps every particle's size, colour, kind and mass |
| Cosmology.LoneParticleDrifts | components/CosmologyViz.tsx:191 | a lone particle skips its self-pair, feels no pull, and drifts at its own velocity |
| Cosmology.Evolved | components/CosmologyViz.tsx:164-205 | a frame keeps the number of particles in every epoch |
| Cosmology.CosmologyViz.constructor | components/CosmologyViz.tsx:51-63 | the mounted scene: the singularity epoch, running at speed 1, rotation (0.5, −0.5), zoom 0.8, no particles yet |
| Cosmology.CosmologyViz.Mount | components/CosmologyViz.tsx:65-114 | the first render stores the 400-point noise, and the mount effect then initialises the starting epoch from the next draws |
| Cosmology.CosmologyViz.DrawNoise | components/CosmologyViz.tsx:68-72 | one noise pass builds exactly noise point k |
| Cosmology.CosmologyViz.DrawQuantum | components/CosmologyViz.tsx:81-92 | one singularity pass builds exactly the quantum particle of its draws |
| Cosmology.CosmologyViz.DrawStar | components/CosmologyViz.tsx:96-107 | one structure pass builds exactly star i of its draws |
| Cosmology.CosmologyViz.NoiseLoop | components/CosmologyViz.tsx:66-74 | the loop builds exactly the 400-point noise |
| Cosmology.CosmologyViz.InitStage | components/CosmologyViz.tsx:77-110 | the list is rebuilt as exactly the epoch's initial particles |
| Cosmology.CosmologyViz.QuantaLoop | components/CosmologyViz.tsx:80-93 | the loop builds exactly the 1000 quantum particles and uses 7000 draws |
| Cosmology.CosmologyViz.StarsLoop | components/CosmologyViz.tsx:95-108 | the loop builds exactly the 500 stars and uses 2500 draws |
| Cosmology.CosmologyViz.Frame | components/CosmologyViz.tsx:122-205 | the clock advances by 0.016·timeScale only when running, but the epoch's particle update runs either way |
| Cosmology.CosmologyViz.InflateLoop | components/CosmologyViz.tsx:164-171 | the in-place loop leaves exactly the inflated list |
| Cosmology.CosmologyViz.AttractLoop | components/CosmologyViz.tsx:189-205 | the nested in-place loop leaves exactly the attracted list |
| Cosmology.CosmologyViz.PullLoop | components/CosmologyViz.tsx:190-196 | the inner loop leaves exactly particle i's velocity after the pull of every other particle |
| Cosmology.CosmologyViz.SelectStage | components/CosmologyViz.tsx:259 | an epoch button sets the epoch and restarts the clock; the particles are re-initialised only when the epoch changes |
| Cosmology.CosmologyViz.TogglePause | components/CosmologyViz.tsx:276 | the pause button flips only the pause flag |
| Cosmology.CosmologyViz.SetTimeScale | components/CosmologyViz.tsx:282-287 | the slider sets the speed within [0.1, 10] |
| Cosmology.CosmologyViz.ZoomButton | components/CosmologyViz.tsx:291-293 | the zoom moves by 0.1 within [0.4, 3] |
| Cosmology.CosmologyViz.MouseDown | components/CosmologyViz.tsx:223 | a press starts a drag at the pressed point |
| Cosmology.CosmologyViz.MouseMove | components/CosmologyViz.tsx:224-230 | while dragging, both angles turn by 0.005 per pixel with no clamp |
| Cosmology.CosmologyViz.MouseUp | components/CosmologyViz.tsx:231 | a release ends the drag |
| StarFormation.CloudGrains | components/StarFormationViz.tsx:66-82 | the cloud loop pushes exactly 2000 grains |
| StarFormation.CloudGrainIs | components/StarFormationViz.tsx:67-81 | cloud grain i is built from the eight draws that start at k + 8i |
| StarFormation.DiscGrains | components/StarFormationViz.tsx:83-98 | the disc loop pushes exactly 1500 grains |
| StarFormation.DiscGrainIs | components/StarFormationViz.tsx:84-97 | disc grain i is built from the four draws that start at k + 4i |
| StarFormation.Initial | components/StarFormationViz.tsx:64-100 | a stage starts with 2000 cloud grains, 1500 disc grains, or none for the atmosphere |
| StarFormation.CloudGrainsInShell | components/StarFormationViz.tsx:66-82 | every cloud grain lies at its drawn distance r ∈ [200, 500) from the centre, moves at under 0.25 along each axis, has size in [1, 4) and a hue in [240, 300) |
| StarFormation.CloudGrainFacts | components/StarFormationViz.tsx:67-81 | one cloud grain from unit draws lies in the shell at its drawn distance |
| StarFormation.DiscGrainsInAnnulus | components/StarFormationViz.tsx:83-98 | every disc grain lies at its drawn planar distance r ∈ [50, 300) from the axis, at a height in [−10, 10), with size in [1, 3) and the orange fill, and moves in the disc plane at right angles to its radius with speed 2 |
| StarFormation.DiscGrainFacts | components/StarFormationViz.tsx:84-97 | one disc grain from unit draws has the properties `DiscGrainsInAnnulus` states |
| StarFormation.TangentialVelocity | components/StarFormationViz.tsx:91-93 | the starting velocity is perpendicular to the radius and has speed 2 |
| StarFormation.CloudStep | components/StarFormationViz.tsx:122-135 | a cloud grain keeps its size and colour, and is drawn hot exactly when its distance before the step was below 100 |
| StarFormation.PullLength | components/StarFormationViz.tsx:124-127 | where the square root is exact, the pull towards the centre has length 0.1·timeScale |
| StarFormation.PullLengthAt | components/StarFormationViz.tsx:124-127 | dividing by the grain's distance makes the pull a vector of length 0.1·timeScale |
| StarFormation.VelocityFirst | components/StarFormationViz.tsx:125-131 | velocity is updated before position: a grain at rest moves straight towards the centre by 0.1·timeScale² in the frame it is pulled |
| StarFormation.FallFromRest | components/StarFormationViz.tsx:125-131 | from rest, the three axes of the update give the position scaled by 1 − 0.1·timeScale²/d |
| StarFormation.CloudPass | components/StarFormationViz.tsx:122-141 | the cloud frame keeps the number of grains |
| StarFormation.HotGrains | components/StarFormationViz.tsx:135 | grain i is drawn red exactly when its distance is below 100 |
| StarFormation.AccretionStep | components/StarFormationViz.tsx:157-172 | a disc grain keeps its height, vertical velocity, size and colour; it uses four draws when it started within 20 of the axis and two otherwise |
| StarFormation.RespawnInSquare | components/StarFormationViz.tsx:169-172 | a grain that started within 20 of the axis is put back from two separate draws, inside the square [−300, 300]² of the disc plane |
| StarFormation.AccretionForgetsVelocity | components/StarFormationViz.tsx:162-163 | the step overwrites the planar velocity, so where a grain goes does not depend on its old planar velocity |
| StarFormation.AccretionPass | components/StarFormationViz.tsx:157-172 | the accretion frame keeps the number of grains |
| StarFormation.AccretionPassSnoc | components/StarFormationViz.tsx:157-172 | the grains are stepped in list order, each drawing from where the last one left the stream |
| StarFormation.AccretionPassFacts | components/StarFormationViz.tsx:157-172 | the frame keeps every grain's height, size and colour, and uses between 2 and 4 draws per grain |
| StarFormation.StarFormationViz.constructor | components/StarFormationViz.tsx:50-62 | the mounted scene: the cloud stage, running at speed 1, rotation (0.4, −0.4), both layers shown, zoom 1, no grains yet |
| StarFormation.StarFormationViz.Mount | components/StarFormationViz.tsx:102-104 | the mount effect initialises the starting stage and changes nothing else |
| StarFormation.StarFormationViz.InitStage | components/StarFormationViz.tsx:64-100 | the list is rebuilt as exactly the stage's initial grains |
| StarFormation.StarFormationViz.CloudLoop | components/StarFormationViz.tsx:66-82 | the loop builds exactly the 2000 cloud grains and uses 16000 draws |
| StarFormation.StarFormationViz.DrawCloudGrain | components/StarFormationViz.tsx:67-81 | one cloud pass builds exactly the cloud grain of its draws |
| StarFormation.StarFormationViz.DrawDiscGrain | components/StarFormationViz.tsx:84-97 | one disc pass builds exactly the disc grain of its draws |
| StarFormation.StarFormationViz.DiscLoop | components/StarFormationViz.tsx:83-98 | the loop builds exactly the 1500 disc grains and uses 6000 draws |
| StarFormation.StarFormationViz.Frame | components/StarFormationViz.tsx:112-172 | the clock advances by 0.016·timeScale only when running; the cloud frame steps every grain and reports the hot ones, the accretion frame steps them in order through the stream, and the atmosphere frame leaves them alone |
| StarFormation.StarFormationViz.CloudFrame | components/StarFormationViz.tsx:122-141 | the in-place loop leaves exactly the cloud pass, with the hot flags of the grains as they were before the step |
| StarFormation.StarFormationViz.AccretionLoop | components/StarFormationViz.tsx:157-172 | the in-place loop leaves exactly the accretion pass and its cursor |
| StarFormation.StarFormationViz.SelectStage | components/StarFormationViz.tsx:280 | a stage button sets the stage and restarts the clock; the grains are re-initialised only when the stage changes |
| StarFormation.StarFormationViz.Toggle | components/StarFormationViz.tsx:298-311 | each of the pause, magnetic-field and dust buttons flips its own flag and nothing else |
| StarFormation.StarFormationViz.SetTimeScale | components/StarFormationViz.tsx:317-322 | the slider sets the speed within [0.1, 10] |
| StarFormation.StarFormationViz.ZoomButton | components/StarFormationViz.tsx:326-328 | the zoom moves by 0.1 within [0.5, 3] |
| StarFormation.StarFormationViz.MouseDown | components/StarFormationViz.tsx:242 | a press starts a drag at the pressed point |
| StarFormation.StarFormationViz.MouseMove | components/StarFormationViz.tsx:243-249 | while dragging, both angles turn by 0.005 per pixel with no clamp |
| StarFormation.StarFormationViz.MouseUp | components/StarFormationViz.tsx:250 | a release ends the drag |
| Collider.AllTypesComplete | components/ParticlePhysicsViz.tsx:66 | the starting filter shows every particle type |
| Collider.ChargeOf | components/ParticlePhysicsViz.tsx:135 | muons, electrons, pions and quarks get charge +1 exactly when their draw exceeds 0.5 and −1 otherwise; every other type is neutral |
| Collider.MaxRadius | components/ParticlePhysicsViz.tsx:139 | quark, gluon and W tracks run to radius 80, every other type to 450 |
| Collider.RadialParamSpacing | components/ParticlePhysicsViz.tsx:141-142 | the 100 points start at r = 0, are spaced maxR/100 apart and all stay short of maxR |
| Collider.TrackPoints | components/ParticlePhysicsViz.tsx:141-149 | a track has exactly as many points as the loop runs |
| Collider.TrackPointsAt | components/ParticlePhysicsViz.tsx:141-149 | point j lies on the helix at radial parameter j·maxR/100, and the first point is the origin |
| Collider.TrackPointAtOrigin | components/ParticlePhysicsViz.tsx:142-147 | every helix starts at the interaction point |
| Collider.EventSizes | components/ParticlePhysicsViz.tsx:81-121 | a Higgs event has 45 tracks, a QCD event 70, a W decay 43 |
| Collider.CountLayer | components/ParticlePhysicsViz.tsx:51-56 | a layer has at most as many deposits as the list |
| Collider.CountLayerPush | components/ParticlePhysicsViz.tsx:103-120 | pushing a deposit adds one to the count of its own layer and none to the other |
| Collider.CountLayerSplit | components/ParticlePhysicsViz.tsx:55 | every deposit is in exactly one of ECAL and HCAL |
| Collider.RevealedCount | components/ParticlePhysicsViz.tsx:182 | at progress p ∈ [0, 1] between 0 and n points are revealed, and all n once the clock reaches 1 |
| Collider.ToggleFilter | components/ParticlePhysicsViz.tsx:378-380 | a toggled type is shown afterwards exactly when it was hidden before, and every other type keeps its state |
| Collider.RemoveAll | components/ParticlePhysicsViz.tsx:379 | the filter drops every occurrence of the type, keeps every other type and never grows |
| Collider.ToggleTwice | components/ParticlePhysicsViz.tsx:378-380 | toggling a type twice shows exactly the types shown before |
| Collider.NextEventTime | components/ParticlePhysicsViz.tsx:203-205 | the clock never passes 2, and below 2 it strictly advances: by 0.035 before the collision and by 0.012 after |
| Collider.Collider.constructor | components/ParticlePhysicsViz.tsx:59-74 | the mounted scene: no tracks, clock −1.5, not colliding, field 3.8 T, every type shown, Higgs, nothing hovered, rotation (0.4, −0.6), zoom 0.85 |
| Collider.Collider.CreateTrack | components/ParticlePhysicsViz.tsx:131-156 | a track keeps the given type, pT and vertex flag; a missing η is drawn in [−2.5, 2.5) and a missing φ in [0, 2π); its charge is `ChargeOf` the draw after those, ±1 exactly for the charged types; its energy is pT·cosh η; its 100 points are the helix of its angles and curvature in the current field, starting at the origin |
| Collider.Collider.LayPoints | components/ParticlePhysicsViz.tsx:141-149 | the loop builds exactly the 100 helix points, the first at the origin |
| Collider.Collider.LaidSnoc | components/ParticlePhysicsViz.tsx:78-121 | appending a track of the type its position expects keeps the event's layout: partons, then leptons, then pions, then photons, and only the first two groups are vertex tracks |
| Collider.Collider.AddPartons | components/ParticlePhysicsViz.tsx:81-84 | 6 parton jets for QCD and 2 otherwise, laid out as quarks or gluons, taking at least three draws each |
| Collider.Collider.AddLeptons | components/ParticlePhysicsViz.tsx:86-96 | the partons are kept, followed by four alternating muons and electrons for a Higgs, an electron and a neutrino for a W decay, and nothing for QCD, taking at least four draws per lepton |
| Collider.Collider.AddWLeptons | components/ParticlePhysicsViz.tsx:93-96 | the two partons are kept, then an electron and a neutrino from the vertex, taking at least eight draws |
| Collider.Collider.AddHadrons | components/ParticlePhysicsViz.tsx:98-110 | the earlier tracks are kept, followed by 60 pions for QCD and 35 otherwise; the deposits so far are all HCAL, at most one per pion; at least two draws per pion |
| Collider.Collider.AddPhotons | components/ParticlePhysicsViz.tsx:112-121 | the earlier tracks and deposits are kept, four photons follow, and each adds one ECAL deposit with its own direction and all of its energy; at least two draws per photon |
| Collider.Collider.BuildEvent | components/ParticlePhysicsViz.tsx:76-124 | `EventShape`: an event's tracks follow its type's layout with 100 points each, and its deposits are four photon ECAL deposits after at most one HCAL deposit per pion, each photon's deposit carrying its direction and energy; exactly the partons and leptons come from the vertex; at least two draws per track |
| Collider.Collider.GenerateEvent | components/ParticlePhysicsViz.tsx:76-129 | the event is replaced by a fresh one of the chosen type, the clock restarts at −1.5, the scene collides and the hover is cleared; the new tracks and deposits have the `EventShape` of `BuildEvent` (layout, vertex flags, one ECAL deposit per photon); the cursor advances by at least two draws per track; the filter, field, camera and drag state are kept |
| Collider.Collider.AdvanceClock | components/ParticlePhysicsViz.tsx:203-208 | the clock steps only while colliding, taking the one throttle draw of that frame; the event, filter, hover, field, camera and drag state are kept |
| Collider.Collider.CandidatesOfTrack | components/ParticlePhysicsViz.tsx:180-183 | the hover candidates of a track are exactly its points at indices below the revealed count that are multiples of 4, if its type is shown |
| Collider.Collider.BeforeNext | components/ParticlePhysicsViz.tsx:183 | between two sampled points 4 apart on one track there is no other sampled point |
| Collider.Collider.ScanKeep | components/ParticlePhysicsViz.tsx:186-189 | a point no closer than the best so far keeps the best |
| Collider.Collider.ScanTake | components/ParticlePhysicsViz.tsx:186-189 | a point strictly closer than the best so far becomes the best |
| Collider.Collider.CandidateAt | components/ParticlePhysicsViz.tsx:181-185 | a sampled point below the revealed count of a shown track is a candidate, at its own distance |
| Collider.Collider.ScanTrackDone | components/ParticlePhysicsViz.tsx:179-191 | past the revealed count, or on a hidden track, the scan moves on to the next track |
| Collider.Collider.ScanRowDone | components/ParticlePhysicsViz.tsx:183-191 | once every candidate of a track is scanned, the scan is at the start of the next track |
| Collider.Collider.ScanTrack | components/ParticlePhysicsViz.tsx:180-190 | the inner loop looks at every candidate of its track, keeping the scan's best-so-far invariant |
| Collider.Collider.Pick | components/ParticlePhysicsViz.tsx:173-192 | nothing is hovered exactly when no candidate is closer than 18; otherwise the hovered track holds a candidate closer than 18 that no candidate beats, and every earlier candidate is strictly farther; a hovered track is a shown track of the event |
| Collider.Collider.MouseDown | components/ParticlePhysicsViz.tsx:389 | a press starts a drag at the pressed point |
| Collider.Collider.MouseUp | components/ParticlePhysicsViz.tsx:391 | a release ends the drag |
| Collider.Collider.MouseMove | components/ParticlePhysicsViz.tsx:158-194 | a drag turns the camera by 0.005 per pixel and leaves the hover; without a drag, once the clock is past 0.1, the hover becomes exactly what `Pick` chooses for the mouse's on-screen distances: none when no candidate is within 18, else the first candidate at the smallest distance, always a shown track |
| Collider.Collider.ZoomButton | components/ParticlePhysicsViz.tsx:520-522 | the zoom moves by 0.1 and stays within [0.3, 2.5]; the event, hover, filter, rotation and drag state are kept |
| Collider.Collider.ToggleFilterChip | components/ParticlePhysicsViz.tsx:481 | a filter chip toggles its type in the filter and changes nothing about the event, the hover, the camera or the drag state |
| Connectome.RegionBlocks | components/NeuroscienceViz.tsx:160-173 | the regions are placed in order, each owning the block of 140, 90, 110, 70 and 100 neurons after the previous one, 510 in all |
| Connectome.KeyAt | components/NeuroscienceViz.tsx:170-211 | the i-th neuron placed gets a valid id of its own region |
| Connectome.KeyOrdinal | components/NeuroscienceViz.tsx:170-211 | ids and placement positions correspond one to one, so the 510 ids are distinct and each valid id names a neuron |
| Connectome.IdTextInjective | components/NeuroscienceViz.tsx:211 | distinct neurons have distinct `${region}-${i}` id strings, because no region name contains '-' |
| Connectome.Placed | components/NeuroscienceViz.tsx:170-223 | the placement pushes exactly 510 neurons |
| Connectome.PlacedIs | components/NeuroscienceViz.tsx:173-221 | neuron o is built from the eight draws that start at k + 8o |
| Connectome.PlacedFacts | components/NeuroscienceViz.tsx:210-221 | the placed neurons have their placement ids and regions, no connections and no flash, and firing rates in [0.03, 0.1) |
| Connectome.At | components/NeuroscienceViz.tsx:231-234 | indexing a list gives a value exactly inside the list, and JavaScript's undefined outside it |
| Connectome.SameRegion | components/NeuroscienceViz.tsx:233 | the short-range pool holds only neurons of n's region other than n |
| Connectome.SameRegionKeeps | components/NeuroscienceViz.tsx:233 | every other neuron of n's region is in the short-range pool |
| Connectome.AttemptsStep | components/NeuroscienceViz.tsx:227-237 | one more attempt appends its connection, if any, and uses two more draws |
| Connectome.ConnCount | components/NeuroscienceViz.tsx:226 | a neuron makes between 3 and 6 attempts |
| Connectome.AttemptFacts | components/NeuroscienceViz.tsx:228-236 | a kept target is an existing neuron other than n, of n's own region when short-range; a short-range attempt always keeps one when n's region has other neurons |
| Connectome.AttemptsFacts | components/NeuroscienceViz.tsx:227-237 | every connection kept names an existing neuron other than its owner |
| Connectome.AttemptsCount | components/NeuroscienceViz.tsx:227-237 | each attempt keeps at most one connection and uses exactly two draws |
| Connectome.WireUpTo | components/NeuroscienceViz.tsx:225-238 | wiring keeps the number of neurons |
| Connectome.WireUpToKeeps | components/NeuroscienceViz.tsx:225-238 | wiring changes nothing but the connections, and only of the neurons it has passed |
| Connectome.RewireOk | components/NeuroscienceViz.tsx:236 | giving one neuron valid non-self connections keeps the list laid out and well wired |
| Connectome.WireUpToFacts | components/NeuroscienceViz.tsx:225-238 | after wiring every connection names an existing neuron other than its owner |
| Connectome.WireUpToBound | components/NeuroscienceViz.tsx:225-238 | with draws in [0, 1) no neuron gets more than 6 connections |
| Connectome.FadeFlash | components/NeuroscienceViz.tsx:260-263 | a positive flash drops by 0.05 and stops at 0; a non-positive one is kept; a flash in range never grows |
| Connectome.FlashFaded | components/NeuroscienceViz.tsx:259-264 | the flash pass keeps the number of neurons |
| Connectome.SpawnOne | components/NeuroscienceViz.tsx:267-281 | a neuron either stays or lights up fully; it sends at most one pulse, and only when it has connections, from itself to one of them at progress 0 |
| Connectome.SpawnUpTo | components/NeuroscienceViz.tsx:267-281 | the spawn pass over a prefix keeps the number of neurons and sends at most one pulse per neuron passed |
| Connectome.Spawned | components/NeuroscienceViz.tsx:267-281 | the whole spawn pass sends at most one pulse per neuron |
| Connectome.SpawnUpToNeurons | components/NeuroscienceViz.tsx:267-281 | the spawn pass only lights neurons up, never one without connections, and keeps the rest of every neuron |
| Connectome.SpawnUpToPulses | components/NeuroscienceViz.tsx:267-281 | every pulse sent starts at progress 0 from a neuron towards one of that neuron's connections |
| Connectome.SpawnUpToKeepsIdentity | components/NeuroscienceViz.tsx:267-281 | the spawn pass keeps every neuron's id and connections |
| Connectome.KeepsIdentity | components/NeuroscienceViz.tsx:272 | lighting a neuron up keeps its id and connections |
| Connectome.PulsesExtend | components/NeuroscienceViz.tsx:273-278 | appending the pulse one neuron sent keeps every pulse sent along a connection at progress 0 |
| Connectome.SpawnedPulsesOk | components/NeuroscienceViz.tsx:267-281 | on a well-wired list every pulse sent joins two distinct existing neurons |
| Connectome.FrameNeuronsOk | components/NeuroscienceViz.tsx:259-282 | a frame keeps the neurons laid out and well wired with flashes in [0, 1], and every new pulse is valid and at progress 0 |
| Connectome.AdvancedFacts | components/NeuroscienceViz.tsx:284-287 | the surviving pulses are exactly the advanced pulses still short of 1, and there are no more than before |
| Connectome.AdvancedOk | components/NeuroscienceViz.tsx:284-287 | advancing valid pulses leaves valid pulses short of their target |
| Connectome.Click | components/NeuroscienceViz.tsx:478-491 | clicking empty space or the selected neuron clears the selection; clicking another neuron selects it with its region |
| Connectome.ClickTwice | components/NeuroscienceViz.tsx:478-491 | clicking the same neuron twice restores nothing selected, unless it was selected to begin with |
| Connectome.ShellRegion | components/NeuroscienceViz.tsx:104-109 | a shell point above y = 100 is occipital; below it, z > 80 is parietal, −30 ≤ z ≤ 80 with abs(x) > 100 temporal, everything else frontal; the ladder never yields the cerebellum |
| Connectome.Connectome.constructor | components/NeuroscienceViz.tsx:62-78 | the mounted scene: rotation (0.3, −0.4), zoom 0.85, nothing hovered or selected, no neurons or pulses |
| Connectome.Connectome.InitConnectome | components/NeuroscienceViz.tsx:158-243 | the neurons are exactly the placed and wired connectome, with at most 6 connections each, and every pulse is dropped; the invariant holds afterwards |
| Connectome.Connectome.Place | components/NeuroscienceViz.tsx:170-223 | the region-by-region loops build exactly the placement |
| Connectome.Connectome.Wire | components/NeuroscienceViz.tsx:225-238 | the loop over the neurons leaves exactly the wiring pass |
| Connectome.Connectome.WireOne | components/NeuroscienceViz.tsx:226-237 | the attempts loop of one neuron leaves exactly that neuron's wiring |
| Connectome.Connectome.DrawTarget | components/NeuroscienceViz.tsx:228-235 | the target drawn gives exactly the connection the attempt keeps |
| Connectome.Connectome.Tick | components/NeuroscienceViz.tsx:255-288 | paused, nothing changes; running, the clock advances by 0.016, flashes fade, neurons fire only while fewer than 1500 pulses are in flight, and every pulse, new ones included, advances with the arrived ones dropped; the invariant is kept, with at most 2009 pulses in flight |
| Connectome.Connectome.FadeFlashes | components/NeuroscienceViz.tsx:259-264 | the loop leaves exactly the faded flashes |
| Connectome.Connectome.SpawnLoop | components/NeuroscienceViz.tsx:267-281 | the loop leaves exactly the spawn pass, in neuron order |
| Connectome.Connectome.SpawnStep | components/NeuroscienceViz.tsx:268-280 | one callback does exactly what `SpawnOne` states |
| Connectome.Connectome.AdvanceLoop | components/NeuroscienceViz.tsx:284-287 | the filter loop leaves exactly the advanced pulses |
| Connectome.Connectome.Pick | components/NeuroscienceViz.tsx:464-475 | nothing is hovered exactly when no neuron is closer than 12; otherwise the first neuron of the scene at the smallest distance below 12 is |
| Connectome.Connectome.MouseDown | components/NeuroscienceViz.tsx:500 | a press starts a drag at the pressed point |
| Connectome.Connectome.MouseUp | components/NeuroscienceViz.tsx:502 | a release ends the drag |
| Connectome.Connectome.MouseMove | components/NeuroscienceViz.tsx:449-476 | a drag turns the camera by 0.005 per pixel and leaves the hover; otherwise the hover becomes exactly what `Pick` chooses for the mouse's on-screen distances: none when no neuron is within 12, else the first neuron at the smallest distance |
| Connectome.Connectome.CanvasClick | components/NeuroscienceViz.tsx:478-491 | the click updates the selection exactly as `Click` states |
| Connectome.Connectome.ResetButton | components/NeuroscienceViz.tsx:584-585 | the reset builds exactly the placed and wired connectome that `initConnectome` builds and returns its cursor, drops every pulse and clears the selection; the clock, camera, drag state and hover are kept |
| Connectome.Connectome.ZoomButton | components/NeuroscienceViz.tsx:629-631 | the zoom moves by 0.1 within [0.4, 2.5], keeping the invariant |
| NeuralNetwork.LayerAtRange | components/AINeuralNetworkViz.tsx:95-152 | the nodes are pushed layer by layer: 4 inputs, 6 and 6 hidden, 3 outputs, each layer a consecutive block of the 19 |
| NeuralNetwork.IdTextInjective | components/AINeuralNetworkViz.tsx:97-142 | the printed ids `IN-i`, `H1-i`, `H2-i`, `OUT-i` are equal only for equal keys |
| NeuralNetwork.Layout | components/AINeuralNetworkViz.tsx:95-152 | `initNetwork` pushes exactly 19 nodes |
| NeuralNetwork.SkeletonKeepsShape | components/AINeuralNetworkViz.tsx:95-152 | changing only activity, rotation and value keeps the layout's ids, layers and positions |
| NeuralNetwork.LayoutShaped | components/AINeuralNetworkViz.tsx:95-152 | the layout's ids, layers and positions are those of the layer-by-layer order |
| NeuralNetwork.LayoutShape | components/AINeuralNetworkViz.tsx:95-152 | the layout has 4, 6, 6 and 3 nodes in its layers, none active; inputs get a value in [0, 1), outputs in [0.1, 1), hidden nodes 0 |
| NeuralNetwork.NodeIdsUnique | components/AINeuralNetworkViz.tsx:97-142 | different nodes have different ids, also as printed |
| NeuralNetwork.FindNode | components/AINeuralNetworkViz.tsx:223 | `find` by id returns the first node with that id, or nothing when no node has it |
| NeuralNetwork.FindShaped | components/AINeuralNetworkViz.tsx:223 | in a laid-out list the node with the i-th id is the i-th node |
| NeuralNetwork.OfLayer | components/AINeuralNetworkViz.tsx:155-156 | the layer filter never yields more nodes than the list |
| NeuralNetwork.OfLayerPrefix | components/AINeuralNetworkViz.tsx:155-156 | filtering a prefix of a laid-out list by layer gives the part of that layer's block inside the prefix |
| NeuralNetwork.OfLayerShaped | components/AINeuralNetworkViz.tsx:155-156 | the nodes of a layer are exactly the consecutive block the layout pushed for it |
| NeuralNetwork.PathPoints | components/AINeuralNetworkViz.tsx:159-168 | a path has exactly as many points as the loop runs |
| NeuralNetwork.PathPointsAt | components/AINeuralNetworkViz.tsx:159-168 | point j of a path is the bent linear interpolation at t = j/20 |
| NeuralNetwork.PathStartsAtSource | components/AINeuralNetworkViz.tsx:159-168 | every path has 21 points and, since sin 0 = 0, starts at its source node |
| NeuralNetwork.Row | components/AINeuralNetworkViz.tsx:158-170 | one row has one connection per target |
| NeuralNetwork.ConnsLength | components/AINeuralNetworkViz.tsx:154-171 | `buildConns` makes one connection per (from, to) pair |
| NeuralNetwork.RowPick | components/AINeuralNetworkViz.tsx:158-170 | a connection in a row links the source to one of the targets |
| NeuralNetwork.RowHas | components/AINeuralNetworkViz.tsx:158-170 | the link to every target is in the row |
| NeuralNetwork.ConnsPick | components/AINeuralNetworkViz.tsx:154-171 | every connection built is the link of some (from, to) pair |
| NeuralNetwork.ConnsHas | components/AINeuralNetworkViz.tsx:154-171 | the link of every (from, to) pair is built |
| NeuralNetwork.LinkShaped | components/AINeuralNetworkViz.tsx:154-171 | in a laid-out list the link between nodes i and j depends only on i and j |
| NeuralNetwork.BlockForward | components/AINeuralNetworkViz.tsx:154-171 | a connection between two layers' blocks links a node of the first layer to a node of the second |
| NeuralNetwork.BlockBackward | components/AINeuralNetworkViz.tsx:154-171 | the link between any node and any node of another layer is among the connections between their blocks |
| NeuralNetwork.AllConnsShape | components/AINeuralNetworkViz.tsx:154-176 | the three calls build 4·6 + 6·6 + 6·3 = 78 connections, one from each node to each node of the next layer and no others |
| NeuralNetwork.AllConnsCount | components/AINeuralNetworkViz.tsx:174-176 | there are 78 connections |
| NeuralNetwork.AllConnsPick | components/AINeuralNetworkViz.tsx:174-176 | every connection links a node to a node of the next layer |
| NeuralNetwork.ConnectionFacts | components/AINeuralNetworkViz.tsx:154-176 | no connection leaves an output node or enters an input node, and every path has 21 points, starting at its source node |
| NeuralNetwork.Outgoing | components/AINeuralNetworkViz.tsx:204 | the outgoing filter keeps exactly the connections from the given node |
| NeuralNetwork.EmittedFacts | components/AINeuralNetworkViz.tsx:204-214 | a firing sends at most one signal per connection, each at progress 0 and intensity 1 along one of them, using at least one draw per connection |
| NeuralNetwork.EmittedLive | components/AINeuralNetworkViz.tsx:204-214 | the signals a firing sends are live and not yet moving |
| NeuralNetwork.Attenuate | components/AINeuralNetworkViz.tsx:236 | a child's intensity lies in [0.9·parent, parent) |
| NeuralNetwork.ChildrenFacts | components/AINeuralNetworkViz.tsx:229-240 | the children of an arriving signal start at progress 0 on one of the target's connections with intensity in [0.9·parent, parent); a parent no stronger than threshold·0.4 has none |
| NeuralNetwork.Arrive | components/AINeuralNetworkViz.tsx:225-227 | an arrival makes its target fully active with its value clamped to [0.1, 0.99], and keeps its id, layer and position |
| NeuralNetwork.ChildrenLive | components/AINeuralNetworkViz.tsx:229-240 | the children of a signal with intensity in (0, 1] are live and not yet moving |
| NeuralNetwork.SweepStepOk | components/AINeuralNetworkViz.tsx:218-246 | one sweep step keeps the sweep invariant: survivors are short of progress 1, and children start at 0 on a connection |
| NeuralNetwork.SweepAllOk | components/AINeuralNetworkViz.tsx:217-248 | the whole sweep keeps that invariant, so every signal afterwards is live |
| NeuralNetwork.SweepStepEffect | components/AINeuralNetworkViz.tsx:218-246 | a signal survives, advanced, exactly while it stays short of progress 1; on arrival it is dropped, its target (found by id) becomes active with its value in [0.1, 0.99], and children are added only for a hidden-layer target |
| NeuralNetwork.Decayed | components/AINeuralNetworkViz.tsx:250-253 | a node keeps its id, layer, position and value; its activity drops by 0.04·speed only while positive (it may go below 0), and its rotation advances by 0.1·speed |
| NeuralNetwork.FadedFacts | components/AINeuralNetworkViz.tsx:255-259 | the surviving auras are exactly the grown and faded ones still visible, and no more than before |
| NeuralNetwork.Network.constructor | components/AINeuralNetworkViz.tsx:81-88 | the scene before its first effect: no nodes, connections, signals or auras |
| NeuralNetwork.Network.LayPath | components/AINeuralNetworkViz.tsx:160-168 | the path loop builds exactly the 21 path points |
| NeuralNetwork.Network.BuildConns | components/AINeuralNetworkViz.tsx:154-172 | the nested loops build exactly one connection per (from, to) pair, in order |
| NeuralNetwork.Network.InitNetwork | components/AINeuralNetworkViz.tsx:90-182 | the nodes are exactly the layout, the connections exactly the 78 consecutive-layer links, and signals and auras are cleared; the scene invariant holds |
| NeuralNetwork.Network.LayNodes | components/AINeuralNetworkViz.tsx:95-152 | the four push loops build exactly the layout |
| NeuralNetwork.Network.Emit | components/AINeuralNetworkViz.tsx:204-214 | the firing loop sends exactly the emitted signals |
| NeuralNetwork.Network.FanOut | components/AINeuralNetworkViz.tsx:230-240 | the fan-out loop builds exactly the children |
| NeuralNetwork.Network.Fire | components/AINeuralNetworkViz.tsx:198-215 | below the firing chance 0.08·speed a random input node becomes fully active, gets one aura of radius 20 and opacity 0.8, and sends the emitted signals along its connections; otherwise nothing changes |
| NeuralNetwork.Network.FireFrom | components/AINeuralNetworkViz.tsx:201-214 | the firing source lights up, gets its aura and sends its signals, keeping the scene invariant |
| NeuralNetwork.Network.Sweep | components/AINeuralNetworkViz.tsx:217-248 | the nodes and signals become exactly the sweep's, with the children after the survivors, so no child moves this frame; the invariant is kept |
| NeuralNetwork.Network.SweepOne | components/AINeuralNetworkViz.tsx:218-246 | the filter callback does exactly one sweep step |
| NeuralNetwork.Network.SweepLoop | components/AINeuralNetworkViz.tsx:217-246 | the loop does exactly the whole sweep, signal by signal |
| NeuralNetwork.Network.DecayNodes | components/AINeuralNetworkViz.tsx:250-253 | every node is decayed, and nothing else changes |
| NeuralNetwork.Network.FadeAuras | components/AINeuralNetworkViz.tsx:255-259 | the auras become exactly the faded survivors |
| NeuralNetwork.Network.Tick | components/AINeuralNetworkViz.tsx:195-260 | paused, nothing changes; running, the clock advances by 0.016·speed, at most one aura is added, and the scene invariant is kept through firing, sweep, decay and fade |
| SpaceScene.ConfigOf | components/Visualizations.tsx:79-88 | the scene runs in accretion mode with 1600 particles or in wave mode with none, and in no other configuration |
| SpaceScene.AccretionIff | components/Visualizations.tsx:79-88 | accretion mode is chosen exactly when the lowered concept names a black hole or a singularity and none of the merger words; the particle count is 1600 exactly in that mode |
| SpaceScene.MergerWordsComeFirst | components/Visualizations.tsx:81-86 | a concept naming both a merger and a black hole runs the wave scene, since the merger test comes first |
| SpaceScene.NoConceptIsWaves | components/Visualizations.tsx:80-87 | without a concept the wave scene runs |
| SpaceScene.Decay | components/Visualizations.tsx:137 | with a positive power the inspiral decay is positive |
| SpaceScene.Shrink | components/Visualizations.tsx:138 | a positive decay at a positive speed shrinks the orbit |
| SpaceScene.InspiralStep | components/Visualizations.tsx:136-142 | an inspiral frame at positive speed shrinks the orbit; the phase becomes MERGER, with the merger timer at 1, exactly when the radius falls below 10; the recoil, ringdown timer and wave radius are untouched |
| SpaceScene.MergerStep | components/Visualizations.tsx:143-150 | a merger frame runs the timer down by 0.03·speed and spreads the wave by 15·speed; the phase becomes RINGDOWN, with its timer at 1 and a recoil of three draws in [-15, 15), exactly when the timer falls below 0.2 |
| SpaceScene.RingdownStep | components/Visualizations.tsx:151-156 | a ringdown frame multiplies the timer by 0.97 and the recoil by 0.94 and spreads the wave; once the timer is below 0.01 and the wave beyond 1200 the wave state is reset |
| SpaceScene.PhaseOrder | components/Visualizations.tsx:135-156 | the phases only move forward, INSPIRAL to MERGER to RINGDOWN and back to INSPIRAL only by the reset |
| SpaceScene.MergerCountdown | components/Visualizations.tsx:143-150 | for 26 frames at speed 1 a fresh merger stays a merger, its timer 1 - 0.03·n |
| SpaceScene.MergerEndsOnFrame27 | components/Visualizations.tsx:143-150 | at speed 1 a fresh merger ends on its 27th frame |
| SpaceScene.MoveBody | components/Visualizations.tsx:201-212 | in the inspiral a hole turns by the orbit's angular step at its height and size; afterwards it sits at the recoil with size 44 |
| SpaceScene.OnOrbit | components/Visualizations.tsx:203-205 | in the inspiral a hole lies on the circle of the current radius in the x-z plane |
| SpaceScene.PairStaysOpposite | components/Visualizations.tsx:203-205 | two holes half a turn apart stay half a turn apart |
| SpaceScene.Moved | components/Visualizations.tsx:201-212 | the `map` moves every hole and keeps their number and order |
| SpaceScene.InspiralPair | components/Visualizations.tsx:201-212 | two holes half a turn apart stay half a turn apart, and both lie on the circle of the current radius |
| SpaceScene.OtherTopicIsSpace | components/Visualizations.tsx:284-305 | a topic string that names no topic gets the space scene |
| SpaceScene.EveryTopicHasItsScene | components/Visualizations.tsx:284-305 | every topic gets its own scene, none the default and no two the same |
| SpaceScene.SpaceViz.constructor | components/Visualizations.tsx:59-77 | the initial rotation (0.4, -0.4), zoom and speed 1, no drag, clock 0, the fresh wave state and no holes yet |
| SpaceScene.SpaceViz.ResetSimulation | components/Visualizations.tsx:93-110 | the clock is reset; in wave mode the wave state is fresh and the holes are the opposite pair at radius 180; in accretion mode nothing else changes |
| SpaceScene.SpaceViz.Frame | components/Visualizations.tsx:128-212 | a frame evolves the wave state in wave mode, takes three draws only when the merger ends, advances the clock by 0.016·speed unless the scene reset, and moves the holes by the phase the frame started in |
| SpaceScene.SpaceViz.InspiralFrame | components/Visualizations.tsx:136-142 | the inspiral branch does exactly one inspiral step |
| SpaceScene.SpaceViz.MergerFrame | components/Visualizations.tsx:143-150 | the merger branch does exactly one merger step, drawing the recoil only when it ends |
| SpaceScene.SpaceViz.RingdownFrame | components/Visualizations.tsx:151-156 | the ringdown branch does one ringdown step and resets the clock and the holes when the wave state is reset |
| SpaceScene.SpaceViz.MoveBodies | components/Visualizations.tsx:201-212 | the pass moves exactly every hole, in order |
| SpaceScene.SpaceViz.MouseDown | components/Visualizations.tsx:251 | a press starts a drag from the pointer's position |
| SpaceScene.SpaceViz.MouseMove | components/Visualizations.tsx:252-259 | while dragging, the pitch moves by 0.008 per pixel clamped to [-0.1, π/2] and the yaw by 0.008 per pixel, and the pointer is remembered; otherwise nothing changes |
| SpaceScene.SpaceViz.MouseUp | components/Visualizations.tsx:260 | a release ends the drag |
| ContentService.QuotaErrorIgnoresCase | services/geminiService.ts:5-8 | the quota test ignores the case of the message |
| ContentService.NoMessageIsGeneral | services/geminiService.ts:6 | an error without a message is not a quota error |
| ContentService.QuotaErrorIff | services/geminiService.ts:5-8 | an error is a quota error exactly when its lowered message contains "quota", "429" or "resource_exhausted" at some offset |
| ContentService.HandleError | services/geminiService.ts:10-26 | every handled error is typed, QUOTA_EXCEEDED exactly for quota errors and GENERAL_ERROR otherwise, with that type's fixed message |
| ContentService.FetchLearningContent | services/geminiService.ts:89-129 | without a key the fixed placeholder module is returned; a failing call becomes its handled error |
| ContentService.MissingKeyHasNoNews | services/geminiService.ts:90-99 | without a key the result is the same whatever the call would do, and has no sub-topics and no news |
| ContentService.FetchFailureIsError | services/geminiService.ts:104-128 | with a key the result is an error exactly when the call threw or returned no text, and such an error is typed |
| ContentService.FetchConceptExplanation | services/geminiService.ts:131-159 | without a key the untyped "API Key required" error is returned; with a key every error is typed, and a failing call becomes its handled error |
| ContentService.ChatConfigFor | services/geminiService.ts:176-186 | thinking mode picks the pro model with a thinking budget of 32768 and no search; otherwise the flash model with search and no budget |
| ContentService.GroundingSourcesAppend | services/geminiService.ts:193-199 | the sources of two chunk lists are the sources of each, in order |
| ContentService.CollectSources | services/geminiService.ts:191-199 | the `forEach` pushes exactly the sources of the grounded chunks, in order |
| ContentService.SourcesAreGrounded | services/geminiService.ts:195-196 | a source is collected exactly when some chunk has both a web uri and a title, with that title and uri |
| ContentService.SourcesCount | services/geminiService.ts:193-199 | no more sources than chunks; as many exactly when every chunk is grounded, and none exactly when none is |
| ContentService.ChatWithTutor | services/geminiService.ts:167-206 | without a key a fixed error reply; a failing call replies with the handled error's message and no sources; a reply carries its text (or "") and exactly the grounded sources |

## Left out

- Canvas drawing (grids, glows, labels, gradients, trails, the sort by depth before drawing) is not modelled: it changes no state the rules read.
- `requestAnimationFrame`, React rendering and effect scheduling are not modelled: one frame or one event is one method call, and the caller decides the order.
- Floating-point rounding, NaN and infinities are not modelled: numbers are `real`.
- `Math.sin`, `cos`, `sqrt`, `pow` and the rest are opaque functions of a `MathLib` value, with only the identities a proof needs stated as `requires`.
- The background star fields of the space scene (components/Visualizations.tsx:113-118, 600 stars) and of the orbital scene (components/SolarSystemViz.tsx:57-66, 800 stars) are not modelled: they are drawn and never read, and their draws are not taken from the modelled stream.
- SpaceScene.SpaceViz: `config` is fixed when the scene is constructed; a change of `concept` or `topic` while it stays mounted, which recomputes the configuration (components/Visualizations.tsx:79-88) and re-runs the reset effect (components/Visualizations.tsx:112-120), is modelled only as constructing the scene anew.
- Lower-casing is ASCII only: non-ASCII letters keep their case.
- Random ids are not printed: an id stays the draw it was made from.
- The network calls, JSON parsing and the GoogleGenAI client are not modelled: each call's outcome (a value, no text, or a thrown error with its message) is a parameter, and so is the API key.
- Console logging in the error handler is left out, since it changes nothing the caller sees.
- Collider.Collider.AdvanceClock: the HUD copy of the clock, which `setEventTime` refreshes when the throttle draw exceeds 0.8, only changes what is shown, so it is not modelled; the draw itself is taken.
- Collider.Collider.CreateTrack: requires `pT + 0.01 != 0`, because the source divides by it.
- The accretion mode's particle count of 1600 is recorded in the configuration, but no accretion particles are modelled, since the source never creates any.
- StarFormation.CloudStep: requires the grain to be off the centre, because the source divides by its distance from it.
- StarFormation.AccretionStep: requires the grain to be off the axis, because the source divides by its distance from it.
- SolarSystem.ClickPoint: a zero-size bounding rectangle gives no point, where the source would divide by zero.
- The time-scale sliders' methods require a value in the slider's range, 0.1 to 10.
- The cosmology grid and particle toggles only change what is drawn. The singularity, CMB and atmosphere stages only draw.
- The clicked planet's detail panel texts and the orbital scene's close button only change what is shown.
- The neural-network scene's camera (drag, zoom buttons) and its pause button are not modelled. Pause is a parameter of `NeuralNetwork.Network.Tick`.
- The neural-network scene's UI and detail toggles only change what is shown.
- The connectome's pause button, rate sliders, brain-shell toggle and selection close button are not modelled as methods. Pause and the rate multipliers are parameters of `Connectome.Connectome.Tick`.
- The brain-shell outline loops step by floating-point increments and only draw, so they are not modelled.
- NeuralNetwork.Network.Tick: states only the clock, the pause path, the aura bound and the invariant. The effect of each step is stated by Fire, Sweep, DecayNodes and FadeAuras.

## Findings

| source | as written | input that shows it | evidently intended | confidence | as-written member | corrected member |
|---|---|---|---|---|---|---|
| components/SolarSystemViz.tsx:218-224 | `handleMouseUp` measures the release against `lastMouse`, which `handleMouseMove` overwrites on every move, so any drag ending in one place counts as a click | press at (0, 0), move to (100, 0), release at (100, 0) | the release is a click when it lands within 10 pixels of the press | not executed | SolarSystem.ReleaseAfterMovesIsClickAsWritten | SolarSystem.SolarSystemViz.MouseUp |
