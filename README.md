# Perlin Noise Painter: a model of the particle engine

This project models the particle engine of Perlin Noise Painter. The painter is a p5.js page that
plays an ordered list of *particle sets*. A set is a batch of particles with one option block and
one lifetime countdown. Each particle moves through a noise field and leaves a line, arc, circle
or square mark behind.

The model has one Dafny module per source file, plus small value modules:

- `Vectors` covers the part of p5.Vector that the engine uses: add, setMag and limit.
  - Vectors are values here. Every vector the engine changes in place is a private copy.
- `Config` covers the option block of a set and its `options.x || default` defaulting.
  - Under `||` a falsy value (0, "", false) takes the default, just as an absent one does.
- `Particles` (Particle.js) is the class `Particle`.
  - Its state: position, previous position, velocity, acceleration, size, alpha and lifetime.
  - Its update rules: the physics step, the direct no-op and the countdown.
  - `follow`: the physics force, which reads the page's global `noiseScale` and `magnitude`, and the direct step, which reads the set's own.
  - Edge wrapping, and the size at which `show` draws a particle.
  - The spawn position is a nondeterministic choice within p5's `random` range.
  - Noise and `fromAngle` are a `Field` parameter.
  - `UpdateDirect` is an empty method, as it is in the source.
- `ParticleSets` (ParticleSet.js) is the class `ParticleSet`.
  - The constructor with its defaults, `generateParticles`, `update` with shrink and fade, `follow`, `edges`, and what `show` draws.
  - A set empties its particle list only when its lifetime reaches exactly 0.
- `Sequences` (ParticleSequence.js) is the class `ParticleSequence`.
  - `execute` draws, updates, follows and wraps the current set, then moves the cursor on once that set's lifetime is at most 0.
  - `follow` is called with no argument, so every particle uses its own method.
  - The cursor is also modelled as a small state machine (`Cursor`, `Step`, `Run`), with lemmas for how long a sequence runs.
- `Colors` (script.js `hexToRgb`) covers the colour-input parser and its inverse.
- `Page` (script.js) covers the page state (`particleSets`, `particleSequence`, `isRunning`) as a class.
  - Operations: `loadPresetData`, `startAnimation`, `removeParticleSet` and the per-frame stop test of `draw`.
  - The status labels and lifetime text of the set list.
  - The two defects listed under Findings.

Three behaviours of the code worth noting:

- The physics follow uses the globals `noiseScale` and `magnitude` (script.js:6-7) rather than the set's options.
- A lifetime keeps counting below 0, and a shrinking size keeps shrinking below 0.
- `id` and `originalLifetime` are read but never assigned (see Findings).

## Model

| member | source | states |
|---|---|---|
| Vectors.SetMag | Particle.js:97-98 | a unit direction scaled to length \|m\|, on the same line as the direction |
| Vectors.Add | Particle.js:30-31 | p5's `add`: each coordinate of the result exceeds the first vector's by the second's |
| Vectors.Limit | Particle.js:32 | a vector within the limit is kept; otherwise the result is no longer than the limit and lies on the same line, pointing the same way for a non-negative limit |
| Config.Resolve | ParticleSet.js:11-27 | each of the fifteen options takes the supplied value when it is truthy (any supplied colour counts as truthy) and its literal default otherwise; the result is settled (scl, magnitude and the rates are non-zero, the method and shape strings non-empty) |
| Config.ResolveDefaults | ParticleSet.js:11-27 | an empty option block resolves to the documented defaults: scl 5, magnitude 4, angleMult 1, speed limit 1, noiseScale 0.01, "direct", "line", "relative", white fill, shrinkRate 0.3, fadeRate 1 |
| Config.FalsyIsAbsent | ParticleSet.js:11-27 | a falsy option (0, "", false) resolves exactly as an absent one |
| Config.ResolveSupplied | ParticleSet.js:11-27 | supplying every field of a settled block again rebuilds the same block |
| Config.ResolveIdempotent | ParticleSet.js:11-27 | defaulting applied to its own output changes nothing |
| Particles.Integrated | Particle.js:28-34 | the physics step: previous position is the old position, the position moves by velocity plus acceleration before limiting, the acceleration is cleared |
| Particles.UpdateState | Particle.js:19-26 | every update counts the lifetime down by one; any method but "physics" changes nothing else |
| Particles.UpdateCountsDown | Particle.js:19-34 | an update counts down by exactly one. With "physics" it integrates with the unlimited velocity, leaves a velocity within the speed limit and clears the acceleration. With any other method nothing else changes |
| Particles.Steer | Particle.js:107-109 | the steering vector has length \|mag\| |
| Particles.DirectStep | Particle.js:107-109 | the direct step has length equal to the set's magnitude |
| Particles.PhysicsForce | Particle.js:94-98 | the physics force has length equal to the global magnitude |
| Particles.FollowState | Particle.js:84-90 | an unrecognised method leaves the particle unchanged |
| Particles.FollowMoves | Particle.js:84-113 | direct follow records the old position and moves by a step of length \|magnitude\|; physics follow changes only the acceleration, by a force of the global magnitude; neither touches velocity, size, alpha or lifetime |
| Particles.PhysicsIgnoresSetMagnitude | Particle.js:94-98 | the physics force is the same whatever the set's own magnitude and noiseScale |
| Particles.EdgeState | Particle.js:65-82 | edges moves only the position and the trail start; velocity, acceleration, size, alpha and lifetime are kept |
| Particles.EdgesWrap | Particle.js:65-82 | after edges the position is on the canvas; a coordinate beyond the far edge goes to 0, one below 0 to the far edge, and the same for the y coordinate against the height; one on the far edge stays; a wrap cuts the trail and keeps velocity, size, alpha and lifetime; no wrap changes nothing |
| Particles.EdgesIdempotent | Particle.js:65-82 | wrapping twice is wrapping once |
| Particles.Map | Particle.js:127 | the linear map sends 0 to 0 and fullLife to size |
| Particles.ShapeSize | Particle.js:125-133 | without shrink the size; with "direct" the lifetime; with "relative" the size at full life and 0 at lifetime 0; no number exactly for an unknown mode or a zero full life |
| Particles.RelativeSizeLinear | Particle.js:126-127 | the relative size falls by size/fullLife per tick and turns negative with the lifetime |
| Particles.MarkOf | Particle.js:115-158 | a mark is drawn exactly for the four known shapes, at the particle's position with its size as weight and its alpha; arcs, circles and squares take ShapeSize |
| Particles.Particle.constructor | Particle.js:3-17 | a particle spawns within the canvas widened by the spillover, at rest, previous position equal to position, full lifetime, the set's speed limit and method |
| Particles.Particle.Update | Particle.js:19-26 | update with the given method, or the particle's own when none is given, is one Updated step |
| Particles.Particle.UpdatePhysics | Particle.js:28-34 | the new velocity is the old velocity plus acceleration, clamped; the new state is the physics integration with it |
| Particles.Particle.UpdateDirect | Particle.js:36-54 | the direct update changes nothing: its body is only commented-out code |
| Particles.Particle.ApplyForce | Particle.js:56-58 | the force is added to the acceleration and nothing else changes |
| Particles.Particle.UpdatePrev | Particle.js:60-63 | the previous position becomes the position; nothing else changes |
| Particles.Particle.Edges | Particle.js:65-82 | the new state is EdgeState of the old |
| Particles.Particle.Follow | Particle.js:84-90 | follow with the given method, or the particle's own, is FollowState of the old state |
| Particles.Particle.FollowPhysics | Particle.js:92-100 | only the acceleration changes, by the physics force at the old position |
| Particles.Particle.FollowDirect | Particle.js:102-113 | the previous position becomes the old position and the position moves by the direct step |
| Particles.Particle.Show | Particle.js:115-158 | a mark exactly for the four known shapes, at the particle's position and previous position, with its size as weight, its colour and its alpha |
| ParticleSets.TickEffects | ParticleSet.js:40-55 | each tick counts a particle down by one, shrinks it only for a shrinking line set, fades it only for a fading set, and moves it only under physics |
| ParticleSets.TickedByParts | ParticleSet.js:41-55 | a particle's own update followed by shrink and fade is one tick of the set |
| ParticleSets.ParticleSet.constructor | ParticleSet.js:3-32 | the set keeps its arguments, resolves its options, starts with lifetime equal to the original, and holds max(numParticles, 0) fresh particles spawned with its settings |
| ParticleSets.ParticleSet.GenerateParticles | ParticleSet.js:34-38 | slots 0 .. numParticles-1 get fresh particles spawned with the set's settings; later slots are kept; the length is max(numParticles, old length) |
| ParticleSets.ParticleSet.TickParticle | ParticleSet.js:41-55 | one iteration of the update loop is one tick of that particle |
| ParticleSets.ParticleSet.Update | ParticleSet.js:40-61 | every particle is ticked; the set's lifetime drops by one; the particle list is emptied exactly when the lifetime becomes 0 |
| ParticleSets.ParticleSet.Follow | ParticleSet.js:69-73 | every particle follows with the argument as method, or with its own when none is given |
| ParticleSets.ParticleSet.FollowStep | ParticleSet.js:70-72 | one iteration of the follow loop moves particle i to its follow target and leaves every other particle as it was |
| ParticleSets.ParticleSet.Edges | ParticleSet.js:75-81 | every particle is wrapped when edge wrapping is on; otherwise nothing changes |
| ParticleSets.ParticleSet.Drawn | ParticleSet.js:63-67 | one mark per particle, in list order |
| Sequences.Step | ParticleSequence.js:7-23 | a running cursor counts its set down and moves on exactly when the new lifetime is at most 0; a finished one stays put |
| Sequences.RunMonotone | ParticleSequence.js:19-22 | the cursor never goes back and moves at most one set per call |
| Sequences.StaysCurrent | ParticleSequence.js:19-22 | a set with lifetime L stays current for exactly max(L, 1) calls, counted down once per call |
| Sequences.CompletesAfter | ParticleSequence.js:7-23 | from set c, the sequence runs exactly the sum of max(lifetime, 1) calls and then has its cursor past the last set |
| Sequences.SequenceDuration | ParticleSequence.js:7-23 | a fresh sequence is running after k calls if and only if k is below the sum of max(lifetime, 1) over its sets |
| Sequences.StaysDone | ParticleSequence.js:8 | once the cursor is past the last set, further calls change nothing |
| Sequences.ComposeFrame | ParticleSequence.js:14-16 | update, follow and edges over a whole set make one Stepped transition per particle |
| Sequences.PlayFrame | ParticleSequence.js:13-16 | the frame is the set as drawn before the update; the set's lifetime drops by one; its particles are emptied at 0 and otherwise each takes one Stepped transition |
| Sequences.ParticleSequence.constructor | ParticleSequence.js:2-5 | the sequence holds the given sets with the cursor on the first |
| Sequences.ParticleSequence.Execute | ParticleSequence.js:7-23 | a finished sequence draws nothing; otherwise only the current set changes; it is drawn, counted down and stepped; the cursor moves on exactly when its lifetime is at most 0 |
| Sequences.ExecuteIsStep | ParticleSequence.js:7-23 | the lifetimes and cursor after Execute are one Step of the cursor machine |
| Colors.DigitValue | script.js:51-53 | a hex digit's value is in 0..15 |
| Colors.PairValue | script.js:51-53 | two hex digits give a value in 0..255 |
| Colors.HexToRgb | script.js:48-55 | a colour is returned exactly for six hex digits with an optional leading '#', in either case; its components are the three digit pairs, each in 0..255 |
| Colors.HexRoundTrip | script.js:48-55 | every colour written as #rrggbb parses back to itself |
| Colors.HexNormalises | script.js:48-55 | parsing then writing back gives the digits in lower case after a '#' |
| Colors.HashOptional | script.js:49 | a string parses the same with or without a leading '#' |
| Page.StatusOf | script.js:143-144 | ACTIVE exactly for the cursor's set while running; COMPLETED exactly for sets before the cursor; WAITING otherwise, and with no sequence |
| Page.TintOf | script.js:143-145 | green exactly for the cursor's set, running or not; grey exactly before the cursor |
| Page.StoppedCurrentIsGreenWaiting | script.js:143-145 | a stopped page shows the cursor's set as WAITING but green |
| Page.ShownLifetime | script.js:154 | the shown lifetime is the lifetime, or 0 when it is negative |
| Page.ShownLifetimeCountsDown | script.js:154 | the shown lifetime drops by one per update until it stays at 0 |
| Page.LabelsFollowCursor | script.js:143-144 | with the cursor at c, exactly c sets read COMPLETED, and exactly one reads ACTIVE while running on a set |
| Page.CompletedStaysCompleted | script.js:144 | a COMPLETED label stays COMPLETED after every later frame |
| Page.KeepOtherIds | script.js:99 | the filter keeps exactly the ids that differ from the argument, undefined included |
| Page.RemoveClearsAllAsWritten | script.js:98-101 | with ids never set, removing any set removes them all |
| Page.RestartStallsAsWritten | script.js:245 | with originalLifetime never set, a restarted lifetime is never at most 0 nor equal to 0, however many frames pass |
| Page.RestartCountsDown | script.js:245 | with originalLifetime set to L, the restarted lifetime after k frames is L - k |
| Page.Without | script.js:99 | no kept set carries the removed id, and the list does not grow |
| Page.WithoutFrom | script.js:99 | every kept set comes from the list |
| Page.WithoutKeepsOthers | script.js:99 | every listed set with another id is kept |
| Page.WithoutAppend | script.js:99 | filtering a concatenation is concatenating the filtered parts, so the order is kept |
| Page.WithoutUnique | script.js:99 | removal keeps ids unique |
| Page.WithoutRemovesOne | script.js:98-101 | with unique ids, removing a listed set's id removes exactly that set |
| Page.WithoutAbsent | script.js:99 | removing an id no set carries changes nothing |
| Page.WithoutSingle | script.js:99 | a one-set list loses its set exactly when the ids match |
| Page.WithFill | script.js:394-396 | the rebuilt options always carry a fill |
| Page.WithFillResolves | script.js:394-396 | the loader's white fill default agrees with the set's own |
| Page.SetFromEntry | script.js:391-406 | the new set holds the entry's values and the given id, with its options resolved after the fill is rebuilt |
| Page.PageState.constructor | script.js:3-8 | the page opens with no sets, no sequence, not running |
| Page.PageState.LoadPresetData | script.js:371-433 | no array leaves the page unchanged; an incomplete entry (a missing or zero count, lifetime or size, or a missing colour or options) leaves no sets and no sequence; otherwise one fresh set per entry, in order, and a sequence over them at its first set exactly when there are any |
| Page.PageState.StartAnimation | script.js:232-256 | with no sets nothing changes; otherwise the page runs, every set has its lifetime restored and its slots refilled, and a fresh sequence over the same sets starts at the first |
| Page.PageState.RemoveParticleSet | script.js:98-101 | the list becomes the sets with another id, in order; nothing else changes |
| Page.PageState.Draw | script.js:27-39 | a page that is not running, or has no sequence, draws nothing and leaves the page, the sequence and every set and particle of the frame unchanged; otherwise after the frame it keeps running exactly while the cursor is before the end of the list |
| Page.ResetSet | script.js:244-247 | the lifetime returns to the original; the first numParticles slots hold fresh particles spawned as in the constructor; later slots are kept |

## Left out

- Drawing calls (`stroke`, `line`, `arc`, `ellipse`, `square`, `background`, `fill`) are left out. What `show` would draw is modelled as a list of marks.
- Perlin noise, `fromAngle` and `noiseSeed` are left out. They are library calls with no visible definition, so they are a `Field` parameter whose noise values lie in [0, 1).
- `random` is a nondeterministic choice within the spawn range. No particular random sequence is modelled.
- Floating point is modelled as exact reals, and `TWO_PI` as a rational constant. Rounding is not captured.
- Vectors.Limit: states only that a too-long vector is replaced by one on the same line, pointing the same way, and no longer than the limit. It does not state that the result's length equals the limit, which would need a square root.
- The particle's `parent` reference is a copy of the set's options. The set never writes its options after construction, so the copy reads what the reference would.
- Lifetimes, particle counts and alphas are integers or reals. JSON values of other types, NaN (except in the restart finding) and a missing `alpha` in a preset entry are not modelled.
- The DOM is left out: `updateParticleSetsList` beyond its status and lifetime text, tooltips, buttons, the FPS counter and form parsing (`addParticleSet`, `randomizeParameters`).
- File input and output are left out: `FileReader`, `fetch` and `savePreset`.
- The ids that the corrected page hands out come from a `nextId` counter of the model. The source has no id source at all (see Findings).
- Page.PageState.StartAnimation: its own contract states the restored lifetimes and the refilled slot counts. The spawn state of each new particle is stated by Page.ResetSet, which the loop calls for each set.
- Page.PageState.Draw: does not restate the Cursor step of the sequence. That is stated by Sequences.ParticleSequence.Execute and Sequences.ExecuteIsStep.
- sketch.js is an earlier stand-alone version of the sketch. It is not part of this model.

## Findings

| source | as written | input that shows it | evidently intended | confidence | as-written member | corrected member |
|---|---|---|---|---|---|---|
| script.js:99 | removeParticleSet filters on `set.id`, but ParticleSet.js:3-32 never assigns `id`, so every remove button passes undefined and `undefined !== undefined` is false | two sets loaded, Remove pressed on either | only the set whose button was pressed is removed | not executed | Page.RemoveClearsAllAsWritten | Page.WithoutRemovesOne |
| script.js:245 | startAnimation restores `set.lifetime = set.originalLifetime`, but ParticleSet.js:3-32 never assigns `originalLifetime`, so the lifetime becomes undefined, then NaN, and `NaN <= 0` never holds | any preset followed by startAnimation | each set plays for its original lifetime and the sequence then moves on | not executed | Page.RestartStallsAsWritten | Page.RestartCountsDown |

For the second finding, the corrected constructor ParticleSets.ParticleSet.constructor sets `originalLifetime`, and Page.ResetSet restores it.
