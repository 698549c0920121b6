# Particle shapes and follow-mouse ring — a Dafny model

This project models the two sequential cores of a particle showcase.

**Particle force step and initialisation (`src/App.jsx`).**
- Eight shape generators fill a flat `Float32Array` of `3 · count` values.
- Initialisation looks up the generator by name. The generated buffer becomes both the live positions and the rest ("original") positions. Every particle gets the base colour, and velocities are seeded from random draws.
- Every animation frame updates each particle from its own three slots:
  - a zone repulsion away from the pointer target, with the big zone tested first;
  - a radial push;
  - damping;
  - a spring back to the rest position;
  - optional "restless" jitter;
  - a per-component velocity clamp;
  - position integration.

**Follow-mouse ring (`src/FollowMouseParticles.js`).**
- `Circle.makePoints` spreads points around a ring at angle steps of `360 / particleCount` degrees. Each point gets a random radius offset and a random gray level.
- `Circle.updatePoints` advances each point's angle by `rotate`, which defaults to `speed`. It takes a new radius from a sine wobble and accumulates random noise, clamped to `±maxPnChange`.

All arithmetic is over Dafny `real`.
- `Math.sqrt`, `sin`, `cos` and `acos` are fields of a `MathFns` record passed in as a parameter. Facts a proof may use about them are stated as predicates: `SqrtSound` (non-negative root of the argument), `TrigBounded` (`|sin|, |cos| <= 1`) and `Pythagorean` (`sin² + cos² = 1`).
- Each `Math.random()` draw is an explicit parameter in `[0, 1)`.
- A typed-array `set(values, offset)` with a fractional offset truncates the offset. `FlatBuffer.WriteOffset` models this with `Floor`. Overlapping writes are resolved by the later particle (`FlatBuffer.Scatter`).

Modules:
- `Results`: `Option` and `Result`.
- `Numerics`: the clamp, scaled draws and inverse-square facts.
- `Vectors`: 3-vectors.
- `FlatBuffer`: triple buffers and `set`.
- `Shapes`: the generators and their lookup table.
- `ForceStep`: one particle's frame update.
- `Frame`: the frame loop over all particles.
- `Init`: initialisation.
- `FollowMouse`: the `Circle` point-state machine.

## Model

| member | source | states |
|---|---|---|
| `Numerics.Clamp` | src/App.jsx:274-276 | `Math.max(Math.min(v, m), -m)` lies in `[-m, m]` whenever `m >= 0` |
| `Numerics.ClampNearest` | src/App.jsx:274-276 | the clamp keeps a value already in `[-m, m]`, maps values above to `m` and below to `-m`, never grows `|v|`; a negative bound yields `-m` |
| `Numerics.Centered` | src/App.jsx:61 | `(Math.random() - 0.5) * s` lies in `[-s/2, s/2]`, strictly below `s/2` when `s > 0` |
| `Numerics.InverseSquareAntitone` | src/App.jsx:234-237 | `strength / dist²` does not increase with distance for a non-negative strength |
| `Vectors.ClampVec` | src/App.jsx:274-276 | each component is clamped on its own: one inside `[-m, m]` is kept, one above becomes `m`, one below becomes `-m`; so the result lies in the box `[-m, m]³` and a vector already inside is unchanged |
| `FlatBuffer.Overwrite` | src/App.jsx:30-33 | `set(vals, off)` puts `vals` at `off ..` and leaves every other slot as it was |
| `FlatBuffer.Put3` | src/App.jsx:279-281 | writing particle `i`'s triple changes slots `3i .. 3i+2` only |
| `FlatBuffer.Get3Put3` | src/App.jsx:216-219 | reading a triple back after a write gives the written triple at `i` and the old one elsewhere |
| `FlatBuffer.WriteOffset` | src/App.jsx:84 | a fractional offset `i * factor` is truncated to the integer below it |
| `FlatBuffer.OffsetFits` | src/App.jsx:125 | with an offset factor of at most 3 (the generators use 3, 2.9, 2.7 and 1.5) and at most three values, no particle writes past the `3 · count` buffer, so `set` never throws |
| `FlatBuffer.Scatter` | src/App.jsx:26 | a generator's buffer has exactly `3 · count` entries |
| `FlatBuffer.ScatterStride` | src/App.jsx:30-33 | with offset `i * 3`, particle `i`'s three values are exactly its triple and slots after the last particle stay zero |
| `FlatBuffer.ScatterLast` | src/App.jsx:84 | the last particle's write is never overwritten |
| `FlatBuffer.ScatterTail` | src/App.jsx:140 | every slot past the last particle's write keeps its initial zero |
| `FlatBuffer.LastSlotUnwritten` | src/App.jsx:125 | with an offset factor below 3 and two or more particles, the final slot is never written |
| `Shapes.LookupShape` | src/App.jsx:150-159 | a name resolves exactly when it is one of the eight table keys, and then to the generator with that name |
| `Shapes.LookupShapeName` | src/App.jsx:150-159 | every table key resolves to its own generator |
| `Shapes.TorusPoint` | src/App.jsx:28-33 | a torus particle is `((R + r·cos φ)·cos θ, (R + r·cos φ)·sin θ, r·sin φ)` with `θ` and `φ` each `2π·Math.random()` |
| `Shapes.TorusPointBounded` | src/App.jsx:28-33 | given `|sin|, |cos| <= 1` and non-negative radii, a torus point lies in the box `|x|, |y| <= R + r`, `|z| <= r` |
| `Shapes.SpherePoint` | src/App.jsx:51-53 | a sphere or icosahedron particle is `radius·(sin φ cos θ, sin φ sin θ, cos φ)` with `θ = 2π·Math.random()` and `φ = acos(2·Math.random() − 1)` |
| `Shapes.SpherePointBounded` | src/App.jsx:51-53 | given `|sin|, |cos| <= 1` and a non-negative radius, every coordinate of a sphere point lies within the radius |
| `Shapes.KnotPoint` | src/App.jsx:94-108 | a torus-knot or cloud particle is `((a + b·cos(qφ))·cos(pθ), (a + b·cos(qφ))·sin(pθ), b·sin(qθ))`, mixing the two angles as the source does |
| `Shapes.KnotPointBounded` | src/App.jsx:98-106 | given `|sin|, |cos| <= 1` and non-negative `a`, `b`, a knot point has `|x|, |y| <= a + b` and `|z| <= b` |
| `Shapes.MobiusPoint` | src/App.jsx:118-125 | a Möbius particle is `((R + v·cos(u/2))·cos u, (R + v·cos(u/2))·sin u, v·sin(u/2))` with `u = 2π·Math.random()` |
| `Shapes.MobiusPointBounded` | src/App.jsx:118-123 | given `|sin|, |cos| <= 1` and `R >= 0`, a Möbius point has `|x|, |y| <= R + 0.85·width` and `|z| <= 0.85·width` |
| `Shapes.BoxPoint` | src/App.jsx:58-64 | every box coordinate lies in `[-size/2, size/2)` |
| `Shapes.MobiusV` | src/App.jsx:119 | the Möbius `v` lies in `[-0.15w, 0.85w)` |
| `Shapes.MobiusRangeAsymmetric` | src/App.jsx:119 | the draw 0.9 with width 4 gives `v = 3`, outside the `[-w/2, w/2]` the comment claims |
| `Shapes.TrefoilValues` | src/App.jsx:131-143 | the trefoil writes two values per particle, `(y, z)` |
| `Shapes.TrefoilValuesBounded` | src/App.jsx:134-140 | given `|sin|, |cos| <= 1` and a non-negative scale, the stored `y` lies within `scale + 2` and `z` within 1 |
| `Shapes.AngleRange` | src/App.jsx:28-29 | `Math.random() * Math.PI * 2` lies in `[0, 2π)` |
| `Shapes.OffsetFactor` | src/App.jsx:84 | the cloud, Möbius and trefoil generators write at a fractional stride below 3 (2.7, 2.9, 1.5), the others at `i * 3`; every stride and width is a layout that fits the `3 · count` buffer |
| `Shapes.Width` | src/App.jsx:140 | the trefoil writes two values per particle, every other generator three |
| `Shapes.Values` | src/App.jsx:25-143 | each generator writes three values per particle, the trefoil two |
| `Shapes.Generate` | src/App.jsx:26-35 | every generator returns a `3 · count` buffer |
| `Shapes.SpherePointOnSphere` | src/App.jsx:48-56 | a sphere-formula point has squared length `radius²` |
| `Shapes.TorusPointOnTorus` | src/App.jsx:25-36 | a torus-formula point satisfies `(sqrt(x² + y²) − R)² + z² = r²` when `r <= R` |
| `Shapes.GenerateStrided` | src/App.jsx:108 | generators that write at `i * 3` put particle `i`'s point in its own triple |
| `Shapes.GenerateSphere` | src/App.jsx:38-56 | every sphere and icosahedron particle lies on the radius-5 sphere |
| `Shapes.GenerateTorus` | src/App.jsx:25-36 | every torus particle lies on the torus with `R = 4`, `r = 1` |
| `Shapes.GenerateBox` | src/App.jsx:58-64 | every box coordinate lies in `[-3, 3)` |
| `Shapes.GenerateTail` | src/App.jsx:140 | slots beyond the last particle's write stay zero |
| `Shapes.FractionalOffsetsLeaveLastSlot` | src/App.jsx:84 | cloud, Möbius and trefoil buffers never fill their final slot when `count >= 2` |
| `Shapes.CloudOverlap` | src/App.jsx:84 | with two cloud particles, slot 2 holds the second particle's `x`, overwriting the first particle's `z` |
| `ForceStep.ZoneOf` | src/App.jsx:232-238 | the big zone is selected exactly when `dist < big.distance`; the normal zone exactly when `big.distance <= dist < repulse.distance` |
| `ForceStep.RawForce` | src/App.jsx:229-238 | the force as written: `bigRepulse.strength / dist²` inside the big zone, otherwise `repulse.strength / dist²` inside the normal zone, otherwise 0; it has no finite value exactly when the particle sits on the target inside a zone |
| `ForceStep.UnguardedAtTarget` | src/App.jsx:234-235 | at distance 0 with a positive big-zone reach the source's force is undefined, the guarded force is 0 |
| `ForceStep.UnpushedForce` | src/App.jsx:229-240 | where the source's force is a number and not positive, the guarded force equals it, so neither pushes |
| `ForceStep.Force` | src/App.jsx:229-238 | the guarded force equals the source's force wherever that is finite, and is 0 at the target and outside both zones |
| `ForceStep.ZonePrecedence` | src/App.jsx:229-238 | away from the target the guarded force is the big zone's strength over `dist²` when `dist < bigRepulse.distance`, otherwise the normal zone's when `dist < repulse.distance`, otherwise 0 |
| `ForceStep.BigZoneWins` | src/App.jsx:232-235 | inside both zones the force is the big zone's alone, never the sum |
| `ForceStep.ForceMonotone` | src/App.jsx:232-238 | within one zone of non-negative strength a closer particle is pushed at least as hard |
| `ForceStep.Push` | src/App.jsx:240-250 | no push is added unless the force is positive |
| `ForceStep.PushOutward` | src/App.jsx:240-250 | a positive force adds `(force / dist) · (p − target)`, a positive multiple of the outward direction with length `force` |
| `ForceStep.Dist` | src/App.jsx:222-226 | `sqrt(dx² + dy² + dz²)`: with a sound square root, a non-negative number whose square is the squared distance from the target |
| `ForceStep.Accelerate` | src/App.jsx:240-271 | the pre-clamp velocity `damping·(v + push) + returnForce·(rest − p) + jitter`, with `p` read at the start of the iteration; its own contract states the unpushed form `damping·v + returnForce·(rest − p) + jitter` |
| `ForceStep.AcceleratePushed` | src/App.jsx:240-271 | with a positive force the pre-clamp velocity is `damping·(v + (force/dist)·(p − target)) + returnForce·(rest − p) + jitter` |
| `ForceStep.Jitter` | src/App.jsx:267-271 | jitter is zero when restless movement is off, and each component lies in `[-value/2, value/2)` |
| `ForceStep.JitterEffect` | src/App.jsx:267-271 | with restless off the draws do not affect the velocity; with it on they move it by at most `value/2` per component |
| `ForceStep.AccelerateQuiet` | src/App.jsx:253-264 | without push or jitter the pre-clamp velocity is `damping · v + returnForce · (rest − p)`, with `p` read at the start of the iteration |
| `ForceStep.StepParticle` | src/App.jsx:274-281 | every velocity component lies in `[-maxVelocity, maxVelocity]` and is the unclamped one clamped component by component (`Vectors.ClampVec`); the new position is the old one plus the new velocity |
| `ForceStep.SpringNoOvershoot` | src/App.jsx:258-264 | from rest velocity, not pushed and with restless off, with `0 <= returnForce <= 1`, the particle moves toward its rest position without passing it; unclamped, the gap shrinks by `1 − returnForce` |
| `ForceStep.StillStep` | src/App.jsx:274-281 | a frame whose pre-clamp velocity is zero leaves the particle in place with zero velocity |
| `ForceStep.SettledStep` | src/App.jsx:229-281 | a particle at rest position with zero velocity, whose source force is a number and not positive, with restless off, stays put for one frame |
| `ForceStep.SettledParticleStays` | src/App.jsx:212-282 | such a particle stays put for any number of frames |
| `ForceStep.Simulate` | src/App.jsx:212-282 | successive frames of one particle, one set of draws each; after one or more frames the velocity is within the clamp |
| `Frame.StepAt` | src/App.jsx:213-282 | iteration `i` writes particle `i`'s stepped triples and no other slot of the position and velocity buffers, and no rest slot |
| `Frame.StepExtends` | src/App.jsx:213-282 | stepping a particle not yet visited reads its original triples |
| `Frame.RunFrame` | src/App.jsx:213-282 | the index-order loop leaves every particle stepped once from its own pre-frame triples |
| `Frame.RunOrder` | src/App.jsx:213-282 | stepping the particles in a given visiting order keeps the three buffers at `3 · count` entries; which particles it steps, and to what, is `Frame.RunOrderPartial` |
| `Frame.RunOrderPartial` | src/App.jsx:213-282 | visiting distinct particles in any order steps exactly those particles |
| `Frame.AnyOrderSteps` | src/App.jsx:213-282 | visiting every particle once, in any order, steps every particle |
| `Frame.SteppedUnique` | src/App.jsx:213-282 | the stepped buffers are determined by the buffers before the frame |
| `Frame.OrderIndependent` | src/App.jsx:213-282 | any visiting order gives the same buffers as the source's loop |
| `Frame.FrameKeepsClamp` | src/App.jsx:274-276 | after a frame every velocity slot lies in `[-maxVelocity, maxVelocity]` |
| `Frame.SettledFrame` | src/App.jsx:229-281 | a settled particle set, no particle pushed by the source's force, with restless off, is a fixed point of the frame |
| `Frame.SettledFixedPoint` | src/App.jsx:213-282 | in any visiting order a frame returns a settled particle set unchanged |
| `Init.Seed` | src/App.jsx:174-176 | each initial velocity component lies in `[-speed/2, speed/2)` |
| `Init.Colors` | src/App.jsx:163 | the colour buffer has `3 · count` entries |
| `Init.Velocities` | src/App.jsx:173-176 | the velocity buffer has `3 · count` entries, one triple per particle; what each triple holds is stated by `Init.VelocityTriples` |
| `Init.Initialise` | src/App.jsx:161-180 | initialisation fails exactly for a name outside the table; otherwise live and rest positions both equal the generated buffer, and the colour and velocity buffers are the ones the loop writes |
| `Init.InitKnownShape` | src/App.jsx:165-168 | every table key initialises to its own shape's buffer |
| `Init.ColorsAreBase` | src/App.jsx:170-171 | every colour triple is the base colour |
| `Init.VelocityTriples` | src/App.jsx:173-176 | particle `i`'s velocity is seeded from its own three draws |
| `Init.VelocitiesBounded` | src/App.jsx:174-176 | every initial velocity slot lies in `[-speed/2, speed/2)` |
| `Init.InitReadyForFrame` | src/App.jsx:165-168 | the initialised buffers are well-formed frame input, each particle at its rest position |
| `Init.InitColorsAndVelocities` | src/App.jsx:170-176 | an initialised set has the base colour on every particle and every velocity component in `[-speed/2, speed/2)` |
| `FollowMouse.Radian` | src/FollowMouseParticles.js:34 | an angle in `[0, 360)` degrees maps into `[0, 2π)` |
| `FollowMouse.AngleCount` | src/FollowMouseParticles.js:58 | the loop visits `⌈particleCount⌉` angles, or one angle for a zero count |
| `FollowMouse.AngleBelowFull` | src/FollowMouseParticles.js:58 | visit `n` is below 360 degrees exactly when `n < particleCount` |
| `FollowMouse.Gray` | src/FollowMouseParticles.js:62 | the gray level is an integer in `[0, 255]` |
| `FollowMouse.NewPoint` | src/FollowMouseParticles.js:59-75 | a new point has offset in `[0, pathVariation)`, radius between `r` and `r + pathVariation`, zero noise, the mouse at the origin, and gray in `[0, 255]` |
| `FollowMouse.SeededPoints` | src/FollowMouseParticles.js:55-77 | one point per visited angle |
| `FollowMouse.MakePoints` | src/FollowMouseParticles.js:55-77 | `makePoints` replaces the point list with one fresh point per visited angle, each with the properties above and an angle in `[0, 2π)` |
| `FollowMouse.WholeCount` | src/FollowMouseParticles.js:58 | a whole positive `particleCount` gives exactly that many points |
| `FollowMouse.Rotation` | src/FollowMouseParticles.js:79 | the rotation is the argument when given, `speed` otherwise |
| `FollowMouse.Noise` | src/FollowMouseParticles.js:89-90 | a noise step lies in `[-noiseSize, noiseSize)` |
| `FollowMouse.UpdatePoint` | src/FollowMouseParticles.js:80-94 | after an update `xPn` and `yPn` lie in `[-maxPnChange, maxPnChange]`; offset, mouse and gray are unchanged |
| `FollowMouse.UpdatePoints` | src/FollowMouseParticles.js:79-95 | `updatePoints` keeps the number of points and the circle's fields, turns every point by exactly the rotation, keeps offset, mouse and gray, and bounds the noise |
| `FollowMouse.RadiusBounded` | src/FollowMouseParticles.js:83-84 | given `|sin| <= 1`, the new radius lies within `pathVariation` of the circle's radius |
| `FollowMouse.NoiseStepBounded` | src/FollowMouseParticles.js:89-93 | noise within its bound moves by at most `noiseSize` per update, clamp included |
| `FollowMouse.Animate` | src/FollowMouseParticles.js:79-95 | repeated updates keep the number of points |
| `FollowMouse.AnimateTurns` | src/FollowMouseParticles.js:79-82 | after `n` default updates every point has turned by exactly `n · speed`, keeping its offset and gray |
| `FollowMouse.NewCircle` | src/FollowMouseParticles.js:46-53 | the constructor stores its arguments and makes `⌈particleCount⌉` points, each with offset in `[0, pathVariation)` for a positive `pathVariation`, radius `r + offset` and gray in `[0, 255]` |
| `FollowMouse.ScriptCircle` | src/FollowMouseParticles.js:112 | the script's circle, built from the configuration constants, has radius 40, thickness 1 and 20 points, each on a radius in `[40, 80)` |

## Left out

- ForceStep.Accelerate: its own contract states the velocity in closed form only for an unpushed particle; the pushed form is stated by the lemma `ForceStep.AcceleratePushed`.
- Shapes.TorusPoint: no contract of its own; the bounding box is `Shapes.TorusPointBounded` and the torus equation is `Shapes.TorusPointOnTorus`, both for non-negative radii, as the generator's constants are.
- Shapes.SpherePoint: no contract of its own; the bounding box is `Shapes.SpherePointBounded` and the sphere equation is `Shapes.SpherePointOnSphere`, both for a non-negative radius, as the generators' constants are.
- Shapes.KnotPoint: no contract of its own; the bounding box is `Shapes.KnotPointBounded`, for non-negative radii, as the generators' constants are.
- Shapes.MobiusPoint: no contract of its own; the bounding box is `Shapes.MobiusPointBounded`, for a non-negative radius, as the generator's constant is.
- Shapes.TrefoilValues: its contract states only that two values are written; their bounds are `Shapes.TrefoilValuesBounded`, for a non-negative scale, as the generator's default is.
- Shapes.Angle: no contract of its own; its range `[0, 2π)` is `Shapes.AngleRange`.
- Rendering, point textures, the canvas drawing of the ring, GSAP tweens, DOM and pointer listeners, and the `requestAnimationFrame` loop. These are I/O and animation-library calls.
- The raycaster and plane projection of the pointer. The target point is an input (`Frame.Scene.target`).
- The Leva control panel and the `App` component are configuration plumbing. Their slider ranges are not modelled; individual lemmas assume only the ranges they need: `maxVelocity >= 0` for the clamp properties, `0 < speed` in `Init.VelocitiesBounded`, `0 <= returnForce <= 1` in `ForceStep.SpringNoOvershoot`, non-negative strengths in `ForceStep.ForceMonotone`, and non-negative radii in the `Shapes` bounding-box lemmas.
- `src/AppBackup.jsx` is a superseded, unwired version and is not part of this model.
- Float32 storage and rounding, and floating-point `sin`/`cos`/`acos`/`sqrt` values. These are floating-point numerics, and the model works over exact reals.
- NaN and Infinity are not modelled. In the frame step the source produces them only for the particle at the target: `ForceStep.RawForce` marks it `None`, and the rest of the model uses the guarded `ForceStep.Force` (see Findings). In the ring, `360 / particleCount` is `Infinity` for a zero count; `FollowMouse.AngleCount` models that case as the single angle 0 it produces.
- `useRef` buffers are not resized when `count` changes. This is a React lifecycle quirk, and the model has a fixed particle count.
- `Shapes.LookupShape` only recognises the eight table keys. Inherited object keys such as `"toString"` find a non-generator function in the source.
- `Init.Initialise` does not format the colour. `baseColor` is taken as the `(r, g, b)` triple that `toArray` writes.
- `ForceStep.StepParticle` always takes three jitter draws. The source calls `Math.random()` only when restless movement is on, and `ForceStep.JitterEffect` shows the draws are unused when it is off.
- `Frame.RunFrame`, `Frame.RunOrder`: particle `i` always takes the `i`-th set of jitter draws. In the source, draws are consumed in visiting order, so order independence is stated for a fixed assignment of draws to particles.
- `FollowMouse.MakePoints` requires `particleCount >= 0`. A negative count makes the step negative, and the source's loop never ends.
- `FollowMouse.MakePoints`: the angle `i` is accumulated exactly. In floating point, a step such as `360 / 7` can drift, and that may change the number of points by one.
- `FollowMouse.NewPoint` keeps the gray level as an integer. The colour string `rgb(g, g, g)` is not modelled.
- `FollowMouse.UpdatePoint` states no bound on `xChange` and `yChange`. They are `sin`/`cos` of the angle times the radius, which are floating-point values.
- The `Circle.r` and `thickness` tweens on link hover are left out. They are animation-library calls; `c.r` is whatever the circle holds when `updatePoints` runs.

## Findings

| source | as written | input that shows it | evidently intended | confidence | as-written member | corrected member |
|---|---|---|---|---|---|---|
| src/App.jsx:229-250 | `force = strength / (dist * dist)` with no guard for `dist = 0`. With a positive strength the force is `Infinity`, `force > 0` holds, and the direction `dx / dist` is `0 / 0 = NaN`. The NaN survives `Math.min`/`Math.max`, so the particle's velocity and position become NaN and stay NaN. | A particle exactly at the pointer target, for example at the origin with the pointer projected to the origin, while `big_repulse.distance > 0` and `big_repulse.strength > 0`. With a zero or negative strength the force is `NaN` or `-Infinity`, `force > 0` fails, and no push is added. Trailing slots of the cloud, Möbius and trefoil buffers are never written, so those particles sit at the origin. | A particle on the target gets no push (force 0), and every step stays finite. | medium, not executed | `ForceStep.RawForce`, `ForceStep.UnguardedAtTarget` | `ForceStep.Force` |
