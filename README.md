# Physics playground interaction model

This project models the interaction core of a browser physics playground
(`js/rapier.cleaned.js`). Coloured shapes live in a rigid-body world that
can be poked, dragged, thrown, blasted and held in orbit. The model is in
Dafny and covers the following parts:

- **The shape registry.** The array `allCubes` and the map
  `colliderToShape` from collider handle to shape record. The model covers
  spawning a shape, the per-frame cull of shapes that have fallen below
  y = -25, and the deferred cleanup that a reset schedules. The two
  structures are proved to stay in step: no shape is registered twice,
  every shape is filed under its own handle, and every map entry is a
  registered shape.
- **The pointer state machine.** This covers `onMouseDown`, `onMouseMove`,
  `onMouseUp`, `onTouchStart`, `onTouchMove`, `onTouchEnd` (also bound to
  `touchcancel`), `startTouchDrag`, `deactivateGravityGun`, the gravity-gun
  button and the reset button.
  - The two `setTimeout` callbacks are events of their own:
    `OnHoldTimerFire` and `OnCleanupTimerFire`.
  - Every handler keeps the same invariant. The gun is only engaged while
    it is switched on. The camera controls are on exactly when nothing is
    dragged and the gun is not engaged. A shape is being dragged exactly
    when `isDragging` is set. A pending touch drag exists exactly when the
    hold timer is armed. At most three impact sounds play at once.
- **The per-frame sections of `gameLoop`.**
  - The gravity gun steers every shape in range toward its point on a
    tilted, bobbing orbit, with speed clamped to 12.
  - The drag section makes the dragged shape follow the drag point and
    stretches it.
  - The cull removes fallen shapes.
  - The feedback section eases each shape's squash-and-stretch scale and
    asks for an impact sound at most once every 180 ms per shape.
    `playImpactSound` drops a request while three sounds are already
    playing.

Some values come in as arguments because Dafny cannot compute them or the
browser supplies them:

- square roots (vector lengths, `Math.hypot`)
- sine, cosine and pi
- the clocks (`Date.now`, `performance.now`)
- `Math.random`
- the ray casts
- the physics step

Pure functions about vector lengths take the length `len` together with the
premise `IsLength(len, v)`, which says `len >= 0` and `len * len` equals the
squared length. Frame methods take a function `length` and pass the length
it gives for each vector.

Some behaviours of the code are easy to miss; the model follows the code:

- A reset with nothing registered still ends a drag and lets go of the gun
  before returning (`js/rapier.cleaned.js:447-456`).
- The deferred cleanup removes every shape registered when it fires, not
  just the shapes that were blasted (`js/rapier.cleaned.js:487-506`).
- The orbit target's height floor is the fixed 0.55 + 0.25 for every kind
  of shape (`js/rapier.cleaned.js:920-921`).
- The hold timer's callback does not check the gun. A touch that is
  pending when a mouse press engages the gun still turns into a drag when
  the timer fires, so the shape is dragged while the gun is engaged
  (`Scenarios.HoldTimerAfterGunPress`). The controls invariant holds
  regardless.
- Neither the cull (`js/rapier.cleaned.js:989-1004`) nor the reset's
  cleanup (`js/rapier.cleaned.js:487-506`) ends a drag or clears a pending
  touch whose shape they remove. The handlers go on using that shape's body
  (`js/rapier.cleaned.js:635`, `689`, `856`, `938`), so a shape can be
  dragged after it has left the registry (`Scenarios.DragOutlivesCleanup`).

## Model

| member | source | states |
|---|---|---|
| Vectors.Lerp | js/rapier.cleaned.js:1061-1062 | interpolating from `a` toward `b` by `t` leaves a gap to `b` that is the old gap times 1 - t |
| Vectors.NormalizeSpec | js/rapier.cleaned.js:1025 | a non-zero vector normalises to length 1 along itself; the zero vector is left as it is |
| Vectors.ClampLengthSpec | js/rapier.cleaned.js:686-689 | `clampLength(0, max)` returns a vector of length min(len, max); a vector no longer than max comes back unchanged; a longer one is scaled down to length max along itself |
| Squish.AxisScale | js/rapier.cleaned.js:1029-1048 | the target scale is `along` on the chosen axis and `across` on both other axes |
| Squish.ImpactTargetSpec | js/rapier.cleaned.js:1023-1049 | above the 0.2 threshold the impact target lies in [0.4, 1.3] on every axis and sums to 3; it is below 1 on the axis chosen from the change's direction and above 1 on the other two |
| Squish.DragTargetSpec | js/rapier.cleaned.js:951-975 | above drag speed 0.5 the drag target lies in [0.86, 1.35]; it is above 1 on the axis chosen from the motion's direction and below 1 on the other two |
| Squish.SquishStep | js/rapier.cleaned.js:1061 | the drawn scale's gap to the target shrinks to 70 % |
| Squish.TargetDecay | js/rapier.cleaned.js:1062 | the target's deviation from (1, 1, 1) shrinks to 95 % |
| Squish.RelaxStaysInBox | js/rapier.cleaned.js:1061-1062 | easing and decay never leave a box that contains the rest scale |
| Squish.RelaxContracts | js/rapier.cleaned.js:1061-1062 | with no new impact, one frame shrinks the weighted deviation from rest by at least 2.5 % |
| Squish.RelaxConverges | js/rapier.cleaned.js:1061-1062 | after n undisturbed frames the deviation is at most 0.975^n of the initial one |
| Squish.Observe | js/rapier.cleaned.js:1018-1065 | per-shape feedback: the last velocity becomes the current one; a sound is requested iff the impact is above 0.35 and the last sound is more than 180 ms old; the sound time moves to `now` exactly then; below 0.2 the target only decays |
| Squish.ObserveKeepsBounds | js/rapier.cleaned.js:1018-1062 | a shape whose scales lie in [0.4, 1.35] keeps them there after a feedback step |
| Squish.SoundCooldown | js/rapier.cleaned.js:1052-1058 | of two hard impacts on one shape the first asks for a sound and the second asks iff it comes more than 180 ms later: 100 ms apart give one request, 200 ms apart give two |
| Gestures.HypotTolerance | js/rapier.cleaned.js:801-811 | comparing dx² + dy² with 144 decides exactly what `Math.hypot(dx, dy) > 12` decides |
| Gestures.ToleranceBoundary | js/rapier.cleaned.js:532 | moving exactly 12 pixels keeps a pending drag; 13 pixels drops it |
| Gestures.DragVelocity | js/rapier.cleaned.js:662-664 | moving at the sampled drag velocity for the elapsed time covers the displacement since the last sample |
| Gestures.FollowVelocity | js/rapier.cleaned.js:940-949 | in 0.2 s at the follow velocity the dragged shape would reach the drag point |
| Forces.VelocityChangeImpulse | js/rapier.cleaned.js:926-930 | the impulse (desired - vel) * mass, applied to a body of that mass, yields exactly the desired velocity |
| Forces.BlastPushSpec | js/rapier.cleaned.js:470-480 | the reset push has strength exactly 35: along the jittered direction when it is long enough, straight up otherwise |
| Forces.BlastImpulseSpec | js/rapier.cleaned.js:470-483 | the reset impulse is a push of strength 35 plus 12 upward; a too-short direction is blasted straight up with 47 |
| Forces.BlastUpward | js/rapier.cleaned.js:474-476 | a direction with squared length below 0.001 is blasted straight up whatever its length |
| Orbit.RangeIgnoresHeight | js/rapier.cleaned.js:894-900 | whether a shape is in the gun's range does not depend on its height |
| Orbit.OrbitDirection | js/rapier.cleaned.js:571 | the orbit sense of the i-th shape is +1 or -1 |
| Orbit.OrbitDirectionAlternates | js/rapier.cleaned.js:571 | the next group of three shapes turns the other way |
| Orbit.OrbitDirectionGroups | js/rapier.cleaned.js:571 | the three shapes of a group turn the same way |
| Orbit.EffectiveDirection | js/rapier.cleaned.js:908 | `orbitDirection \|\| 1` is never 0 and keeps any set direction |
| Orbit.OrbitTarget | js/rapier.cleaned.js:911-921 | the orbit target's height is the least value at or above both the floor 0.8 and the raw bobbing height |
| Orbit.PullVelocitySpec | js/rapier.cleaned.js:924-925 | the pull velocity has length min(len, 12); at or below 12 it is exactly 4.2 times the offset to the target |
| Orbit.GunVelocityBounded | js/rapier.cleaned.js:904-925 | whatever the orbit target, the gun never gives a shape a speed above 12 |
| Shapes.Shape.constructor | js/rapier.cleaned.js:164-174 | a new record is undeformed (scales 1, 1, 1), has last velocity 0, last sound time 0 and no orbit state |
| Shapes.Shape.Engage | js/rapier.cleaned.js:559-575 | a gun press stops the shape, sets its phase and group sense, and marks it in orbit iff it is within range |
| Shapes.Shape.ApplyImpulse | js/rapier.cleaned.js:930 | an impulse changes the velocity by impulse / mass |
| Shapes.Shape.Blast | js/rapier.cleaned.js:461-483 | the reset blast on one shape gives the velocity `Blasted` describes |
| Shapes.Shape.OrbitStep | js/rapier.cleaned.js:894-932 | out of range the shape is only marked so; in range it gets exactly the pull velocity and its sense's spin |
| Shapes.Shape.GunStep | js/rapier.cleaned.js:891-933 | one gun frame for one shape, with the target being its own point on the orbit |
| Shapes.Shape.SteerTo | js/rapier.cleaned.js:926-930 | the velocity-change impulse sets the velocity to exactly the desired one |
| Shapes.Shape.FollowDrag | js/rapier.cleaned.js:937-986 | the dragged shape follows at five times its offset without spinning; only a drag speed above 0.5 changes its target scale |
| Shapes.Shape.React | js/rapier.cleaned.js:1015-1065 | the shape's feedback state and sound request are those of `Squish.Observe` at its current impact magnitude |
| Shapes.Survivors | js/rapier.cleaned.js:989-1004 | the cull never leaves more shapes than there were |
| Shapes.SurvivorsSound | js/rapier.cleaned.js:989-1004 | every survivor is a registered shape that has not fallen |
| Shapes.SurvivorsComplete | js/rapier.cleaned.js:989-1004 | every registered shape that has not fallen survives the cull |
| Shapes.SurvivorsAppend | js/rapier.cleaned.js:989-1004 | filtering distributes over concatenation, keeping relative order |
| Shapes.SurvivorsAllKept | js/rapier.cleaned.js:989-1004 | when nothing has fallen the cull removes nothing |
| Shapes.SurvivorsDistinct | js/rapier.cleaned.js:989-1004 | the cull never duplicates a shape |
| Shapes.FallenHandlesCons | js/rapier.cleaned.js:998-1000 | the deleted handles are the first shape's handle (if it fell) plus those of the rest |
| Shapes.CullStepKept | js/rapier.cleaned.js:1001 | splicing out index i keeps the array equal to the unvisited prefix followed by the survivors of the visited suffix |
| Shapes.CullStepIndex | js/rapier.cleaned.js:998-1000 | deleting the handle at index i keeps the map equal to the original minus the fallen handles of the visited suffix |
| Shapes.IndexedEmpty | js/rapier.cleaned.js:487-506 | a map in step with an empty registry is empty |
| Shapes.CullKeepsIndex | js/rapier.cleaned.js:989-1004 | removing fallen shapes and their handles keeps the registry and the map in step |
| Shapes.IndexSize | js/rapier.cleaned.js:175-176 | a map in step with a duplicate-free registry has one entry per shape |
| Shapes.IndexedWithoutLast | js/rapier.cleaned.js:489-504 | popping the last shape and deleting its handle keeps the registry and the map in step |
| Playground.PressAnchor | js/rapier.cleaned.js:545-553 | the gun anchor is the ground hit; when the ray misses the ground it is the point 5 units from the camera along its unit view direction |
| Playground.Cull | js/rapier.cleaned.js:989-1004 | the backward splice loop leaves exactly the survivors in order, and the map minus exactly the fallen shapes' handles |
| Playground.Playground.constructor | js/rapier.cleaned.js:520-533 | the page-load state: nothing registered, gun off, controls on, nothing dragged or pending, no sound playing |
| Playground.Playground.Spawn | js/rapier.cleaned.js:174-176 | a new shape is appended to the registry and filed under its fresh handle; the invariant holds |
| Playground.Playground.DeactivateGravityGun | js/rapier.cleaned.js:420-426 | the gun lets go; the controls come back unless a drag is in progress |
| Playground.Playground.ToggleGravityGun | js/rapier.cleaned.js:428-442 | the switch flips; switching off also lets go of the gun |
| Playground.Playground.EngageGravityGun | js/rapier.cleaned.js:545-577 | a gun press engages the gun at the press anchor, drops any drag, turns the controls off and sets every shape's phase, sense, range flag and rest |
| Playground.Playground.EngageShapes | js/rapier.cleaned.js:559-575 | the engage loop gives the i-th shape the i-th random phase, the sense of its group, its range flag and zero velocities |
| Playground.Playground.StartTouchDrag | js/rapier.cleaned.js:614-637 | the drag starts on the camera-facing plane through the hit point; both drag points restart from where the ray meets it, or from the previous point when it does not |
| Playground.Playground.RestartDragSamples | js/rapier.cleaned.js:624-636 | the drag plane, both drag points, the time and the previous position are reset |
| Playground.Playground.OnMouseDown | js/rapier.cleaned.js:536-612 | other buttons change nothing; with the gun on the press engages it; otherwise a press on a shape drags it and a press on nothing changes nothing |
| Playground.Playground.TrackDrag | js/rapier.cleaned.js:655-668 | the drag point follows the pointer; when the clock has advanced, the velocity covers the displacement in the elapsed time and the sample moves on |
| Playground.Playground.OnMouseMove | js/rapier.cleaned.js:639-669 | with the gun engaged the anchor follows the ground hit; otherwise a drag in progress is tracked (`Tracked`: a ray missing the drag plane changes nothing, a hit moves the drag point, and the velocity and last sample are renewed only when the clock has advanced) and nothing else changes |
| Playground.Playground.ReleaseDrag | js/rapier.cleaned.js:679-696 | the released shape is thrown with the drag velocity clamped to length 20; the controls return and the drag velocity resets |
| Playground.Playground.OnMouseUp | js/rapier.cleaned.js:671-697 | other buttons change nothing; the primary button lets go of the gun and throws any dragged shape |
| Playground.Playground.OnTouchStart | js/rapier.cleaned.js:705-775 | multi-finger touches change nothing; with the gun on the touch engages it and leaves any pending touch alone; a touch on a shape arms the hold timer with that shape pending; a touch on nothing gives the camera back, ends any drag and leaves any pending touch alone |
| Playground.Playground.OnHoldTimerFire | js/rapier.cleaned.js:762-767 | the timer starts a drag on the pending shape at the pending hit and clears the pending state, whatever the gun is doing |
| Playground.Playground.OnTouchMove | js/rapier.cleaned.js:777-829 | with the gun engaged the anchor follows the finger and the hold timer, the pending touch and the drag samples are kept; otherwise the hold timer stays armed iff the finger stays within 12 pixels, and a drag in progress is tracked as `Tracked` states |
| Playground.Playground.OnTouchEnd | js/rapier.cleaned.js:831-863 | the gun lets go, the hold timer and pending drag are cleared, and any dragged shape is thrown |
| Playground.Playground.ResetCubes | js/rapier.cleaned.js:445-507 | a drag ends and the gun lets go; every shape is blasted; one cleanup is scheduled unless nothing is registered |
| Playground.Playground.BlastShapes | js/rapier.cleaned.js:461-484 | every registered shape receives its jittered blast |
| Playground.Playground.OnCleanupTimerFire | js/rapier.cleaned.js:487-506 | the cleanup empties both the registry and the map, wherever they were |
| Playground.Playground.GravityGunFrame | js/rapier.cleaned.js:889-934 | with the gun engaged every shape is marked by range; shapes out of range keep their velocities; shapes in range get the gun velocity and spin |
| Playground.Playground.DragFrame | js/rapier.cleaned.js:937-986 | the dragged shape follows the drag point and is stretched only above speed 0.5; all registered scales stay within [0.4, 1.35] |
| Playground.Playground.CullFrame | js/rapier.cleaned.js:989-1004 | the registry becomes its survivors and the map loses exactly the fallen shapes' handles; the invariant holds |
| Playground.Playground.FeedbackFrame | js/rapier.cleaned.js:1007-1069 | every shape's feedback state is the `Sense` step at its own clock reading; scales stay bounded; no sound stops; the number playing becomes the smaller of three and the number before plus the number of shapes that ask, so no sound starts unless some shape asks, and one starts when some shape asks while fewer than three play |
| Playground.Playground.NoSoundRequests | js/rapier.cleaned.js:1007-1058 | the count of shapes that ask for a sound is zero exactly when no shape among them asks |
| Playground.Playground.FeedbackStep | js/rapier.cleaned.js:1015-1065 | one shape's feedback step; no request leaves the sounds as they were; a request starts exactly one sound when fewer than three play and is dropped otherwise |
| Playground.Playground.GameLoop | js/rapier.cleaned.js:882-1088 | one frame after the physics step keeps the invariant and keeps every shape's scales within [0.4, 1.35] |
| Playground.Playground.PlayImpactSound | js/rapier.cleaned.js:37-55 | a sound starts iff fewer than three are playing; it gets a new identity and the count grows by one |
| Playground.Playground.OnImpactSoundEnded | js/rapier.cleaned.js:46-54 | a sound that ends, fails or cannot start stops counting toward the cap |
| Scenarios.HoldTimerAfterGunPress | js/rapier.cleaned.js:762-767 | a touch pending when a mouse press engages the gun still becomes a drag, so a shape is dragged while the gun is engaged |
| Scenarios.EmptyReset | js/rapier.cleaned.js:447-456 | a reset with nothing registered schedules no cleanup but gives the camera back |
| Scenarios.ResetThenCleanup | js/rapier.cleaned.js:445-506 | after a reset and its cleanup the registry and the map are empty |
| Scenarios.DragOutlivesCleanup | js/rapier.cleaned.js:487-506 | a shape picked up while a reset's cleanup is pending is still dragged after the cleanup has removed it from the registry |
| Scenarios.TouchTolerance | js/rapier.cleaned.js:801-811 | wandering 12 pixels keeps the hold timer armed; 13 pixels cancels it |
| Scenarios.SoundCap | js/rapier.cleaned.js:37-55 | a fourth concurrent sound is dropped; once one ends another may start |
| Scenarios.FallenShapeCulled | js/rapier.cleaned.js:989-1004 | a shape below y = -25 is culled with its handle, and the other shape stays |

## Left out

- Rendering, the scene graph, meshes, materials, lights, shadows, the
  window resize handler, the status text and `requestAnimationFrame`: they
  have no effect on the interaction state.
- The physics engine (`world.step`, collisions, damping, restitution):
  shapes' positions and velocities are whatever the engine left before a
  frame section runs. `applyImpulse` is modelled by its effect on the
  velocity, `setLinvel` and `setAngvel` by setting the fields.
- Floating point: every quantity is an exact real, so the model shows no
  rounding.
- Square roots, sine, cosine and pi are arguments (`len`, `length`, `Trig`)
  constrained by `IsLength` where a proof needs it.
- Ray casting: its results come in as optional hits (`groundHit`,
  `shapeHit`, `planeHit`). The mapping from a hit mesh to its record
  (`allCubes.find`) is an index into the registry.
- The four shape constructors' geometry, colours and colliders: `Spawn`
  models only what they do to the registry. The add-shape buttons choose a
  random spawn position, which becomes an argument.
- `playImpactSound`'s random choice of clip, its volume and `play()`:
  playback ending, failing or being refused are all `OnImpactSoundEnded`.
- Timer identity: at most one hold timer is outstanding and a cleared timer
  never fires, so the hold timer is a flag. Cleanup timers are never
  cleared, so they are a count, and `OnCleanupTimerFire` may fire while the
  count is positive.
- Mouse and touch coordinates are kept only as the touch-start pixel, which
  the tolerance needs. The normalised pointer position only feeds ray
  casts, which are arguments.
- `colliderHandle !== undefined` is always true, because every constructor
  sets the handle, so the guard is not modelled.
- `js/rapier.js` and `server.js` are not part of this model.
- What the physics engine does when the handlers read or write the body of
  a shape already removed from the world: the model keeps using the
  shape's record.
- Playground.Playground.GameLoop: does not restate the registry's new
  contents, which `CullFrame` states, nor the per-shape results, which
  `GravityGunFrame`, `DragFrame` and `FeedbackFrame` state; it promises
  only the invariant, the bounded scales and that no sound stops.
- Playground.Playground.FeedbackFrame: every shape's clock reading is an
  element of `nows`; the source reads `performance.now()` only for impacts
  above 0.35, which is equivalent.
