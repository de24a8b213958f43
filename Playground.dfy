/** The playground's interaction state and its event handlers
    (js/rapier.cleaned.js). The module-level variables of the source become
    the fields of one `Playground` object; each DOM event handler, each
    `setTimeout` callback and each section of the per-frame `gameLoop`
    becomes a method. What the browser, the renderer and the physics engine
    compute (ray casts, the clock, random numbers, vector lengths, the
    physics step) comes in as arguments. */
module Playground {
  import opened Optional
  import opened Vectors
  import opened Forces
  import opened Squish
  import opened Gestures
  import opened Orbit
  import opened Shapes

  /** Where the camera is and the unit vector it looks along. */
  datatype Camera = Camera(position: Vec3, direction: Vec3)

  /** A pointer ray that hit the `index`-th registered shape at `point`
      (the first entry of the ray caster's intersections). */
  datatype ShapeHit = ShapeHit(index: nat, point: Vec3)

  /** A plane given by its normal and a point on it. */
  datatype Plane = Plane(normal: Vec3, point: Vec3)

  /** At most this many impact sounds play at once. */
  const MaxConcurrentSounds := 3
  /** How long after a reset the blasted shapes are removed. */
  const ResetCleanupDelayMs := 650

  /** Where a gun press puts the anchor: the point of the ground plane under
      the pointer, or 5 units in front of the camera when the pointer ray
      misses the ground. The camera's view direction is a unit vector. */
  function PressAnchor(groundHit: Option<Vec3>, camera: Camera): (r: Vec3)
    requires IsLength(1.0, camera.direction)
    ensures groundHit.Some? ==> r == groundHit.value
    ensures groundHit.None? ==> IsLength(5.0, Sub(r, camera.position))
    ensures groundHit.None? ==> Sub(r, camera.position) == Scale(camera.direction, 5.0)
  {
    match groundHit
    case Some(p) => p
    case None =>
      var r := Add(camera.position, Scale(camera.direction, 5.0));
      LenSqScale(camera.direction, 5.0);
      assert Sub(r, camera.position) == Scale(camera.direction, 5.0);
      r
  }

  /** The cull loop: walking `shapes` from the end, each shape below the
      cull depth is spliced out and its handle deleted from `index`. */
  method Cull(shapes: seq<Shape>, index: map<int, Shape>) returns (kept: seq<Shape>, remaining: map<int, Shape>)
    ensures kept == Survivors(shapes)
    ensures remaining == index - FallenHandles(shapes)
  {
    kept, remaining := shapes, index;
    var i := |shapes|;
    while i > 0
      invariant 0 <= i <= |shapes|
      invariant kept == shapes[..i] + Survivors(shapes[i..])
      invariant remaining == index - FallenHandles(shapes[i..])
    {
      i := i - 1;
      CullStepKept(shapes, i, kept);
      CullStepIndex(shapes, index, i, remaining);
      var shape := kept[i];
      if shape.pos.y < CullDepth {
        remaining := remaining - {shape.colliderHandle};
        kept := kept[..i] + kept[i + 1..];
      }
    }
    assert shapes[..0] == [] && shapes[0..] == shapes;
  }

  class Playground {
    /** The registered shapes, in creation order. */
    var allCubes: seq<Shape>
    /** Registered shapes by collider handle. */
    var colliderToShape: map<int, Shape>

    var gravityGunEnabled: bool
    var gravityGunActive: bool
    var gravityGunAnchor: Vec3
    /** When the gun last engaged, in milliseconds. */
    var gravityGunStartTime: real

    /** Whether the orbiting camera follows the pointer. */
    var controlsEnabled: bool

    var isDragging: bool
    var draggedCube: Shape?
    var dragPlane: Plane
    var dragPoint: Vec3
    var lastDragPoint: Vec3
    var dragVelocity: Vec3
    /** Wall-clock time of the last drag sample, in whole milliseconds. */
    var lastTime: int
    var previousPosition: Vec3

    /** Whether the touch-hold timer is scheduled and not yet cleared. */
    var holdTimerArmed: bool
    var pendingDragShape: Shape?
    var pendingDragHit: Option<Vec3>
    var touchStartPixel: Pixel

    /** Reset cleanups scheduled and not yet run. */
    var pendingCleanups: nat

    /** The impact sounds playing, by identity. */
    var activeImpactSounds: set<nat>
    /** A fresh identity for the next sound. */
    var nextSoundId: nat

    /** Everything that holds between events except the two rules about the
        gun and the camera controls. */
    ghost predicate Consistent()
      reads this
    {
      && Distinct(allCubes)
      && Indexed(allCubes, colliderToShape)
      && (isDragging <==> draggedCube != null)
      && (holdTimerArmed <==> pendingDragShape != null)
      && (pendingDragShape != null <==> pendingDragHit.Some?)
      && |activeImpactSounds| <= MaxConcurrentSounds
      && (forall id :: id in activeImpactSounds ==> id < nextSoundId)
    }

    /** The invariant: the gun is only engaged while switched on, and the
        camera controls are on exactly when nothing is dragged and the gun is
        not engaged. */
    ghost predicate Valid()
      reads this
    {
      && Consistent()
      && (gravityGunActive ==> gravityGunEnabled)
      && (controlsEnabled <==> !isDragging && !gravityGunActive)
    }

    /** Every registered shape's drawn and target scales lie in [0.4, 1.35]. */
    ghost predicate ScalesInBounds()
      reads this`allCubes, allCubes`feedback
    {
      forall s :: s in allCubes ==> ScalesBounded(s.feedback)
    }

    /** The state when the page has loaded: nothing registered, the gun off,
        the controls on, `nowMs` the wall clock. */
    constructor (nowMs: int)
      ensures Valid() && ScalesInBounds()
      ensures allCubes == [] && colliderToShape == map[]
      ensures !gravityGunEnabled && !gravityGunActive && gravityGunAnchor == Zero && gravityGunStartTime == 0.0
      ensures controlsEnabled && !isDragging && draggedCube == null
      ensures dragPlane == Plane(Vec3(0.0, 0.0, 1.0), Zero)
      ensures dragPoint == Zero && lastDragPoint == Zero && dragVelocity == Zero && previousPosition == Zero
      ensures lastTime == nowMs
      ensures !holdTimerArmed && pendingDragShape == null && pendingDragHit == None
      ensures touchStartPixel == Pixel(0.0, 0.0)
      ensures pendingCleanups == 0 && activeImpactSounds == {} && nextSoundId == 0
    {
      allCubes := [];
      colliderToShape := map[];
      gravityGunEnabled := false;
      gravityGunActive := false;
      gravityGunAnchor := Zero;
      gravityGunStartTime := 0.0;
      controlsEnabled := true;
      isDragging := false;
      draggedCube := null;
      dragPlane := Plane(Vec3(0.0, 0.0, 1.0), Zero);
      dragPoint := Zero;
      lastDragPoint := Zero;
      dragVelocity := Zero;
      lastTime := nowMs;
      previousPosition := Zero;
      holdTimerArmed := false;
      pendingDragShape := null;
      pendingDragHit := None;
      touchStartPixel := Pixel(0.0, 0.0);
      pendingCleanups := 0;
      activeImpactSounds := {};
      nextSoundId := 0;
    }

    /** The registry part shared by the four shape constructors: a new
        record at `pos` is appended and filed under its collider's handle,
        which the physics engine never hands out twice. */
    method Spawn(kind: ShapeKind, handle: int, mass: Mass, pos: Vec3) returns (shape: Shape)
      requires Valid() && ScalesInBounds()
      requires handle !in colliderToShape
      modifies this`allCubes, this`colliderToShape
      ensures Valid() && ScalesInBounds()
      ensures fresh(shape)
      ensures shape.kind == kind && shape.colliderHandle == handle && shape.mass == mass && shape.pos == pos
      ensures shape.vel == Zero && shape.angvel == Zero
      ensures shape.feedback == Squish.Feedback(One, One, Zero, 0.0)
      ensures shape.orbitPhase == 0.0 && shape.orbitDirection == 0 && !shape.inGravityOrbit
      ensures allCubes == old(allCubes) + [shape]
      ensures colliderToShape == old(colliderToShape)[handle := shape]
    {
      shape := new Shape(kind, handle, mass, pos);
      allCubes := allCubes + [shape];
      colliderToShape := colliderToShape[handle := shape];
    }

    /** `deactivateGravityGun`: the gun lets go; the controls come back
        unless a drag is in progress. */
    method DeactivateGravityGun()
      requires Consistent()
      modifies this`gravityGunActive, this`controlsEnabled
      ensures Consistent()
      ensures !gravityGunActive
      ensures !isDragging ==> controlsEnabled
      ensures isDragging ==> controlsEnabled == old(controlsEnabled)
      ensures old(Valid()) ==> Valid()
    {
      gravityGunActive := false;
      if !isDragging {
        controlsEnabled := true;
      }
    }

    /** The gravity-gun button: flips the gun on or off; switching it off
        also lets go of anything it holds. */
    method ToggleGravityGun()
      requires Valid()
      modifies this`gravityGunEnabled, this`gravityGunActive, this`controlsEnabled
      ensures Valid()
      ensures gravityGunEnabled == !old(gravityGunEnabled)
      ensures !gravityGunEnabled ==> !gravityGunActive && (controlsEnabled <==> !isDragging)
      ensures gravityGunEnabled ==> !gravityGunActive && controlsEnabled == old(controlsEnabled)
    {
      gravityGunEnabled := !gravityGunEnabled;
      if !gravityGunEnabled {
        DeactivateGravityGun();
      }
    }

    /** What a gun press has done: the gun is engaged at `anchor` since
        `nowPerf`, any drag is dropped, the controls are off, and every
        registered shape is still, has its random phase, turns in the sense
        of its group of three and is in orbit exactly when within range. */
    ghost predicate GunEngagedAt(anchor: Vec3, nowPerf: real, phases: seq<real>)
      reads this, allCubes
    {
      && gravityGunActive && gravityGunAnchor == anchor && gravityGunStartTime == nowPerf
      && !isDragging && draggedCube == null && !controlsEnabled
      && |phases| == |allCubes|
      && forall i :: 0 <= i < |allCubes| ==>
           && allCubes[i].orbitPhase == phases[i]
           && allCubes[i].orbitDirection == OrbitDirection(i)
           && allCubes[i].inGravityOrbit == InOrbitRange(allCubes[i].pos, anchor)
           && allCubes[i].vel == Zero && allCubes[i].angvel == Zero
    }

    /** The gun branch shared by `onMouseDown` and `onTouchStart`.
        `phases[i]` is the random phase drawn for the `i`-th shape. */
    method EngageGravityGun(groundHit: Option<Vec3>, camera: Camera, nowPerf: real, phases: seq<real>)
      requires Valid() && gravityGunEnabled && |phases| == |allCubes|
      requires IsLength(1.0, camera.direction)
      modifies this`gravityGunAnchor, this`gravityGunActive, this`gravityGunStartTime
      modifies this`isDragging, this`draggedCube, this`controlsEnabled
      modifies allCubes`orbitPhase, allCubes`orbitDirection, allCubes`inGravityOrbit
      modifies allCubes`vel, allCubes`angvel
      ensures Valid()
      ensures GunEngagedAt(PressAnchor(groundHit, camera), nowPerf, phases)
    {
      gravityGunAnchor := PressAnchor(groundHit, camera);
      gravityGunActive := true;
      gravityGunStartTime := nowPerf;
      isDragging := false;
      draggedCube := null;
      controlsEnabled := false;
      EngageShapes(gravityGunAnchor, phases);
    }

    /** The per-shape loop of a gun press. */
    method EngageShapes(anchor: Vec3, phases: seq<real>)
      requires Distinct(allCubes) && |phases| == |allCubes|
      modifies allCubes`orbitPhase, allCubes`orbitDirection, allCubes`inGravityOrbit
      modifies allCubes`vel, allCubes`angvel
      ensures forall i :: 0 <= i < |allCubes| ==>
                && allCubes[i].orbitPhase == phases[i]
                && allCubes[i].orbitDirection == OrbitDirection(i)
                && allCubes[i].inGravityOrbit == InOrbitRange(allCubes[i].pos, anchor)
                && allCubes[i].vel == Zero && allCubes[i].angvel == Zero
    {
      var i := 0;
      while i < |allCubes|
        invariant 0 <= i <= |allCubes|
        invariant forall j :: 0 <= j < i ==>
                    && allCubes[j].orbitPhase == phases[j]
                    && allCubes[j].orbitDirection == OrbitDirection(j)
                    && allCubes[j].inGravityOrbit == InOrbitRange(allCubes[j].pos, anchor)
                    && allCubes[j].vel == Zero && allCubes[j].angvel == Zero
      {
        allCubes[i].Engage(i, phases[i], anchor);
        i := i + 1;
      }
    }

    /** What starting a drag has done: `shape` is held on the plane facing
        the camera through `hitPoint`, the controls are off, and the drag
        samples restart from where the pointer ray meets that plane (or
        from the previous sample when it does not). */
    ghost predicate DragStartedOn(shape: Shape, hitPoint: Vec3, camera: Camera, start: Vec3, nowMs: int)
      reads this, shape
    {
      && isDragging && draggedCube == shape && !controlsEnabled
      && dragPlane == Plane(camera.direction, hitPoint)
      && lastDragPoint == start && dragPoint == start
      && lastTime == nowMs && previousPosition == shape.pos
    }

    /** `startTouchDrag`, also the drag branch of `onMouseDown`. `planeHit`
        is where the pointer ray meets the new drag plane. */
    method StartTouchDrag(shape: Shape, hitPoint: Vec3, camera: Camera, planeHit: Option<Vec3>, nowMs: int)
      requires Valid()
      modifies this`draggedCube, this`isDragging, this`controlsEnabled, this`dragPlane
      modifies this`lastDragPoint, this`dragPoint, this`lastTime, this`previousPosition
      ensures Valid()
      ensures DragStartedOn(shape, hitPoint, camera,
                            if planeHit.Some? then planeHit.value else old(lastDragPoint), nowMs)
    {
      var start := if planeHit.Some? then planeHit.value else lastDragPoint;
      RestartDragSamples(Plane(camera.direction, hitPoint), start, nowMs, shape.pos);
      draggedCube := shape;
      isDragging := true;
      controlsEnabled := false;
    }

    /** The drag samples start afresh: the drag plane is `plane`, both drag
        points are `start`, sampled at `nowMs` with the shape at `position`. */
    method RestartDragSamples(plane: Plane, start: Vec3, nowMs: int, position: Vec3)
      modifies this`dragPlane, this`lastDragPoint, this`dragPoint, this`lastTime, this`previousPosition
      ensures dragPlane == plane && lastDragPoint == start && dragPoint == start
      ensures lastTime == nowMs && previousPosition == position
    {
      dragPlane, lastDragPoint, dragPoint := plane, start, start;
      lastTime, previousPosition := nowMs, position;
    }

    /** The drag samples and the drag plane are as they were. */
    twostate predicate DragSamplesUnchanged()
      reads this
    {
      && dragPlane == old(dragPlane) && dragPoint == old(dragPoint)
      && lastDragPoint == old(lastDragPoint) && dragVelocity == old(dragVelocity)
      && lastTime == old(lastTime) && previousPosition == old(previousPosition)
    }

    /** The gun's state is as it was. */
    twostate predicate GunUnchanged()
      reads this
    {
      && gravityGunEnabled == old(gravityGunEnabled) && gravityGunActive == old(gravityGunActive)
      && gravityGunAnchor == old(gravityGunAnchor) && gravityGunStartTime == old(gravityGunStartTime)
    }

    /** `onMouseDown`: only the primary button counts. With the gun switched
        on the press engages it; otherwise a press on a shape (`shapeHit`,
        the nearest shape under the pointer) starts dragging it and a press
        on nothing does nothing. */
    method OnMouseDown(button: int, groundHit: Option<Vec3>, camera: Camera, nowPerf: real, phases: seq<real>,
                       shapeHit: Option<ShapeHit>, planeHit: Option<Vec3>, nowMs: int)
      requires Valid() && |phases| == |allCubes| && IsLength(1.0, camera.direction)
      requires shapeHit.Some? ==> shapeHit.value.index < |allCubes|
      modifies this`gravityGunAnchor, this`gravityGunActive, this`gravityGunStartTime
      modifies this`isDragging, this`draggedCube, this`controlsEnabled, this`dragPlane
      modifies this`lastDragPoint, this`dragPoint, this`lastTime, this`previousPosition
      modifies allCubes`orbitPhase, allCubes`orbitDirection, allCubes`inGravityOrbit
      modifies allCubes`vel, allCubes`angvel
      ensures Valid()
      ensures button != 0 ==> unchanged(this) && unchanged(allCubes)
      ensures button == 0 && gravityGunEnabled ==>
                && GunEngagedAt(PressAnchor(groundHit, camera), nowPerf, phases)
                && DragSamplesUnchanged()
      ensures button == 0 && !gravityGunEnabled && shapeHit.Some? ==>
                && DragStartedOn(allCubes[shapeHit.value.index], shapeHit.value.point, camera,
                                 if planeHit.Some? then planeHit.value else old(lastDragPoint), nowMs)
                && GunUnchanged() && unchanged(allCubes)
      ensures button == 0 && !gravityGunEnabled && shapeHit.None? ==> unchanged(this) && unchanged(allCubes)
    {
      if button != 0 {
        return;
      }
      if gravityGunEnabled {
        EngageGravityGun(groundHit, camera, nowPerf, phases);
      } else if shapeHit.Some? {
        StartTouchDrag(allCubes[shapeHit.value.index], shapeHit.value.point, camera, planeHit, nowMs);
      }
    }

    /** A new pointer position during a drag: `planeHit` is where the
        pointer ray meets the drag plane, `nowMs` the wall clock. The drag
        point follows the pointer; when time has advanced, the drag velocity
        is the displacement since the last sample over the elapsed time and
        the sample moves on. */
    method TrackDrag(planeHit: Option<Vec3>, nowMs: int)
      modifies this`dragPoint, this`dragVelocity, this`lastDragPoint, this`lastTime
      ensures planeHit.None? ==> unchanged(this)
      ensures Tracked(planeHit, nowMs)
    {
      if planeHit.Some? {
        dragPoint := planeHit.value;
        var deltaTime := ElapsedSeconds(nowMs, lastTime);
        if deltaTime > 0.0 {
          dragVelocity := DragVelocity(dragPoint, lastDragPoint, deltaTime);
          lastDragPoint := dragPoint;
          lastTime := nowMs;
        }
      }
    }

    /** What tracking a drag with pointer sample `planeHit` at `nowMs` has
        done: a ray that misses the drag plane changes nothing; otherwise the
        drag point is the hit, and only when the clock has advanced are the
        drag velocity and the last sample renewed. */
    twostate predicate Tracked(planeHit: Option<Vec3>, nowMs: int)
      reads this
    {
      && (planeHit.None? ==>
            && dragPoint == old(dragPoint) && dragVelocity == old(dragVelocity)
            && lastDragPoint == old(lastDragPoint) && lastTime == old(lastTime))
      && (planeHit.Some? ==> dragPoint == planeHit.value)
      && (planeHit.Some? && nowMs > old(lastTime) ==>
            && lastDragPoint == planeHit.value && lastTime == nowMs
            && Scale(dragVelocity, ElapsedSeconds(nowMs, old(lastTime))) == Sub(planeHit.value, old(lastDragPoint)))
      && (planeHit.Some? && nowMs <= old(lastTime) ==>
            && lastDragPoint == old(lastDragPoint) && lastTime == old(lastTime)
            && dragVelocity == old(dragVelocity))
    }

    /** `onMouseMove`: with the gun engaged the anchor follows the pointer
        on the ground (and stays put when the pointer ray misses the
        ground); otherwise a drag in progress is tracked. */
    method OnMouseMove(groundHit: Option<Vec3>, planeHit: Option<Vec3>, nowMs: int)
      requires Valid()
      modifies this`gravityGunAnchor
      modifies this`dragPoint, this`dragVelocity, this`lastDragPoint, this`lastTime
      ensures Valid()
      ensures old(gravityGunActive) ==> DragSamplesUnchanged()
      ensures old(gravityGunActive) && groundHit.Some? ==> gravityGunAnchor == groundHit.value
      ensures old(gravityGunActive) && groundHit.None? ==> unchanged(this)
      ensures !old(gravityGunActive) ==> gravityGunAnchor == old(gravityGunAnchor)
      ensures !gravityGunActive && !isDragging ==> unchanged(this)
      ensures !gravityGunActive && isDragging ==> Tracked(planeHit, nowMs)
    {
      if gravityGunActive {
        if groundHit.Some? {
          gravityGunAnchor := groundHit.value;
        }
        return;
      }
      if !isDragging {
        return;
      }
      TrackDrag(planeHit, nowMs);
    }

    /** Letting go of the dragged shape: it is thrown with the last drag
        velocity clamped to length 20 (`dragSpeed` being that velocity's
        length), the controls come back and the drag velocity is reset. */
    method ReleaseDrag(dragSpeed: real)
      requires Consistent() && isDragging
      requires IsLength(dragSpeed, dragVelocity)
      modifies this`isDragging, this`controlsEnabled, this`draggedCube, this`dragVelocity
      modifies draggedCube`vel
      ensures Consistent()
      ensures !isDragging && controlsEnabled && draggedCube == null && dragVelocity == Zero
      ensures old(draggedCube).vel == ClampLength(old(dragVelocity), dragSpeed, MaxThrowSpeed)
      ensures IsLength(Min(dragSpeed, MaxThrowSpeed), old(draggedCube).vel)
    {
      isDragging := false;
      controlsEnabled := true;
      var thrown := ClampLength(dragVelocity, dragSpeed, MaxThrowSpeed);
      ClampLengthSpec(dragVelocity, dragSpeed, MaxThrowSpeed);
      draggedCube.vel := thrown;
      draggedCube := null;
      dragVelocity := Zero;
    }

    /** `onMouseUp`: only the primary button counts. It lets go of the gun
        and throws any dragged shape. */
    method OnMouseUp(button: int, dragSpeed: real)
      requires Valid() && IsLength(dragSpeed, dragVelocity)
      modifies this`gravityGunActive, this`isDragging, this`controlsEnabled, this`draggedCube, this`dragVelocity
      modifies (if draggedCube == null then {} else {draggedCube})`vel
      ensures Valid()
      ensures button != 0 ==> unchanged(this) && (old(draggedCube) != null ==> unchanged(old(draggedCube)))
      ensures button == 0 ==> !gravityGunActive && !isDragging && controlsEnabled && draggedCube == null
      ensures button == 0 && old(isDragging) ==>
                && old(draggedCube).vel == ClampLength(old(dragVelocity), dragSpeed, MaxThrowSpeed)
                && dragVelocity == Zero
      ensures button == 0 && !old(isDragging) ==> dragVelocity == old(dragVelocity)
    {
      if button != 0 {
        return;
      }
      if gravityGunActive {
        DeactivateGravityGun();
      }
      if isDragging && draggedCube != null {
        ReleaseDrag(dragSpeed);
      }
    }

    /** `onTouchStart`: only single-finger touches count. With the gun
        switched on the touch engages it. Otherwise a touch on a shape makes
        it the pending drag and (re)arms the 140 ms hold timer, and a touch
        on nothing gives the camera back and ends any drag. */
    method OnTouchStart(touchCount: nat, groundHit: Option<Vec3>, camera: Camera, nowPerf: real, phases: seq<real>,
                        shapeHit: Option<ShapeHit>, touchPixel: Pixel)
      requires Valid() && |phases| == |allCubes| && IsLength(1.0, camera.direction)
      requires shapeHit.Some? ==> shapeHit.value.index < |allCubes|
      modifies this`gravityGunAnchor, this`gravityGunActive, this`gravityGunStartTime
      modifies this`isDragging, this`draggedCube, this`controlsEnabled
      modifies this`pendingDragShape, this`pendingDragHit, this`touchStartPixel, this`holdTimerArmed
      modifies allCubes`orbitPhase, allCubes`orbitDirection, allCubes`inGravityOrbit
      modifies allCubes`vel, allCubes`angvel
      ensures Valid()
      ensures touchCount != 1 ==> unchanged(this) && unchanged(allCubes)
      ensures touchCount == 1 && gravityGunEnabled ==>
                && GunEngagedAt(PressAnchor(groundHit, camera), nowPerf, phases)
                && holdTimerArmed == old(holdTimerArmed) && pendingDragShape == old(pendingDragShape)
                && pendingDragHit == old(pendingDragHit) && touchStartPixel == old(touchStartPixel)
      ensures touchCount == 1 && !gravityGunEnabled && shapeHit.Some? ==>
                && holdTimerArmed && pendingDragShape == allCubes[shapeHit.value.index]
                && pendingDragHit == Some(shapeHit.value.point) && touchStartPixel == touchPixel
                && isDragging == old(isDragging) && draggedCube == old(draggedCube)
                && controlsEnabled == old(controlsEnabled)
                && GunUnchanged() && unchanged(allCubes)
      ensures touchCount == 1 && !gravityGunEnabled && shapeHit.None? ==>
                && controlsEnabled && !isDragging && draggedCube == null
                && holdTimerArmed == old(holdTimerArmed) && pendingDragShape == old(pendingDragShape)
                && pendingDragHit == old(pendingDragHit) && touchStartPixel == old(touchStartPixel)
                && GunUnchanged() && unchanged(allCubes)
    {
      if touchCount != 1 {
        return;
      }
      if gravityGunEnabled {
        EngageGravityGun(groundHit, camera, nowPerf, phases);
      } else if shapeHit.Some? {
        pendingDragShape := allCubes[shapeHit.value.index];
        pendingDragHit := Some(shapeHit.value.point);
        touchStartPixel := touchPixel;
        holdTimerArmed := true;
      } else {
        controlsEnabled := true;
        isDragging := false;
        draggedCube := null;
      }
    }

    /** The hold timer firing, `DragHoldDelayMs` after the touch that armed
        it: the pending shape is picked up where the touch hit it, and
        nothing is pending any more. It does not check the gun, so a drag
        can start while the gun is engaged. */
    method OnHoldTimerFire(camera: Camera, planeHit: Option<Vec3>, nowMs: int)
      requires Valid() && holdTimerArmed
      modifies this`draggedCube, this`isDragging, this`controlsEnabled, this`dragPlane
      modifies this`lastDragPoint, this`dragPoint, this`lastTime, this`previousPosition
      modifies this`pendingDragShape, this`pendingDragHit, this`holdTimerArmed
      ensures Valid()
      ensures DragStartedOn(old(pendingDragShape), old(pendingDragHit).value, camera,
                            if planeHit.Some? then planeHit.value else old(lastDragPoint), nowMs)
      ensures !holdTimerArmed && pendingDragShape == null && pendingDragHit == None
      ensures GunUnchanged()
    {
      StartTouchDrag(pendingDragShape, pendingDragHit.value, camera, planeHit, nowMs);
      pendingDragShape := null;
      pendingDragHit := None;
      holdTimerArmed := false;
    }

    /** `onTouchMove`: only single-finger touches count. With the gun
        engaged the anchor follows the finger on the ground. Otherwise a
        finger that strays more than 12 pixels from where it came down
        cancels the pending drag, and a drag in progress is tracked. */
    method OnTouchMove(touchCount: nat, groundHit: Option<Vec3>, touchPixel: Pixel, planeHit: Option<Vec3>, nowMs: int)
      requires Valid()
      modifies this`gravityGunAnchor, this`pendingDragShape, this`pendingDragHit, this`holdTimerArmed
      modifies this`dragPoint, this`dragVelocity, this`lastDragPoint, this`lastTime
      ensures Valid()
      ensures touchCount != 1 ==> unchanged(this)
      ensures touchCount == 1 && old(gravityGunActive) ==>
                && DragSamplesUnchanged() && holdTimerArmed == old(holdTimerArmed)
                && pendingDragShape == old(pendingDragShape) && pendingDragHit == old(pendingDragHit)
                && gravityGunAnchor == (if groundHit.Some? then groundHit.value else old(gravityGunAnchor))
      ensures touchCount == 1 && !old(gravityGunActive) ==>
                && gravityGunAnchor == old(gravityGunAnchor)
                && (holdTimerArmed <==> old(holdTimerArmed) && !MovedBeyondTolerance(touchStartPixel, touchPixel))
                && (holdTimerArmed ==> pendingDragShape == old(pendingDragShape) && pendingDragHit == old(pendingDragHit))
      ensures touchCount == 1 && !gravityGunActive && !isDragging ==> DragSamplesUnchanged()
      ensures touchCount == 1 && !gravityGunActive && isDragging ==> Tracked(planeHit, nowMs)
    {
      if touchCount != 1 {
        return;
      }
      if gravityGunActive {
        if groundHit.Some? {
          gravityGunAnchor := groundHit.value;
        }
        return;
      }
      if holdTimerArmed && MovedBeyondTolerance(touchStartPixel, touchPixel) {
        holdTimerArmed := false;
        pendingDragShape := null;
        pendingDragHit := None;
      }
      if isDragging {
        TrackDrag(planeHit, nowMs);
      }
    }

    /** `onTouchEnd` (and `touchcancel`): lets go of the gun, disarms the
        hold timer, forgets the pending drag and throws any dragged shape. */
    method OnTouchEnd(dragSpeed: real)
      requires Valid() && IsLength(dragSpeed, dragVelocity)
      modifies this`gravityGunActive, this`isDragging, this`controlsEnabled, this`draggedCube, this`dragVelocity
      modifies this`pendingDragShape, this`pendingDragHit, this`holdTimerArmed
      modifies (if draggedCube == null then {} else {draggedCube})`vel
      ensures Valid()
      ensures !gravityGunActive && !isDragging && controlsEnabled && draggedCube == null
      ensures !holdTimerArmed && pendingDragShape == null && pendingDragHit == None
      ensures old(isDragging) ==>
                && old(draggedCube).vel == ClampLength(old(dragVelocity), dragSpeed, MaxThrowSpeed)
                && dragVelocity == Zero
      ensures !old(isDragging) ==> dragVelocity == old(dragVelocity)
    {
      if gravityGunActive {
        DeactivateGravityGun();
      }
      holdTimerArmed := false;
      pendingDragShape := null;
      pendingDragHit := None;
      if !isDragging || draggedCube == null {
        return;
      }
      ReleaseDrag(dragSpeed);
    }

    /** The reset button: ends any drag and lets go of the gun; then, unless
        nothing is registered, blasts every shape outward and upward and
        schedules one cleanup 650 ms later. `jitter[i]` is the pair of
        random numbers drawn for the `i`-th shape and `length` gives vector
        lengths. */
    method ResetCubes(jitter: seq<(real, real)>, length: Vec3 -> real)
      requires Valid() && |jitter| == |allCubes|
      modifies this`isDragging, this`draggedCube, this`controlsEnabled, this`gravityGunActive
      modifies this`pendingCleanups, allCubes`vel
      ensures Valid()
      ensures !isDragging && draggedCube == null && !gravityGunActive && controlsEnabled
      ensures allCubes == old(allCubes) && colliderToShape == old(colliderToShape)
      ensures pendingCleanups == old(pendingCleanups) + if allCubes == [] then 0 else 1
      ensures forall i :: 0 <= i < |allCubes| ==>
                allCubes[i].vel == Blasted(old(allCubes[i].vel), allCubes[i].pos, jitter[i].0, jitter[i].1, allCubes[i].mass, length)
    {
      if isDragging {
        isDragging := false;
        draggedCube := null;
        controlsEnabled := true;
      }
      DeactivateGravityGun();
      if allCubes == [] {
        return;
      }
      BlastShapes(jitter, length);
      pendingCleanups := pendingCleanups + 1;
    }

    /** The blast loop of a reset: each shape gets the blast impulse away
        from the origin, jittered by its pair of random numbers. */
    method BlastShapes(jitter: seq<(real, real)>, length: Vec3 -> real)
      requires Distinct(allCubes) && |jitter| == |allCubes|
      modifies allCubes`vel
      ensures forall i :: 0 <= i < |allCubes| ==>
                allCubes[i].vel == Blasted(old(allCubes[i].vel), allCubes[i].pos, jitter[i].0, jitter[i].1, allCubes[i].mass, length)
    {
      var i := 0;
      while i < |allCubes|
        invariant 0 <= i <= |allCubes|
        invariant forall j :: 0 <= j < i ==>
                    allCubes[j].vel == Blasted(old(allCubes[j].vel), allCubes[j].pos, jitter[j].0, jitter[j].1, allCubes[j].mass, length)
        invariant forall j :: i <= j < |allCubes| ==> allCubes[j].vel == old(allCubes[j].vel)
      {
        var shape := allCubes[i];
        assert forall j :: 0 <= j < |allCubes| && j != i ==> allCubes[j] != shape;
        shape.Blast(jitter[i].0, jitter[i].1, length);
        i := i + 1;
      }
    }

    /** The cleanup a reset scheduled, firing `ResetCleanupDelayMs` after
        the reset: it removes every shape registered when it runs, last
        first, and its handle from the map. */
    method OnCleanupTimerFire()
      requires Valid() && pendingCleanups > 0
      modifies this`allCubes, this`colliderToShape, this`pendingCleanups
      ensures Valid() && ScalesInBounds()
      ensures allCubes == [] && colliderToShape == map[]
      ensures pendingCleanups == old(pendingCleanups) - 1
    {
      while |allCubes| > 0
        invariant pendingCleanups == old(pendingCleanups)
        invariant Distinct(allCubes) && Indexed(allCubes, colliderToShape)
        decreases |allCubes|
      {
        var shape := allCubes[|allCubes| - 1];
        IndexedWithoutLast(allCubes, colliderToShape);
        allCubes := allCubes[..|allCubes| - 1];
        colliderToShape := colliderToShape - {shape.colliderHandle};
      }
      IndexedEmpty(colliderToShape);
      pendingCleanups := pendingCleanups - 1;
    }

    /** Seconds since the gun engaged, for a clock reading `nowPerf`. */
    function GunTime(nowPerf: real): real
      reads this`gravityGunStartTime
    {
      (nowPerf - gravityGunStartTime) / 1000.0
    }

    /** The gravity-gun section of a frame: with the gun engaged, every
        registered shape out of range is marked so and left alone, and every
        shape in range is steered toward its point on the orbit and spun in
        its sense. `nowPerf` is the high-resolution clock and `length` gives
        vector lengths. */
    method GravityGunFrame(nowPerf: real, trig: Trig, length: Vec3 -> real)
      requires Distinct(allCubes)
      modifies allCubes`inGravityOrbit, allCubes`vel, allCubes`angvel
      ensures !gravityGunActive ==> unchanged(allCubes)
      ensures gravityGunActive ==> forall i {:trigger allCubes[i].orbitPhase} :: 0 <= i < |allCubes| ==>
                var s := allCubes[i];
                && s.inGravityOrbit == InOrbitRange(s.pos, gravityGunAnchor)
                && (!s.inGravityOrbit ==> s.vel == old(s.vel) && s.angvel == old(s.angvel))
                && (s.inGravityOrbit ==>
                      && s.vel == GunVelocity(s.pos, gravityGunAnchor, GunTime(nowPerf), s.orbitPhase, s.orbitDirection, trig, length)
                      && s.angvel == OrbitSpin(EffectiveDirection(s.orbitDirection)))
    {
      if !gravityGunActive {
        return;
      }
      var time := GunTime(nowPerf);
      var i := 0;
      while i < |allCubes|
        invariant 0 <= i <= |allCubes|
        invariant forall j :: 0 <= j < i ==>
                    var s := allCubes[j];
                    && s.inGravityOrbit == InOrbitRange(s.pos, gravityGunAnchor)
                    && (!s.inGravityOrbit ==> s.vel == old(s.vel) && s.angvel == old(s.angvel))
                    && (s.inGravityOrbit ==>
                          && s.vel == GunVelocity(s.pos, gravityGunAnchor, time, s.orbitPhase, s.orbitDirection, trig, length)
                          && s.angvel == OrbitSpin(EffectiveDirection(s.orbitDirection)))
        invariant forall j :: i <= j < |allCubes| ==> allCubes[j].vel == old(allCubes[j].vel) && allCubes[j].angvel == old(allCubes[j].angvel)
      {
        var shape := allCubes[i];
        assert forall j :: 0 <= j < |allCubes| && j != i ==> allCubes[j] != shape;
        shape.GunStep(gravityGunAnchor, time, trig, length);
        i := i + 1;
      }
    }

    /** The drag section of a frame: a dragged shape follows the drag point
        and stretches along its motion. */
    method DragFrame(length: Vec3 -> real)
      requires Consistent() && ScalesInBounds()
      modifies (if draggedCube == null then {} else {draggedCube})`feedback
      modifies (if draggedCube == null then {} else {draggedCube})`vel
      modifies (if draggedCube == null then {} else {draggedCube})`angvel
      ensures ScalesInBounds()
      ensures !isDragging ==> draggedCube == null
      ensures isDragging ==>
                var s := draggedCube;
                && s.vel == FollowVelocity(dragPoint, s.pos) && s.angvel == Zero
                && (length(s.vel) > DragSquishThreshold ==>
                      s.feedback == old(s.feedback).(target := DragTarget(s.vel, length(s.vel))))
                && (length(s.vel) <= DragSquishThreshold ==> s.feedback == old(s.feedback))
    {
      if isDragging && draggedCube != null {
        var shape := draggedCube;
        ghost var before := shape.feedback;
        shape.FollowDrag(dragPoint, length);
        if length(shape.vel) > DragSquishThreshold {
          DragTargetSpec(shape.vel, length(shape.vel));
        }
        if shape in allCubes {
          assert ScalesBounded(before);
        }
      }
    }

    /** The cull section of a frame: walking the registry from the end,
        every shape below the cull depth is removed from the registry and
        its handle from the map. */
    method CullFrame()
      requires Valid() && ScalesInBounds()
      modifies this`allCubes, this`colliderToShape
      ensures Valid() && ScalesInBounds()
      ensures allCubes == Survivors(old(allCubes))
      ensures colliderToShape == old(colliderToShape) - FallenHandles(old(allCubes))
    {
      var kept, remaining := Cull(allCubes, colliderToShape);
      CullKeepsIndex(allCubes, colliderToShape);
      SurvivorsSound(allCubes);
      assert forall s :: s in kept ==> ScalesBounded(s.feedback);
      allCubes, colliderToShape := kept, remaining;
    }

    /** How many of the first `n` registered shapes ask for an impact sound
        when their feedback is stepped at clock readings `nows`. */
    ghost function SoundRequests(nows: seq<real>, length: Vec3 -> real, n: nat): nat
      requires n <= |allCubes| <= |nows|
      reads this`allCubes, allCubes`feedback, allCubes`vel
    {
      if n == 0 then 0
      else SoundRequests(nows, length, n - 1)
           + (if Sense(allCubes[n - 1].feedback, allCubes[n - 1].vel, nows[n - 1], length).1 then 1 else 0)
    }

    /** No shape asks for a sound exactly when the count of requests is zero. */
    lemma {:induction false} NoSoundRequests(nows: seq<real>, length: Vec3 -> real, n: nat)
      requires n <= |allCubes| <= |nows|
      ensures SoundRequests(nows, length, n) == 0 <==>
                forall i :: 0 <= i < n ==> !Sense(allCubes[i].feedback, allCubes[i].vel, nows[i], length).1
    {
      if n > 0 {
        NoSoundRequests(nows, length, n - 1);
      }
    }

    /** The feedback section of a frame: every registered shape, in order,
        updates its squash-and-stretch state from its change of velocity
        and, when it asks for an impact sound, `playImpactSound` runs.
        `nows[i]` is the clock reading taken for the `i`-th shape. */
    method FeedbackFrame(nows: seq<real>, length: Vec3 -> real)
      requires Valid() && ScalesInBounds() && |nows| >= |allCubes|
      modifies allCubes`feedback, this`activeImpactSounds, this`nextSoundId
      ensures Valid() && ScalesInBounds()
      ensures forall i {:trigger nows[i]} :: 0 <= i < |allCubes| ==>
                allCubes[i].feedback == Sense(old(allCubes[i].feedback), allCubes[i].vel, nows[i], length).0
      ensures old(activeImpactSounds) <= activeImpactSounds
      ensures (forall i :: 0 <= i < |allCubes| ==> !Sense(old(allCubes[i].feedback), allCubes[i].vel, nows[i], length).1)
              ==> activeImpactSounds == old(activeImpactSounds)
      ensures (exists i :: 0 <= i < |allCubes| && Sense(old(allCubes[i].feedback), allCubes[i].vel, nows[i], length).1)
              && |old(activeImpactSounds)| < MaxConcurrentSounds
              ==> old(activeImpactSounds) < activeImpactSounds
      ensures var started := |old(activeImpactSounds)| + old(SoundRequests(nows, length, |allCubes|));
              |activeImpactSounds| == if started < MaxConcurrentSounds then started else MaxConcurrentSounds
    {
      // Each step's effect is all the loop needs; the step's arithmetic, the
      // scale bounds and the registry's index are not.
      hide Observe, Sense, Indexed, ScalesBounded;
      var i := 0;
      ghost var requested := 0;
      while i < |allCubes|
        invariant 0 <= i <= |allCubes|
        invariant Valid() && ScalesInBounds()
        invariant forall j :: 0 <= j < i ==>
                    allCubes[j].feedback == Sense(old(allCubes[j].feedback), allCubes[j].vel, nows[j], length).0
        invariant forall j :: i <= j < |allCubes| ==> allCubes[j].feedback == old(allCubes[j].feedback)
        invariant old(activeImpactSounds) <= activeImpactSounds
        invariant (forall j :: 0 <= j < i ==> !Sense(old(allCubes[j].feedback), allCubes[j].vel, nows[j], length).1)
                  ==> activeImpactSounds == old(activeImpactSounds)
        invariant (exists j :: 0 <= j < i && Sense(old(allCubes[j].feedback), allCubes[j].vel, nows[j], length).1)
                  && |old(activeImpactSounds)| < MaxConcurrentSounds
                  ==> old(activeImpactSounds) < activeImpactSounds
        invariant requested == old(SoundRequests(nows, length, i))
        invariant var started := |old(activeImpactSounds)| + requested;
                  |activeImpactSounds| == if started < MaxConcurrentSounds then started else MaxConcurrentSounds
      {
        var shape := allCubes[i];
        assert forall j :: 0 <= j < |allCubes| && j != i ==> allCubes[j] != shape;
        ghost var asks := Sense(shape.feedback, shape.vel, nows[i], length).1;
        assert old(SoundRequests(nows, length, i + 1)) == requested + if asks then 1 else 0;
        FeedbackStep(shape, nows[i], length);
        requested := requested + if asks then 1 else 0;
        i := i + 1;
      }
    }

    /** One frame of `gameLoop` after the physics step: the gravity-gun,
        drag, cull and feedback sections in that order. `nowPerf` is the
        clock reading for the gun, `nows[i]` the one for the `i`-th shape
        that survives the cull, `trig` and `length` stand in for the
        renderer's trigonometry and vector lengths. */
    method GameLoop(nowPerf: real, trig: Trig, nows: seq<real>, length: Vec3 -> real)
      requires Valid() && ScalesInBounds() && |nows| >= |allCubes|
      modifies allCubes`inGravityOrbit, allCubes`vel, allCubes`angvel, allCubes`feedback
      modifies (if draggedCube == null then {} else {draggedCube})`feedback
      modifies (if draggedCube == null then {} else {draggedCube})`vel
      modifies (if draggedCube == null then {} else {draggedCube})`angvel
      modifies this`allCubes, this`colliderToShape, this`activeImpactSounds, this`nextSoundId
      ensures Valid() && ScalesInBounds()
      ensures old(activeImpactSounds) <= activeImpactSounds
    {
      // What each section computes plays no part in the frame's invariant.
      hide Observe, Sense, SoundRequests;
      GravityGunFrame(nowPerf, trig, length);
      DragFrame(length);
      SurvivorsSound(allCubes);
      CullFrame();
      assert forall i :: 0 <= i < |allCubes| ==> allCubes[i] in old(allCubes);
      FeedbackFrame(nows, length);
    }

    /** One shape's turn in the feedback section: its feedback state moves
        on, and a sound is asked for when its impact calls for one. */
    method FeedbackStep(shape: Shape, now: real, length: Vec3 -> real)
      requires Valid()
      modifies shape`feedback, this`activeImpactSounds, this`nextSoundId
      ensures Valid()
      ensures shape.feedback == Sense(old(shape.feedback), shape.vel, now, length).0
      ensures ScalesBounded(old(shape.feedback)) ==> ScalesBounded(shape.feedback)
      ensures old(activeImpactSounds) <= activeImpactSounds
      ensures !Sense(old(shape.feedback), shape.vel, now, length).1 ==> activeImpactSounds == old(activeImpactSounds)
      ensures Sense(old(shape.feedback), shape.vel, now, length).1 && |old(activeImpactSounds)| < MaxConcurrentSounds ==>
                old(activeImpactSounds) < activeImpactSounds && |activeImpactSounds| == |old(activeImpactSounds)| + 1
      ensures Sense(old(shape.feedback), shape.vel, now, length).1 && |old(activeImpactSounds)| >= MaxConcurrentSounds ==>
                activeImpactSounds == old(activeImpactSounds)
    {
      if ScalesBounded(shape.feedback) {
        ObserveKeepsBounds(shape.feedback, shape.vel, length(Sub(shape.vel, shape.feedback.lastVelocity)), now);
      }
      var play := shape.React(now, length);
      if play {
        var _ := PlayImpactSound();
      }
    }

    /** `playImpactSound`: with three sounds already playing the request is
        dropped; otherwise a new sound starts and `started` is its
        identity. */
    method PlayImpactSound() returns (started: Option<nat>)
      requires Consistent()
      modifies this`activeImpactSounds, this`nextSoundId
      ensures Consistent()
      ensures started.Some? <==> |old(activeImpactSounds)| < MaxConcurrentSounds
      ensures started.None? ==> activeImpactSounds == old(activeImpactSounds) && nextSoundId == old(nextSoundId)
      ensures started.Some? ==>
                && started.value !in old(activeImpactSounds)
                && activeImpactSounds == old(activeImpactSounds) + {started.value}
                && |activeImpactSounds| == |old(activeImpactSounds)| + 1
    {
      if |activeImpactSounds| >= MaxConcurrentSounds {
        return None;
      }
      var id := nextSoundId;
      activeImpactSounds := activeImpactSounds + {id};
      nextSoundId := nextSoundId + 1;
      started := Some(id);
    }

    /** A sound ended, failed, or could not start: it no longer counts
        toward the cap. */
    method OnImpactSoundEnded(id: nat)
      requires Consistent()
      modifies this`activeImpactSounds
      ensures Consistent()
      ensures activeImpactSounds == old(activeImpactSounds) - {id}
    {
      activeImpactSounds := activeImpactSounds - {id};
    }
  }
}
