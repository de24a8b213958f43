/** Event sequences applied to the playground model, each proved to end in
    the outcome the handlers' contracts imply. */
module Scenarios {
  import opened Optional
  import opened Vectors
  import Forces
  import opened Gestures
  import opened Shapes
  import opened Playground

  const Lens := Camera(Vec3(0.0, 5.0, 10.0), Vec3(0.0, 0.0, -1.0))

  /** A new playground with one shape registered and the gun off. */
  method OneShape() returns (p: Playground, s: Shape)
    ensures fresh(p) && fresh(s) && p.Valid() && p.allCubes == [s]
    ensures !p.gravityGunEnabled && !p.gravityGunActive && !p.isDragging
  {
    p := new Playground(0);
    s := p.Spawn(Cube, 7, 1.0, Vec3(0.0, 1.0, 0.0));
  }

  /** A new playground with one shape on which a touch at `pixel` rests,
      the hold timer armed and the gun off. */
  method PendingTouch(pixel: Pixel) returns (p: Playground, s: Shape)
    ensures fresh(p) && fresh(s) && p.Valid() && p.allCubes == [s]
    ensures p.holdTimerArmed && p.touchStartPixel == pixel
    ensures !p.gravityGunEnabled && !p.gravityGunActive && !p.isDragging
  {
    // The gun is off, so what engaging it would do plays no part.
    hide Playground.GunEngagedAt, PressAnchor;
    p, s := OneShape();
    p.OnTouchStart(1, None, Lens, 0.0, [0.0], Some(ShapeHit(0, Vec3(0.0, 1.0, 0.0))), pixel);
  }

  /** A touch rests on a shape, then a mouse press engages the gun before
      the hold timer fires: the timer still starts the drag, so the shape
      is dragged while the gun is engaged. */
  method HoldTimerAfterGunPress() returns (dragging: bool, gunActive: bool, controls: bool)
    ensures dragging && gunActive && !controls
  {
    var p, s := PendingTouch(Pixel(10.0, 10.0));
    p.ToggleGravityGun();
    p.OnMouseDown(0, Some(Zero), Lens, 5.0, [1.0], None, None, 10);
    p.OnHoldTimerFire(Lens, None, 140);
    dragging, gunActive, controls := p.isDragging, p.gravityGunActive, p.controlsEnabled;
  }

  /** A reset with nothing registered schedules no cleanup but still gives
      the camera back. */
  method EmptyReset() returns (cleanups: nat, controls: bool)
    ensures cleanups == 0 && controls
  {
    var p := new Playground(0);
    p.ResetCubes([], v => 1.0);
    cleanups, controls := p.pendingCleanups, p.controlsEnabled;
  }

  /** Two shapes, a reset, then its cleanup: the registry and the map end
      up empty. */
  method ResetThenCleanup() returns (count: nat, handles: nat)
    ensures count == 0 && handles == 0
  {
    var p := new Playground(0);
    var a := p.Spawn(Cube, 1, 1.0, Vec3(0.0, 1.0, 0.0));
    var b := p.Spawn(Sphere, 2, 2.0, Vec3(1.0, 1.0, 0.0));
    p.ResetCubes([(0.5, 0.5), (0.1, 0.9)], v => 1.0);
    p.OnCleanupTimerFire();
    count, handles := |p.allCubes|, |p.colliderToShape|;
  }

  /** A press picks up a shape while a reset's cleanup is pending; the
      cleanup then removes every registered shape but does not end the
      drag, so the dragged shape is no longer registered. */
  method DragOutlivesCleanup() returns (dragging: bool, registered: bool)
    ensures dragging && !registered
  {
    // Neither the gun nor the blast's velocities play any part here.
    hide Playground.GunEngagedAt, PressAnchor, Forces.Blasted;
    var p, s := OneShape();
    p.ResetCubes([(0.5, 0.5)], v => 1.0);
    p.OnMouseDown(0, None, Lens, 0.0, [0.0], Some(ShapeHit(0, Vec3(0.0, 1.0, 0.0))), None, 5);
    p.OnCleanupTimerFire();
    dragging := p.isDragging && p.draggedCube == s;
    registered := s in p.allCubes;
  }

  /** A touch on a shape arms the hold timer; wandering 12 pixels keeps it
      armed and 13 pixels cancels it. */
  method TouchTolerance() returns (armedAt12: bool, armedAt13: bool)
    ensures armedAt12 && !armedAt13
  {
    var p, s := PendingTouch(Pixel(100.0, 100.0));
    assert !MovedBeyondTolerance(Pixel(100.0, 100.0), Pixel(112.0, 100.0));
    p.OnTouchMove(1, None, Pixel(112.0, 100.0), None, 5);
    armedAt12 := p.holdTimerArmed;
    assert MovedBeyondTolerance(Pixel(100.0, 100.0), Pixel(100.0, 113.0));
    p.OnTouchMove(1, None, Pixel(100.0, 113.0), None, 6);
    armedAt13 := p.holdTimerArmed;
  }

  /** Four impact sounds asked for in a row: the first three start, the
      fourth is dropped; once one ends, another may start. */
  method SoundCap() returns (fourth: Option<nat>, fifth: Option<nat>)
    ensures fourth.None? && fifth.Some?
  {
    var p := new Playground(0);
    var first := p.PlayImpactSound();
    var second := p.PlayImpactSound();
    var third := p.PlayImpactSound();
    fourth := p.PlayImpactSound();
    p.OnImpactSoundEnded(first.value);
    fifth := p.PlayImpactSound();
  }

  /** A shape that has fallen below the cull depth is removed by the next
      frame's cull, and its handle with it; the other shape stays. */
  method FallenShapeCulled() returns (count: nat, keptHandle: bool, droppedHandle: bool)
    ensures count == 1 && keptHandle && !droppedHandle
  {
    var p := new Playground(0);
    var low := p.Spawn(Tube, 4, 1.0, Vec3(0.0, -30.0, 0.0));
    var high := p.Spawn(Cube, 5, 1.0, Vec3(0.0, 2.0, 0.0));
    assert Fallen(low) && !Fallen(high);
    p.CullFrame();
    assert FallenHandles([low, high]) == {4};
    count, keptHandle, droppedHandle := |p.allCubes|, 5 in p.colliderToShape, 4 in p.colliderToShape;
  }
}
