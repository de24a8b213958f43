/** The shapes of the playground and the registry that holds them
    (js/rapier.cleaned.js: the records built by `createCube`, `createSphere`,
    `createTriangle` and `createWavyTube`, the array `allCubes` and the map
    `colliderToShape` from collider handle to record). A shape's rigid body
    is represented by the body state the frame logic reads and writes:
    position, linear and angular velocity, and mass. */
module Shapes {
  import opened Vectors
  import opened Forces
  import opened Orbit
  import opened Gestures
  import Squish

  datatype ShapeKind = Cube | Sphere | Triangle | Tube

  class Shape {
    const kind: ShapeKind
    /** The handle of the shape's collider, its key in the registry map. */
    const colliderHandle: int
    const mass: Mass
    var pos: Vec3
    var vel: Vec3
    var angvel: Vec3
    /** The record's `squishScale`, `targetSquishScale`, `lastVelocity` and
        `lastImpactSoundTime`, kept together as one value. */
    var feedback: Squish.Feedback
    /** Set when the gravity gun engages; 0 before (`orbitPhase || 0`). */
    var orbitPhase: real
    /** +1 or -1 once the gravity gun has engaged; 0 before (undefined). */
    var orbitDirection: int
    var inGravityOrbit: bool

    /** A new record: at rest, undeformed, never heard. */
    constructor (kind: ShapeKind, colliderHandle: int, mass: Mass, pos: Vec3)
      ensures this.kind == kind && this.colliderHandle == colliderHandle && this.mass == mass
      ensures this.pos == pos && vel == Zero && angvel == Zero
      ensures feedback == Squish.Feedback(One, One, Zero, 0.0)
      ensures orbitPhase == 0.0 && orbitDirection == 0 && !inGravityOrbit
    {
      this.kind := kind;
      this.colliderHandle := colliderHandle;
      this.mass := mass;
      this.pos := pos;
      vel := Zero;
      angvel := Zero;
      feedback := Squish.Feedback(One, One, Zero, 0.0);
      orbitPhase := 0.0;
      orbitDirection := 0;
      inGravityOrbit := false;
    }

    /** What a gun press does to the `index`-th registered shape: it stops,
        takes its orbit phase and sense, and notes whether it is in range of
        the new anchor. */
    method Engage(index: nat, phase: real, anchor: Vec3)
      modifies this`orbitPhase, this`orbitDirection, this`inGravityOrbit, this`vel, this`angvel
      ensures orbitPhase == phase && orbitDirection == OrbitDirection(index)
      ensures inGravityOrbit == InOrbitRange(pos, anchor)
      ensures vel == Zero && angvel == Zero
    {
      orbitPhase := phase;
      orbitDirection := OrbitDirection(index);
      inGravityOrbit := InOrbitRange(pos, anchor);
      vel := Zero;
      angvel := Zero;
    }

    /** `body.applyImpulse`: the velocity changes by impulse / mass. */
    method ApplyImpulse(impulse: Vec3)
      modifies this`vel
      ensures vel == Forces.ApplyImpulse(old(vel), impulse, mass)
    {
      vel := Forces.ApplyImpulse(vel, impulse, mass);
    }

    /** The reset blast on this shape, jittered by `jx` and `jz`. */
    method Blast(jx: real, jz: real, length: Vec3 -> real)
      modifies this`vel
      ensures vel == Blasted(old(vel), pos, jx, jz, mass, length)
    {
      var dir := BlastDirection(pos, jx, jz);
      ApplyImpulse(BlastImpulse(dir, length(dir)));
    }

    /** One frame of the engaged gun for this shape, with `anchor` the
        gun's anchor, `target` its orbit target this frame and `pullLen` the
        length of its pull offset. Out of range the shape is only marked
        so; in range it is given exactly the pull velocity toward the target
        and the orbit spin of its sense. */
    method OrbitStep(anchor: Vec3, target: Vec3, pullLen: real)
      modifies this`inGravityOrbit, this`vel, this`angvel
      ensures inGravityOrbit == InOrbitRange(pos, anchor)
      ensures !inGravityOrbit ==> vel == old(vel) && angvel == old(angvel)
      ensures inGravityOrbit ==>
                && vel == PullVelocity(pos, target, pullLen)
                && angvel == OrbitSpin(EffectiveDirection(orbitDirection))
    {
      var p := pos;
      var inRange := InOrbitRange(p, anchor);
      inGravityOrbit := inRange;
      if inRange {
        var desired := PullVelocity(p, target, pullLen);
        SteerTo(desired);
        angvel := OrbitSpin(EffectiveDirection(orbitDirection));
      }
    }

    /** One frame of the engaged gun for this shape, `time` seconds after
        it engaged at `anchor`: the target is the point of this shape's
        orbit, and `length` gives the length of the pull offset. */
    method GunStep(anchor: Vec3, time: real, trig: Trig, length: Vec3 -> real)
      modifies this`inGravityOrbit, this`vel, this`angvel
      ensures inGravityOrbit == InOrbitRange(pos, anchor)
      ensures !inGravityOrbit ==> vel == old(vel) && angvel == old(angvel)
      ensures inGravityOrbit ==>
                && vel == GunVelocity(pos, anchor, time, orbitPhase, orbitDirection, trig, length)
                && angvel == OrbitSpin(EffectiveDirection(orbitDirection))
    {
      var target := GunTarget(anchor, time, orbitPhase, orbitDirection, trig);
      OrbitStep(anchor, target, length(PullOffset(pos, target)));
    }

    /** The impulse `(desired - vel) * mass` that the gun applies brings the
        velocity to exactly `desired`. */
    method SteerTo(desired: Vec3)
      modifies this`vel
      ensures vel == desired
    {
      ApplyImpulse(VelocityChangeImpulse(desired, vel, mass));
    }

    /** One frame of being dragged toward `dragPoint`: the shape follows
        the drag velocity without spinning, and a fast enough drag stretches
        its target scale along the motion. */
    method FollowDrag(dragPoint: Vec3, length: Vec3 -> real)
      modifies this`feedback, this`vel, this`angvel
      ensures vel == FollowVelocity(dragPoint, pos) && angvel == Zero
      ensures length(vel) > Squish.DragSquishThreshold ==>
                feedback == old(feedback).(target := Squish.DragTarget(vel, length(vel)))
      ensures length(vel) <= Squish.DragSquishThreshold ==> feedback == old(feedback)
    {
      var tv := FollowVelocity(dragPoint, pos);
      var speed := length(tv);
      if speed > Squish.DragSquishThreshold {
        feedback := feedback.(target := Squish.DragTarget(tv, speed));
      }
      vel := tv;
      angvel := Zero;
    }

    /** One frame of feedback at time `now`, `length` giving the length of
        the change of velocity since last frame: the new feedback state is
        the one `Squish.Observe` gives; `play` is whether a sound is asked
        for. */
    method React(now: real, length: Vec3 -> real) returns (play: bool)
      modifies this`feedback
      ensures (feedback, play) == Squish.Sense(old(feedback), vel, now, length)
    {
      var mag := length(Sub(vel, feedback.lastVelocity));
      var r := Squish.Observe(feedback, vel, mag, now);
      feedback, play := r.0, r.1;
    }
  }

  /** Shapes that fall below this height are removed. */
  const CullDepth := -25.0

  predicate Fallen(s: Shape)
    reads s`pos
  {
    s.pos.y < CullDepth
  }

  /** The shapes of `shapes` that have not fallen, in their order. */
  function Survivors(shapes: seq<Shape>): (r: seq<Shape>)
    reads shapes`pos
    ensures |r| <= |shapes|
  {
    if shapes == [] then []
    else (if Fallen(shapes[0]) then [] else [shapes[0]]) + Survivors(shapes[1..])
  }

  /** Every survivor is a shape of `shapes` that has not fallen. */
  lemma {:induction false} SurvivorsSound(shapes: seq<Shape>)
    ensures forall s :: s in Survivors(shapes) ==> s in shapes && !Fallen(s)
  {
    if shapes != [] {
      SurvivorsSound(shapes[1..]);
    }
  }

  /** Every shape that has not fallen survives. */
  lemma {:induction false} SurvivorsComplete(shapes: seq<Shape>)
    ensures forall s :: s in shapes && !Fallen(s) ==> s in Survivors(shapes)
  {
    if shapes != [] {
      SurvivorsComplete(shapes[1..]);
      forall s | s in shapes && !Fallen(s)
        ensures s in Survivors(shapes)
      {
        if s != shapes[0] {
          var i :| 0 <= i < |shapes| && shapes[i] == s;
          assert shapes[1..][i - 1] == s;
        }
      }
    }
  }

  /** Filtering distributes over concatenation: survivors keep their
      relative order and each part is filtered on its own. */
  lemma {:induction false} SurvivorsAppend(a: seq<Shape>, b: seq<Shape>)
    ensures Survivors(a + b) == Survivors(a) + Survivors(b)
  {
    if a == [] {
      assert a + b == b;
    } else {
      var head := if Fallen(a[0]) then [] else [a[0]];
      assert (a + b)[0] == a[0];
      assert (a + b)[1..] == a[1..] + b;
      assert Survivors(a + b) == head + Survivors(a[1..] + b);
      SurvivorsAppend(a[1..], b);
      assert head + (Survivors(a[1..]) + Survivors(b)) == (head + Survivors(a[1..])) + Survivors(b);
    }
  }

  /** When nothing has fallen, nothing is removed. */
  lemma {:induction false} SurvivorsAllKept(shapes: seq<Shape>)
    requires forall s :: s in shapes ==> !Fallen(s)
    ensures Survivors(shapes) == shapes
  {
    if shapes != [] {
      SurvivorsAllKept(shapes[1..]);
    }
  }

  /** No shape appears twice. */
  ghost predicate Distinct(shapes: seq<Shape>) {
    forall i, j :: 0 <= i < j < |shapes| ==> shapes[i] != shapes[j]
  }

  lemma {:induction false} SurvivorsDistinct(shapes: seq<Shape>)
    requires Distinct(shapes)
    ensures Distinct(Survivors(shapes))
  {
    if shapes != [] {
      var rest := shapes[1..];
      assert Distinct(rest) by {
        forall i, j | 0 <= i < j < |rest|
          ensures rest[i] != rest[j]
        {
          assert rest[i] == shapes[i + 1] && rest[j] == shapes[j + 1];
        }
      }
      SurvivorsDistinct(rest);
      SurvivorsSound(rest);
      assert shapes[0] !in rest by {
        forall j | 0 <= j < |rest|
          ensures rest[j] != shapes[0]
        {
          assert rest[j] == shapes[j + 1];
        }
      }
    }
  }

  /** The map and the sequence are kept in step: every registered shape is
      found under its own collider handle, and every entry of the map is a
      registered shape filed under its own handle. */
  ghost predicate Indexed(shapes: seq<Shape>, index: map<int, Shape>) {
    && (forall s :: s in shapes ==> s.colliderHandle in index && index[s.colliderHandle] == s)
    && (forall h :: h in index ==> index[h] in shapes && index[h].colliderHandle == h)
  }

  /** The handles of the shapes of `shapes` that have fallen. */
  function FallenHandles(shapes: seq<Shape>): set<int>
    reads shapes`pos
  {
    set s | s in shapes && Fallen(s) :: s.colliderHandle
  }

  lemma FallenHandlesCons(shapes: seq<Shape>)
    requires shapes != []
    ensures FallenHandles(shapes)
            == (if Fallen(shapes[0]) then {shapes[0].colliderHandle} else {}) + FallenHandles(shapes[1..])
  {
    assert forall s :: s in shapes <==> s == shapes[0] || s in shapes[1..];
  }

  /** One step of the backward cull at index `i`, on the registry: with
      the shapes after `i` already filtered, splicing out the shape at `i`
      when it has fallen leaves the shapes from `i` on filtered. */
  lemma CullStepKept(shapes: seq<Shape>, i: nat, kept: seq<Shape>)
    requires i < |shapes|
    requires kept == shapes[..i + 1] + Survivors(shapes[i + 1..])
    ensures i < |kept| && kept[i] == shapes[i]
    ensures Fallen(shapes[i]) ==> kept[..i] + kept[i + 1..] == shapes[..i] + Survivors(shapes[i..])
    ensures !Fallen(shapes[i]) ==> kept == shapes[..i] + Survivors(shapes[i..])
  {
    var rest := shapes[i + 1..];
    assert shapes[i..][0] == shapes[i] && shapes[i..][1..] == rest;
    assert shapes[..i + 1] == shapes[..i] + [shapes[i]];
    if Fallen(shapes[i]) {
      assert Survivors(shapes[i..]) == Survivors(rest);
      assert kept[..i] == shapes[..i];
      assert kept[i + 1..] == Survivors(rest);
    } else {
      assert Survivors(shapes[i..]) == [shapes[i]] + Survivors(rest);
      assert kept == shapes[..i] + ([shapes[i]] + Survivors(rest));
    }
  }

  /** One step of the backward cull at index `i`, on the map: with the
      handles of the fallen shapes after `i` already deleted, deleting the
      handle of the shape at `i` when it has fallen leaves the handles of
      all fallen shapes from `i` on deleted. */
  lemma CullStepIndex(shapes: seq<Shape>, index: map<int, Shape>, i: nat, remaining: map<int, Shape>)
    requires i < |shapes|
    requires remaining == index - FallenHandles(shapes[i + 1..])
    ensures Fallen(shapes[i]) ==> remaining - {shapes[i].colliderHandle} == index - FallenHandles(shapes[i..])
    ensures !Fallen(shapes[i]) ==> remaining == index - FallenHandles(shapes[i..])
  {
    assert shapes[i..][0] == shapes[i] && shapes[i..][1..] == shapes[i + 1..];
    FallenHandlesCons(shapes[i..]);
  }

  /** An empty registry has an empty map. */
  lemma IndexedEmpty(index: map<int, Shape>)
    requires Indexed([], index)
    ensures index == map[]
  {
    assert forall h :: h !in index;
  }

  /** Removing the fallen shapes from the sequence and their handles from
      the map keeps the two in step. */
  lemma CullKeepsIndex(shapes: seq<Shape>, index: map<int, Shape>)
    requires Distinct(shapes) && Indexed(shapes, index)
    ensures Distinct(Survivors(shapes))
    ensures Indexed(Survivors(shapes), index - FallenHandles(shapes))
  {
    SurvivorsDistinct(shapes);
    SurvivorsSound(shapes);
    SurvivorsComplete(shapes);
  }

  /** With the map and the sequence in step and no shape twice, the map has
      exactly one entry per registered shape. */
  lemma {:induction false} IndexSize(shapes: seq<Shape>, index: map<int, Shape>)
    requires Distinct(shapes) && Indexed(shapes, index)
    ensures |index| == |shapes|
  {
    if shapes == [] {
      assert forall h :: h !in index;
      assert index.Keys == {};
    } else {
      var last := shapes[|shapes| - 1];
      var rest := shapes[..|shapes| - 1];
      IndexedWithoutLast(shapes, index);
      IndexSize(rest, index - {last.colliderHandle});
      assert index.Keys == (index - {last.colliderHandle}).Keys + {last.colliderHandle};
    }
  }

  lemma IndexedWithoutLast(shapes: seq<Shape>, index: map<int, Shape>)
    requires Distinct(shapes) && Indexed(shapes, index) && shapes != []
    ensures var last := shapes[|shapes| - 1];
            && Distinct(shapes[..|shapes| - 1])
            && Indexed(shapes[..|shapes| - 1], index - {last.colliderHandle})
  {
    var last := shapes[|shapes| - 1];
    var rest := shapes[..|shapes| - 1];
    var smaller := index - {last.colliderHandle};
    forall s | s in rest
      ensures s.colliderHandle in smaller && smaller[s.colliderHandle] == s
    {
      var i :| 0 <= i < |rest| && rest[i] == s;
      assert shapes[i] == s;
    }
  }
}
