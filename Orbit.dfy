/** The gravity gun's geometry (js/rapier.cleaned.js: the engage loops of
    `onMouseDown`/`onTouchStart` and the gravity-gun section of `gameLoop`):
    which shapes are in range of the anchor, the way they circle it, the
    point each one is pulled toward and the velocity it is given. Sine,
    cosine and pi are not computable in Dafny and come in as a `Trig`
    value. */
module Orbit {
  import opened Vectors

  /** Stand-ins for Math.sin, Math.cos and Math.PI. */
  datatype Trig = Trig(sin: real -> real, cos: real -> real, pi: real)

  const GravityGunRange := 4.5
  const OrbitRadius := 1.35
  const OrbitSpeed := 0.28
  const HeightOscillation := 0.25
  const BaseLift := 1.6
  const ShapeRadius := 0.55
  const TiltDegrees := 8.0
  /** The lowest an orbit target may be: a shape's radius plus 0.25. */
  const OrbitFloor := ShapeRadius + 0.25
  const PullGain := 4.2
  const MaxPullSpeed := 12.0

  /** A shape at `pos` is within the gun's reach when its horizontal
      distance from the anchor is at most the range; height does not count. */
  predicate InOrbitRange(pos: Vec3, anchor: Vec3) {
    var dx := pos.x - anchor.x;
    var dz := pos.z - anchor.z;
    dx * dx + dz * dz <= GravityGunRange * GravityGunRange
  }

  /** Height alone never moves a shape in or out of range. */
  lemma RangeIgnoresHeight(pos: Vec3, anchor: Vec3, h: real)
    ensures InOrbitRange(Vec3(pos.x, h, pos.z), anchor) == InOrbitRange(pos, anchor)
  {
  }

  /** The circling sense of the `i`-th registered shape when the gun
      engages: shapes go in groups of three, alternately anticlockwise (+1)
      and clockwise (-1). */
  function OrbitDirection(i: nat): (d: int)
    ensures d == 1 || d == -1
  {
    if (i / 3) % 2 == 0 then 1 else -1
  }

  /** The next group of three turns the other way. */
  lemma OrbitDirectionAlternates(i: nat)
    ensures OrbitDirection(i + 3) == -OrbitDirection(i)
  {
    assert (i + 3) / 3 == i / 3 + 1;
  }

  /** The three shapes of a group share their sense. */
  lemma OrbitDirectionGroups(g: nat, j: nat)
    requires j < 3
    ensures OrbitDirection(3 * g + j) == OrbitDirection(3 * g)
  {
    assert (3 * g + j) / 3 == g;
    assert (3 * g) / 3 == g;
  }

  /** `shape.orbitDirection || 1`: a shape the gun never engaged (direction
      still 0) circles anticlockwise. */
  function EffectiveDirection(d: int): (r: int)
    ensures r != 0
    ensures d != 0 ==> r == d
  {
    if d == 0 then 1 else d
  }

  /** The angle of a shape on its circle `time` seconds after the gun
      engaged: 0.28 turns per second in its own sense, from its phase. */
  function OrbitAngle(time: real, direction: int, phase: real, trig: Trig): real {
    time * OrbitSpeed * trig.pi * 2.0 * direction as real + phase
  }

  /** The height the target bobs at before the floor is applied. */
  function RawOrbitHeight(anchor: Vec3, time: real, angle: real, trig: Trig): real {
    var tilt := TiltDegrees * trig.pi / 180.0;
    anchor.y + BaseLift + OrbitRadius * trig.sin(tilt) + trig.sin(time * 2.0 + angle) * HeightOscillation
  }

  /** The point a shape is pulled toward: on a circle of radius 1.35 tilted
      by 8 degrees around the anchor, bobbing up and down, and never below
      the floor. Its height is the least value that is at least both the
      floor and the raw bobbing height. */
  function OrbitTarget(anchor: Vec3, time: real, angle: real, trig: Trig): (t: Vec3)
    ensures t.y >= OrbitFloor && t.y >= RawOrbitHeight(anchor, time, angle, trig)
    ensures t.y == OrbitFloor || t.y == RawOrbitHeight(anchor, time, angle, trig)
  {
    var tilt := TiltDegrees * trig.pi / 180.0;
    var projected := OrbitRadius * trig.cos(tilt);
    Vec3(anchor.x + trig.cos(angle) * projected,
         Max(OrbitFloor, RawOrbitHeight(anchor, time, angle, trig)),
         anchor.z + trig.sin(angle) * projected)
  }

  /** The orbit target of a shape with phase `phase` and stored sense
      `direction`, `time` seconds after the gun engaged at `anchor`. */
  function GunTarget(anchor: Vec3, time: real, phase: real, direction: int, trig: Trig): Vec3 {
    OrbitTarget(anchor, time, OrbitAngle(time, EffectiveDirection(direction), phase, trig), trig)
  }

  /** 4.2 times the offset from `pos` to `target`. */
  function PullOffset(pos: Vec3, target: Vec3): Vec3 {
    Scale(Sub(target, pos), PullGain)
  }

  /** The velocity a shape at `pos` is steered to: 4.2 times its offset from
      the target, whose length is `len`, clamped to length 12. */
  function PullVelocity(pos: Vec3, target: Vec3, len: real): Vec3 {
    ClampLength(PullOffset(pos, target), len, MaxPullSpeed)
  }

  /** The pull never exceeds speed 12, and below that it is exactly 4.2
      times the offset. */
  lemma PullVelocitySpec(pos: Vec3, target: Vec3, len: real)
    requires IsLength(len, PullOffset(pos, target))
    ensures IsLength(Min(len, MaxPullSpeed), PullVelocity(pos, target, len))
    ensures LenSq(PullVelocity(pos, target, len)) <= MaxPullSpeed * MaxPullSpeed
    ensures 0.0 < len <= MaxPullSpeed ==> PullVelocity(pos, target, len) == PullOffset(pos, target)
  {
    ClampLengthSpec(PullOffset(pos, target), len, MaxPullSpeed);
    LengthBound(PullVelocity(pos, target, len), Min(len, MaxPullSpeed), MaxPullSpeed);
  }

  /** The velocity the engaged gun gives a shape at `pos` with phase
      `phase` and stored sense `direction`, `time` seconds after it engaged
      at `anchor`; `length` gives the length of the pull offset. */
  function GunVelocity(pos: Vec3, anchor: Vec3, time: real, phase: real, direction: int,
                       trig: Trig, length: Vec3 -> real): Vec3 {
    var target := GunTarget(anchor, time, phase, direction, trig);
    PullVelocity(pos, target, length(PullOffset(pos, target)))
  }

  /** Whatever the orbit target, the gun never moves a shape faster than 12. */
  lemma GunVelocityBounded(pos: Vec3, anchor: Vec3, time: real, phase: real, direction: int,
                           trig: Trig, length: Vec3 -> real)
    requires var offset := PullOffset(pos, GunTarget(anchor, time, phase, direction, trig));
             IsLength(length(offset), offset)
    ensures LenSq(GunVelocity(pos, anchor, time, phase, direction, trig, length)) <= MaxPullSpeed * MaxPullSpeed
  {
    var target := GunTarget(anchor, time, phase, direction, trig);
    PullVelocitySpec(pos, target, length(PullOffset(pos, target)));
  }

  /** The spin a shape in orbit is given. */
  function OrbitSpin(direction: int): Vec3 {
    Vec3(1.2, 1.6 * direction as real, 1.1)
  }
}
