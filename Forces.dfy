/** Impulses applied to rigid bodies (js/rapier.cleaned.js: the gravity-gun
    section of `gameLoop` and the reset blast). An impulse changes a body's
    velocity by impulse / mass; the physics engine itself is not part of
    this model. */
module Forces {
  import opened Vectors

  /** A rigid body's mass: always positive. */
  type Mass = m: real | m > 0.0 witness 1.0

  function ApplyImpulse(vel: Vec3, impulse: Vec3, mass: Mass): Vec3 {
    Add(vel, Scale(impulse, 1.0 / mass))
  }

  /** The impulse that changes `vel` into `target`: the velocity difference
      times the mass. */
  function VelocityChangeImpulse(target: Vec3, vel: Vec3, mass: Mass): (r: Vec3)
    ensures ApplyImpulse(vel, r, mass) == target
  {
    MulThenDiv(target.x - vel.x, mass);
    MulThenDiv(target.y - vel.y, mass);
    MulThenDiv(target.z - vel.z, mass);
    Scale(Sub(target, vel), mass)
  }

  lemma MulThenDiv(a: real, m: real)
    requires m > 0.0
    ensures (a * m) * (1.0 / m) == a
  {
  }

  const BlastStrength := 35.0
  const UpwardBoost := 12.0

  /** The direction a shape at `pos` is blasted in by a reset: its position
      nudged up by 0.6 and sideways by up to 0.3 according to two random
      numbers `jx`, `jz` in [0, 1). */
  function BlastDirection(pos: Vec3, jx: real, jz: real): Vec3 {
    Add(pos, Vec3((jx - 0.5) * 0.6, 0.6, (jz - 0.5) * 0.6))
  }

  /** The velocity of a body of mass `mass` at `pos`, moving at `vel`, once
      the reset blast with random numbers `jx`, `jz` has hit it; `length`
      gives the length of the blast direction. */
  function Blasted(vel: Vec3, pos: Vec3, jx: real, jz: real, mass: Mass, length: Vec3 -> real): Vec3 {
    var dir := BlastDirection(pos, jx, jz);
    ApplyImpulse(vel, BlastImpulse(dir, length(dir)), mass)
  }

  /** The reset impulse for blast direction `dir` of length `len`: the push
      plus an upward boost of 12. */
  function BlastImpulse(dir: Vec3, len: real): Vec3 {
    var push := BlastPush(dir, len);
    Vec3(push.x, push.y + UpwardBoost, push.z)
  }

  /** The push part of the reset impulse: `dir` normalised (or straight up
      when it is too short to normalise safely) times the blast strength. */
  function BlastPush(dir: Vec3, len: real): Vec3 {
    var tooShort := LenSq(dir) < 0.001;
    var d := if tooShort then Vec3(0.0, 1.0, 0.0) else dir;
    var l := if tooShort then 1.0 else len;
    Scale(Normalize(d, l), BlastStrength)
  }

  /** The push has strength exactly 35, along `dir` when `dir` is long
      enough and straight up otherwise. */
  lemma BlastPushSpec(dir: Vec3, len: real)
    requires IsLength(len, dir)
    ensures IsLength(BlastStrength, BlastPush(dir, len))
    ensures LenSq(dir) >= 0.001 ==> BlastPush(dir, len) == Scale(dir, BlastStrength / len)
    ensures LenSq(dir) < 0.001 ==> BlastPush(dir, len) == Vec3(0.0, BlastStrength, 0.0)
  {
    if LenSq(dir) < 0.001 {
      BlastPushUpward(dir, len);
      UpwardStrength();
    } else {
      BlastPushAlong(dir, len);
    }
  }

  lemma BlastPushAlong(dir: Vec3, len: real)
    requires IsLength(len, dir) && LenSq(dir) >= 0.001
    ensures BlastPush(dir, len) == Scale(dir, BlastStrength / len)
    ensures IsLength(BlastStrength, Scale(dir, BlastStrength / len))
  {
    PositiveLength(dir, len);
    NormalizedPush(dir, len);
  }

  lemma UpwardStrength()
    ensures IsLength(BlastStrength, Vec3(0.0, BlastStrength, 0.0))
  {
  }

  /** Take away the upward boost of 12 and what is left is a push of
      strength exactly 35, along `dir` or, for a too-short `dir`, straight
      up (47 upward in all). */
  lemma BlastImpulseSpec(dir: Vec3, len: real)
    requires IsLength(len, dir)
    ensures IsLength(BlastStrength, Sub(BlastImpulse(dir, len), Vec3(0.0, UpwardBoost, 0.0)))
    ensures LenSq(dir) >= 0.001 ==>
              Sub(BlastImpulse(dir, len), Vec3(0.0, UpwardBoost, 0.0)) == Scale(dir, BlastStrength / len)
    ensures LenSq(dir) < 0.001 ==> BlastImpulse(dir, len) == Vec3(0.0, BlastStrength + UpwardBoost, 0.0)
  {
    if LenSq(dir) < 0.001 {
      BlastUpward(dir, len);
      UpwardStrength();
    } else {
      BlastImpulseAlong(dir, len);
    }
  }

  lemma BlastImpulseAlong(dir: Vec3, len: real)
    requires IsLength(len, dir) && LenSq(dir) >= 0.001
    ensures Sub(BlastImpulse(dir, len), Vec3(0.0, UpwardBoost, 0.0)) == Scale(dir, BlastStrength / len)
    ensures IsLength(BlastStrength, Scale(dir, BlastStrength / len))
  {
    BlastPushAlong(dir, len);
    BoostRemoved(BlastPush(dir, len));
  }

  /** A too-short direction is blasted straight up, whatever its length. */
  lemma BlastUpward(dir: Vec3, len: real)
    requires LenSq(dir) < 0.001
    ensures BlastImpulse(dir, len) == Vec3(0.0, BlastStrength + UpwardBoost, 0.0)
    ensures Sub(BlastImpulse(dir, len), Vec3(0.0, UpwardBoost, 0.0)) == Vec3(0.0, BlastStrength, 0.0)
  {
    BlastPushUpward(dir, len);
    BoostRemoved(BlastPush(dir, len));
  }

  lemma BlastPushUpward(dir: Vec3, len: real)
    requires LenSq(dir) < 0.001
    ensures BlastPush(dir, len) == Vec3(0.0, BlastStrength, 0.0)
  {
    assert Normalize(Vec3(0.0, 1.0, 0.0), 1.0) == Vec3(0.0, 1.0, 0.0);
  }

  lemma BoostRemoved(p: Vec3)
    ensures Sub(Add(p, Vec3(0.0, UpwardBoost, 0.0)), Vec3(0.0, UpwardBoost, 0.0)) == p
  {
  }

  lemma PositiveLength(v: Vec3, len: real)
    requires IsLength(len, v) && LenSq(v) > 0.0
    ensures len > 0.0
  {
  }

  lemma NormalizedPush(d: Vec3, l: real)
    requires IsLength(l, d) && l > 0.0
    ensures Scale(Normalize(d, l), BlastStrength) == Scale(d, BlastStrength / l)
    ensures IsLength(BlastStrength, Scale(d, BlastStrength / l))
  {
    ClampScaled(d, l, BlastStrength);
  }
}
