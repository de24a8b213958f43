/** Per-shape visual feedback computed every frame: the squash-and-stretch
    scale a shape is drawn with, the target it eases toward, and the cooldown
    that limits impact sounds to one every 180 ms per shape
    (js/rapier.cleaned.js, the drag and feedback sections of `gameLoop`). */
module Squish {
  import opened Vectors

  datatype Axis = X | Y | Z

  function Component(v: Vec3, axis: Axis): real {
    match axis
    case X => v.x
    case Y => v.y
    case Z => v.z
  }

  /** A scale vector that is `along` on `axis` and `across` on the other two. */
  function AxisScale(axis: Axis, along: real, across: real): (r: Vec3)
    ensures Component(r, axis) == along
    ensures forall other: Axis :: other != axis ==> Component(r, other) == across
  {
    match axis
    case X => Vec3(along, across, across)
    case Y => Vec3(across, along, across)
    case Z => Vec3(across, across, along)
  }

  /** The axis a deformation acts along, chosen from a unit direction:
      vertical when its height part exceeds one half, otherwise the larger
      of the two horizontal parts, depth on a tie. */
  function SquishAxis(dir: Vec3): Axis {
    if Abs(dir.y) > 0.5 then Y
    else if Abs(dir.x) > Abs(dir.z) then X
    else Z
  }

  /** Every component of `v` lies in [lo, hi]. */
  predicate InBox(v: Vec3, lo: real, hi: real) {
    lo <= v.x <= hi && lo <= v.y <= hi && lo <= v.z <= hi
  }

  const ImpactThreshold := 0.2
  const MaxImpactSquish := 0.6

  /** The target scale after an impact: a change of velocity `change` of
      length `mag` above the threshold squashes the shape along the axis of
      the change by up to 60 % and bulges it by half as much on the two
      other axes. The volume proxy x + y + z is kept at 3. */
  function ImpactTarget(change: Vec3, mag: real): Vec3 {
    var amount := Min(mag * 0.25, MaxImpactSquish);
    AxisScale(SquishAxis(Normalize(change, mag)), 1.0 - amount, 1.0 + amount * 0.5)
  }

  /** An impact target lies in [0.4, 1.3] on every axis, keeps the volume
      proxy at 3, and is squashed on the axis chosen from the direction of
      the change and bulged on the two others. */
  lemma ImpactTargetSpec(change: Vec3, mag: real)
    requires mag > ImpactThreshold
    ensures var r := ImpactTarget(change, mag);
            && InBox(r, 0.4, 1.3)
            && r.x + r.y + r.z == 3.0
            && var axis := SquishAxis(Normalize(change, mag));
            && Component(r, axis) < 1.0
            && forall other: Axis :: other != axis ==> Component(r, other) > 1.0
  {
  }

  const DragSquishThreshold := 0.5
  const MaxDragStretch := 0.35

  /** The target scale while a shape is dragged at velocity `tv` of length
      `speed` above the threshold: stretched along the axis of motion by up
      to 35 % and thinned by 40 % of that on the two other axes. */
  function DragTarget(tv: Vec3, speed: real): Vec3 {
    var amount := Min(speed * 0.08, MaxDragStretch);
    AxisScale(SquishAxis(Normalize(tv, speed)), 1.0 + amount, 1.0 - amount * 0.4)
  }

  /** A drag target lies in [0.86, 1.35] on every axis, stretched on the
      axis chosen from the direction of motion and thinned on the two
      others. */
  lemma DragTargetSpec(tv: Vec3, speed: real)
    requires speed > DragSquishThreshold
    ensures var r := DragTarget(tv, speed);
            && InBox(r, 0.86, 1.35)
            && var axis := SquishAxis(Normalize(tv, speed));
            && Component(r, axis) > 1.0
            && forall other: Axis :: other != axis ==> Component(r, other) < 1.0
  {
  }

  /** One frame of easing: the drawn scale moves 30 % of the way to the
      target, so its gap to the target shrinks to 70 %. */
  function SquishStep(squish: Vec3, target: Vec3): (r: Vec3)
    ensures Sub(r, target) == Scale(Sub(squish, target), 0.7)
  {
    Lerp(squish, target, 0.3)
  }

  /** One frame of recovery: the target moves 5 % of the way back to the
      rest scale (1, 1, 1), so its deviation from rest shrinks to 95 %. */
  function TargetDecay(target: Vec3): (r: Vec3)
    ensures Sub(r, One) == Scale(Sub(target, One), 0.95)
  {
    Lerp(target, One, 0.05)
  }

  /** Easing never leaves a box that contains the rest scale. */
  lemma RelaxStaysInBox(squish: Vec3, target: Vec3, lo: real, hi: real)
    requires lo <= 1.0 <= hi
    requires InBox(squish, lo, hi) && InBox(target, lo, hi)
    ensures InBox(SquishStep(squish, target), lo, hi)
    ensures InBox(TargetDecay(target), lo, hi)
  {
  }

  /** How far a shape's scales are from rest, the target weighted by 12. */
  function Deviation(squish: Vec3, target: Vec3): real {
    AxisDeviation(squish.x, target.x) + AxisDeviation(squish.y, target.y)
    + AxisDeviation(squish.z, target.z)
  }

  function AxisDeviation(s: real, t: real): real {
    Abs(s - 1.0) + 12.0 * Abs(t - 1.0)
  }

  /** One frame of easing without a new impact or drag shrinks the deviation
      from rest by at least 2.5 %. */
  lemma RelaxContracts(squish: Vec3, target: Vec3)
    ensures Deviation(SquishStep(squish, target), TargetDecay(target))
            <= 0.975 * Deviation(squish, target)
  {
    var s := SquishStep(squish, target);
    var t := TargetDecay(target);
    ComponentContracts(squish.x, target.x, s.x, t.x);
    ComponentContracts(squish.y, target.y, s.y, t.y);
    ComponentContracts(squish.z, target.z, s.z, t.z);
  }

  lemma ComponentContracts(s: real, t: real, s': real, t': real)
    requires s' - t == (s - t) * 0.7 && t' - 1.0 == (t - 1.0) * 0.95
    ensures AxisDeviation(s', t') <= 0.975 * AxisDeviation(s, t)
  {
  }

  /** `n` frames of easing with no new impact or drag. */
  function Relaxed(squish: Vec3, target: Vec3, n: nat): (Vec3, Vec3)
  {
    if n == 0 then (squish, target)
    else
      var p := Relaxed(squish, target, n - 1);
      (SquishStep(p.0, p.1), TargetDecay(p.1))
  }

  /** `d` shrunk by 2.5 % `n` times over, that is 0.975^n * d. */
  function Shrunk(d: real, n: nat): real {
    if n == 0 then d else 0.975 * Shrunk(d, n - 1)
  }

  /** Left alone, a shape returns to rest geometrically: after `n` frames its
      deviation is at most 0.975^n of the initial one. */
  lemma {:induction false} RelaxConverges(squish: Vec3, target: Vec3, n: nat)
    ensures var p := Relaxed(squish, target, n);
            Deviation(p.0, p.1) <= Shrunk(Deviation(squish, target), n)
  {
    if n > 0 {
      var p := Relaxed(squish, target, n - 1);
      RelaxConverges(squish, target, n - 1);
      RelaxContracts(p.0, p.1);
    }
  }

  const ImpactSoundThreshold := 0.35
  const ImpactSoundCooldownMs := 180.0

  /** An impact asks for a sound when it is hard enough and the shape's last
      sound is more than 180 ms old. */
  predicate SoundDue(mag: real, now: real, lastSoundTime: real) {
    mag > ImpactSoundThreshold && now - lastSoundTime > ImpactSoundCooldownMs
  }

  /** The feedback state a shape carries between frames. */
  datatype Feedback = Feedback(squish: Vec3, target: Vec3, lastVelocity: Vec3, lastSoundTime: real)

  /** One frame of feedback for a shape now moving at `vel`: `mag` is the
      length of the change since last frame. Returns the new state and
      whether an impact sound is requested. */
  function Observe(f: Feedback, vel: Vec3, mag: real, now: real): (r: (Feedback, bool))
    ensures r.0.lastVelocity == vel
    ensures r.1 <==> SoundDue(mag, now, f.lastSoundTime)
    ensures r.0.lastSoundTime == if r.1 then now else f.lastSoundTime
    ensures r.0.lastSoundTime >= f.lastSoundTime
    ensures mag <= ImpactThreshold ==> r.0.target == TargetDecay(f.target)
  {
    var target := if mag > ImpactThreshold then ImpactTarget(Sub(vel, f.lastVelocity), mag) else f.target;
    var play := SoundDue(mag, now, f.lastSoundTime);
    (Feedback(SquishStep(f.squish, target), TargetDecay(target), vel,
              if play then now else f.lastSoundTime),
     play)
  }

  /** The frame's feedback step for a shape now moving at `vel`: the
      impact magnitude is the length of its change of velocity since last
      frame, as `length` gives it. */
  function Sense(f: Feedback, vel: Vec3, now: real, length: Vec3 -> real): (Feedback, bool) {
    Observe(f, vel, length(Sub(vel, f.lastVelocity)), now)
  }

  /** Scales within [0.4, 1.35] stay there: impact and drag targets lie in
      that box, and easing does not leave it. */
  predicate ScalesBounded(f: Feedback) {
    InBox(f.squish, 0.4, 1.35) && InBox(f.target, 0.4, 1.35)
  }

  lemma ObserveKeepsBounds(f: Feedback, vel: Vec3, mag: real, now: real)
    requires ScalesBounded(f)
    ensures ScalesBounded(Observe(f, vel, mag, now).0)
  {
    if mag > ImpactThreshold {
      ImpactTargetSpec(Sub(vel, f.lastVelocity), mag);
    }
    var target := if mag > ImpactThreshold then ImpactTarget(Sub(vel, f.lastVelocity), mag) else f.target;
    RelaxStaysInBox(f.squish, target, 0.4, 1.35);
  }

  /** Of two hard impacts on one shape, the first asks for a sound and the
      second asks for one exactly when it comes more than 180 ms later: so
      100 ms apart they give one request, 200 ms apart two. */
  lemma SoundCooldown(f: Feedback, v1: Vec3, m1: real, v2: Vec3, m2: real, t: real, gap: real)
    requires IsLength(m1, Sub(v1, f.lastVelocity)) && m1 > ImpactSoundThreshold
    requires t - f.lastSoundTime > ImpactSoundCooldownMs
    requires IsLength(m2, Sub(v2, v1)) && m2 > ImpactSoundThreshold
    ensures Observe(f, v1, m1, t).1
    ensures Observe(Observe(f, v1, m1, t).0, v2, m2, t + gap).1 <==> gap > ImpactSoundCooldownMs
    ensures gap == 100.0 ==> !Observe(Observe(f, v1, m1, t).0, v2, m2, t + gap).1
    ensures gap == 200.0 ==> Observe(Observe(f, v1, m1, t).0, v2, m2, t + gap).1
  {
  }
}
