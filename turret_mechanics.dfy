/**
 * The frame-by-frame rules the three turret scripts and the cockpit view share: the barrel
 * spin with its firing latch, the fire timer, and the clamped aim target. Each script applies
 * these with its own constants; only the rule for clearing the latch differs between them.
 */
module TurretMechanics {
  import opened UnityMath

  /** What the engine reports for one frame. */
  datatype FrameInput = FrameInput(mouseX: real, mouseY: real, leftButtonHeld: bool, deltaTime: real)

  /** A mouse axis reading scaled by the sensitivity and the frame time, in degrees. */
  function MouseDelta(axis: real, sensitivity: real, deltaTime: real): real
  {
    axis * sensitivity * deltaTime
  }

  datatype SpinParams = SpinParams(maxSpinSpeed: real, spinUpSpeed: real, spinDownSpeed: real)
  {
    predicate NonNegative()
    {
      0.0 <= maxSpinSpeed && 0.0 <= spinUpSpeed && 0.0 <= spinDownSpeed
    }
  }

  /**
   * When the firing latch clears with the button up: in the same frame (the minigun
   * scripts), or only once the barrel has come to rest (the plain firing script).
   */
  datatype ReleaseRule = ClearOnRelease | ClearAtRest

  /** The barrel's spin speed and the firing latch. */
  datatype Spin = Spin(speed: real, firing: bool)

  /**
   * One spin frame. Held: speed up, and at the maximum clamp and latch firing. Released:
   * slow down, clamp at zero, and clear the latch as the rule says.
   */
  function SpinStep(p: SpinParams, rule: ReleaseRule, s: Spin, held: bool, deltaTime: real): (r: Spin)
    ensures r.firing && !s.firing ==> held && r.speed == p.maxSpinSpeed
    ensures held && s.firing ==> r.firing
    ensures held ==> r.speed <= p.maxSpinSpeed && (r.speed == p.maxSpinSpeed ==> r.firing)
    ensures !held ==> r.speed >= 0.0
    ensures !held && rule == ClearOnRelease ==> !r.firing
    ensures !held && rule == ClearAtRest ==> (r.firing <==> s.firing && r.speed > 0.0)
  {
    if held then
      var v := s.speed + p.spinUpSpeed * deltaTime;
      if v >= p.maxSpinSpeed then Spin(p.maxSpinSpeed, true) else Spin(v, s.firing)
    else
      var v := s.speed - p.spinDownSpeed * deltaTime;
      var speed := if v <= 0.0 then 0.0 else v;
      match rule
      case ClearOnRelease => Spin(speed, false)
      case ClearAtRest => if v <= 0.0 then Spin(0.0, false) else Spin(v, s.firing)
  }

  /**
   * With a non-negative frame time and rates, the speed stays in [0, max], never falls while
   * the button is held and never rises while it is up.
   */
  lemma SpinStepBounds(p: SpinParams, rule: ReleaseRule, s: Spin, held: bool, deltaTime: real)
    requires p.NonNegative() && 0.0 <= deltaTime && 0.0 <= s.speed <= p.maxSpinSpeed
    ensures 0.0 <= SpinStep(p, rule, s, held, deltaTime).speed <= p.maxSpinSpeed
    ensures held ==> SpinStep(p, rule, s, held, deltaTime).speed >= s.speed
    ensures !held ==> SpinStep(p, rule, s, held, deltaTime).speed <= s.speed
  {
    ProductNonNegative(p.spinUpSpeed, deltaTime);
    ProductNonNegative(p.spinDownSpeed, deltaTime);
  }

  /**
   * The spin invariant: the speed is in [0, max]; under the clear-on-release rule a set
   * latch means full speed, and under the clear-at-rest rule it means a turning barrel (or a
   * maximum of zero).
   */
  predicate SpinInvariant(p: SpinParams, rule: ReleaseRule, s: Spin)
  {
    0.0 <= s.speed <= p.maxSpinSpeed &&
    (s.firing && rule == ClearOnRelease ==> s.speed == p.maxSpinSpeed) &&
    (s.firing && rule == ClearAtRest ==> s.speed > 0.0 || s.speed == p.maxSpinSpeed)
  }

  lemma SpinStepKeepsInvariant(p: SpinParams, rule: ReleaseRule, s: Spin, held: bool, deltaTime: real)
    requires p.NonNegative() && 0.0 <= deltaTime && SpinInvariant(p, rule, s)
    ensures SpinInvariant(p, rule, SpinStep(p, rule, s, held, deltaTime))
  {
    SpinStepBounds(p, rule, s, held, deltaTime);
  }

  /**
   * Under the clear-on-release rule a shot only ever leaves a barrel at full speed with the
   * button held.
   */
  lemma FiresOnlyAtFullSpin(p: SpinParams, s: Spin, held: bool, timer: real, fireRate: real, deltaTime: real)
    requires p.NonNegative() && 0.0 <= deltaTime && SpinInvariant(p, ClearOnRelease, s)
    ensures var next := SpinStep(p, ClearOnRelease, s, held, deltaTime);
      FireStep(next.firing, timer, fireRate, deltaTime).fired ==> next.speed == p.maxSpinSpeed && held
  {
    SpinStepKeepsInvariant(p, ClearOnRelease, s, held, deltaTime);
  }

  /**
   * Under the clear-at-rest rule the latch outlives the button: releasing a barrel at full
   * speed that does not stop within the frame keeps it firing while it slows down.
   */
  lemma FiringOutlivesRelease(p: SpinParams, deltaTime: real)
    requires 0.0 < p.spinDownSpeed * deltaTime < p.maxSpinSpeed
    ensures var next := SpinStep(p, ClearAtRest, Spin(p.maxSpinSpeed, true), false, deltaTime);
      next.firing && 0.0 < next.speed < p.maxSpinSpeed
  {
  }

  /** The result of one firing frame: whether a shot left, and the new timer. */
  datatype FireResult = FireResult(fired: bool, timer: real)

  /**
   * One firing frame. Not firing: nothing. Firing: shoot when the timer has run out and
   * restart it at the fire rate; either way the frame time is taken off.
   */
  function FireStep(firing: bool, timer: real, fireRate: real, deltaTime: real): (r: FireResult)
    ensures !firing ==> r == FireResult(false, timer)
    ensures firing ==> (r.fired <==> timer <= 0.0)
    ensures firing && r.fired ==> r.timer == fireRate - deltaTime
    ensures firing && !r.fired ==> r.timer == timer - deltaTime
  {
    if !firing then FireResult(false, timer)
    else if timer <= 0.0 then FireResult(true, fireRate - deltaTime)
    else FireResult(false, timer - deltaTime)
  }

  function Sum(s: seq<real>): real
  {
    if s == [] then 0.0 else s[0] + Sum(s[1..])
  }

  /** Frames with the latch set throughout: the shots fired and the timer left. */
  function FireRun(timer: real, fireRate: real, frames: seq<real>): (r: (nat, real))
    decreases |frames|
  {
    if frames == [] then (0, timer)
    else
      var step := FireStep(true, timer, fireRate, frames[0]);
      var rest := FireRun(step.timer, fireRate, frames[1..]);
      (rest.0 + (if step.fired then 1 else 0), rest.1)
  }

  /**
   * The fire rate is a rate limit: over any run of firing frames, the shots times the fire
   * rate never exceed the time elapsed plus the timer's fall from start to end.
   */
  lemma {:induction false} FireRunRateLimit(timer: real, fireRate: real, frames: seq<real>)
    ensures var r := FireRun(timer, fireRate, frames);
      (r.0 as real) * fireRate + timer <= Sum(frames) + r.1
    decreases |frames|
  {
    if frames != [] {
      var step := FireStep(true, timer, fireRate, frames[0]);
      var rest := FireRun(step.timer, fireRate, frames[1..]);
      FireRunRateLimit(step.timer, fireRate, frames[1..]);
      if step.fired {
        assert ((rest.0 + 1) as real) * fireRate == (rest.0 as real) * fireRate + fireRate;
      }
    }
  }

  /** Starting from a spent timer, a run fires at most once per fire rate of elapsed time, plus one. */
  lemma FireRunFromRest(fireRate: real, frames: seq<real>)
    requires fireRate > 0.0
    requires forall i :: 0 <= i < |frames| ==> frames[i] >= 0.0
    ensures (FireRun(0.0, fireRate, frames).0 as real) * fireRate <= Sum(frames) + fireRate
  {
    FireRunRateLimit(0.0, fireRate, frames);
    FireRunTimerBound(0.0, fireRate, frames);
  }

  /** With non-negative frame times the timer never rises above the larger of its start and the fire rate. */
  lemma {:induction false} FireRunTimerBound(timer: real, fireRate: real, frames: seq<real>)
    requires forall i :: 0 <= i < |frames| ==> frames[i] >= 0.0
    ensures FireRun(timer, fireRate, frames).1 <= if timer > fireRate then timer else fireRate
    decreases |frames|
  {
    if frames != [] {
      var step := FireStep(true, timer, fireRate, frames[0]);
      assert forall i :: 0 <= i < |frames[1..]| ==> frames[1..][i] == frames[i + 1];
      FireRunTimerBound(step.timer, fireRate, frames[1..]);
    }
  }

  /**
   * The new aim target: the horizontal mouse delta turns the yaw (y), the vertical one the
   * pitch (x), and each is clamped to its range. The result always lies in a non-empty box,
   * and a target that stays inside the box without clamping moves by exactly the deltas.
   */
  function AimTarget(target: Vec2, yawDelta: real, pitchDelta: real, limits: Box): (r: Vec2)
    ensures limits.NonEmpty() ==> limits.Contains(r)
    ensures limits.Contains(Vec2(target.x + pitchDelta, target.y + yawDelta)) ==>
      r == Vec2(target.x + pitchDelta, target.y + yawDelta)
  {
    Vec2(Clamp(target.x + pitchDelta, limits.minX, limits.maxX),
         Clamp(target.y + yawDelta, limits.minY, limits.maxY))
  }

  /**
   * One aiming frame: the target moves by the scaled mouse deltas within the limits, and the
   * current rotation eases toward the new target by the smoothing factor times the frame time.
   */
  function Aim(current: Vec2, target: Vec2, input: FrameInput, sensitivity: real, aimSmoothing: real, limits: Box): (r: (Vec2, Vec2))
    ensures limits.NonEmpty() ==> limits.Contains(r.0)
    ensures limits.Contains(current) && limits.NonEmpty() ==> limits.Contains(r.1)
  {
    var newTarget := AimTarget(target, MouseDelta(input.mouseX, sensitivity, input.deltaTime),
                               MouseDelta(input.mouseY, sensitivity, input.deltaTime), limits);
    if limits.Contains(current) && limits.NonEmpty() then
      LerpStaysInBox(limits, current, newTarget, aimSmoothing * input.deltaTime);
      (newTarget, LerpVec(current, newTarget, aimSmoothing * input.deltaTime))
    else
      (newTarget, LerpVec(current, newTarget, aimSmoothing * input.deltaTime))
  }
}
