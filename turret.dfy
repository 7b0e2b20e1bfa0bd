/**
 * The stealth bomber's minigun (the TurretController script): while the game is in the
 * minigun view, each frame turns the aim toward the mouse, spins the barrel up or down, and
 * fires pooled bullets at the fire rate once the barrel is at full speed.
 */
module Turret {
  import opened UnityMath
  import opened Results
  import opened GameStates
  import opened TurretMechanics
  import opened Combat

  const MaxSpinSpeed: real := 2000.0
  const SpinUpSpeed: real := 3000.0
  const SpinDownSpeed: real := 1000.0
  const FireRate: real := 0.01
  const Params: SpinParams := SpinParams(MaxSpinSpeed, SpinUpSpeed, SpinDownSpeed)

  /** Pitch (x) in [-10, 20] degrees, yaw (y) in [-50, 50] degrees. */
  const AimLimits: Box := Box(-10.0, 20.0, -50.0, 50.0)

  class TurretController {
    var sensitivity: real
    var aimSmoothing: real
    var currentRotation: Vec2
    var targetRotation: Vec2
    var currentSpinSpeed: real
    var fireTimer: real
    var isFiring: bool

    /** The barrel speed stays in range, a set latch means full speed, and both rotations stay within the limits. */
    ghost predicate Valid()
      reads this
    {
      SpinInvariant(Params, ClearOnRelease, Spin(currentSpinSpeed, isFiring)) &&
      AimLimits.Contains(targetRotation) && AimLimits.Contains(currentRotation)
    }

    constructor ()
      ensures sensitivity == 100.0 && aimSmoothing == 10.0
      ensures currentRotation == Vec2(0.0, 0.0) && targetRotation == Vec2(0.0, 0.0)
      ensures currentSpinSpeed == 0.0 && fireTimer == 0.0 && !isFiring
      ensures Valid()
    {
      sensitivity := 100.0;
      aimSmoothing := 10.0;
      currentRotation := Vec2(0.0, 0.0);
      targetRotation := Vec2(0.0, 0.0);
      currentSpinSpeed := 0.0;
      fireTimer := 0.0;
      isFiring := false;
    }

    /** Start: the rotation reset of OnEnable (cursor and audio set-up are not modelled). */
    method Start()
      modifies this
      ensures currentRotation == Vec2(0.0, 0.0) && targetRotation == Vec2(0.0, 0.0)
      ensures currentSpinSpeed == old(currentSpinSpeed) && isFiring == old(isFiring)
      ensures fireTimer == old(fireTimer)
      ensures sensitivity == old(sensitivity) && aimSmoothing == old(aimSmoothing)
      ensures old(Valid()) ==> Valid()
    {
      OnEnable();
    }

    /** Each enable points the gun straight ahead again. */
    method OnEnable()
      modifies this
      ensures currentRotation == Vec2(0.0, 0.0) && targetRotation == Vec2(0.0, 0.0)
      ensures currentSpinSpeed == old(currentSpinSpeed) && isFiring == old(isFiring)
      ensures fireTimer == old(fireTimer)
      ensures sensitivity == old(sensitivity) && aimSmoothing == old(aimSmoothing)
      ensures old(Valid()) ==> Valid()
    {
      targetRotation := Vec2(0.0, 0.0);
      currentRotation := targetRotation;
    }

    /**
     * One frame: nothing at all unless the game is in the minigun view; otherwise aim, spin
     * and fire. A shot always comes from a barrel at full speed with the button held.
     */
    method Update(state: GameState, input: FrameInput, pool: BulletPool) returns (fired: bool, body: Option<Rigidbody>)
      modifies this, pool, pool.bullets
      ensures sensitivity == old(sensitivity) && aimSmoothing == old(aimSmoothing)
      ensures state != Minigun ==>
        !fired && body == None && unchanged(this) && unchanged(pool) && unchanged(pool.bullets)
      ensures state == Minigun ==>
        (targetRotation, currentRotation) == Aim(old(currentRotation), old(targetRotation), input, sensitivity, aimSmoothing, AimLimits)
      ensures state == Minigun ==>
        Spin(currentSpinSpeed, isFiring) ==
          SpinStep(Params, ClearOnRelease, Spin(old(currentSpinSpeed), old(isFiring)), input.leftButtonHeld, input.deltaTime)
      ensures state == Minigun ==> fired == FireStep(isFiring, old(fireTimer), FireRate, input.deltaTime).fired
      ensures state == Minigun && (!fired || body.Some?) ==>
        fireTimer == FireStep(isFiring, old(fireTimer), FireRate, input.deltaTime).timer
      ensures fired && body == None ==> fireTimer == old(fireTimer) && fireTimer <= 0.0
      ensures old(Valid()) && 0.0 <= input.deltaTime ==> Valid()
      ensures old(Valid()) && 0.0 <= input.deltaTime && fired ==> currentSpinSpeed == MaxSpinSpeed && input.leftButtonHeld
      ensures !fired ==> body == None && unchanged(pool) && unchanged(pool.bullets)
      ensures fired ==> pool.bullets == if |old(pool.bullets)| > 0 then old(pool.bullets)[1..] else []
      ensures pool.rigidbodies == old(pool.rigidbodies)
      ensures fired && |old(pool.bullets)| == 0 ==> body == None
      ensures fired && |old(pool.bullets)| > 0 && old(pool.Registered()) ==> body.Some?
      ensures old(pool.Valid()) ==> pool.Valid()
    {
      fired, body := false, None;
      if state != Minigun {
        return;
      }
      ghost var s0 := Spin(currentSpinSpeed, isFiring);
      AimTurret(input);
      HandleSpin(input.leftButtonHeld, input.deltaTime);
      fired, body := HandleFiring(input.deltaTime, pool);
      if old(Valid()) && 0.0 <= input.deltaTime {
        FiresOnlyAtFullSpin(Params, s0, input.leftButtonHeld, old(fireTimer), FireRate, input.deltaTime);
      }
    }

    /** The target follows the scaled mouse deltas within the limits; the gun eases toward it. */
    method AimTurret(input: FrameInput)
      modifies this
      ensures currentSpinSpeed == old(currentSpinSpeed) && isFiring == old(isFiring)
      ensures fireTimer == old(fireTimer)
      ensures sensitivity == old(sensitivity) && aimSmoothing == old(aimSmoothing)
      ensures (targetRotation, currentRotation) == Aim(old(currentRotation), old(targetRotation), input, sensitivity, aimSmoothing, AimLimits)
      ensures old(Valid()) ==> Valid()
    {
      var aimed := Aim(currentRotation, targetRotation, input, sensitivity, aimSmoothing, AimLimits);
      targetRotation, currentRotation := aimed.0, aimed.1;
    }

    /** The barrel spin and the firing latch advance by one spin step. */
    method HandleSpin(held: bool, deltaTime: real)
      modifies this
      ensures Spin(currentSpinSpeed, isFiring) ==
        SpinStep(Params, ClearOnRelease, Spin(old(currentSpinSpeed), old(isFiring)), held, deltaTime)
      ensures currentRotation == old(currentRotation) && targetRotation == old(targetRotation)
      ensures fireTimer == old(fireTimer)
      ensures sensitivity == old(sensitivity) && aimSmoothing == old(aimSmoothing)
      ensures old(Valid()) && 0.0 <= deltaTime ==> Valid()
    {
      if Valid() && 0.0 <= deltaTime {
        SpinStepKeepsInvariant(Params, ClearOnRelease, Spin(currentSpinSpeed, isFiring), held, deltaTime);
      }
      if held {
        currentSpinSpeed := currentSpinSpeed + SpinUpSpeed * deltaTime;
        if currentSpinSpeed >= MaxSpinSpeed {
          currentSpinSpeed := MaxSpinSpeed;
          isFiring := true;
        }
      } else {
        currentSpinSpeed := currentSpinSpeed - SpinDownSpeed * deltaTime;
        if currentSpinSpeed <= 0.0 {
          currentSpinSpeed := 0.0;
        }
        isFiring := false;
      }
    }

    /**
     * With the latch set, fire when the timer has run out and restart it; take the frame
     * time off. A shot launches the next pooled bullet, whose body lookup fails (None) when
     * the queue was empty. That failure is a thrown exception, which ends the frame before
     * the timer is restarted or decremented: the timer stays spent and the next frame shoots
     * again.
     */
    method HandleFiring(deltaTime: real, pool: BulletPool) returns (fired: bool, body: Option<Rigidbody>)
      modifies this, pool, pool.bullets
      ensures fired == FireStep(isFiring, old(fireTimer), FireRate, deltaTime).fired
      ensures !fired || body.Some? ==> fireTimer == FireStep(isFiring, old(fireTimer), FireRate, deltaTime).timer
      ensures fired && body == None ==> fireTimer == old(fireTimer) && fireTimer <= 0.0
      ensures isFiring == old(isFiring) && currentSpinSpeed == old(currentSpinSpeed)
      ensures currentRotation == old(currentRotation) && targetRotation == old(targetRotation)
      ensures sensitivity == old(sensitivity) && aimSmoothing == old(aimSmoothing)
      ensures !fired ==> body == None && unchanged(pool) && unchanged(pool.bullets)
      ensures fired ==> pool.bullets == if |old(pool.bullets)| > 0 then old(pool.bullets)[1..] else []
      ensures pool.rigidbodies == old(pool.rigidbodies)
      ensures fired && |old(pool.bullets)| == 0 ==> body == None
      ensures fired && |old(pool.bullets)| > 0 && old(pool.Registered()) ==> body.Some?
      ensures old(pool.Valid()) ==> pool.Valid()
    {
      fired, body := false, None;
      if !isFiring {
        return;
      }
      if fireTimer <= 0.0 {
        var _, launched := Launch(pool);
        fired, body := true, launched;
        if launched.None? {
          return;
        }
        fireTimer := FireRate;
      }
      fireTimer := fireTimer - deltaTime;
    }
  }
}
