/**
 * The second minigun script (TurretAimController): the same frame as the TurretController,
 * with its rates as adjustable fields rather than constants, and a shot that takes the
 * bullet's own rigidbody instead of looking it up in the pool's table.
 */
module TurretAim {
  import opened UnityMath
  import opened Results
  import opened GameStates
  import opened TurretMechanics
  import opened Combat

  /** Pitch (x) in [-10, 20] degrees, yaw (y) in [-50, 50] degrees. */
  const AimLimits: Box := Box(-10.0, 20.0, -50.0, 50.0)

  class TurretAimController {
    var maxSpinSpeed: real
    var spinUpSpeed: real
    var spinDownSpeed: real
    var fireRate: real
    var sensitivity: real
    var aimSmoothing: real
    var currentSpinSpeed: real
    var isFiring: bool
    var currentRotation: Vec2
    var targetRotation: Vec2
    var fireTimer: real

    function Params(): SpinParams
      reads this
    {
      SpinParams(maxSpinSpeed, spinUpSpeed, spinDownSpeed)
    }

    /**
     * The rates are non-negative, the barrel speed stays in range, a set latch means full
     * speed, and both rotations stay within the limits.
     */
    ghost predicate Valid()
      reads this
    {
      Params().NonNegative() &&
      SpinInvariant(Params(), ClearOnRelease, Spin(currentSpinSpeed, isFiring)) &&
      AimLimits.Contains(targetRotation) && AimLimits.Contains(currentRotation)
    }

    constructor ()
      ensures Params() == SpinParams(2000.0, 1200.0, 1000.0) && fireRate == 0.01
      ensures sensitivity == 100.0 && aimSmoothing == 10.0
      ensures currentRotation == Vec2(0.0, 0.0) && targetRotation == Vec2(0.0, 0.0)
      ensures currentSpinSpeed == 0.0 && fireTimer == 0.0 && !isFiring
      ensures Valid()
    {
      maxSpinSpeed, spinUpSpeed, spinDownSpeed := 2000.0, 1200.0, 1000.0;
      fireRate := 0.01;
      sensitivity := 100.0;
      aimSmoothing := 10.0;
      currentSpinSpeed := 0.0;
      isFiring := false;
      currentRotation := Vec2(0.0, 0.0);
      targetRotation := Vec2(0.0, 0.0);
      fireTimer := 0.0;
    }

    /** Start: the rotation reset of OnEnable (cursor and audio set-up are not modelled). */
    method Start()
      modifies this
      ensures currentRotation == Vec2(0.0, 0.0) && targetRotation == Vec2(0.0, 0.0)
      ensures Params() == old(Params()) && fireRate == old(fireRate)
      ensures sensitivity == old(sensitivity) && aimSmoothing == old(aimSmoothing)
      ensures currentSpinSpeed == old(currentSpinSpeed) && isFiring == old(isFiring)
      ensures fireTimer == old(fireTimer)
      ensures old(Valid()) ==> Valid()
    {
      OnEnable();
    }

    /** Each enable points the gun straight ahead again. */
    method OnEnable()
      modifies this
      ensures currentRotation == Vec2(0.0, 0.0) && targetRotation == Vec2(0.0, 0.0)
      ensures Params() == old(Params()) && fireRate == old(fireRate)
      ensures sensitivity == old(sensitivity) && aimSmoothing == old(aimSmoothing)
      ensures currentSpinSpeed == old(currentSpinSpeed) && isFiring == old(isFiring)
      ensures fireTimer == old(fireTimer)
      ensures old(Valid()) ==> Valid()
    {
      targetRotation := Vec2(0.0, 0.0);
      currentRotation := targetRotation;
    }

    /**
     * One frame: nothing at all unless the game is in the minigun view; otherwise aim, spin
     * and fire. A shot always comes from a barrel at full speed with the button held, and
     * always has a body to launch.
     */
    method Update(state: GameState, input: FrameInput, pool: BulletPool) returns (fired: bool, body: Option<Rigidbody>)
      modifies this, pool, pool.bullets
      ensures Params() == old(Params()) && fireRate == old(fireRate)
      ensures sensitivity == old(sensitivity) && aimSmoothing == old(aimSmoothing)
      ensures state != Minigun ==>
        !fired && body == None && unchanged(this) && unchanged(pool) && unchanged(pool.bullets)
      ensures state == Minigun ==>
        (targetRotation, currentRotation) == Aim(old(currentRotation), old(targetRotation), input, sensitivity, aimSmoothing, AimLimits)
      ensures state == Minigun ==>
        Spin(currentSpinSpeed, isFiring) ==
          SpinStep(Params(), ClearOnRelease, Spin(old(currentSpinSpeed), old(isFiring)), input.leftButtonHeld, input.deltaTime)
      ensures state == Minigun ==> FireStep(isFiring, old(fireTimer), fireRate, input.deltaTime) == FireResult(fired, fireTimer)
      ensures old(Valid()) && 0.0 <= input.deltaTime ==> Valid()
      ensures old(Valid()) && 0.0 <= input.deltaTime && fired ==> currentSpinSpeed == maxSpinSpeed && input.leftButtonHeld
      ensures fired <==> body.Some?
      ensures !fired ==> unchanged(pool) && unchanged(pool.bullets)
      ensures fired ==> pool.bullets == if |old(pool.bullets)| > 0 then old(pool.bullets)[1..] else []
      ensures pool.rigidbodies == old(pool.rigidbodies)
      ensures old(pool.Valid()) ==> pool.Valid()
    {
      fired, body := false, None;
      if state != Minigun {
        return;
      }
      ghost var s0 := Spin(currentSpinSpeed, isFiring);
      AimTurret(input);
      HandleSpin(input.leftButtonHeld, input.deltaTime);
      fired, body := HandleFiring(input.deltaTime, pool);
      if old(Valid()) && 0.0 <= input.deltaTime {
        FiresOnlyAtFullSpin(Params(), s0, input.leftButtonHeld, old(fireTimer), fireRate, input.deltaTime);
      }
    }

    /** The target follows the scaled mouse deltas within the limits; the gun eases toward it. */
    method AimTurret(input: FrameInput)
      modifies this
      ensures Params() == old(Params()) && fireRate == old(fireRate)
      ensures sensitivity == old(sensitivity) && aimSmoothing == old(aimSmoothing)
      ensures currentSpinSpeed == old(currentSpinSpeed) && isFiring == old(isFiring)
      ensures fireTimer == old(fireTimer)
      ensures (targetRotation, currentRotation) == Aim(old(currentRotation), old(targetRotation), input, sensitivity, aimSmoothing, AimLimits)
      ensures old(Valid()) ==> Valid()
    {
      var aimed := Aim(currentRotation, targetRotation, input, sensitivity, aimSmoothing, AimLimits);
      targetRotation, currentRotation := aimed.0, aimed.1;
    }

    /** The barrel spin and the firing latch advance by one spin step with this object's rates. */
    method HandleSpin(held: bool, deltaTime: real)
      modifies this
      ensures Params() == old(Params()) && fireRate == old(fireRate)
      ensures sensitivity == old(sensitivity) && aimSmoothing == old(aimSmoothing)
      ensures currentRotation == old(currentRotation) && targetRotation == old(targetRotation)
      ensures fireTimer == old(fireTimer)
      ensures Spin(currentSpinSpeed, isFiring) ==
        SpinStep(Params(), ClearOnRelease, Spin(old(currentSpinSpeed), old(isFiring)), held, deltaTime)
      ensures old(Valid()) && 0.0 <= deltaTime ==> Valid()
    {
      if Valid() && 0.0 <= deltaTime {
        SpinStepKeepsInvariant(Params(), ClearOnRelease, Spin(currentSpinSpeed, isFiring), held, deltaTime);
      }
      if held {
        currentSpinSpeed := currentSpinSpeed + spinUpSpeed * deltaTime;
        if currentSpinSpeed >= maxSpinSpeed {
          currentSpinSpeed := maxSpinSpeed;
          isFiring := true;
        }
      } else {
        currentSpinSpeed := currentSpinSpeed - spinDownSpeed * deltaTime;
        if currentSpinSpeed <= 0.0 {
          currentSpinSpeed := 0.0;
        }
        isFiring := false;
      }
    }

    /**
     * With the latch set, fire when the timer has run out and restart it; take the frame
     * time off. A shot takes the next pooled bullet and launches it by its own body.
     */
    method HandleFiring(deltaTime: real, pool: BulletPool) returns (fired: bool, body: Option<Rigidbody>)
      modifies this, pool, pool.bullets
      ensures Params() == old(Params()) && fireRate == old(fireRate)
      ensures sensitivity == old(sensitivity) && aimSmoothing == old(aimSmoothing)
      ensures isFiring == old(isFiring) && currentSpinSpeed == old(currentSpinSpeed)
      ensures currentRotation == old(currentRotation) && targetRotation == old(targetRotation)
      ensures FireStep(isFiring, old(fireTimer), fireRate, deltaTime) == FireResult(fired, fireTimer)
      ensures fired <==> body.Some?
      ensures !fired ==> unchanged(pool) && unchanged(pool.bullets)
      ensures fired ==> pool.bullets == if |old(pool.bullets)| > 0 then old(pool.bullets)[1..] else []
      ensures pool.rigidbodies == old(pool.rigidbodies)
      ensures old(pool.Valid()) ==> pool.Valid()
    {
      fired, body := false, None;
      if isFiring {
        if fireTimer <= 0.0 {
          var bullet := pool.GetBullet();
          fired, body := true, Some(bullet.body);
          fireTimer := fireRate;
        }
        fireTimer := fireTimer - deltaTime;
      }
    }
  }
}
