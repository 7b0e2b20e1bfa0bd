/**
 * The stand-alone firing script (TurretFiringController): barrel spin and fire timer only,
 * every frame regardless of the game state, with a latch that clears only once the barrel
 * has stopped, and a shot that has no effect.
 */
module TurretFiring {
  import opened TurretMechanics

  class TurretFiringController {
    var maxSpinSpeed: real
    var spinUpSpeed: real
    var spinDownSpeed: real
    var fireRate: real
    var currentSpinSpeed: real
    var fireTimer: real
    var isFiring: bool

    function Params(): SpinParams
      reads this
    {
      SpinParams(maxSpinSpeed, spinUpSpeed, spinDownSpeed)
    }

    /** The rates are non-negative, the speed stays in range and a set latch means a turning barrel. */
    ghost predicate Valid()
      reads this
    {
      Params().NonNegative() && SpinInvariant(Params(), ClearAtRest, Spin(currentSpinSpeed, isFiring))
    }

    constructor ()
      ensures Params() == SpinParams(2000.0, 500.0, 1000.0) && fireRate == 0.1
      ensures currentSpinSpeed == 0.0 && fireTimer == 0.0 && !isFiring
      ensures Valid()
    {
      maxSpinSpeed, spinUpSpeed, spinDownSpeed := 2000.0, 500.0, 1000.0;
      fireRate := 0.1;
      currentSpinSpeed := 0.0;
      fireTimer := 0.0;
      isFiring := false;
    }

    /**
     * One frame: spin, then fire. A shot comes from a barrel that is still turning (or from
     * a zero maximum speed), possibly after the button has been let go.
     */
    method Update(held: bool, deltaTime: real) returns (fired: bool)
      modifies this
      ensures Params() == old(Params()) && fireRate == old(fireRate)
      ensures Spin(currentSpinSpeed, isFiring) ==
        SpinStep(Params(), ClearAtRest, Spin(old(currentSpinSpeed), old(isFiring)), held, deltaTime)
      ensures FireStep(isFiring, old(fireTimer), fireRate, deltaTime) == FireResult(fired, fireTimer)
      ensures old(Valid()) && 0.0 <= deltaTime ==> Valid()
      ensures old(Valid()) && 0.0 <= deltaTime && fired ==> currentSpinSpeed > 0.0 || currentSpinSpeed == maxSpinSpeed
    {
      HandleSpin(held, deltaTime);
      fired := HandleFiring(deltaTime);
    }

    method HandleSpin(held: bool, deltaTime: real)
      modifies this
      ensures Params() == old(Params()) && fireRate == old(fireRate)
      ensures fireTimer == old(fireTimer)
      ensures Spin(currentSpinSpeed, isFiring) ==
        SpinStep(Params(), ClearAtRest, Spin(old(currentSpinSpeed), old(isFiring)), held, deltaTime)
      ensures old(Valid()) && 0.0 <= deltaTime ==> Valid()
    {
      if Valid() && 0.0 <= deltaTime {
        SpinStepKeepsInvariant(Params(), ClearAtRest, Spin(currentSpinSpeed, isFiring), held, deltaTime);
      }
      if held {
        currentSpinSpeed := currentSpinSpeed + spinUpSpeed * deltaTime;
        if currentSpinSpeed >= maxSpinSpeed {
          currentSpinSpeed := maxSpinSpeed;
          isFiring := true;
        }
      } else {
        currentSpinSpeed := currentSpinSpeed - spinDownSpeed * deltaTime;
        if currentSpinSpeed <= 0.0 {
          currentSpinSpeed := 0.0;
          isFiring := false;
        }
      }
    }

    /** With the latch set, "fire" when the timer has run out and restart it; take the frame time off. */
    method HandleFiring(deltaTime: real) returns (fired: bool)
      modifies this
      ensures Params() == old(Params()) && fireRate == old(fireRate)
      ensures isFiring == old(isFiring) && currentSpinSpeed == old(currentSpinSpeed)
      ensures FireStep(isFiring, old(fireTimer), fireRate, deltaTime) == FireResult(fired, fireTimer)
    {
      fired := false;
      if isFiring {
        if fireTimer <= 0.0 {
          fired := true;
          fireTimer := fireRate;
        }
        fireTimer := fireTimer - deltaTime;
      }
    }
  }
}
