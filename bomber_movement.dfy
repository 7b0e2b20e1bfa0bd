/**
 * The bomber's climb in the stealth bomber scene (the StealthBomberMovement script): from the
 * starting altitude it climbs by a fixed amount per fixed step until it reaches the ending
 * altitude, and asks for the follow camera once, on the first step that ends within 3000
 * units of the top.
 */
module BomberMovement {

  /** The follow camera is requested on the first climbing step that ends above end - 3000. */
  const FollowMargin: real := 3000.0

  /** One fixed step: below `end`, climb by `climb`; at or above it, stay. */
  function Climb(altitude: real, end: real, climb: real): real
  {
    if altitude < end then altitude + climb else altitude
  }

  /** The climb of one fixed step at `speed` units per second. */
  function StepClimb(speed: real, fixedDeltaTime: real): real
  {
    speed * fixedDeltaTime
  }

  /** The altitude after `n` fixed steps. */
  function AltitudeAfter(start: real, end: real, climb: real, n: nat): real
  {
    if n == 0 then start else Climb(AltitudeAfter(start, end, climb, n - 1), end, climb)
  }

  /** Whether one of the first `n` fixed steps climbs and ends above end - FollowMargin. */
  function ReachesMargin(start: real, end: real, climb: real, n: nat): bool
  {
    n > 0 &&
    (ReachesMargin(start, end, climb, n - 1) ||
     (AltitudeAfter(start, end, climb, n - 1) < end && AltitudeAfter(start, end, climb, n) > end - FollowMargin))
  }

  /**
   * With a positive climb: the altitude never falls; while it is still below the top every
   * step has been taken in full; and once at or above the top it overshoots by less than one
   * step, unless it started there.
   */
  lemma {:induction false} AltitudeAfterClosedForm(start: real, end: real, climb: real, n: nat)
    requires climb > 0.0
    ensures AltitudeAfter(start, end, climb, n) >= start
    ensures AltitudeAfter(start, end, climb, n) < end ==> AltitudeAfter(start, end, climb, n) == start + (n as real) * climb
    ensures AltitudeAfter(start, end, climb, n) >= end ==>
      AltitudeAfter(start, end, climb, n) == start || AltitudeAfter(start, end, climb, n) < end + climb
  {
    if n > 0 {
      AltitudeAfterClosedForm(start, end, climb, n - 1);
      var a := AltitudeAfter(start, end, climb, n - 1);
      if a < end {
        assert a == start + ((n - 1) as real) * climb;
        assert (n as real) * climb == ((n - 1) as real) * climb + climb;
      }
    }
  }

  /** Once at or above the top, further steps change nothing. */
  lemma {:induction false} AltitudeAfterStops(start: real, end: real, climb: real, n: nat)
    requires start >= end
    ensures AltitudeAfter(start, end, climb, n) == start
  {
    if n > 0 {
      AltitudeAfterStops(start, end, climb, n - 1);
    }
  }

  class StealthBomberMovement {
    var startingAltitude: real
    var endingAltitude: real
    var ascendSpeed: real
    var altitude: real
    var switchToCockpitCamera: bool
    var switchToFollowCamera: bool

    constructor ()
      ensures startingAltitude == 5000.0 && endingAltitude == 8900.0 && ascendSpeed == 200.0
      ensures altitude == 0.0 && !switchToCockpitCamera && !switchToFollowCamera
    {
      startingAltitude, endingAltitude, ascendSpeed := 5000.0, 8900.0, 200.0;
      altitude := 0.0;
      switchToCockpitCamera, switchToFollowCamera := false, false;
    }

    /** The bomber starts at the starting altitude. */
    method Start()
      modifies this
      ensures altitude == startingAltitude
      ensures startingAltitude == old(startingAltitude) && endingAltitude == old(endingAltitude)
      ensures ascendSpeed == old(ascendSpeed)
      ensures switchToCockpitCamera == old(switchToCockpitCamera) && switchToFollowCamera == old(switchToFollowCamera)
    {
      altitude := startingAltitude;
    }

    /**
     * One fixed step: below the top, climb and, on the first step that ends within the
     * margin of the top, request the follow camera (`followRequested`); at or above the top,
     * nothing (the cockpit switch there is disabled in the script).
     */
    method FixedUpdate(fixedDeltaTime: real) returns (followRequested: bool)
      modifies this
      ensures startingAltitude == old(startingAltitude) && endingAltitude == old(endingAltitude)
      ensures ascendSpeed == old(ascendSpeed) && switchToCockpitCamera == old(switchToCockpitCamera)
      ensures altitude == Climb(old(altitude), endingAltitude, StepClimb(ascendSpeed, fixedDeltaTime))
      ensures followRequested <==>
        old(altitude) < endingAltitude && altitude > endingAltitude - FollowMargin && !old(switchToFollowCamera)
      ensures switchToFollowCamera <==> old(switchToFollowCamera) || followRequested
    {
      followRequested := false;
      if altitude < endingAltitude {
        altitude := altitude + StepClimb(ascendSpeed, fixedDeltaTime);
        if altitude > endingAltitude - FollowMargin && !switchToFollowCamera {
          followRequested := true;
          switchToFollowCamera := true;
        }
      } else if !switchToCockpitCamera {
        // The switch to the cockpit camera is disabled in the script.
      }
    }

    /**
     * `steps` fixed steps in a row: the altitude follows AltitudeAfter, and the follow camera
     * is requested at most once, and not at all if it already was; otherwise it is requested
     * exactly when some climbing step ends above end - FollowMargin.
     */
    method Ascend(steps: nat, fixedDeltaTime: real) returns (followRequests: nat)
      modifies this
      ensures startingAltitude == old(startingAltitude) && endingAltitude == old(endingAltitude)
      ensures ascendSpeed == old(ascendSpeed) && switchToCockpitCamera == old(switchToCockpitCamera)
      ensures altitude == AltitudeAfter(old(altitude), endingAltitude, StepClimb(ascendSpeed, fixedDeltaTime), steps)
      ensures followRequests <= 1
      ensures old(switchToFollowCamera) ==> followRequests == 0 && switchToFollowCamera
      ensures !old(switchToFollowCamera) ==> (followRequests == 1 <==> switchToFollowCamera)
      ensures !old(switchToFollowCamera) ==>
        (followRequests == 1 <==>
          ReachesMargin(old(altitude), endingAltitude, StepClimb(ascendSpeed, fixedDeltaTime), steps))
    {
      followRequests := 0;
      var climb := StepClimb(ascendSpeed, fixedDeltaTime);
      for i := 0 to steps
        invariant startingAltitude == old(startingAltitude) && endingAltitude == old(endingAltitude)
        invariant ascendSpeed == old(ascendSpeed) && switchToCockpitCamera == old(switchToCockpitCamera)
        invariant altitude == AltitudeAfter(old(altitude), endingAltitude, climb, i)
        invariant followRequests <= 1
        invariant old(switchToFollowCamera) ==> followRequests == 0 && switchToFollowCamera
        invariant !old(switchToFollowCamera) ==> (followRequests == 1 <==> switchToFollowCamera)
        invariant !old(switchToFollowCamera) ==>
          (followRequests == 1 <==> ReachesMargin(old(altitude), endingAltitude, climb, i))
      {
        var requested := FixedUpdate(fixedDeltaTime);
        if requested {
          followRequests := followRequests + 1;
        }
      }
    }
  }
}
