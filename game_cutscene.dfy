/**
 * The opening cutscene of the game scene (the Game InitialCutScene script): the bomber climbs
 * from 10000 to 15000 units, speeds up and asks the camera manager for the follow camera
 * once it passes 12000, and hands over to the flying state at the top.
 */
module GameCutscene {
  import opened GameStates
  import opened Results
  import opened Cameras

  const StartingAltitude: real := 10000.0
  const EndingAltitude: real := 15000.0
  const InitialAscendSpeed: real := 200.0
  const FollowAscendSpeed: real := 400.0

  /** The follow camera is requested above this altitude. */
  const FollowAltitude: real := EndingAltitude - 3000.0

  /** The engine's default fixed time step, in seconds. */
  const FixedDeltaTime: real := 0.02

  /**
   * How many whole units the bomber still has to climb before the top, plus one while the
   * script still runs: every step of at least one unit lowers it.
   */
  function Remaining(altitude: real, enabled: bool): (r: nat)
    ensures enabled ==> r >= 1
    ensures altitude >= EndingAltitude ==> r == (if enabled then 1 else 0)
  {
    (if enabled then 1 else 0) + (if altitude < EndingAltitude then (EndingAltitude - altitude).Floor + 1 else 0)
  }

  class InitialCutScene {
    const cameraManager: CameraManager
    var altitude: real
    var ascendSpeed: real
    var switchToFollowCamera: bool
    var enabled: bool

    constructor (cameraManager: CameraManager)
      ensures this.cameraManager == cameraManager
      ensures altitude == 0.0 && ascendSpeed == InitialAscendSpeed && !switchToFollowCamera && enabled
    {
      this.cameraManager := cameraManager;
      altitude := 0.0;
      ascendSpeed := InitialAscendSpeed;
      switchToFollowCamera := false;
      enabled := true;
    }

    /** The bomber starts at the starting altitude. */
    method Start()
      modifies this
      ensures altitude == StartingAltitude
      ensures ascendSpeed == old(ascendSpeed) && switchToFollowCamera == old(switchToFollowCamera)
      ensures enabled == old(enabled)
    {
      altitude := StartingAltitude;
    }

    /**
     * One fixed step, as written. At or above the top the state becomes flying and the
     * script disables itself; either way the bomber climbs by one step. Above the follow
     * altitude with the guard unset, the speed doubles and the follow camera is requested;
     * that request raises (the camera manager does not accept cutscene states) after
     * recording the state, so the guard is never set.
     */
    method FixedUpdate(fixedDeltaTime: real) returns (r: Result<(), CameraError>)
      requires enabled
      modifies this, cameraManager.gameStateManager, cameraManager.virtualCameras[..]
      ensures altitude == old(altitude) + old(ascendSpeed) * fixedDeltaTime
      ensures enabled <==> old(altitude) < EndingAltitude
      ensures switchToFollowCamera == old(switchToFollowCamera)
      ensures altitude > FollowAltitude && !switchToFollowCamera ==>
        ascendSpeed == FollowAscendSpeed && r == Err(ArgumentOutOfRange(CutsceneFollow)) &&
        cameraManager.gameStateManager.currentGameState == CutsceneFollow
      ensures !(altitude > FollowAltitude && !switchToFollowCamera) ==>
        ascendSpeed == old(ascendSpeed) && r == Ok(()) &&
        cameraManager.gameStateManager.currentGameState ==
          if old(altitude) < EndingAltitude then old(cameraManager.gameStateManager.currentGameState) else Flying
      ensures forall k :: 0 <= k < cameraManager.virtualCameras.Length ==>
        cameraManager.virtualCameras[k].priority == old(cameraManager.virtualCameras[k].priority)
    {
      if !(altitude < EndingAltitude) {
        cameraManager.gameStateManager.currentGameState := Flying;
        enabled := false;
      }
      altitude := altitude + ascendSpeed * fixedDeltaTime;
      if !(altitude > FollowAltitude) || switchToFollowCamera {
        return Ok(());
      }
      ascendSpeed := FollowAscendSpeed;
      var requested := cameraManager.UpdateGameState(CutsceneFollow);
      // The guard is reached only when the request returns normally (the guard was unset here).
      switchToFollowCamera := requested.Ok?;
      r := if requested.Ok? then Ok(()) else Err(requested.error);
    }

    /**
     * The step with the guard set before the request, which makes the request one-shot as
     * the guard evidently intends; the request itself still raises after recording the state.
     */
    method FixedUpdateGuardFirst(fixedDeltaTime: real) returns (r: Result<(), CameraError>)
      requires enabled
      modifies this, cameraManager.gameStateManager, cameraManager.virtualCameras[..]
      ensures altitude == old(altitude) + old(ascendSpeed) * fixedDeltaTime
      ensures enabled <==> old(altitude) < EndingAltitude
      ensures switchToFollowCamera <==> old(switchToFollowCamera) || altitude > FollowAltitude
      ensures altitude > FollowAltitude && !old(switchToFollowCamera) ==>
        ascendSpeed == FollowAscendSpeed && r == Err(ArgumentOutOfRange(CutsceneFollow)) &&
        cameraManager.gameStateManager.currentGameState == CutsceneFollow
      ensures !(altitude > FollowAltitude && !old(switchToFollowCamera)) ==>
        ascendSpeed == old(ascendSpeed) && r == Ok(()) &&
        cameraManager.gameStateManager.currentGameState ==
          if old(altitude) < EndingAltitude then old(cameraManager.gameStateManager.currentGameState) else Flying
      ensures forall k :: 0 <= k < cameraManager.virtualCameras.Length ==>
        cameraManager.virtualCameras[k].priority == old(cameraManager.virtualCameras[k].priority)
    {
      if !(altitude < EndingAltitude) {
        cameraManager.gameStateManager.currentGameState := Flying;
        enabled := false;
      }
      altitude := altitude + ascendSpeed * fixedDeltaTime;
      if !(altitude > FollowAltitude) || switchToFollowCamera {
        return Ok(());
      }
      ascendSpeed := FollowAscendSpeed;
      switchToFollowCamera := true;
      var requested := cameraManager.UpdateGameState(CutsceneFollow);
      if requested.Err? {
        return Err(requested.error);
      }
      r := Ok(());
    }
  }

  /**
   * The whole cutscene as written, at the default fixed step, from the state the game scene
   * starts in: it runs until the script disables itself, and leaves the game in the follow
   * cutscene state instead of flying.
   */
  method CutsceneAsWritten() returns (final: GameState)
    ensures final == CutsceneFollow
  {
    var states := new GameStateManager();
    var cameras := new VirtualCamera[0];
    var manager := new CameraManager(cameras, states, true, false);
    var cutscene := new InitialCutScene(manager);
    cutscene.Start();
    while cutscene.enabled
      invariant fresh(cutscene) && fresh(states) && cutscene.cameraManager == manager
      invariant cutscene.altitude >= StartingAltitude
      invariant cutscene.ascendSpeed >= InitialAscendSpeed && !cutscene.switchToFollowCamera
      invariant !cutscene.enabled ==> states.currentGameState == CutsceneFollow
      decreases Remaining(cutscene.altitude, cutscene.enabled)
    {
      var _ := cutscene.FixedUpdate(FixedDeltaTime);
    }
    final := states.currentGameState;
  }

  /** The same run with the guard set first: the cutscene hands over to the flying state. */
  method CutsceneGuardFirst() returns (final: GameState)
    ensures final == Flying
  {
    var states := new GameStateManager();
    var cameras := new VirtualCamera[0];
    var manager := new CameraManager(cameras, states, true, false);
    var cutscene := new InitialCutScene(manager);
    cutscene.Start();
    while cutscene.enabled
      invariant fresh(cutscene) && fresh(states) && cutscene.cameraManager == manager
      invariant cutscene.altitude >= StartingAltitude
      invariant cutscene.ascendSpeed >= InitialAscendSpeed
      invariant cutscene.altitude > FollowAltitude ==> cutscene.switchToFollowCamera
      invariant !cutscene.enabled ==> states.currentGameState == Flying
      decreases Remaining(cutscene.altitude, cutscene.enabled)
    {
      var _ := cutscene.FixedUpdateGuardFirst(FixedDeltaTime);
    }
    final := states.currentGameState;
  }
}
