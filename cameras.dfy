/**
 * The in-game camera manager: which virtual camera takes priority for each game state, the
 * screen fades around each switch, and the C key that enters the cockpit.
 */
module Cameras {
  import opened GameStates
  import opened Results

  /** The priority the chosen camera gets; every other camera gets 0. */
  const ActivePriority: int := 10

  /** The "no second switch" value of the fade sequence's camera argument. */
  const NoCamera: int := -1

  datatype Color = White | Black | Clear

  /** One screen fade: to `target` over `duration` seconds, after waiting `wait` seconds. */
  datatype Fade = Fade(duration: real, target: Color, wait: real)

  /**
   * A fade sequence: the first fade, then both bomber and cockpit flip their active flags,
   * then an optional second camera switch, then the second fade.
   */
  datatype FadeSequence = FadeSequence(first: Fade, second: Fade, additionalCameraIndex: int)

  /** What a state change does: an immediate camera switch and the fade sequence it starts. */
  datatype Transition = Transition(camera: int, fades: FadeSequence)

  /** The exceptions a state change can raise. */
  datatype CameraError = ArgumentOutOfRange(state: GameState) | IndexOutOfRange(index: int)

  /** The table from game state to camera index. */
  function CameraIndex(s: GameState): nat
  {
    match s
    case CutsceneWidePan => 0
    case CutsceneFollow => 1
    case Flying => 1
    case Cockpit => 2
    case Minigun => 4
  }

  /** The fade that clears the screen once the switch is done. */
  const ClearFade := Fade(1.0, Clear, 1.0)

  /** The camera that holds priority once a transition's sequence has finished. */
  function FinalCamera(t: Transition): int
  {
    if t.fades.additionalCameraIndex != NoCamera then t.fades.additionalCameraIndex else t.camera
  }

  /**
   * The transition for a change from `previous` to `next`.
   *  - Exactly the cockpit, flying and minigun states are accepted; the cutscene states raise.
   *  - Cockpit from minigun passes through camera 4 and ends on 2; any other cockpit entry
   *    and flying go straight to 2 and 1; minigun passes through 4 and ends on 3. So every
   *    change ends on the camera of its target state, except minigun.
   *  - The first fade is white exactly when minigun is entered or left for the cockpit, and
   *    black otherwise; a second switch follows exactly a white fade; the second fade always
   *    clears the screen after a one-second wait.
   */
  function TransitionFor(previous: GameState, next: GameState): (r: Result<Transition, CameraError>)
    ensures r.Ok? <==> next in {Cockpit, Flying, Minigun}
    ensures r.Err? ==> r.error == ArgumentOutOfRange(next)
    ensures r.Ok? ==>
      (next == Cockpit && previous == Minigun ==> r.value.camera == 4 && FinalCamera(r.value) == 2) &&
      (next == Cockpit && previous != Minigun ==> r.value.camera == 2 && FinalCamera(r.value) == 2) &&
      (next == Flying ==> r.value.camera == 1 && FinalCamera(r.value) == 1) &&
      (next == Minigun ==> r.value.camera == 4 && FinalCamera(r.value) == 3)
    ensures r.Ok? ==> FinalCamera(r.value) == if next == Minigun then 3 else CameraIndex(next)
    ensures r.Ok? ==> var f := r.value.fades;
      (f.first.target == White <==> next == Minigun || (next == Cockpit && previous == Minigun)) &&
      (f.first.target != White ==> f.first.target == Black) &&
      (f.additionalCameraIndex != NoCamera <==> f.first.target == White) &&
      f.first.duration == 1.0 && f.first.wait == 0.0 && f.second == Fade(1.0, Clear, 1.0)
  {
    match next
    case Cockpit =>
      if previous == Minigun then
        Ok(Transition(4, FadeSequence(Fade(1.0, White, 0.0), ClearFade, CameraIndex(next))))
      else
        Ok(Transition(CameraIndex(next), FadeSequence(Fade(1.0, Black, 0.0), ClearFade, NoCamera)))
    case Flying =>
      Ok(Transition(CameraIndex(next), FadeSequence(Fade(1.0, Black, 0.0), ClearFade, NoCamera)))
    case Minigun =>
      Ok(Transition(CameraIndex(next), FadeSequence(Fade(1.0, White, 0.0), ClearFade, 3)))
    case _ =>
      Err(ArgumentOutOfRange(next))
  }

  class VirtualCamera {
    var priority: int

    constructor (priority: int)
      ensures this.priority == priority
    {
      this.priority := priority;
    }
  }

  class CameraManager {
    const virtualCameras: array<VirtualCamera>
    const gameStateManager: GameStateManager
    var stealthBomberActive: bool
    var cockpitActive: bool

    constructor (cameras: array<VirtualCamera>, states: GameStateManager, bomberActive: bool, cockpitActive: bool)
      ensures virtualCameras == cameras && gameStateManager == states
      ensures stealthBomberActive == bomberActive && this.cockpitActive == cockpitActive
    {
      virtualCameras := cameras;
      gameStateManager := states;
      stealthBomberActive := bomberActive;
      this.cockpitActive := cockpitActive;
    }

    /** Whether a switch to `index` goes through: the index is only evaluated inside the loop over the cameras. */
    predicate CanSwitch(index: int)
    {
      virtualCameras.Length == 0 || 0 <= index < virtualCameras.Length
    }

    /**
     * Gives the camera at `index` the active priority and every other camera 0, comparing
     * cameras by identity. An index outside the array raises before any camera changes.
     */
    method SwitchCamera(index: int) returns (r: Result<(), CameraError>)
      modifies virtualCameras[..]
      ensures r.Ok? <==> CanSwitch(index)
      ensures r.Err? ==> r.error == IndexOutOfRange(index) && forall k :: 0 <= k < virtualCameras.Length ==>
        virtualCameras[k].priority == old(virtualCameras[k].priority)
      ensures r.Ok? ==> forall k :: 0 <= k < virtualCameras.Length ==>
        virtualCameras[k].priority == if virtualCameras[k] == virtualCameras[index] then ActivePriority else 0
    {
      if !CanSwitch(index) {
        return Err(IndexOutOfRange(index));
      }
      for k := 0 to virtualCameras.Length
        invariant forall j :: 0 <= j < k ==>
          virtualCameras[j].priority == if virtualCameras[j] == virtualCameras[index] then ActivePriority else 0
      {
        var camera := virtualCameras[k];
        camera.priority := if camera == virtualCameras[index] then ActivePriority else 0;
      }
      r := Ok(());
    }

    /**
     * Records `newState` as current, then performs its transition: the immediate switch and
     * the fade sequence it starts (returned). A cutscene state raises after the state has
     * been recorded, as does a switch to a missing camera.
     */
    method UpdateGameState(newState: GameState) returns (r: Result<FadeSequence, CameraError>)
      modifies gameStateManager, virtualCameras[..]
      ensures gameStateManager.currentGameState == newState
      ensures var plan := TransitionFor(old(gameStateManager.currentGameState), newState);
        match plan
        case Err(e) =>
          r == Err(e) && forall k :: 0 <= k < virtualCameras.Length ==>
            virtualCameras[k].priority == old(virtualCameras[k].priority)
        case Ok(t) =>
          (r.Ok? <==> CanSwitch(t.camera)) &&
          (r.Ok? ==> r.value == t.fades && forall k :: 0 <= k < virtualCameras.Length ==>
            virtualCameras[k].priority == if virtualCameras[k] == virtualCameras[t.camera] then ActivePriority else 0) &&
          (r.Err? ==> r.error == IndexOutOfRange(t.camera) && forall k :: 0 <= k < virtualCameras.Length ==>
            virtualCameras[k].priority == old(virtualCameras[k].priority))
    {
      var previousState := gameStateManager.currentGameState;
      gameStateManager.currentGameState := newState;
      var plan := TransitionFor(previousState, newState);
      if plan.Err? {
        return Err(plan.error);
      }
      var switched := SwitchCamera(plan.value.camera);
      if switched.Err? {
        return Err(switched.error);
      }
      r := Ok(plan.value.fades);
    }

    /**
     * The middle of a fade sequence, between its two fades: both the bomber and the cockpit
     * flip their active flags, then the optional second switch runs.
     */
    method RunFadeSequence(fades: FadeSequence) returns (r: Result<(), CameraError>)
      modifies this, virtualCameras[..]
      ensures stealthBomberActive == !old(stealthBomberActive) && cockpitActive == !old(cockpitActive)
      ensures fades.additionalCameraIndex == NoCamera ==> r.Ok? && (forall k :: 0 <= k < virtualCameras.Length ==>
        virtualCameras[k].priority == old(virtualCameras[k].priority))
      ensures fades.additionalCameraIndex != NoCamera ==>
        (r.Ok? <==> CanSwitch(fades.additionalCameraIndex)) &&
        (r.Ok? ==> forall k :: 0 <= k < virtualCameras.Length ==>
          virtualCameras[k].priority ==
            if virtualCameras[k] == virtualCameras[fades.additionalCameraIndex] then ActivePriority else 0) &&
        (r.Err? ==> r.error == IndexOutOfRange(fades.additionalCameraIndex) && forall k :: 0 <= k < virtualCameras.Length ==>
          virtualCameras[k].priority == old(virtualCameras[k].priority))
    {
      stealthBomberActive := !stealthBomberActive;
      cockpitActive := !cockpitActive;
      r := Ok(());
      if fades.additionalCameraIndex != NoCamera {
        r := SwitchCamera(fades.additionalCameraIndex);
      }
    }

    /** Start-up: a state change to the current state. */
    method Start() returns (r: Result<FadeSequence, CameraError>)
      modifies gameStateManager, virtualCameras[..]
      ensures gameStateManager.currentGameState == old(gameStateManager.currentGameState)
      ensures old(gameStateManager.currentGameState) == CutsceneWidePan ==>
        r == Err(ArgumentOutOfRange(CutsceneWidePan))
      ensures var current := old(gameStateManager.currentGameState);
        match TransitionFor(current, current)
        case Err(e) =>
          r == Err(e) && forall k :: 0 <= k < virtualCameras.Length ==>
            virtualCameras[k].priority == old(virtualCameras[k].priority)
        case Ok(t) =>
          (r.Ok? <==> CanSwitch(t.camera)) &&
          (r.Ok? ==> r.value == t.fades && forall k :: 0 <= k < virtualCameras.Length ==>
            virtualCameras[k].priority == if virtualCameras[k] == virtualCameras[t.camera] then ActivePriority else 0) &&
          (r.Err? ==> r.error == IndexOutOfRange(t.camera) && forall k :: 0 <= k < virtualCameras.Length ==>
            virtualCameras[k].priority == old(virtualCameras[k].priority))
    {
      r := UpdateGameState(gameStateManager.currentGameState);
    }

    /**
     * One frame: with the C key pressed in the minigun or flying state the game changes to
     * the cockpit; otherwise nothing happens and None is returned.
     */
    method Update(cPressed: bool) returns (r: Option<Result<FadeSequence, CameraError>>)
      modifies gameStateManager, virtualCameras[..]
      ensures r.Some? <==> cPressed && old(gameStateManager.currentGameState) in {Minigun, Flying}
      ensures r.Some? ==> gameStateManager.currentGameState == Cockpit
      ensures r.Some? ==> var t := TransitionFor(old(gameStateManager.currentGameState), Cockpit).value;
        (r.value.Ok? <==> CanSwitch(t.camera)) &&
        (r.value.Ok? ==> r.value.value == t.fades && forall k :: 0 <= k < virtualCameras.Length ==>
          virtualCameras[k].priority == if virtualCameras[k] == virtualCameras[t.camera] then ActivePriority else 0) &&
        (r.value.Err? ==> r.value.error == IndexOutOfRange(t.camera) && forall k :: 0 <= k < virtualCameras.Length ==>
          virtualCameras[k].priority == old(virtualCameras[k].priority))
      ensures r.None? ==> gameStateManager.currentGameState == old(gameStateManager.currentGameState)
      ensures r.None? ==> forall k :: 0 <= k < virtualCameras.Length ==>
        virtualCameras[k].priority == old(virtualCameras[k].priority)
    {
      if !cPressed {
        return None;
      }
      var state := gameStateManager.currentGameState;
      if state == Minigun || state == Flying {
        var changed := UpdateGameState(Cockpit);
        return Some(changed);
      }
      r := None;
    }
  }
}
