/** The game states shared by the camera, turret, cockpit and cutscene scripts. */
module GameStates {

  /** The five states of the game, in declaration order. */
  datatype GameState = CutsceneWidePan | CutsceneFollow | Flying | Cockpit | Minigun

  /**
   * The process-wide holder of the current game state. The engine singleton and its
   * lifecycle are not modelled: scripts that share the state share one object of this class.
   */
  class GameStateManager {
    var currentGameState: GameState

    /** The holder starts in the wide-pan cutscene. */
    constructor ()
      ensures currentGameState == CutsceneWidePan
    {
      currentGameState := CutsceneWidePan;
    }
  }
}
