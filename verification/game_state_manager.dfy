/**
  The game-session state machine of `GameStateManager`.

  The manager reaches the scene through a weak, optional reference: when it
  is nil every scene update is skipped and only `currentState` changes.
  `Session` is the value of the manager and its scene at one moment; the
  functions `Reset`, `Start` and `End` are what `resetGame`, `startGame` and
  `endGame` do to it, and the classes carry them out on their fields.
 */
module GameState {
  import opened Wrappers
  import opened Interface

  datatype State = WaitingToStart | Active | GameOver

  const ResetMessage: string := "Game reset! Ready to start new game."
  const ReadyMessage: string := "Get ready..."
  const GameOverMessage: string := "Game Over! Press Begin to play again."

  /** The fields of the scene that the manager touches, and its labels. */
  datatype SceneState = SceneState(
    isGameActive: bool,
    isUserInteractionAllowed: bool,
    sequence: seq<int>,
    userSequence: seq<int>,
    level: int,
    labels: Labels)

  datatype Session = Session(state: State, scene: Option<SceneState>)

  /** The values a reset leaves in the scene. */
  predicate IsCleared(s: SceneState) {
    && !s.isGameActive
    && !s.isUserInteractionAllowed
    && s.sequence == []
    && s.userSequence == []
    && s.level == 1
    && s.labels.score == 0
    && s.labels.scoreText == "Score: 0"
  }

  /** Every label of the session's scene, if there is one, keeps the `didSet` invariant. */
  predicate SessionSynced(v: Session) {
    v.scene.Some? ==> Synced(v.scene.value.labels)
  }

  /** `resetGame` applied to a scene that is present. */
  function ResetScene(s: SceneState): (r: SceneState)
    ensures IsCleared(r) && Synced(r.labels)
    ensures r.labels.statusText == ResetMessage
    ensures r.labels.highScoreText == s.labels.highScoreText
  {
    ScoreTextOfZero();
    SceneState(false, false, [], [], 1, SetStatus(AssignScore(s.labels, 0), ResetMessage))
  }

  /** `gameScene?.interfaceManager.updateStatusLabel(text:)`. */
  function ShowStatus(v: Session, text: string): (r: Session)
    ensures r.state == v.state && (r.scene.Some? <==> v.scene.Some?)
    ensures r.scene.Some? ==> r.scene.value.labels.statusText == text
    ensures r.scene.Some? ==>
      r.scene.value.(labels := r.scene.value.labels.(statusText := v.scene.value.labels.statusText)) == v.scene.value
  {
    match v.scene
    case None => v
    case Some(s) => v.(scene := Some(s.(labels := SetStatus(s.labels, text))))
  }

  /** `resetGame`: clears the scene, if there is one; `currentState` is not touched. */
  function Reset(v: Session): (r: Session)
    ensures r.state == v.state && (r.scene.Some? <==> v.scene.Some?)
    ensures v.scene.None? ==> r == v
  {
    match v.scene
    case None => v
    case Some(s) => v.(scene := Some(ResetScene(s)))
  }

  /** `startGame` up to the call of `prepareForNewSequence`. */
  function Start(v: Session): (r: Session)
    ensures r.state == Active
  {
    ShowStatus(Reset(v).(state := Active), ReadyMessage)
  }

  /** `endGame`. */
  function End(v: Session): (r: Session)
    ensures r.state == GameOver
  {
    ShowStatus(Reset(v.(state := GameOver)), GameOverMessage)
  }

  /** A reset keeps the state, keeps a missing scene missing and clears a present one. */
  lemma ResetClears(v: Session)
    ensures Reset(v).state == v.state
    ensures Reset(v).scene.Some? <==> v.scene.Some?
    ensures v.scene.None? ==> Reset(v) == v
    ensures v.scene.Some? ==> IsCleared(Reset(v).scene.value)
    ensures v.scene.Some? ==> Reset(v).scene.value.labels.statusText == ResetMessage
  {
  }

  /** Resetting twice is the same as resetting once. */
  lemma ResetIdempotent(v: Session)
    ensures Reset(Reset(v)) == Reset(v)
  {
  }

  /**
    `startGame` always ends in `Active`, whatever the state before (there is
    no guard), with a cleared scene showing "Get ready...".
   */
  lemma StartActivates(v: Session)
    ensures Start(v).state == Active
    ensures Start(v).scene.Some? <==> v.scene.Some?
    ensures v.scene.Some? ==> IsCleared(Start(v).scene.value)
    ensures v.scene.Some? ==> Start(v).scene.value.labels.statusText == ReadyMessage
    ensures v.scene.Some? ==> Start(v).scene.value.labels.highScoreText == v.scene.value.labels.highScoreText
  {
  }

  /**
    What `startGame` leaves does not depend on the session before, beyond
    whether a scene is present and its high-score text: starting an active
    game with score and level built up gives the same as starting a fresh one.
   */
  lemma StartForgetsPriorSession(v: Session, w: Session)
    requires v.scene.Some? && w.scene.Some?
    requires v.scene.value.labels.highScoreText == w.scene.value.labels.highScoreText
    ensures Start(v) == Start(w)
  {
  }

  /** `endGame` ends in `GameOver` with a cleared scene showing the game-over message. */
  lemma EndFinishes(v: Session)
    ensures End(v).state == GameOver
    ensures End(v).scene.Some? <==> v.scene.Some?
    ensures v.scene.Some? ==> IsCleared(End(v).scene.value)
    ensures v.scene.Some? ==> End(v).scene.value.labels.statusText == GameOverMessage
    ensures v.scene.Some? ==> End(v).scene.value.labels.highScoreText == v.scene.value.labels.highScoreText
  {
  }

  /** Without a scene, starting and ending change `currentState` and nothing else. */
  lemma NoSceneOnlyState(v: Session)
    requires v.scene.None?
    ensures Start(v) == v.(state := Active)
    ensures End(v) == v.(state := GameOver)
  {
  }

  /** After any of the three operations the score label agrees with the score. */
  lemma TransitionsSync(v: Session)
    ensures SessionSynced(Reset(v))
    ensures SessionSynced(Start(v))
    ensures SessionSynced(End(v))
  {
  }

  /**
    The fields of `GameScene` that the manager updates. `GameScene.swift`
    does not declare these fields; only the link to its `InterfaceManager`
    is fixed at construction.
   */
  class GameScene {
    var isGameActive: bool
    var isUserInteractionAllowed: bool
    var sequence: seq<int>
    var userSequence: seq<int>
    var level: int
    const interfaceManager: InterfaceManager

    constructor (interfaceManager: InterfaceManager)
      requires interfaceManager.Valid()
      ensures this.interfaceManager == interfaceManager
      ensures Valid()
    {
      this.interfaceManager := interfaceManager;
    }

    function View(): SceneState
      reads this, interfaceManager
    {
      SceneState(isGameActive, isUserInteractionAllowed, sequence, userSequence, level, interfaceManager.View())
    }

    predicate Valid()
      reads this, interfaceManager
    {
      interfaceManager.Valid()
    }
  }

  class GameStateManager {
    var currentState: State
    /** The weak reference: nil once the scene is gone. */
    var gameScene: GameScene?

    constructor (gameScene: GameScene)
      requires gameScene.Valid()
      ensures currentState == WaitingToStart && this.gameScene == gameScene
      ensures Valid()
    {
      currentState := WaitingToStart;
      this.gameScene := gameScene;
    }

    /** The objects reached through `gameScene`, none when it is nil. */
    function SceneObjects(): set<object>
      reads this
    {
      if gameScene == null then {} else {gameScene, gameScene.interfaceManager}
    }

    predicate Valid()
      reads this, SceneObjects()
    {
      gameScene != null ==> gameScene.Valid()
    }

    function View(): Session
      reads this, SceneObjects()
    {
      Session(currentState, if gameScene == null then None else Some(gameScene.View()))
    }

    method ResetGame()
      requires Valid()
      modifies SceneObjects()
      ensures Valid() && View() == Reset(old(View()))
    {
      if gameScene != null {
        var im := gameScene.interfaceManager;
        gameScene.isGameActive := false;
        gameScene.isUserInteractionAllowed := false;
        gameScene.sequence := [];
        gameScene.userSequence := [];
        im.SetScore(0);
        gameScene.level := 1;
        im.UpdateStatusLabel(ResetMessage);
      }
    }

    /** Ends at the point where the source calls `prepareForNewSequence`. */
    method StartGame()
      requires Valid()
      modifies this, SceneObjects()
      ensures gameScene == old(gameScene)
      ensures Valid() && View() == Start(old(View()))
    {
      ResetGame();
      currentState := Active;
      if gameScene != null {
        gameScene.interfaceManager.UpdateStatusLabel(ReadyMessage);
      }
    }

    method EndGame()
      requires Valid()
      modifies this, SceneObjects()
      ensures gameScene == old(gameScene)
      ensures Valid() && View() == End(old(View()))
    {
      currentState := GameOver;
      ResetGame();
      if gameScene != null {
        gameScene.interfaceManager.UpdateStatusLabel(GameOverMessage);
      }
    }
  }
}
