# ToneTrace game session and score labels in Dafny

ToneTrace is a "repeat the sequence" memory game for SpriteKit. This project
models two parts of it:

- the game-session state machine of `GameStateManager`, with its three states
  `waitingToStart`, `active` and `gameOver`;
- the score, high-score and status labels of `InterfaceManager`, which that
  machine resets.

`GameStateManager` reaches the scene through a weak optional reference. While
that reference is nil, optional chaining skips every scene update.
`resetGame` clears the scene's flags and sequences and sets the score to 0
and the level to 1. It also shows a reset message. `startGame` and `endGame`
both reset, set the state, and show their own message. `InterfaceManager`'s
`score` property has a `didSet` observer that keeps the score label's text
equal to `"Score: \(score)"`.

Files:

- `wrappers.dfy`: the `Option` type, used for the optional scene.
- `decimal.dfy` (module `Decimal`): the decimal text Swift's `"\(n)"` gives
  for an `Int`, and an independent parser for it. The round trip shows that
  the label text determines the score.
- `interface_manager.dfy` (module `Interface`): the `Labels` value, its update
  functions, and class `InterfaceManager`. Its fields are `score`,
  `scoreText`, `highScoreText` and `statusText`. Its invariant `Valid()`
  (`Synced`) ties `scoreText` to `score`.
- `game_state_manager.dfy` (module `GameState`): the `Session` value and the
  functions `Reset`, `Start` and `End`. Also class `GameScene`, which holds the
  scene fields the manager writes, and class `GameStateManager`, whose
  `gameScene` field is nullable.

Each class method is proved against a function of the old state
(`View() == Start(old(View()))`). The lemmas beside those functions state what
the source promises.

Behaviour of the code that the model keeps:

- `startGame` has no guard on the current state: calling it while `active` resets score, level and sequences again.
- `endGame` does not store a high score. The high-score label keeps the text
  it had.
- `GameStateManager.swift` and `InterfaceManager.swift` contain no sequence generation, round judging, level change or high-score storage.

## Model

| member | source | states |
|---|---|---|
| Decimal.FromNat | ToneTrace/InterfaceManager.swift:11 | the decimal text of a natural number is a non-empty string of digits with no leading zero |
| Decimal.FromInt | ToneTrace/InterfaceManager.swift:11 | the text of `"\(i)"` is canonical (digits without a leading zero, '-' only before a non-zero magnitude) and starts with '-' exactly when `i` is negative |
| Decimal.ValueOfFromNat | ToneTrace/InterfaceManager.swift:11 | the digits rendered for `n` denote `n` |
| Decimal.RoundTrip | ToneTrace/InterfaceManager.swift:11 | parsing the rendered text of any integer gives back that integer |
| Decimal.FromIntInjective | ToneTrace/InterfaceManager.swift:11 | two integers render the same text exactly when they are equal |
| Interface.ScoreText | ToneTrace/InterfaceManager.swift:11 | the score label text starts with "Score: ", and the rest is the canonical text of the score and reads back as the score |
| Interface.ScoreTextOfZero | ToneTrace/InterfaceManager.swift:43 | a zero score shows as "Score: 0" |
| Interface.ScoreTextDeterminesScore | ToneTrace/InterfaceManager.swift:9-13 | two scores give the same label text exactly when they are equal |
| Interface.Initial | ToneTrace/InterfaceManager.swift:9-21 | the initial labels: score 0, "Score: 0", "High: 00", "Welcome to the Game!", with the label in sync |
| Interface.AssignScore | ToneTrace/InterfaceManager.swift:9-13 | assigning `score` sets it, makes the score text `"Score: \(score)"` and leaves the other labels alone |
| Interface.AddToScore | ToneTrace/InterfaceManager.swift:81-84 | `updateScore(by: p)` makes the score `old + p`, with no floor, keeps the label in sync and leaves the other labels alone; it requires no 64-bit overflow, where Swift traps |
| Interface.RefreshScoreLabel | ToneTrace/InterfaceManager.swift:87-89 | `updateScoreLabel` sets the score text from the score and changes nothing else |
| Interface.SetStatus | ToneTrace/InterfaceManager.swift:92-94 | `updateStatusLabel(text: t)` sets the status text to exactly `t` and leaves score, score text and high-score text alone |
| Interface.AddToScoreAdditive | ToneTrace/InterfaceManager.swift:81-84 | updating by `a` and then by `b` equals one update by `a + b` |
| Interface.RefreshScoreLabelWhenSynced | ToneTrace/InterfaceManager.swift:87-89 | `updateScoreLabel` changes nothing when the label already agrees with the score |
| Interface.UpdatesKeepSynced | ToneTrace/InterfaceManager.swift:9-13 | every label update keeps the score label equal to `"Score: \(score)"` |
| Interface.InterfaceManager.constructor | ToneTrace/InterfaceManager.swift:15-21 | a new manager holds the initial labels and satisfies the invariant |
| Interface.InterfaceManager.SetScore | ToneTrace/InterfaceManager.swift:9-13 | the `score` setter with its `didSet` keeps the invariant and yields `AssignScore` of the old labels |
| Interface.InterfaceManager.UpdateScore | ToneTrace/InterfaceManager.swift:81-84 | keeps the invariant and yields `AddToScore` of the old labels |
| Interface.InterfaceManager.UpdateScoreLabel | ToneTrace/InterfaceManager.swift:87-89 | keeps the invariant and yields `RefreshScoreLabel` of the old labels |
| Interface.InterfaceManager.UpdateStatusLabel | ToneTrace/InterfaceManager.swift:92-94 | keeps the invariant and yields `SetStatus` of the old labels |
| GameState.ResetScene | ToneTrace/GameStateManager.swift:33-41 | a reset scene is inactive, takes no input, has empty sequences, level 1, score 0 shown as "Score: 0", the reset message, and the same high-score text |
| GameState.ShowStatus | ToneTrace/GameStateManager.swift:21 | `gameScene?.interfaceManager.updateStatusLabel(text:)` (also at line 29) keeps the state and the presence of the scene, sets a present scene's status text to the given text and changes nothing else in it |
| GameState.Reset | ToneTrace/GameStateManager.swift:33-41 | `resetGame` keeps the state and the presence of the scene and leaves a nil-scene session unchanged; the clearing itself is stated by ResetScene, ResetClears, ResetIdempotent and TransitionsSync |
| GameState.Start | ToneTrace/GameStateManager.swift:18-22 | `startGame` up to `prepareForNewSequence` always ends in `active`; the rest is stated by StartActivates, StartForgetsPriorSession, NoSceneOnlyState and TransitionsSync |
| GameState.End | ToneTrace/GameStateManager.swift:26-30 | `endGame` always ends in `gameOver`; the rest is stated by EndFinishes, NoSceneOnlyState and TransitionsSync |
| GameState.ResetClears | ToneTrace/GameStateManager.swift:33-41 | `resetGame` never changes the state, leaves a nil scene as it is and clears a present one |
| GameState.ResetIdempotent | ToneTrace/GameStateManager.swift:33-41 | resetting twice equals resetting once |
| GameState.StartActivates | ToneTrace/GameStateManager.swift:18-22 | `startGame` ends in `active` from any state, with a cleared scene whose status "Get ready..." overwrites the reset message; this is the state `prepareForNewSequence` receives |
| GameState.StartForgetsPriorSession | ToneTrace/GameStateManager.swift:18-22 | with no guard, what `startGame` leaves does not depend on the prior state, score, level or sequences |
| GameState.EndFinishes | ToneTrace/GameStateManager.swift:26-30 | `endGame` ends in `gameOver` with a cleared scene showing "Game Over! Press Begin to play again." |
| GameState.NoSceneOnlyState | ToneTrace/GameStateManager.swift:11-30 | with a nil scene, `startGame` and `endGame` change only `currentState` |
| GameState.TransitionsSync | ToneTrace/GameStateManager.swift:33-41 | after a reset, a start or an end, the score label agrees with the score |
| GameState.GameStateManager.constructor | ToneTrace/GameStateManager.swift:10-15 | a new manager is in `waitingToStart`, refers to the given scene and, given a valid scene, satisfies the invariant its methods require |
| GameState.GameStateManager.ResetGame | ToneTrace/GameStateManager.swift:33-41 | changes only the scene objects, keeps the invariant and yields `Reset` of the old session |
| GameState.GameStateManager.StartGame | ToneTrace/GameStateManager.swift:18-22 | keeps the scene reference and the invariant and yields `Start` of the old session |
| GameState.GameStateManager.EndGame | ToneTrace/GameStateManager.swift:26-30 | keeps the scene reference and the invariant and yields `End` of the old session |

## Left out

- `prepareForNewSequence`, called at the end of `startGame`: its body is not part of this model. `StartGame` stops just before that call, and its contract describes the state the call receives.
- The SpriteKit layout in `InterfaceManager` (game-area rectangle, fonts, colours, label positions): rendering geometry over floating point. Only the text of each label is modelled.
- `GameScene.swift` (`setupSquares`): it builds coloured shape nodes and declares none of the fields the manager writes. `GameScene` here holds those fields abstractly, and its constructor promises only the link to its `InterfaceManager`. That link is a constant, so the model does not cover replacing the scene's interface manager.
- `AudioManager.swift` (audio playback over AVFoundation) and `AppDelegate.swift` (window bootstrapping): foreign side effects.
- The release of a weakly referenced scene happens outside the manager. The model lets `gameScene` be nil but has no operation that makes it nil. Each manager method tests the reference once where Swift tests it on every line. On one thread nothing can release the scene between those lines.
- Interface.AddToScore and Interface.InterfaceManager.UpdateScore: require the new score to fit in Swift's 64-bit `Int`, because `score += points` traps on overflow. The trap itself is not modelled.
