/**
  The score, high-score and status labels of `InterfaceManager`.

  `Labels` is the value the labels hold at one moment; the functions below
  are the updates the class performs, and class `InterfaceManager` carries
  them out on its fields. The `didSet` observer on `score` is what keeps
  `scoreText` equal to `"Score: \(score)"`: `Synced` names that invariant.
 */
module Interface {
  import opened Wrappers
  import Decimal

  /** Bounds of Swift's 64-bit `Int`; arithmetic past them traps. */
  const IntMin: int := -0x8000_0000_0000_0000
  const IntMax: int := 0x7fff_ffff_ffff_ffff

  predicate InInt(x: int) {
    IntMin <= x <= IntMax
  }

  const ScorePrefix: string := "Score: "
  const InitialHighScoreText: string := "High: 00"
  const WelcomeText: string := "Welcome to the Game!"

  /** The score label's text for a score: `"Score: \(score)"`. */
  function ScoreText(score: int): (r: string)
    ensures |r| > |ScorePrefix| && r[..|ScorePrefix|] == ScorePrefix
    ensures Decimal.IsCanonical(r[|ScorePrefix|..])
    ensures Decimal.Parse(r[|ScorePrefix|..]) == Some(score)
  {
    Decimal.RoundTrip(score);
    assert (ScorePrefix + Decimal.FromInt(score))[|ScorePrefix|..] == Decimal.FromInt(score);
    ScorePrefix + Decimal.FromInt(score)
  }

  /** The label of a zero score reads "Score: 0". */
  lemma ScoreTextOfZero()
    ensures ScoreText(0) == "Score: 0"
  {
  }

  /** The score label shows the score and nothing else: equal texts, equal scores. */
  lemma ScoreTextDeterminesScore(a: int, b: int)
    ensures ScoreText(a) == ScoreText(b) <==> a == b
  {
  }

  datatype Labels = Labels(score: int, scoreText: string, highScoreText: string, statusText: string)

  /** The `didSet` invariant, with the score inside Swift's `Int`. */
  predicate Synced(l: Labels) {
    InInt(l.score) && l.scoreText == ScoreText(l.score)
  }

  /** The labels right after `init`: score 0 and the three initial texts. */
  function Initial(): (l: Labels)
    ensures Synced(l)
    ensures l.score == 0 && l.scoreText == "Score: 0"
    ensures l.highScoreText == "High: 00" && l.statusText == "Welcome to the Game!"
  {
    ScoreTextOfZero();
    Labels(0, ScoreText(0), InitialHighScoreText, WelcomeText)
  }

  /** `score = s`: the stored score changes and `didSet` rewrites the score label. */
  function AssignScore(l: Labels, s: int): (r: Labels)
    requires InInt(s)
    ensures r.score == s && Synced(r)
    ensures r.highScoreText == l.highScoreText && r.statusText == l.statusText
  {
    l.(score := s, scoreText := ScoreText(s))
  }

  /** `updateScore(by: points)`: `score += points`, a signed delta with no floor. */
  function AddToScore(l: Labels, points: int): (r: Labels)
    requires InInt(l.score + points)
    ensures r.score == l.score + points && Synced(r)
    ensures r.highScoreText == l.highScoreText && r.statusText == l.statusText
  {
    AssignScore(l, l.score + points)
  }

  /** `updateScoreLabel()`: rewrites the score label from the stored score. */
  function RefreshScoreLabel(l: Labels): (r: Labels)
    ensures r.score == l.score && r.scoreText == ScoreText(l.score)
    ensures r.highScoreText == l.highScoreText && r.statusText == l.statusText
  {
    l.(scoreText := ScoreText(l.score))
  }

  /** `updateStatusLabel(text:)`: replaces the status text only. */
  function SetStatus(l: Labels, text: string): (r: Labels)
    ensures r.statusText == text
    ensures r.score == l.score && r.scoreText == l.scoreText && r.highScoreText == l.highScoreText
  {
    l.(statusText := text)
  }

  /** Two score updates in a row amount to one update by their sum. */
  lemma AddToScoreAdditive(l: Labels, a: int, b: int)
    requires InInt(l.score + a) && InInt(l.score + a + b)
    ensures AddToScore(AddToScore(l, a), b) == AddToScore(l, a + b)
  {
  }

  /** Refreshing the score label of synchronised labels changes nothing. */
  lemma RefreshScoreLabelWhenSynced(l: Labels)
    requires Synced(l)
    ensures RefreshScoreLabel(l) == l
  {
  }

  /** Every label update keeps the `didSet` invariant. */
  lemma UpdatesKeepSynced(l: Labels, points: int, text: string)
    requires Synced(l)
    ensures InInt(l.score + points) ==> Synced(AddToScore(l, points))
    ensures Synced(RefreshScoreLabel(l))
    ensures Synced(SetStatus(l, text))
  {
  }

  /**
    The three labels of the HUD. Swift keeps each text in an `SKLabelNode`;
    here each is the string that node shows.
   */
  class InterfaceManager {
    var score: int
    var scoreText: string
    var highScoreText: string
    var statusText: string

    function View(): Labels
      reads this
    {
      Labels(score, scoreText, highScoreText, statusText)
    }

    predicate Valid()
      reads this
    {
      Synced(View())
    }

    /** `init` followed by the label set-up: score 0, "Score: 0", "High: 00", welcome text. */
    constructor ()
      ensures Valid() && View() == Initial()
    {
      score := 0;
      scoreText := ScoreText(0);
      highScoreText := InitialHighScoreText;
      statusText := WelcomeText;
    }

    /** Assignment to the `score` property, with its `didSet` observer. */
    method SetScore(s: int)
      requires Valid() && InInt(s)
      modifies this
      ensures Valid() && View() == AssignScore(old(View()), s)
    {
      score := s;
      scoreText := ScoreText(score);
    }

    method UpdateScore(points: int)
      requires Valid() && InInt(score + points)
      modifies this
      ensures Valid() && View() == AddToScore(old(View()), points)
    {
      SetScore(score + points);
    }

    method UpdateScoreLabel()
      requires Valid()
      modifies this
      ensures Valid() && View() == RefreshScoreLabel(old(View()))
    {
      scoreText := ScoreText(score);
    }

    method UpdateStatusLabel(text: string)
      requires Valid()
      modifies this
      ensures Valid() && View() == SetStatus(old(View()), text)
    {
      statusText := text;
    }
  }
}
