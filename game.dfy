/** The ColorGame component's state and the events that change it: starting
    a game, the one-second reveal and game timers, a guess, the 500 ms
    continuation after a correct guess, quitting and resetting the high score.
    Each timer firing is an explicit method call. */
module Game {
  import opened Wrappers
  import opened Colors
  import opened Difficulty
  import opened Options

  datatype Screen = MainMenu | DifficultyMenu | HighScoreScreen | Rules | GameScreen | GameOver

  const CorrectStatus: string := "Correct \U{1F604}!"
  const WrongStatus: string := "Wrong guess \U{1F625}!"

  /** The whole state of the component at one moment. `pending` holds, in
      firing order, the tier captured by each scheduled 500 ms continuation. */
  datatype State = State(
    screen: Screen,
    difficulty: Option<Tier>,
    targetColor: Color,
    colorOptions: seq<Color>,
    score: nat,
    highScore: nat,
    gameStatus: string,
    timeRemaining: int,
    isColorRevealed: bool,
    revealCountdown: int,
    isModalOpen: bool,
    pending: seq<Tier>)

  /** A round on display: the target is an upper-case random colour and is
      one of the distinct options. */
  predicate RoundOk(target: Color, options: seq<Color>) {
    IsUpperHexColor(target) && target in options && Distinct(options)
  }

  /** A new round of tier t: a random target from six draws and its options.
      None when the option draws run out. */
  function RoundOf(t: Tier, targetDraws: seq<Draw>, optionDraws: seq<Draw>, swaps: seq<(nat, nat)>)
    : Option<(Color, seq<Color>)>
    requires |targetDraws| == 6
  {
    var target := RandomColor(targetDraws);
    match ColorOptions(target, t, optionDraws, swaps)
    case None => None
    case Some(options) => Some((target, options))
  }

  /** The two steps startGame and the continuation share: generateRandomColor
      followed by generateColorOptions on its result. */
  method NewRound(t: Tier, targetDraws: seq<Draw>, optionDraws: seq<Draw>, swaps: seq<(nat, nat)>)
    returns (round: Option<(Color, seq<Color>)>)
    requires |targetDraws| == 6
    ensures round == RoundOf(t, targetDraws, optionDraws, swaps)
    ensures round.Some? ==> RoundOk(round.value.0, round.value.1)
    ensures round.Some? ==> |round.value.1| == Level(t).optionCount
  {
    var newTarget := GenerateRandomColor(targetDraws);
    var newOptions := GenerateColorOptions(newTarget, t, optionDraws, swaps);
    if newOptions.None? {
      return None;
    }
    round := Some((newTarget, newOptions.value));
  }

  /** Rounds do occur: with the target from six draws 0/16 ("#000000") and
      candidates from six draws j/16 each for j = 1..5, an easy round is
      generated whatever the shuffle, with the six uniform colours. */
  lemma EasyRoundExists(swaps: seq<(nat, nat)>)
    ensures UniformColor(0) == "#000000"
    ensures RoundOf(Easy, Uniform(0), UniformDraws(1), swaps)
            == Some((UniformColor(0), Shuffle(UniformHeld(6), swaps)))
  {
    assert Scale(Fraction(0, 16), 16) == 0;
    assert UniformHeld(1) == [UniformColor(0)];
    GrowUniform(1);
  }

  class ColorGame {
    var screen: Screen
    var difficulty: Option<Tier>
    var targetColor: Color
    var colorOptions: seq<Color>
    var score: nat
    var highScore: nat
    var gameStatus: string
    var timeRemaining: int
    var isColorRevealed: bool
    var revealCountdown: int
    var isModalOpen: bool
    var pending: seq<Tier>

    function Snapshot(): State
      reads this
    {
      State(screen, difficulty, targetColor, colorOptions, score, highScore, gameStatus,
            timeRemaining, isColorRevealed, revealCountdown, isModalOpen, pending)
    }

    /** Before the first game nothing is chosen and no timer runs; after it,
        a round is on display, neither countdown is negative, and the target
        is hidden exactly when the reveal countdown has reached zero. */
    ghost predicate Valid()
      reads this
    {
      && timeRemaining >= 0
      && revealCountdown >= 0
      && (difficulty.None? ==>
            isColorRevealed && revealCountdown == 0 && screen != GameScreen && pending == [])
      && (difficulty.Some? ==>
            RoundOk(targetColor, colorOptions) && (isColorRevealed <==> revealCountdown > 0))
    }

    /** The initial values of the component's state hooks. */
    constructor ()
      ensures Valid()
      ensures Snapshot() == State(MainMenu, None, "", [], 0, 0, "", 0, true, 0, false, [])
    {
      screen, difficulty, targetColor, colorOptions := MainMenu, None, "", [];
      score, highScore, gameStatus := 0, 0, "";
      timeRemaining, isColorRevealed, revealCountdown := 0, true, 0;
      isModalOpen, pending := false, [];
    }

    /** startGame(t): a fresh target from six draws, its options, score 0,
        full timers and the target on display. `ok` is false only when the
        option draws run out, and then nothing changes. */
    method StartGame(t: Tier, targetDraws: seq<Draw>, optionDraws: seq<Draw>, swaps: seq<(nat, nat)>)
      returns (ok: bool)
      requires Valid() && |targetDraws| == 6
      modifies this
      ensures Valid()
      ensures var round := RoundOf(t, targetDraws, optionDraws, swaps);
        && ok == round.Some?
        && (ok ==> Snapshot() == old(Snapshot()).(
              difficulty := Some(t), targetColor := round.value.0, colorOptions := round.value.1,
              score := 0, gameStatus := "",
              revealCountdown := Level(t).revealTime, timeRemaining := Level(t).timeLimit,
              isColorRevealed := true, screen := GameScreen))
        && (!ok ==> Snapshot() == old(Snapshot()))
      ensures ok ==> targetColor in colorOptions && |colorOptions| == Level(t).optionCount
    {
      var round := NewRound(t, targetDraws, optionDraws, swaps);
      if round.None? {
        return false;
      }
      BeginGame(t, round.value.0, round.value.1);
      ok := true;
    }

    /** The state updates of startGame once its round is generated. */
    method BeginGame(t: Tier, target: Color, options: seq<Color>)
      requires RoundOk(target, options)
      modifies this
      ensures Valid()
      ensures difficulty == Some(t) && targetColor == target && colorOptions == options
      ensures score == 0 && gameStatus == "" && screen == GameScreen && isColorRevealed
      ensures revealCountdown == Level(t).revealTime && timeRemaining == Level(t).timeLimit
      ensures highScore == old(highScore) && isModalOpen == old(isModalOpen) && pending == old(pending)
    {
      var p := Level(t);
      difficulty, targetColor, colorOptions, score, gameStatus := Some(t), target, options, 0, "";
      revealCountdown, timeRemaining, isColorRevealed, screen := p.revealTime, p.timeLimit, true, GameScreen;
    }

    /** The reveal timer firing: only while the target is shown and the
        countdown is positive; counts down by one, and hides the target when
        the countdown goes from 1 to 0. Nothing else changes. */
    method RevealTick()
      requires Valid()
      modifies this
      ensures Valid()
      ensures old(isColorRevealed && revealCountdown > 0) ==>
        Snapshot() == old(Snapshot()).(revealCountdown := old(revealCountdown) - 1,
                                       isColorRevealed := old(revealCountdown) != 1)
      ensures !old(isColorRevealed && revealCountdown > 0) ==> Snapshot() == old(Snapshot())
    {
      if !isColorRevealed || revealCountdown <= 0 {
        return;
      }
      var was := revealCountdown;
      revealCountdown := revealCountdown - 1;
      if was == 1 {
        isColorRevealed := false;
      }
    }

    /** The game timer firing: only while the target is hidden on the game
        screen. A positive time counts down by one; at zero the game ends on
        this later tick, raising the high score to the score if it is higher. */
    method GameTick()
      requires Valid()
      modifies this
      ensures Valid()
      ensures timeRemaining >= 0 && highScore >= old(highScore)
      ensures old(!isColorRevealed && screen == GameScreen && timeRemaining > 0) ==>
        Snapshot() == old(Snapshot()).(timeRemaining := old(timeRemaining) - 1)
      ensures old(!isColorRevealed && screen == GameScreen && timeRemaining <= 0) ==>
        Snapshot() == old(Snapshot()).(
          highScore := if old(score) > old(highScore) then old(score) else old(highScore),
          screen := GameOver)
      ensures old(isColorRevealed || screen != GameScreen) ==> Snapshot() == old(Snapshot())
    {
      if isColorRevealed || screen != GameScreen {
        return;
      }
      if timeRemaining > 0 {
        timeRemaining := timeRemaining - 1;
      } else {
        if score > highScore {
          highScore := score;
        }
        screen := GameOver;
      }
    }

    /** handleGuess(color): ignored while the target is shown. A correct
        guess sets the status and schedules a continuation carrying the
        current tier; a wrong guess only sets the status. */
    method HandleGuess(color: Color)
      requires Valid()
      modifies this
      ensures Valid()
      ensures old(isColorRevealed) ==> Snapshot() == old(Snapshot())
      ensures !old(isColorRevealed) && color == old(targetColor) ==>
        Snapshot() == old(Snapshot()).(gameStatus := CorrectStatus,
                                       pending := old(pending) + [old(difficulty).value])
      ensures !old(isColorRevealed) && color != old(targetColor) ==>
        Snapshot() == old(Snapshot()).(gameStatus := WrongStatus)
    {
      if isColorRevealed {
        return;
      }
      if color == targetColor {
        gameStatus := CorrectStatus;
        pending := pending + [difficulty.value];
      } else {
        gameStatus := WrongStatus;
      }
    }

    /** The oldest pending 500 ms continuation firing, with the tier it
        captured: adds that tier's points, shows a fresh target with new
        options and restarts the reveal countdown. The status, the game time,
        the high score, the screen and the current tier are left as they
        are. `ok` is false only when the option draws run out, and then
        nothing changes. */
    method RoundWon(targetDraws: seq<Draw>, optionDraws: seq<Draw>, swaps: seq<(nat, nat)>)
      returns (ok: bool)
      requires Valid() && pending != [] && |targetDraws| == 6
      modifies this
      ensures Valid()
      ensures var t := old(pending[0]);
        var round := RoundOf(t, targetDraws, optionDraws, swaps);
        && ok == round.Some?
        && (ok ==> Snapshot() == old(Snapshot()).(
              pending := old(pending[1..]),
              score := old(score) + Level(t).pointsPerCorrect,
              targetColor := round.value.0, colorOptions := round.value.1,
              revealCountdown := Level(t).revealTime,
              isColorRevealed := true))
        && (!ok ==> Snapshot() == old(Snapshot()))
      ensures ok ==> targetColor in colorOptions && |colorOptions| == Level(old(pending[0])).optionCount
    {
      var round := NewRound(pending[0], targetDraws, optionDraws, swaps);
      if round.None? {
        return false;
      }
      NextRound(round.value.0, round.value.1);
      ok := true;
    }

    /** The state updates of the continuation once its round is generated. */
    method NextRound(target: Color, options: seq<Color>)
      requires pending != [] && difficulty.Some? && timeRemaining >= 0 && RoundOk(target, options)
      modifies this
      ensures Valid()
      ensures Snapshot() == old(Snapshot()).(
        pending := old(pending[1..]),
        score := old(score) + Level(old(pending[0])).pointsPerCorrect,
        targetColor := target, colorOptions := options,
        revealCountdown := Level(old(pending[0])).revealTime,
        isColorRevealed := true)
    {
      var t := pending[0];
      pending := pending[1..];
      score := score + Level(t).pointsPerCorrect;
      targetColor, colorOptions := target, options;
      revealCountdown := Level(t).revealTime;
      isColorRevealed := true;
    }

    /** handleQuit: opens the confirmation dialog. */
    method Quit()
      requires Valid()
      modifies this
      ensures Valid()
      ensures Snapshot() == old(Snapshot()).(isModalOpen := true)
    {
      isModalOpen := true;
    }

    /** handleConfirmQuit: closes the dialog and returns to the main menu;
        the score and the high score are kept as they are. */
    method ConfirmQuit()
      requires Valid()
      modifies this
      ensures Valid()
      ensures Snapshot() == old(Snapshot()).(isModalOpen := false, screen := MainMenu)
    {
      isModalOpen := false;
      screen := MainMenu;
    }

    /** handleCancelQuit: closes the dialog. */
    method CancelQuit()
      requires Valid()
      modifies this
      ensures Valid()
      ensures Snapshot() == old(Snapshot()).(isModalOpen := false)
    {
      isModalOpen := false;
    }

    /** The "Reset High Scores" button: the high score becomes 0 whatever it was. */
    method ResetHighScore()
      requires Valid()
      modifies this
      ensures Valid()
      ensures Snapshot() == old(Snapshot()).(highScore := 0)
    {
      highScore := 0;
    }

    /** The menu buttons that only switch screens. Only startGame enters the
        game screen. */
    method ShowScreen(s: Screen)
      requires Valid() && s != GameScreen
      modifies this
      ensures Valid()
      ensures Snapshot() == old(Snapshot()).(screen := s)
    {
      screen := s;
    }
  }

  /** A hard game with no guess: two reveal ticks hide the target, twenty
      game ticks run the clock down to zero with the game still on, and only
      the twenty-first ends it, with the high score unchanged at 0. */
  method HardGameTimesOut(targetDraws: seq<Draw>, optionDraws: seq<Draw>, swaps: seq<(nat, nat)>)
    returns (ok: bool, clock: int, atZero: Screen, afterwards: Screen, high: nat)
    requires |targetDraws| == 6
    ensures ok == RoundOf(Hard, targetDraws, optionDraws, swaps).Some?
    ensures ok ==> clock == 0 && atZero == GameScreen && afterwards == GameOver && high == 0
  {
    var g := new ColorGame();
    ok := g.StartGame(Hard, targetDraws, optionDraws, swaps);
    if !ok {
      return ok, 0, MainMenu, MainMenu, 0;
    }
    g.RevealTick();
    g.RevealTick();
    for i := 0 to 20
      invariant g.Valid() && g.screen == GameScreen && !g.isColorRevealed
      invariant g.timeRemaining == 20 - i && g.score == 0 && g.highScore == 0
    {
      g.GameTick();
    }
    clock, atZero := g.timeRemaining, g.screen;
    g.GameTick();
    afterwards := g.screen;
    high := g.highScore;
  }

  /** An easy game: once the six-second reveal is over, guessing the target
      shows the correct status, and the continuation scores one point and
      shows a new target; a quit afterwards keeps the score and high score. */
  method EasyCorrectGuess(targetDraws: seq<Draw>, optionDraws: seq<Draw>, swaps: seq<(nat, nat)>,
                          nextDraws: seq<Draw>, nextOptionDraws: seq<Draw>)
    returns (ok: bool, status: string, score: nat, revealed: bool, highAfterQuit: nat)
    requires |targetDraws| == 6 && |nextDraws| == 6
    ensures ok == (RoundOf(Easy, targetDraws, optionDraws, swaps).Some?
                   && RoundOf(Easy, nextDraws, nextOptionDraws, swaps).Some?)
    ensures ok ==> status == CorrectStatus && score == 1 && revealed && highAfterQuit == 0
  {
    status, score, revealed, highAfterQuit := "", 0, false, 0;
    var g := new ColorGame();
    ok := g.StartGame(Easy, targetDraws, optionDraws, swaps);
    if !ok {
      return;
    }
    for i := 0 to 6
      invariant g.Valid() && g.difficulty == Some(Easy) && g.score == 0 && g.highScore == 0
      invariant g.pending == [] && g.revealCountdown == 6 - i && g.isColorRevealed == (i < 6)
    {
      g.RevealTick();
    }
    g.HandleGuess(g.targetColor);
    status := g.gameStatus;
    ok := g.RoundWon(nextDraws, nextOptionDraws, swaps);
    if !ok {
      return;
    }
    score := g.score;
    revealed := g.isColorRevealed;
    g.ConfirmQuit();
    highAfterQuit := g.highScore;
  }

  /** Resetting the high score twice leaves the same state as resetting it once. */
  method ResetTwice(g: ColorGame) returns (once: State, twice: State)
    requires g.Valid()
    modifies g
    ensures once == old(g.Snapshot()).(highScore := 0)
    ensures twice == once
  {
    g.ResetHighScore();
    once := g.Snapshot();
    g.ResetHighScore();
    twice := g.Snapshot();
  }

  /** Two clicks on the target before the first continuation fires schedule
      two continuations: an easy game then scores two points, not one. */
  method EasyDoubleClick(targetDraws: seq<Draw>, optionDraws: seq<Draw>, swaps: seq<(nat, nat)>,
                         nextDraws: seq<Draw>, nextOptionDraws: seq<Draw>)
    returns (ok: bool, queued: nat, score: nat)
    requires |targetDraws| == 6 && |nextDraws| == 6
    ensures ok == (RoundOf(Easy, targetDraws, optionDraws, swaps).Some?
                   && RoundOf(Easy, nextDraws, nextOptionDraws, swaps).Some?)
    ensures ok ==> queued == 2 && score == 2
  {
    queued, score := 0, 0;
    var g := new ColorGame();
    ok := g.StartGame(Easy, targetDraws, optionDraws, swaps);
    if !ok {
      return;
    }
    for i := 0 to 6
      invariant g.Valid() && g.difficulty == Some(Easy) && g.score == 0
      invariant g.pending == [] && g.revealCountdown == 6 - i && g.isColorRevealed == (i < 6)
    {
      g.RevealTick();
    }
    g.HandleGuess(g.targetColor);
    g.HandleGuess(g.targetColor);
    queued := |g.pending|;
    ok := g.RoundWon(nextDraws, nextOptionDraws, swaps);
    if !ok {
      return;
    }
    ok := g.RoundWon(nextDraws, nextOptionDraws, swaps);
    if !ok {
      return;
    }
    score := g.score;
  }
}
