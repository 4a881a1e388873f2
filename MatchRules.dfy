/**
  The match state machine of `Game`, as values: one `MatchState` holds every
  member of the game object that its logic reads or writes, and one
  `FrameInput` holds what the frame reads from outside (the elapsed time, the
  two keys, and what the ball and bot paddle report). The class in module
  PongGame is proved to change its fields exactly as these functions say.
 */
module MatchRules {
  import opened Presenter
  import opened Controls

  const WindowWidth: real := 1280.0
  const WindowHeight: real := 960.0

  /** The arguments of the latest `Ball::reset` call, if any. */
  datatype BallReset = NotReset | Reset(centerX: real, centerY: real, direction: int)

  /**
    One frame's inputs. `ballY` is the ball's y and `botTop`, `botHeight` the
    bot paddle's top and height when `updateAI` reads them; `goal` is what
    `Ball::checkGoal` returns after the ball has moved (-1 left wing, +1 right
    wing, anything else no goal).
   */
  datatype FrameInput = FrameInput(
    dt: real, keyW: bool, keyS: bool,
    ballY: real, botTop: real, botHeight: real,
    goal: int)

  /**
    The game's state. Besides the members of `Game`, it records the abstract
    effects on the parts not modelled here: the latest reset of the ball, how
    many frames advanced the ball (update and collisions), and the directions
    last passed to the two paddles' `move`.
   */
  datatype MatchState = MatchState(
    scorePlayer: int, scoreBot: int, maxScore: int,
    ballWaiting: bool, ballWaitTimer: real, ballWaitTime: real,
    gameOver: bool,
    lastReset: BallReset, ballSteps: nat,
    playerDir: int, botDir: int,
    scoreText: string, gameOverText: string)

  /** The state the constructor leaves: the member initialisers and the two initial labels. */
  function Initial(): (r: MatchState)
    ensures Inv(r)
  {
    MatchState(0, 0, 5, true, 0.0, 1.0, false, NotReset, 0, 0, 0, "0 : 0", "")
  }

  /** `Game::checkGoals`: credit the goal, serve, re-enter the pause, then latch game over. */
  function CheckGoals(s: MatchState, goal: int): (r: MatchState)
    ensures r.scorePlayer + r.scoreBot
         == s.scorePlayer + s.scoreBot + (if goal == -1 || goal == 1 then 1 else 0)
    ensures r.gameOver <==> s.gameOver || r.scorePlayer >= r.maxScore || r.scoreBot >= r.maxScore
    ensures r.gameOver && !s.gameOver ==> !r.ballWaiting
  {
    var credited :=
      if goal == -1 then
        s.(scoreBot := s.scoreBot + 1, lastReset := Reset(WindowWidth / 2.0, WindowHeight / 2.0, -1),
           ballWaiting := true, ballWaitTimer := 0.0)
      else if goal == 1 then
        s.(scorePlayer := s.scorePlayer + 1, lastReset := Reset(WindowWidth / 2.0, WindowHeight / 2.0, 1),
           ballWaiting := true, ballWaitTimer := 0.0)
      else s;
    if credited.scorePlayer >= credited.maxScore || credited.scoreBot >= credited.maxScore then
      credited.(gameOver := true, ballWaiting := false)
    else credited
  }

  /** `Game::updateScore`: rewrite both labels from the current scores and flag. */
  function UpdateScore(s: MatchState): (r: MatchState)
    ensures && r.scorePlayer == s.scorePlayer && r.scoreBot == s.scoreBot && r.maxScore == s.maxScore
            && r.ballWaiting == s.ballWaiting && r.ballWaitTimer == s.ballWaitTimer
            && r.ballWaitTime == s.ballWaitTime && r.gameOver == s.gameOver
            && r.lastReset == s.lastReset && r.ballSteps == s.ballSteps
            && r.playerDir == s.playerDir && r.botDir == s.botDir
    ensures LabelsShow(r)
    ensures r.gameOverText == "" <==> !s.gameOver
    ensures r.gameOverText == DrawText <==> s.gameOver && s.scorePlayer == s.scoreBot
  {
    s.(scoreText := ScoreLabel(s.scorePlayer, s.scoreBot),
       gameOverText := ResultLabel(s.gameOver, s.scorePlayer, s.scoreBot))
  }

  /** `Game::update`: both paddles always move; the ball moves and goals count only before game over. */
  function ActiveUpdate(s: MatchState, f: FrameInput): (r: MatchState)
    ensures r.playerDir == PlayerDirection(f.keyW, f.keyS)
    ensures r.botDir == AIDirection(f.ballY, f.botTop, f.botHeight)
    ensures r.ballSteps == s.ballSteps + (if s.gameOver then 0 else 1)
    ensures s.gameOver ==> && r.gameOver && r.scorePlayer == s.scorePlayer && r.scoreBot == s.scoreBot
                           && r.lastReset == s.lastReset && r.ballWaiting == s.ballWaiting
    ensures var c := CheckGoals(s, f.goal);
      !s.gameOver ==> && r.scorePlayer == c.scorePlayer && r.scoreBot == c.scoreBot
                      && r.lastReset == c.lastReset && r.ballWaiting == c.ballWaiting
                      && r.ballWaitTimer == c.ballWaitTimer && r.gameOver == c.gameOver
    ensures LabelsShow(r)
  {
    var moved := s.(playerDir := PlayerDirection(f.keyW, f.keyS),
                    botDir := AIDirection(f.ballY, f.botTop, f.botHeight));
    var played := if !moved.gameOver then CheckGoals(moved.(ballSteps := moved.ballSteps + 1), f.goal)
                  else moved;
    UpdateScore(played)
  }

  /**
    The pause branch of `Game::run`: accumulate time, move the paddles, end
    the pause exactly when the new timer is due, and leave the scores, the
    ball and both labels alone.
   */
  function PauseFrame(s: MatchState, f: FrameInput): (r: MatchState)
    ensures && r.scorePlayer == s.scorePlayer && r.scoreBot == s.scoreBot && r.gameOver == s.gameOver
            && r.lastReset == s.lastReset && r.ballSteps == s.ballSteps
            && r.scoreText == s.scoreText && r.gameOverText == s.gameOverText
    ensures r.ballWaitTimer == s.ballWaitTimer + f.dt
    ensures r.playerDir == PlayerDirection(f.keyW, f.keyS) && r.botDir == AIDirection(f.ballY, f.botTop, f.botHeight)
    ensures r.ballWaiting <==> s.ballWaiting && s.ballWaitTimer + f.dt < s.ballWaitTime
  {
    var timer := s.ballWaitTimer + f.dt;
    s.(ballWaitTimer := timer,
       playerDir := PlayerDirection(f.keyW, f.keyS),
       botDir := AIDirection(f.ballY, f.botTop, f.botHeight),
       ballWaiting := if timer >= s.ballWaitTime then false else s.ballWaiting)
  }

  /**
    One iteration of the loop in `Game::run`. Neither score decreases, at
    most one point is scored, and a finished game stays finished with the
    same scores.
   */
  function Step(s: MatchState, f: FrameInput): (r: MatchState)
    ensures r.scorePlayer >= s.scorePlayer && r.scoreBot >= s.scoreBot
    ensures r.scorePlayer + r.scoreBot <= s.scorePlayer + s.scoreBot + 1
    ensures s.gameOver ==> r.gameOver && r.scorePlayer == s.scorePlayer && r.scoreBot == s.scoreBot
    ensures r.maxScore == s.maxScore && r.ballWaitTime == s.ballWaitTime
  {
    if s.ballWaiting then PauseFrame(s, f) else ActiveUpdate(s, f)
  }

  /** The loop of `Game::run` over a sequence of frames, until the window closes. */
  function Run(s: MatchState, frames: seq<FrameInput>): (r: MatchState)
    ensures r.maxScore == s.maxScore && r.ballWaitTime == s.ballWaitTime
    decreases |frames|
  {
    if frames == [] then s else Run(Step(s, frames[0]), frames[1..])
  }

  /**
    What holds of every state reachable from `Initial()`: both scores lie in
    0..maxScore, the game is over exactly when one score has reached maxScore,
    never both reach it, a finished game does not pause, and both labels show
    the current state.
   */
  predicate Inv(s: MatchState) {
    && s.maxScore >= 1
    && 0 <= s.scorePlayer <= s.maxScore
    && 0 <= s.scoreBot <= s.maxScore
    && (s.gameOver <==> s.scorePlayer == s.maxScore || s.scoreBot == s.maxScore)
    && !(s.scorePlayer == s.maxScore && s.scoreBot == s.maxScore)
    && (s.gameOver ==> !s.ballWaiting)
    && LabelsShow(s)
  }

  /** Both labels show the state's scores and game-over flag. */
  predicate LabelsShow(s: MatchState) {
    && s.scoreText == ScoreLabel(s.scorePlayer, s.scoreBot)
    && s.gameOverText == ResultLabel(s.gameOver, s.scorePlayer, s.scoreBot)
  }

  /** The constructor's state: 0 : 0, threshold 5, pausing for 1 second, game not over. */
  lemma InitialState()
    ensures Initial().scorePlayer == 0 && Initial().scoreBot == 0 && Initial().maxScore == 5
    ensures Initial().ballWaiting && Initial().ballWaitTimer == 0.0 && Initial().ballWaitTime == 1.0
    ensures !Initial().gameOver
    ensures Initial().scoreText == "0 : 0" && Initial().gameOverText == ""
  {
  }

  /** One call of `checkGoals` credits exactly the scoring side and serves. */
  lemma GoalCrediting(s: MatchState, goal: int)
    ensures var r := CheckGoals(s, goal);
      && (goal == -1 ==> r.scoreBot == s.scoreBot + 1 && r.scorePlayer == s.scorePlayer
                         && r.lastReset == Reset(640.0, 480.0, -1))
      && (goal == 1 ==> r.scorePlayer == s.scorePlayer + 1 && r.scoreBot == s.scoreBot
                        && r.lastReset == Reset(640.0, 480.0, 1))
      && (goal != -1 && goal != 1 ==> r.scorePlayer == s.scorePlayer && r.scoreBot == s.scoreBot
                                      && r.lastReset == s.lastReset)
      && (goal != -1 && goal != 1 && !r.gameOver ==> r == s)
      && (goal == -1 || goal == 1 ==> r.ballWaitTimer == 0.0)
      && ((goal == -1 || goal == 1) && !r.gameOver ==> r.ballWaiting)
      && (r.scorePlayer >= r.maxScore || r.scoreBot >= r.maxScore ==> r.gameOver && !r.ballWaiting)
  {
  }

  /** When no score changes, a second check changes nothing more. */
  lemma CheckGoalsIdempotent(s: MatchState, goal: int)
    ensures CheckGoals(CheckGoals(s, goal), 0) == CheckGoals(s, goal)
  {
  }

  /** After game over the paddles still follow their inputs, while the ball and the scores stay put. */
  lemma PaddlesMoveAfterGameOver(s: MatchState, f: FrameInput)
    requires s.gameOver && !s.ballWaiting
    ensures var r := Step(s, f);
      && r.playerDir == PlayerDirection(f.keyW, f.keyS)
      && r.botDir == AIDirection(f.ballY, f.botTop, f.botHeight)
      && r.scorePlayer == s.scorePlayer && r.scoreBot == s.scoreBot
      && r.ballSteps == s.ballSteps && r.lastReset == s.lastReset
      && r.gameOver && !r.ballWaiting
  {
  }

  lemma StepPreservesInv(s: MatchState, f: FrameInput)
    requires Inv(s)
    ensures Inv(Step(s, f))
  {
  }

  lemma {:induction false} RunPreservesInv(s: MatchState, frames: seq<FrameInput>)
    requires Inv(s)
    ensures Inv(Run(s, frames))
    decreases |frames|
  {
    if frames != [] {
      StepPreservesInv(s, frames[0]);
      RunPreservesInv(Step(s, frames[0]), frames[1..]);
    }
  }

  /** Every state the game loop reaches satisfies the invariant. */
  lemma ReachableInv(frames: seq<FrameInput>)
    ensures Inv(Run(Initial(), frames))
  {
    RunPreservesInv(Initial(), frames);
  }

  /** In a reachable finished game exactly one side has `maxScore`, so the draw message never shows. */
  lemma DrawUnreachable(frames: seq<FrameInput>)
    ensures var s := Run(Initial(), frames);
      && (s.gameOver ==> (s.scorePlayer == s.maxScore) != (s.scoreBot == s.maxScore))
      && (s.gameOver ==> s.scorePlayer != s.scoreBot)
      && s.gameOverText != DrawText
  {
    ReachableInv(frames);
  }

  /** The score label of every reachable state reads back as the current scores. */
  lemma ScoreTextShowsScores(frames: seq<FrameInput>)
    ensures var s := Run(Initial(), frames);
      ParseScoreLabel(s.scoreText) == Some((s.scorePlayer, s.scoreBot))
  {
    ReachableInv(frames);
    var s := Run(Initial(), frames);
    ScoreLabelInverts(s.scorePlayer, s.scoreBot);
  }

  /** Game over is a latch: no sequence of frames reverts it or changes a score afterwards. */
  lemma {:induction false} GameOverLatched(s: MatchState, frames: seq<FrameInput>)
    requires s.gameOver
    ensures Run(s, frames).gameOver
    ensures Run(s, frames).scorePlayer == s.scorePlayer && Run(s, frames).scoreBot == s.scoreBot
    decreases |frames|
  {
    if frames != [] {
      GameOverLatched(Step(s, frames[0]), frames[1..]);
    }
  }

  /** Scores never decrease, and each frame adds at most one point in all. */
  lemma {:induction false} ScoresGrowByGoals(s: MatchState, frames: seq<FrameInput>)
    ensures Run(s, frames).scorePlayer >= s.scorePlayer
    ensures Run(s, frames).scoreBot >= s.scoreBot
    ensures Run(s, frames).scorePlayer + Run(s, frames).scoreBot <= s.scorePlayer + s.scoreBot + |frames|
    decreases |frames|
  {
    if frames != [] {
      ScoresGrowByGoals(Step(s, frames[0]), frames[1..]);
    }
  }

  const ServeFrame: FrameInput := FrameInput(1.0, false, false, 480.0, 430.0, 100.0, 0)
  const RightWingFrame: FrameInput := FrameInput(0.016, false, false, 480.0, 430.0, 100.0, 1)

  /** From a pause at `i : 0`, a frame that ends the pause and a right-wing goal give `i + 1 : 0`. */
  lemma ServeThenRightWingGoal(s: MatchState, i: int)
    requires 0 <= i < 5
    requires s.scorePlayer == i && s.scoreBot == 0 && s.maxScore == 5 && s.ballWaitTime == 1.0
    requires s.ballWaiting && s.ballWaitTimer == 0.0 && !s.gameOver
    ensures var r := Step(Step(s, ServeFrame), RightWingFrame);
      && r.scorePlayer == i + 1 && r.scoreBot == 0 && r.maxScore == 5 && r.ballWaitTime == 1.0
      && r.ballWaiting == (i + 1 < 5) && r.ballWaitTimer == 0.0 && r.gameOver == (i + 1 == 5)
      && r.scoreText == ScoreLabel(i + 1, 0) && r.gameOverText == ResultLabel(i + 1 == 5, i + 1, 0)
  {
  }

  /** `n` rounds of a frame that ends the pause followed by a right-wing goal. */
  function RightWingRounds(n: nat): seq<FrameInput> {
    if n == 0 then [] else [ServeFrame, RightWingFrame] + RightWingRounds(n - 1)
  }

  lemma {:induction false} RightWingRoundsScore(s: MatchState, i: int, n: nat)
    requires 0 <= i && i + n <= 5
    requires s.scorePlayer == i && s.scoreBot == 0 && s.maxScore == 5 && s.ballWaitTime == 1.0
    requires s.ballWaiting == (i < 5) && s.ballWaitTimer == 0.0 && s.gameOver == (i == 5)
    ensures var r := Run(s, RightWingRounds(n));
      && r.scorePlayer == i + n && r.scoreBot == 0 && r.gameOver == (i + n == 5)
      && (n > 0 ==> r.scoreText == ScoreLabel(i + n, 0) && r.gameOverText == ResultLabel(i + n == 5, i + n, 0))
    decreases n
  {
    if n > 0 {
      var rounds := RightWingRounds(n);
      assert rounds[0] == ServeFrame && rounds[1..][0] == RightWingFrame;
      assert rounds[1..][1..] == RightWingRounds(n - 1);
      ServeThenRightWingGoal(s, i);
      RightWingRoundsScore(Step(Step(s, ServeFrame), RightWingFrame), i + 1, n - 1);
    }
  }

  /**
    From the start, five rounds of a frame that ends the pause followed by a
    frame in which the ball crosses the right wing end the match at 5 : 0 with
    the player's victory message.
   */
  lemma FiveRightWingGoals()
    ensures var s := Run(Initial(), RightWingRounds(5));
            s.gameOver && s.scoreText == "5 : 0" && s.gameOverText == PlayerWinsText
  {
    RightWingRoundsScore(Initial(), 0, 5);
    ReachableInv(RightWingRounds(5));
    FiveNilLabel();
  }

  lemma FiveNilLabel()
    ensures ScoreLabel(5, 0) == "5 : 0"
  {
  }
}
