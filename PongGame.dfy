/**
  The `Game` object of the game: its members and the per-frame methods that
  update them in place. Each method is proved to change the fields exactly as
  the matching function of MatchRules changes a `MatchState`, so every lemma
  proved there holds of the object.
 */
module PongGame {
  import opened Presenter
  import opened Controls
  import opened MatchRules

  class Game {
    var scorePlayer: int
    var scoreBot: int
    const maxScore: int
    var ballWaiting: bool
    var ballWaitTimer: real
    const ballWaitTime: real
    var gameOver: bool

    // Abstract effects on the ball and the paddles, whose code is not part of this model.
    var lastReset: BallReset
    var ballSteps: nat
    var playerDir: int
    var botDir: int

    // The strings of the two text objects.
    var scoreText: string
    var gameOverText: string

    /** The object's state as a value. */
    ghost function Snapshot(): MatchState
      reads this
    {
      MatchState(scorePlayer, scoreBot, maxScore, ballWaiting, ballWaitTimer, ballWaitTime,
                 gameOver, lastReset, ballSteps, playerDir, botDir, scoreText, gameOverText)
    }

    ghost predicate Valid()
      reads this
    {
      Inv(Snapshot())
    }

    /** The member initialisers and the two initial label strings. */
    constructor ()
      ensures scorePlayer == 0 && scoreBot == 0 && maxScore == 5
      ensures ballWaiting && ballWaitTimer == 0.0 && ballWaitTime == 1.0 && !gameOver
      ensures scoreText == "0 : 0" && gameOverText == ""
      ensures Snapshot() == Initial()
      ensures Valid()
    {
      scorePlayer, scoreBot, maxScore := 0, 0, 5;
      ballWaiting, ballWaitTimer, ballWaitTime := true, 0.0, 1.0;
      gameOver := false;
      lastReset, ballSteps, playerDir, botDir := NotReset, 0, 0, 0;
      scoreText := "0 : 0";
      gameOverText := "";
    }

    method CheckGoals(goal: int)
      modifies this
      ensures Snapshot() == MatchRules.CheckGoals(old(Snapshot()), goal)
      ensures goal == -1 ==> scoreBot == old(scoreBot) + 1 && scorePlayer == old(scorePlayer)
                             && lastReset == Reset(640.0, 480.0, -1)
      ensures goal == 1 ==> scorePlayer == old(scorePlayer) + 1 && scoreBot == old(scoreBot)
                            && lastReset == Reset(640.0, 480.0, 1)
      ensures goal != -1 && goal != 1 ==> scorePlayer == old(scorePlayer) && scoreBot == old(scoreBot)
      ensures goal == -1 || goal == 1 ==> ballWaitTimer == 0.0
      ensures (goal == -1 || goal == 1) && !gameOver ==> ballWaiting
      ensures scorePlayer >= maxScore || scoreBot >= maxScore ==> gameOver && !ballWaiting
      ensures old(gameOver) ==> gameOver
    {
      if goal == -1 {
        scoreBot := scoreBot + 1;
        lastReset := Reset(WindowWidth / 2.0, WindowHeight / 2.0, -1);
        ballWaiting := true;
        ballWaitTimer := 0.0;
      } else if goal == 1 {
        scorePlayer := scorePlayer + 1;
        lastReset := Reset(WindowWidth / 2.0, WindowHeight / 2.0, 1);
        ballWaiting := true;
        ballWaitTimer := 0.0;
      }
      if scorePlayer >= maxScore || scoreBot >= maxScore {
        gameOver := true;
        ballWaiting := false;
      }
    }

    method UpdateScore()
      modifies this`scoreText, this`gameOverText
      ensures scoreText == ScoreLabel(scorePlayer, scoreBot)
      ensures gameOverText == ResultLabel(gameOver, scorePlayer, scoreBot)
      ensures Snapshot() == MatchRules.UpdateScore(old(Snapshot()))
    {
      scoreText := IntToString(scorePlayer) + " : " + IntToString(scoreBot);
      if gameOver {
        if scorePlayer > scoreBot {
          gameOverText := PlayerWinsText;
        } else if scoreBot > scorePlayer {
          gameOverText := BotWinsText;
        } else {
          gameOverText := DrawText;
        }
      } else {
        gameOverText := "";
      }
    }

    /** `Game::update`: paddles first, then the ball and the goal check unless the game is over. */
    method Update(f: FrameInput)
      modifies this
      ensures Snapshot() == ActiveUpdate(old(Snapshot()), f)
      ensures playerDir == PlayerDirection(f.keyW, f.keyS)
      ensures botDir == AIDirection(f.ballY, f.botTop, f.botHeight)
    {
      ghost var s0 := Snapshot();
      playerDir := PlayerDirection(f.keyW, f.keyS);
      botDir := AIDirection(f.ballY, f.botTop, f.botHeight);
      ghost var moved := Snapshot();
      if !gameOver {
        ballSteps := ballSteps + 1;
        assert Snapshot() == moved.(ballSteps := moved.ballSteps + 1);
        CheckGoals(f.goal);
        assert Snapshot() == MatchRules.CheckGoals(moved.(ballSteps := moved.ballSteps + 1), f.goal);
      } else {
        assert Snapshot() == moved;
      }
      ghost var played := Snapshot();
      UpdateScore();
      ActiveUpdateInSteps(s0, f, moved, played, Snapshot());
    }

    /** Proof helper: `Update`'s three steps compose to `ActiveUpdate`. */
    static lemma ActiveUpdateInSteps(s: MatchState, f: FrameInput, moved: MatchState, played: MatchState, r: MatchState)
      requires moved == s.(playerDir := PlayerDirection(f.keyW, f.keyS),
                           botDir := AIDirection(f.ballY, f.botTop, f.botHeight))
      requires played == if !moved.gameOver then MatchRules.CheckGoals(moved.(ballSteps := moved.ballSteps + 1), f.goal)
                         else moved
      requires r == MatchRules.UpdateScore(played)
      ensures r == ActiveUpdate(s, f)
    {
    }

    /** The body of the loop in `Game::run`: the pause branch, or else `update`. */
    method Frame(f: FrameInput)
      modifies this
      ensures Snapshot() == Step(old(Snapshot()), f)
      ensures old(ballWaiting) ==> ballWaitTimer == old(ballWaitTimer) + f.dt
                                   && (ballWaiting <==> ballWaitTimer < ballWaitTime)
                                   && scorePlayer == old(scorePlayer) && scoreBot == old(scoreBot)
                                   && gameOver == old(gameOver) && ballSteps == old(ballSteps)
      ensures old(gameOver) ==> gameOver
      ensures old(Valid()) ==> Valid()
    {
      if ballWaiting {
        ballWaitTimer := ballWaitTimer + f.dt;
        playerDir := PlayerDirection(f.keyW, f.keyS);
        botDir := AIDirection(f.ballY, f.botTop, f.botHeight);
        if ballWaitTimer >= ballWaitTime {
          ballWaiting := false;
        }
      } else {
        Update(f);
      }
      if old(Valid()) {
        StepPreservesInv(old(Snapshot()), f);
      }
    }

    /** The loop of `Game::run`, one iteration per frame until the window closes. */
    method Run(frames: seq<FrameInput>)
      requires Valid()
      modifies this
      ensures Snapshot() == MatchRules.Run(old(Snapshot()), frames)
      ensures Valid()
      ensures scorePlayer >= old(scorePlayer) && scoreBot >= old(scoreBot)
      ensures old(gameOver) ==> gameOver && scorePlayer == old(scorePlayer) && scoreBot == old(scoreBot)
    {
      var i := 0;
      while i < |frames|
        invariant 0 <= i <= |frames|
        invariant Valid()
        invariant MatchRules.Run(Snapshot(), frames[i..]) == MatchRules.Run(old(Snapshot()), frames)
        invariant scorePlayer >= old(scorePlayer) && scoreBot >= old(scoreBot)
        invariant old(gameOver) ==> gameOver && scorePlayer == old(scorePlayer) && scoreBot == old(scoreBot)
      {
        ghost var before := Snapshot();
        Frame(frames[i]);
        assert frames[i..][1..] == frames[i + 1..];
        ScoresGrowByGoals(before, [frames[i]]);
        if before.gameOver {
          GameOverLatched(before, [frames[i]]);
        }
        i := i + 1;
      }
      assert frames[i..] == [];
    }
  }
}
