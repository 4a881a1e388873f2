# Pong match state machine, in Dafny

This project models the game logic in `Game.cpp` of a two-paddle ball game (player against bot). The `Game` object keeps:

- the two scores and the winning threshold `maxScore`;
- a pause after every goal, made of the flag `ballWaiting`, the accumulated `ballWaitTimer` and the limit `ballWaitTime`;
- the latch `gameOver`;
- the strings of the score label and the game-over label.

Each frame of the main loop does one of two things. While the pause runs, it adds the elapsed time to the timer, moves both paddles and ends the pause once the timer reaches the limit. Otherwise it runs `update`: it moves the paddles; unless the game is over, it advances the ball and checks for a goal; and then, in every case, it rewrites the labels.

The project has four modules:

- `Presenter` (`Presenter.dfy`): `std::to_string`, the score label and the game-over label. It also has parsers that read a label back. They are the inverse partners of the labels and are not part of the game.
- `Controls` (`Controls.dfy`): the keyboard rule and the bot's dead-zone rule, as pure functions.
- `MatchRules` (`MatchRules.dfy`): the state machine as values. A `MatchState` holds the object's members and a `FrameInput` holds one frame's inputs. `Step` is one loop iteration and `Run` is the loop. `Inv` is the invariant of every state the loop can reach from the constructor; the lemmas about these functions are proved here.
- `PongGame` (`PongGame.dfy`): the class `Game`. It has the source's game-logic members, plus four fields recording effects on the ball and paddles (`lastReset`, `ballSteps`, `playerDir`, `botDir`, described below). Its constructor and its methods `CheckGoals`, `UpdateScore` and `Update` correspond to the source's constructor, `checkGoals`, `updateScore` and `update`. `Frame` is one iteration of the loop in `run` and `Run` is that loop. `updateAI` is not a separate method: its decision is `Controls.AIDirection`, applied where `updateAI` is called. Each method mutates the fields in place and is proved to match a function of `MatchRules`: the constructor matches `Initial`, `CheckGoals` matches `CheckGoals`, `UpdateScore` matches `UpdateScore`, `Update` matches `ActiveUpdate`, `Frame` matches `Step` and `Run` matches `Run`. For example, `Snapshot() == CheckGoals(old(Snapshot()), goal)`. So every lemma about `MatchRules` holds of the object.

The ball and the paddles are code that is not part of this model (`Ball`, `Paddle`). Every frame takes from `FrameInput` what they report:

- the ball's y position;
- the bot paddle's top and height;
- the value `Ball::checkGoal` returns.

The state records their effects abstractly:

- the arguments of the latest `Ball::reset` (`lastReset`);
- how many frames advanced the ball (`ballSteps`);
- the direction last passed to each paddle's `move` (`playerDir`, `botDir`).

The model follows the code at these points, where another description of the game might suggest otherwise:

- When W and S are both held, S (+1) wins. The check for S comes last and overwrites the result.
- After game over, the paddles still move. Only the ball and the goal check stop.
- The pause timer is reset to 0 only when a goal is scored. It is not reset when the pause ends.
- Pause frames do not call `updateScore`, so the labels stay as they are during a pause.
- A `checkGoal` result other than -1 or +1 credits nobody.

Win, loss and draw:

- The game is over as soon as one score reaches `maxScore`, whether or not a goal was just scored.
- Each frame counts at most one goal.
- Goals count only while the game is not over.

So a reachable finished game has exactly one score at `maxScore`, and the "Draw!" message can never be shown (`DrawUnreachable`).

## Model

| member | source | states |
|---|---|---|
| `Controls.PlayerDirection` | Game.cpp:106-110 | No key gives 0, W alone gives -1, and S gives +1 whether or not W is also held. The last check wins, each case as an if-and-only-if. |
| `Controls.PaddleCenterY` | Game.cpp:155 | The bot paddle's centre `top + height / 2` is as far from the top edge as from the bottom edge. |
| `Controls.AIDirection` | Game.cpp:151-162 | The bot goes up (-1) iff the ball's y is below centre minus 40. It goes down (+1) iff the ball's y is above centre plus 40. Otherwise it stays (0), both edges of the band included. |
| `Controls.AIDirectionMonotone` | Game.cpp:159-162 | Moving the ball further down never makes the bot's direction smaller. |
| `Controls.AIChasesBall` | Game.cpp:155-162 | A non-zero direction points from the paddle centre towards the ball, and the ball is then more than 40 away from the centre. A zero direction means the ball is within 40 of the centre. |
| `Controls.AIDirectionAtBandEdge` | Game.cpp:155-162 | With centre 500, ball y 460 and 540 give 0, 459 gives -1 and 541 gives +1. |
| `Presenter.NatToString` | Game.cpp:201 | Decimal notation of a natural number: at least one character, digits only, and a leading '0' only for zero. |
| `Presenter.IntToString` | Game.cpp:201 | `std::to_string` of an int: the first character is '-' iff the value is negative, a non-negative value gives digits only, and the result has no blank. |
| `Presenter.ParseNatInverts` | Game.cpp:201 | Reading the decimal notation of a natural number back gives that number. |
| `Presenter.ParseIntInverts` | Game.cpp:201 | Reading `to_string(i)` back gives `i`, for negative values too. |
| `Presenter.ScoreLabel` | Game.cpp:201 | The label is `to_string(scorePlayer)`, then " : ", then `to_string(scoreBot)`: its length is the sum of the three, and each part sits in its place. |
| `Presenter.ScoreLabelInverts` | Game.cpp:201 | The score label `to_string(p) + " : " + to_string(b)` splits at its first blank, and both scores read back exactly. |
| `Presenter.ScoreLabelInjective` | Game.cpp:201 | Two score pairs with the same label are equal. |
| `Presenter.ResultLabel` | Game.cpp:205-219 | The label is "" iff the game is not over. When it is over, the label is " GAME OVER\nPlayer wins!" iff player > bot, "GAME OVER\n Bot wins!" iff bot > player, and "GAME OVER\n Draw!" iff the scores are equal. |
| `Presenter.ResultLabelShowsOutcome` | Game.cpp:205-219 | Equal game-over labels mean the same game-over flag, and in a finished game the same side ahead. |
| `MatchRules.Initial` | Game.cpp:12-18 | The constructor's state (member initialisers, labels "0 : 0" and "") satisfies the reachable-state invariant `Inv`. |
| `MatchRules.UpdateScore` | Game.cpp:199-219 | Only the two labels change, and afterwards both show the state's scores and game-over flag. The game-over label is "" iff the game is not over, and the draw text iff it is over with equal scores. |
| `MatchRules.ActiveUpdate` | Game.cpp:103-130 | Both paddles get the key direction and the bot direction. The ball advances iff the game is not over. Before game over, the scores, the ball reset, the pause flag and timer, and game over are those `CheckGoals` gives for the frame's goal value. A finished game keeps its flag, scores, pause flag and ball reset. The labels are rewritten in every case and show the new state. |
| `MatchRules.PauseFrame` | Game.cpp:62-82 | A pause frame leaves the scores, game over, the ball and both labels unchanged, and adds dt to the timer. Both paddles get the key direction and the bot direction. The pause goes on iff the new timer is still below the limit. The timer is not reset. |
| `MatchRules.Step` | Game.cpp:57-85 | One iteration of the loop: neither score decreases, at most one point is scored, a finished game stays finished with the same scores, and `maxScore` and `ballWaitTime` do not change. |
| `MatchRules.Run` | Game.cpp:55-86 | Any number of loop iterations leave `maxScore` and `ballWaitTime` as they were. |
| `MatchRules.CheckGoals` | Game.cpp:168-196 | The score total rises by exactly 1 on a goal of -1 or +1 and stays the same otherwise. Afterwards the game is over iff it was over before or a score is at least `maxScore`. A game that ends here is not pausing. |
| `MatchRules.InitialState` | Game.cpp:12-18 | The constructor starts at 0 : 0 with threshold 5, pausing with timer 0 and limit 1, not over, with labels "0 : 0" and "". |
| `MatchRules.GoalCrediting` | Game.cpp:170-195 | Goal -1 adds 1 to the bot only and resets the ball at (640, 480) with direction -1. Goal +1 is the mirror image for the player with direction +1. Any other value changes no score and does not reset the ball, and if the game is not over afterwards it changes nothing at all. Every goal sets the timer to 0, and one that does not end the game restarts the pause. A score at or above `maxScore` sets game over and ends the pause. |
| `MatchRules.CheckGoalsIdempotent` | Game.cpp:191-195 | Checking again with no goal leaves the state as it was after the first check. |
| `MatchRules.PaddlesMoveAfterGameOver` | Game.cpp:103-130 | After game over, a frame still passes the key direction and the bot direction to the paddles. The ball, the scores and game over stay as they were. |
| `MatchRules.StepPreservesInv` | Game.cpp:55-130 | One loop iteration keeps the reachable-state invariant: scores in 0..maxScore, game over iff one score equals maxScore, never both equal to it, no pause once over, and labels that show the current state. |
| `MatchRules.RunPreservesInv` | Game.cpp:55-86 | Any sequence of loop iterations keeps the invariant. |
| `MatchRules.ReachableInv` | Game.cpp:12-18 | Every state the loop reaches from the constructor satisfies the invariant. |
| `MatchRules.DrawUnreachable` | Game.cpp:205-212 | In every reachable finished game exactly one score equals `maxScore`, the scores differ, and the game-over label is never the draw message. |
| `MatchRules.ScoreTextShowsScores` | Game.cpp:199-202 | In every reachable state the score label reads back as the current scores. |
| `MatchRules.GameOverLatched` | Game.cpp:120-127 | From a finished game, no sequence of frames clears game over or changes a score. |
| `MatchRules.ScoresGrowByGoals` | Game.cpp:172-188 | Over any sequence of frames neither score decreases, and the total grows by at most one per frame. |
| `MatchRules.ServeThenRightWingGoal` | Game.cpp:62-84 | From a pause at i : 0 with i < 5, a frame that ends the pause and then a right-wing goal give i+1 : 0, with labels showing that score and outcome. The game pauses again unless it is over. |
| `MatchRules.RightWingRoundsScore` | Game.cpp:168-196 | n such rounds from i : 0 give i+n : 0, and game over exactly when i+n reaches 5. After at least one round the labels show that score and outcome. |
| `MatchRules.FiveRightWingGoals` | Game.cpp:168-208 | Five rounds from the start end the game with score label "5 : 0" and " GAME OVER\nPlayer wins!". |
| `PongGame.Game.constructor` | Game.cpp:12-43 | The fields take the member initialisers, the labels are "0 : 0" and "", and the object is valid. |
| `PongGame.Game.CheckGoals` | Game.cpp:168-196 | Mutates the scores, the reset record, the pause and game over exactly as `MatchRules.CheckGoals` says. It also states the crediting and latch cases directly. |
| `PongGame.Game.UpdateScore` | Game.cpp:199-219 | Rewrites only the two label strings, to `ScoreLabel` and `ResultLabel` of the current state. |
| `PongGame.Game.Update` | Game.cpp:103-130 | Changes the fields exactly as `ActiveUpdate` says, and passes the key and bot directions to the paddles. |
| `PongGame.Game.Frame` | Game.cpp:57-85 | One loop iteration, equal to `Step`. A pause frame adds dt to the timer, ends the pause iff the timer reached the limit, and leaves the scores, game over and the ball alone. Game over stays set, and a valid object stays valid. |
| `PongGame.Game.Run` | Game.cpp:55-86 | After the loop, the object is `MatchRules.Run` of its old state and still valid. The scores never decrease, and a finished game stays finished with the same scores. |

## Left out

- Window creation, vsync, the window title, `handleEvents` and `render`: toolkit I/O with no game logic (Game.cpp:21-24, 91-100, 133-145).
- Font loading and its error path, where the constructor closes the window and returns early: also toolkit I/O (Game.cpp:27-32). The model always assumes both labels exist.
- Text size, colour and `centerText`: the position depends on glyph metrics from the font (Game.cpp:35-42, 203, 214, 224-229).
- The initial `sf::sleep` and the clock: the elapsed time of each frame is the input `dt` (Game.cpp:51-57).
- The end of the loop when the window closes: a run is a finite sequence of frames.
- Keyboard polling: each frame takes two booleans for W and S.
- `Ball::update`, `Ball::checkCollision`, `Ball::checkGoal`, `Ball::reset`, `Paddle::move` and `Paddle::clampToWindow`: their code is not part of this model. Their results come in through `FrameInput`. The model records only the calls: the last reset's arguments, a count of ball updates and the last paddle directions. Ball and paddle positions, clamping and collisions are not modelled.
- The model does not represent the order of the bot's move relative to the clamping calls, which touch only paddle positions.
- Floating point: `dt`, the timer and positions are Dafny `real`, so float rounding in `ballWaitTimer += deltaTime` is not modelled.
- Integer width: scores are unbounded integers, so 32-bit overflow of `++scorePlayer` is not modelled. The invariant keeps both scores at or below 5.
- `maxScore` and `ballWaitTime` are constant fields. No code in Game.cpp changes them.
- PongGame.Game.Update: its contract does not repeat which fields stay unchanged after game over. That follows from its equality with `ActiveUpdate`, whose own contract states it, and from `MatchRules.PaddlesMoveAfterGameOver`.
