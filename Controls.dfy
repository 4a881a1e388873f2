/**
  The two direction rules the game computes each frame before moving the
  paddles: the player's keyboard rule (W up, S down) and the bot's reactive
  dead-zone rule. A direction is -1 (up, towards smaller y), 0 or +1 (down).
 */
module Controls {

  /**
    The player's direction as `Game::update` and the pause branch of
    `Game::run` compute it: start at 0, set -1 if W is held, then set +1 if
    S is held. The check for S runs last, so S wins when both are held.
   */
  function PlayerDirection(keyW: bool, keyS: bool): (d: int)
    ensures d == 0 <==> !keyW && !keyS
    ensures d == -1 <==> keyW && !keyS
    ensures d == 1 <==> keyS
  {
    var d0 := 0;
    var d1 := if keyW then -1 else d0;
    if keyS then 1 else d1
  }

  /** Half-width of the band around the bot paddle's centre in which the bot does not move. */
  const DeadZone: real := 40.0

  /** Vertical centre of a paddle whose top edge is at `top`: as far from the top edge as from the bottom edge. */
  function PaddleCenterY(top: real, height: real): (c: real)
    ensures c - top == (top + height) - c
  {
    top + height / 2.0
  }

  /**
    The bot's direction from `Game::updateAI`: up when the ball is more than
    the dead zone above the paddle centre, down when it is more than the dead
    zone below, and still otherwise (both band edges included).
   */
  function AIDirection(ballY: real, botTop: real, botHeight: real): (d: int)
    ensures d == -1 <==> ballY < PaddleCenterY(botTop, botHeight) - DeadZone
    ensures d == 1 <==> ballY > PaddleCenterY(botTop, botHeight) + DeadZone
    ensures d == 0 <==>
      PaddleCenterY(botTop, botHeight) - DeadZone <= ballY <= PaddleCenterY(botTop, botHeight) + DeadZone
  {
    var centerY := PaddleCenterY(botTop, botHeight);
    if ballY < centerY - DeadZone then -1
    else if ballY > centerY + DeadZone then 1
    else 0
  }

  /** A ball further down never makes the bot move further up. */
  lemma AIDirectionMonotone(y1: real, y2: real, botTop: real, botHeight: real)
    requires y1 <= y2
    ensures AIDirection(y1, botTop, botHeight) <= AIDirection(y2, botTop, botHeight)
  {
  }

  /**
    The bot only moves towards the ball, and only when the ball is more than
    the dead zone away from the paddle centre; otherwise it stays put.
   */
  lemma AIChasesBall(ballY: real, botTop: real, botHeight: real)
    ensures var d := AIDirection(ballY, botTop, botHeight);
            var gap := ballY - PaddleCenterY(botTop, botHeight);
            (d != 0 ==> d as real * gap > DeadZone) && (d == 0 ==> -DeadZone <= gap <= DeadZone)
  {
  }

  /** The boundary case: centre 500, ball at 460 = 500 - 40 gives no movement. */
  lemma AIDirectionAtBandEdge()
    ensures PaddleCenterY(450.0, 100.0) == 500.0
    ensures AIDirection(460.0, 450.0, 100.0) == 0
    ensures AIDirection(459.0, 450.0, 100.0) == -1
    ensures AIDirection(540.0, 450.0, 100.0) == 0
    ensures AIDirection(541.0, 450.0, 100.0) == 1
  {
  }
}
