/**
  The score and result presenter of the game: the exact text that
  `Game::updateScore` writes into the score label and the game-over label.
  The parsers in this module are not part of the game; they are the inverse
  partners that show the labels lose no information.
 */
module Presenter {

  datatype Option<T> = None | Some(value: T)

  /** The decimal digit character for 0 <= d <= 9. */
  function DigitChar(d: int): (c: char)
    requires 0 <= d <= 9
    ensures '0' <= c <= '9'
    ensures c as int - '0' as int == d
  {
    ('0' as int + d) as char
  }

  predicate IsDigit(c: char) {
    '0' <= c <= '9'
  }

  function DigitValue(c: char): (d: int)
    requires IsDigit(c)
    ensures 0 <= d <= 9
    ensures DigitChar(d) == c
  {
    c as int - '0' as int
  }

  predicate IsDigits(s: string) {
    forall i | 0 <= i < |s| :: IsDigit(s[i])
  }

  /** Decimal notation of a natural number: digits only, no leading zero. */
  function NatToString(n: nat): (s: string)
    ensures |s| >= 1 && IsDigits(s)
    ensures s[0] == '0' <==> n == 0
    ensures |s| == 1 <==> n < 10
    decreases n
  {
    if n < 10 then [DigitChar(n)]
    else NatToString(n / 10) + [DigitChar(n % 10)]
  }

  /** `std::to_string` of an `int`: a minus sign for negative values, then the digits. */
  function IntToString(i: int): (s: string)
    ensures |s| >= 1
    ensures s[0] == '-' <==> i < 0
    ensures i >= 0 ==> IsDigits(s)
    ensures forall k | 0 <= k < |s| :: s[k] != ' '
  {
    if i < 0 then "-" + NatToString(-i) else NatToString(i)
  }

  /** Reads a non-empty string of decimal digits back as a number. */
  function ParseNat(s: string): (r: Option<nat>)
    ensures r.Some? ==> |s| >= 1 && IsDigits(s)
    decreases |s|
  {
    if |s| == 0 || !IsDigit(s[|s| - 1]) then None
    else if |s| == 1 then Some(DigitValue(s[0]))
    else
      match ParseNat(s[..|s| - 1])
      case None => None
      case Some(m) => Some(10 * m + DigitValue(s[|s| - 1]))
  }

  /** Reads an optionally signed decimal numeral back as an integer. */
  function ParseInt(s: string): (r: Option<int>)
  {
    if |s| > 0 && s[0] == '-' then
      match ParseNat(s[1..])
      case None => None
      case Some(n) => var v: int := n; Some(-v)
    else
      match ParseNat(s)
      case None => None
      case Some(n) => Some(n)
  }

  lemma {:induction false} ParseNatInverts(n: nat)
    ensures ParseNat(NatToString(n)) == Some(n)
    decreases n
  {
    var s := NatToString(n);
    if n >= 10 {
      ParseNatInverts(n / 10);
      assert s[..|s| - 1] == NatToString(n / 10);
      assert s[|s| - 1] == DigitChar(n % 10);
    }
  }

  lemma ParseIntInverts(i: int)
    ensures ParseInt(IntToString(i)) == Some(i)
  {
    if i < 0 {
      ParseNatInverts(-i);
      assert IntToString(i)[1..] == NatToString(-i);
    } else {
      ParseNatInverts(i);
    }
  }

  /** Index of the first occurrence of `c` in `s`, or `|s|` when there is none. */
  function IndexOf(s: string, c: char): (k: nat)
    ensures k <= |s|
    ensures k < |s| ==> s[k] == c
    ensures forall j | 0 <= j < k :: s[j] != c
  {
    if |s| == 0 then 0
    else if s[0] == c then 0
    else 1 + IndexOf(s[1..], c)
  }

  const Separator: string := " : "


  /** Splits a score label at its first blank and reads both numbers back. */
  function ParseScoreLabel(s: string): Option<(int, int)>
  {
    var k := IndexOf(s, ' ');
    if k + |Separator| <= |s| && s[k..k + |Separator|] == Separator then
      match (ParseInt(s[..k]), ParseInt(s[k + |Separator|..]))
      case (Some(p), Some(b)) => Some((p, b))
      case _ => None
    else None
  }

  /**
    The score label: `to_string(scorePlayer) + " : " + to_string(scoreBot)`,
    that is the player's score, then the separator, then the bot's score.
   */
  function ScoreLabel(scorePlayer: int, scoreBot: int): (s: string)
    ensures var a := IntToString(scorePlayer);
      && |s| == |a| + |Separator| + |IntToString(scoreBot)|
      && s[..|a|] == a
      && s[|a|..|a| + |Separator|] == Separator
      && s[|a| + |Separator|..] == IntToString(scoreBot)
  {
    IntToString(scorePlayer) + Separator + IntToString(scoreBot)
  }

  /** The score label loses nothing: both scores can be read back from it. */
  lemma ScoreLabelInverts(scorePlayer: int, scoreBot: int)
    ensures ParseScoreLabel(ScoreLabel(scorePlayer, scoreBot)) == Some((scorePlayer, scoreBot))
  {
    var a := IntToString(scorePlayer);
    var s := ScoreLabel(scorePlayer, scoreBot);
    assert s[|a|] == ' ';
    assert IndexOf(s, ' ') == |a|;
    ParseIntInverts(scorePlayer);
    ParseIntInverts(scoreBot);
  }

  /** Different scores are always displayed differently. */
  lemma ScoreLabelInjective(p1: int, b1: int, p2: int, b2: int)
    requires ScoreLabel(p1, b1) == ScoreLabel(p2, b2)
    ensures p1 == p2 && b1 == b2
  {
    ScoreLabelInverts(p1, b1);
    ScoreLabelInverts(p2, b2);
  }

  const PlayerWinsText: string := " GAME OVER\nPlayer wins!"
  const BotWinsText: string := "GAME OVER\n Bot wins!"
  const DrawText: string := "GAME OVER\n Draw!"

  /** The game-over label: empty while the match runs, else the message for the greater score. */
  function ResultLabel(gameOver: bool, scorePlayer: int, scoreBot: int): (s: string)
    ensures s == "" <==> !gameOver
    ensures s == PlayerWinsText <==> gameOver && scorePlayer > scoreBot
    ensures s == BotWinsText <==> gameOver && scoreBot > scorePlayer
    ensures s == DrawText <==> gameOver && scorePlayer == scoreBot
  {
    assert PlayerWinsText[0] != BotWinsText[0] && PlayerWinsText[0] != DrawText[0];
    assert BotWinsText[11] != DrawText[11];
    if gameOver then
      if scorePlayer > scoreBot then PlayerWinsText
      else if scoreBot > scorePlayer then BotWinsText
      else DrawText
    else ""
  }

  /** The game-over label tells whether the match ended and, if so, who is ahead. */
  lemma ResultLabelShowsOutcome(over1: bool, p1: int, b1: int, over2: bool, p2: int, b2: int)
    requires ResultLabel(over1, p1, b1) == ResultLabel(over2, p2, b2)
    ensures over1 == over2
    ensures over1 ==> (p1 > b1 <==> p2 > b2) && (b1 > p1 <==> b2 > p2)
  {
  }
}
