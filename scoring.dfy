/** The score of a match and the end-of-round bookkeeping shared by checkmate
    (src/server.js:443-458), a clock running out (src/server.js:253-268) and a player
    leaving (src/server.js:494-501, 531-537). */
module Scoring {
  import opened Board
  import opened Roster

  /** An entry of `roundsHistory`: who won the round, and with which colour. */
  datatype RoundResult = RoundResult(winner: Role, color: Color)

  datatype Score = Score(player1: int, player2: int)

  function ScoreOf(s: Score, r: Role): int
    requires r != Spectator
  {
    if r == Player1 then s.player1 else s.player2
  }

  /** `role === "player1" ? "player2" : "player1"`. */
  function OtherPlayer(r: Role): (o: Role)
    ensures o != Spectator && o != r
  {
    if r == Player1 then Player2 else Player1
  }

  /** `score[role]++`. */
  function Credit(s: Score, r: Role): (t: Score)
    requires r != Spectator
  {
    if r == Player1 then s.(player1 := s.player1 + 1) else s.(player2 := s.player2 + 1)
  }

  /** The match is won once a score exceeds half the rounds (`score > rounds / 2`, a
      division over the reals, stated here without one). */
  predicate Majority(points: int, rounds: int) {
    2 * points > rounds
  }

  lemma MajorityIsMoreThanHalf(points: int, rounds: int)
    ensures Majority(points, rounds) <==> points as real > rounds as real / 2.0
  {
  }

  /** How a round ends the match: won by the round's winner, drawn, or not at all. */
  datatype Verdict = Undecided | Won | Drawn

  /** The outcome of a round won by `winner` playing `color`. `drawAllowed` is true on the
      checkmate path, the only one that can declare a draw (equal scores once the last round
      has been played); a clock running out can only decide a winner. */
  datatype Conclusion = Conclusion(score: Score, history: seq<RoundResult>, verdict: Verdict)

  function ConcludeRound(score: Score, history: seq<RoundResult>, winner: Role, color: Color,
                         currentRound: int, rounds: int, drawAllowed: bool): (c: Conclusion)
    requires winner != Spectator
    ensures c.history == history + [RoundResult(winner, color)]
    ensures ScoreOf(c.score, winner) == ScoreOf(score, winner) + 1
    ensures ScoreOf(c.score, OtherPlayer(winner)) == ScoreOf(score, OtherPlayer(winner))
    ensures c.verdict == Won <==> Majority(ScoreOf(c.score, winner), rounds)
    ensures c.verdict == Drawn <==>
      drawAllowed && !Majority(ScoreOf(c.score, winner), rounds)
      && c.score.player1 == c.score.player2 && currentRound == rounds
  {
    var s := Credit(score, winner);
    var v :=
      if Majority(ScoreOf(s, winner), rounds) then Won
      else if drawAllowed && s.player1 == s.player2 && currentRound == rounds then Drawn
      else Undecided;
    Conclusion(s, history + [RoundResult(winner, color)], v)
  }

  /** The entry a departing player leaves behind: the round goes to the other player, with
      the other colour, and the score does not move. */
  function ForfeitEntry(leaver: Role, color: Color): (e: RoundResult)
    ensures e.winner != leaver && e.winner != Spectator && e.color != color
  {
    RoundResult(OtherPlayer(leaver), Opposite(color))
  }

  /** The rounds of a history won by r. */
  function Wins(history: seq<RoundResult>, r: Role): nat {
    if history == [] then 0
    else Wins(history[..|history| - 1], r) + (if history[|history| - 1].winner == r then 1 else 0)
  }

  lemma WinsAppend(history: seq<RoundResult>, e: RoundResult, r: Role)
    ensures Wins(history + [e], r) == Wins(history, r) + (if e.winner == r then 1 else 0)
  {
    assert (history + [e])[..|history|] == history;
  }

  /** A player's score never exceeds the rounds the history credits to it: every point
      comes with a history entry, while a forfeit adds an entry and no point. */
  predicate ScoreBacked(s: Score, history: seq<RoundResult>) {
    s.player1 <= Wins(history, Player1) && s.player2 <= Wins(history, Player2)
  }

  lemma ConcludeKeepsScoreBacked(score: Score, history: seq<RoundResult>, winner: Role, color: Color,
                                 currentRound: int, rounds: int, drawAllowed: bool)
    requires winner != Spectator && ScoreBacked(score, history)
    ensures var c := ConcludeRound(score, history, winner, color, currentRound, rounds, drawAllowed);
      ScoreBacked(c.score, c.history)
  {
    WinsAppend(history, RoundResult(winner, color), Player1);
    WinsAppend(history, RoundResult(winner, color), Player2);
  }

  lemma ForfeitKeepsScoreBacked(score: Score, history: seq<RoundResult>, leaver: Role, color: Color)
    requires ScoreBacked(score, history)
    ensures ScoreBacked(score, history + [ForfeitEntry(leaver, color)])
  {
    WinsAppend(history, ForfeitEntry(leaver, color), Player1);
    WinsAppend(history, ForfeitEntry(leaver, color), Player2);
  }

  /** With one round, the first checkmate wins the match; with two, a single win never does,
      and a draw needs the second round. */
  lemma ShortMatches(c: Color)
    ensures ConcludeRound(Score(0, 0), [], Player1, c, 1, 1, true).verdict == Won
    ensures ConcludeRound(Score(0, 0), [], Player2, c, 1, 2, true).verdict == Undecided
    ensures ConcludeRound(Score(1, 0), [RoundResult(Player1, c)], Player2, Opposite(c), 2, 2, true).verdict == Drawn
    ensures ConcludeRound(Score(1, 0), [RoundResult(Player1, c)], Player2, Opposite(c), 2, 2, false).verdict == Undecided
  {
  }
}
