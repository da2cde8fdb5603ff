/** The match a room holds while a game is on (`room.board`): a value the room replaces,
    except its grid, an array the move handler updates in place. */
module Matches {
  import opened Wrappers
  import opened Board
  import opened Roster
  import opened Scoring
  import opened UserMap
  import opened Config
  import opened Moves

  /** The record of a round's end kept in `stats`. */
  datatype Stats = Stats(moves: int, player1PiecesKilled: int, player2PiecesKilled: int, startTime: int, endTime: int)

  /** `board.winner`: a user, or the string "draw". */
  datatype Winner = Player(user: User) | Draw

  /** The room's `board` while a match exists. The source's `movesHistory` is always empty
      and is not part of this model. */
  datatype Match = Match(
    content: array<Square>,
    currentColor: Color,
    currentRound: int,
    roundsHistory: seq<RoundResult>,
    score: Score,
    stats: Stats,
    player1: User,
    player2: User,
    winner: Option<Winner>)

  /** A pending `setPlayerTimeout`: the player it will credit and its delay. */
  datatype Armed = Armed(player: User, delay: int)

  /** The match once `leaver` has given it up (src/server.js:494-501, 531-537): the round
      goes to the other player in the history, that player wins the match, and no point is
      awarded. */
  function Forfeit(m: Match, leaver: Role, color: Color): (r: Match)
    requires leaver != Spectator
    ensures r.roundsHistory == m.roundsHistory + [ForfeitEntry(leaver, color)]
    ensures r.winner == Some(Player(if leaver == Player1 then m.player2 else m.player1))
    ensures r.score == m.score && r.content == m.content && r.currentRound == m.currentRound
    ensures r.currentColor == m.currentColor && r.stats == m.stats
    ensures r.player1 == m.player1 && r.player2 == m.player2
  {
    m.(roundsHistory := m.roundsHistory + [RoundResult(OtherPlayer(leaver), Opposite(color))],
       winner := Some(Player(if leaver == Player1 then m.player2 else m.player1)))
  }

  /** What a match keeps true: a full grid and two distinct players with opposite colours. */
  ghost predicate MatchValid(m: Match)
    reads m.player1, m.player2
  {
    && m.content.Length == Cells
    && m.player1 != m.player2
    && m.player1.color.Some? && m.player2.color.Some? && m.player1.color != m.player2.color
    && m.player1.role != Spectator && m.player2.role != Spectator
  }

  /** `gameStatsUpdate` as the move handler calls it (src/server.js:210-223, 396): a move
      by white counts as one more full move, and a kill counter rises when the colour of
      the piece on the square it is given matches that player's colour. The handler passes
      the origin where the function expects the destination, so the square read is the
      mover's own piece: every move raises exactly the mover's own counter. */
  function CountMove(s: Stats, mover: Color, piece: Color, c1: Color, c2: Color): (r: Stats)
    requires c1 != c2
    ensures r.moves == s.moves + (if mover == White then 1 else 0)
    ensures piece == c1 ==> r.player1PiecesKilled == s.player1PiecesKilled + 1 && r.player2PiecesKilled == s.player2PiecesKilled
    ensures piece == c2 ==> r.player2PiecesKilled == s.player2PiecesKilled + 1 && r.player1PiecesKilled == s.player1PiecesKilled
    ensures r.startTime == s.startTime && r.endTime == s.endTime
  {
    s.(moves := s.moves + (if mover == White then 1 else 0),
       player1PiecesKilled := s.player1PiecesKilled + (if piece == c1 then 1 else 0),
       player2PiecesKilled := s.player2PiecesKilled + (if piece == c2 then 1 else 0))
  }

  /** The clock arithmetic of `switchTimers` (src/server.js:88-94): the time since the
      player's clock started, less the bonus, is taken from the time left. */
  function Charged(remain: int, start: int, bonus: int, now: int): (r: int)
    ensures r >= remain <==> now - start <= bonus
  {
    remain - (now - start - bonus)
  }

  /** `switchTimers` (src/server.js:88-94): the mover's clock is charged, the other
      player's clock starts now. */
  method SwitchTimers(player: User, other: User, bonus: int, now: int)
    modifies player`remainTime, other`startTime
    ensures player.remainTime == Charged(old(player.remainTime), old(player.startTime), bonus, now)
    ensures other.startTime == now
  {
    player.remainTime := Charged(player.remainTime, player.startTime, bonus, now);
    other.startTime := now;
  }

  /** The match winner a concluded round leaves: the round's winner when the match is
      won, "draw" when it is drawn, none otherwise (src/server.js:450-461, 258-265). */
  function WinnerAfter(v: Verdict, u: User): (w: Option<Winner>)
    ensures w.None? <==> v == Undecided
    ensures w == Some(Draw) <==> v == Drawn
    ensures v == Won ==> w == Some(Player(u))
  {
    match v
    case Undecided => None
    case Won => Some(Player(u))
    case Drawn => Some(Draw)
  }

  /** What a room keeps true (the `Valid` of `Rooms.Room`): its user map is valid, its
      settings lie in range, its match is valid, and a pending timeout credits a player
      with a colour. */
  ghost predicate Consistent(users: seq<Member>, settings: Settings, board: Option<Match>, timer: Option<Armed>)
    reads set m | m in users :: m.user
    reads if board.Some? then {board.value.player1, board.value.player2} else {}
    reads if timer.Some? then {timer.value.player} else {}
  {
    && RosterValid(users)
    && InRange(settings)
    && (board.Some? ==> MatchValid(board.value))
    && (timer.Some? ==> timer.value.player.color.Some? && timer.value.player.role != Spectator)
  }

  /** The match after a departure by a user with this role and colour: forfeited when
      a player with a colour leaves during a match, unchanged otherwise. */
  function AfterForfeit(b: Option<Match>, role: Role, color: Option<Color>): Option<Match> {
    if b.Some? && role != Spectator && color.Some? then Some(Forfeit(b.value, role, color.value)) else b
  }

  /** Whether the forfeit throws: a match is on and the leaver holds a player role but
      never got a colour. */
  predicate Throws(b: Option<Match>, role: Role, color: Option<Color>) {
    b.Some? && role != Spectator && color.None?
  }

  /** How a departure ends, given whether the forfeit threw and the seats left behind:
      a thrown forfeit or a failed reshuffle is `Failed`, an empty room `Emptied`. */
  function Departed(crash: bool, rest: seq<Seat>, ownerLeft: bool, guarded: bool): (out: Departure)
    ensures out != Ignored
    ensures out == Emptied <==> !crash && rest == []
    ensures out == Remains <==> !crash && rest != [] && Reassign(rest, ownerLeft, guarded).Some?
  {
    if crash then Failed
    else if rest == [] then Emptied
    else if Reassign(rest, ownerLeft, guarded).Some? then Remains
    else Failed
  }

  /** The seats after a departure: reshuffled when the departure ends with the room
      still in use, left as the deletion left them otherwise. */
  function Reseated(crash: bool, rest: seq<Seat>, ownerLeft: bool, guarded: bool): seq<Seat> {
    if Departed(crash, rest, ownerLeft, guarded) == Remains then Reassign(rest, ownerLeft, guarded).value
    else rest
  }

  datatype Departure = Ignored | Remains | Emptied | Failed

  /** How a socket handler ends: it returns early without a change, turns the request
      down, carries it out, or throws on an undefined value (keeping what it wrote). */
  datatype Reply = Skipped | Refused | Done | Threw

  /** A step of `readyCountDown`: the next tick is scheduled with this count, the
      countdown stops because a player is no longer ready, or the game starts (or throws
      because a player is missing). */
  datatype Countdown = Next(count: int) | Halted | GameStarted | GameThrew

  /** `if (room.board?.winner) room.board = null`: a decided match is dropped. */
  function Closed(b: Option<Match>): (r: Option<Match>)
    ensures r.None? <==> b.None? || b.value.winner.Some?
    ensures r.Some? ==> r == b
  {
    if b.Some? && b.value.winner.Some? then None else b
  }

  /** A match as `startGame` opens it (src/server.js:137-158): both players not ready, the
      coin's colours (player 1 is white when it comes up), the starting grid, white to move
      in round 1, nothing played or scored, the start time stamped and no winner. */
  ghost predicate Begun(m: Match, coin: bool, now: int)
    reads m.player1, m.player2, m.content
  {
    && !m.player1.ready && !m.player2.ready
    && m.player1.color == Some(if coin then White else Black)
    && m.player2.color == Some(if coin then Black else White)
    && m.content[..] == DefaultBoard()
    && m == Match(m.content, White, 1, [], Score(0, 0), Stats(0, 0, 0, now, 0), m.player1, m.player2, None)
  }

  /** The clocks as `startGame` sets them (src/server.js:160-174): both hold the clock
      length plus 100 ms, white's runs from now, and the pending timeout credits black once
      white's full time has passed. */
  ghost predicate ClocksStarted(m: Match, timer: Option<Armed>, coin: bool, length: int, now: int)
    reads m.player1, m.player2
  {
    var w, b := if coin then m.player1 else m.player2, if coin then m.player2 else m.player1;
    && w.startTime == now && b.startTime == now
    && w.remainTime == length + 100 && b.remainTime == length + 100
    && timer == Some(Armed(b, length + 100))
  }

  /** A round is being played: no winner yet and the round not yet in the history. */
  predicate InPlay(m: Match) {
    m.winner.None? && |m.roundsHistory| != m.currentRound
  }

  /** The match's player facing the one playing `c`: player 2 when player 1 plays `c`,
      player 1 otherwise (src/server.js:463-465). */
  function Opponent(m: Match, c: Color): (o: User)
    reads m.player1
    ensures o == m.player1 || o == m.player2
    ensures m.player1.color == Some(c) ==> o == m.player2
    ensures m.player1.color != Some(c) ==> o == m.player1
  {
    if m.player1.color == Some(c) then m.player2 else m.player1
  }

  /** The callback of `setPlayerTimeout` (src/server.js:253-268) on a round in play: the
      credited player scores the round with its colour, and wins the match, with the end
      time stamped, once it has a majority. A timeout never declares a draw. */
  function TimedOut(m: Match, role: Role, color: Color, who: User, rounds: int, now: int): (r: Match)
    requires role != Spectator
    ensures r.roundsHistory == m.roundsHistory + [RoundResult(role, color)]
    ensures ScoreOf(r.score, role) == ScoreOf(m.score, role) + 1
    ensures ScoreOf(r.score, OtherPlayer(role)) == ScoreOf(m.score, OtherPlayer(role))
    ensures Majority(ScoreOf(r.score, role), rounds) ==> r.winner == Some(Player(who)) && r.stats == m.stats.(endTime := now)
    ensures !Majority(ScoreOf(r.score, role), rounds) ==> r.winner == m.winner && r.stats == m.stats
    ensures r.content == m.content && r.currentColor == m.currentColor && r.currentRound == m.currentRound
    ensures r.player1 == m.player1 && r.player2 == m.player2
  {
    var c := ConcludeRound(m.score, m.roundsHistory, role, color, m.currentRound, rounds, false);
    var won := c.verdict == Won;
    m.(score := c.score, roundsHistory := c.history,
       winner := if won then Some(Player(who)) else m.winner,
       stats := if won then m.stats.(endTime := now) else m.stats)
  }

  /** The checkmate branch of the move handler (src/server.js:443-458): the mover scores
      the round with its colour; the match goes to the mover once it has a majority, and is
      drawn when the scores are level after the last round; the end time is stamped. */
  function Checkmated(m: Match, role: Role, color: Color, who: User, rounds: int, now: int): (r: Match)
    requires role != Spectator
    ensures r.roundsHistory == m.roundsHistory + [RoundResult(role, color)]
    ensures ScoreOf(r.score, role) == ScoreOf(m.score, role) + 1
    ensures ScoreOf(r.score, OtherPlayer(role)) == ScoreOf(m.score, OtherPlayer(role))
    ensures Majority(ScoreOf(r.score, role), rounds) ==> r.winner == Some(Player(who))
    ensures !Majority(ScoreOf(r.score, role), rounds) && r.score.player1 == r.score.player2 && m.currentRound == rounds ==>
      r.winner == Some(Draw)
    ensures !Majority(ScoreOf(r.score, role), rounds) && (r.score.player1 != r.score.player2 || m.currentRound != rounds) ==>
      r.winner == m.winner
    ensures r.stats == m.stats.(endTime := now)
    ensures r.content == m.content && r.currentColor == m.currentColor && r.currentRound == m.currentRound
    ensures r.player1 == m.player1 && r.player2 == m.player2
  {
    var c := ConcludeRound(m.score, m.roundsHistory, role, color, m.currentRound, rounds, true);
    m.(score := c.score, roundsHistory := c.history,
       winner := if c.verdict == Undecided then m.winner else WinnerAfter(c.verdict, who),
       stats := m.stats.(endTime := now))
  }

  /** The match after a valid move that did not throw, before the clocks and the pawn
      promotion: the turn passes to the other colour, and the round is concluded when the
      oracle reports the side to move checkmated. */
  function AfterPlay(m: Match, mated: bool, role: Role, who: User, rounds: int, now: int): (r: Match)
    requires role != Spectator
    ensures r.currentColor == Opposite(m.currentColor)
    ensures !mated ==> r == m.(currentColor := Opposite(m.currentColor))
    ensures mated ==> r == Checkmated(m.(currentColor := Opposite(m.currentColor)), role, m.currentColor, who, rounds, now)
    ensures r.content == m.content && r.player1 == m.player1 && r.player2 == m.player2
  {
    var m1 := m.(currentColor := Opposite(m.currentColor));
    if mated then Checkmated(m1, role, m.currentColor, who, rounds, now) else m1
  }

  /** A round that ends by checkmate or by timeout is the round the history now holds:
      the match is out of play until the next round starts, so further moves and stale
      timeouts are ignored. */
  lemma ConcludedRoundStopsPlay(m: Match, role: Role, color: Color, who: User, rounds: int, now: int)
    requires role != Spectator && |m.roundsHistory| + 1 == m.currentRound
    ensures !InPlay(Checkmated(m, role, color, who, rounds, now))
    ensures !InPlay(TimedOut(m, role, color, who, rounds, now))
  {
  }

  /** The stats update is handed the origin square in place of the captured one, so a
      checked move always counts a capture for the mover's own side, never for the
      opponent's. */
  lemma MoverCountsOwnKill(g: Grid, mover: Option<Color>, current: Color, origin: Pos, dest: Destination,
                           moves: MovesOracle, s: Stats, c1: Color, c2: Color)
    requires OnBoard(origin) && OnBoardOracle(moves) && c1 != c2
    requires CheckMove(g, mover, current, origin, dest, moves).Some?
    ensures var r := CountMove(s, current, At(g, origin).color, c1, c2);
      && (current == c1 ==> r.player1PiecesKilled == s.player1PiecesKilled + 1 && r.player2PiecesKilled == s.player2PiecesKilled)
      && (current == c2 ==> r.player2PiecesKilled == s.player2PiecesKilled + 1 && r.player1PiecesKilled == s.player1PiecesKilled)
  {
    CheckedOnBoard(g, mover, current, origin, dest, moves);
  }

  /** What a checked move does to the room, given the match `m` and its grid `g` before
      the move, the mover `u`, the checked destination `d`, the room's settings, the
      pending timeout `timer0` before the move, and the room's match and timeout after it
      (src/server.js:396-483): the stats are counted from the origin square and the grid
      steps of `PlayMove` are applied; if they throw, the handler stops there, and
      otherwise it goes on as `MoveFinished` says. */
  twostate predicate MoveApplied(m: Match, g: Grid, u: User, origin: Pos, d: Destination,
                                 mate: MateOracle, now: int, out: Reply, settings: Settings,
                                 timer0: Option<Armed>, new board: Option<Match>, new timer: Option<Armed>)
    requires OnBoard(origin) && OnBoard(DestPos(d)) && At(g, origin).Piece?
    requires old(u.role) != Spectator
    requires old(m.player1.color).Some? && old(m.player2.color).Some? && old(m.player1.color) != old(m.player2.color)
    reads m.content, u, m.player1, m.player2
  {
    var r := PlayMove(g, origin, d, m.currentColor);
    var counted := m.(stats := CountMove(m.stats, m.currentColor, At(g, origin).color,
                                         old(m.player1.color).value, old(m.player2.color).value));
    && (out == Threw <==> r.Crash?) && (out == Done <==> r.Continue?)
    && (r.Crash? ==> m.content[..] == r.g && board == Some(counted) && timer == timer0)
    && (r.Crash? ==>
          && u.remainTime == old(u.remainTime)
          && m.player1.startTime == old(m.player1.startTime) && m.player2.startTime == old(m.player2.startTime))
    && (r.Continue? ==> MoveFinished(counted, r.g, u, d, mate, now, settings, timer0, board, timer))
  }

  /** The rest of a move once the grid steps are done, given the match `m` and the grid
      `g` at that point (src/server.js:439-483): the turn passes and the round is
      concluded on a checkmate (`AfterPlay`); with the clocks on, the mover's clock is
      charged with the bonus, the opponent's starts now and, while the round is in play, a
      new timeout credits the mover once the opponent's time is up; a pawn on the last row
      is promoted (after the checkmate test); a decided match is dropped. */
  twostate predicate MoveFinished(m: Match, g: Grid, u: User, d: Destination, mate: MateOracle, now: int,
                                  settings: Settings, timer0: Option<Armed>,
                                  new board: Option<Match>, new timer: Option<Armed>)
    requires OnBoard(DestPos(d)) && old(u.role) != Spectator
    reads m.content, u, m.player1, m.player2
  {
    var a := AfterPlay(m, mate(g, Opposite(m.currentColor)), old(u.role), u, settings.rounds, now);
    var o := old(Opponent(m, m.currentColor));
    && m.content[..] == Promote(g, d)
    && board == Closed(Some(a))
    && (!settings.timerEnabled ==> timer == timer0)
    && (!settings.timerEnabled ==>
          && u.remainTime == old(u.remainTime)
          && m.player1.startTime == old(m.player1.startTime) && m.player2.startTime == old(m.player2.startTime))
    && (settings.timerEnabled ==>
          && u.remainTime == Charged(old(u.remainTime), old(u.startTime), settings.timerBonus, now)
          && o.startTime == now
          && u.startTime == old(u.startTime) && o.remainTime == old(o.remainTime)
          && (m.player1 != o ==> m.player1.startTime == old(m.player1.startTime))
          && (m.player2 != o ==> m.player2.startTime == old(m.player2.startTime))
          && timer == if InPlay(a) then Some(Armed(u, o.remainTime)) else None)
  }
}
