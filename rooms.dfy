/** A room of the chess server (src/server.js:291-563): its user map, settings and
    current match, and the socket handlers and timer callbacks that change them. */
module Rooms {
  import opened Wrappers
  import opened Board
  import opened Moves
  import opened Roster
  import opened Config
  import opened Scoring
  import opened Names
  import opened UserMap
  import opened Matches

  class Room {
    var name: string
    var users: seq<Member>
    var settings: Settings
    var board: Option<Match>
    var timer: Option<Armed>

    /** The users in the room's user map. */
    function Present(): set<User>
      reads this
    {
      UsersOf(users)
    }

    /** Every user record the room can reach: the user map, the match's players (who may
        have left the map) and the player a pending timeout will credit. */
    function Users(): set<User>
      reads this
    {
      Present()
      + (if board.Some? then {board.value.player1, board.value.player2} else {})
      + (if timer.Some? then {timer.value.player} else {})
    }

    /** The room invariant, stated over the room's fields in `Consistent`. */
    ghost predicate Valid()
      reads this, Users()
    {
      Consistent(users, settings, board, timer)
    }

    /** `create-room` (src/server.js:619-644): the creator is player 1 and owner. */
    constructor (sid: SessionId, username: string)
      ensures Valid() && fresh(Users())
      ensures name == "Room" && settings == DefaultSettings && board.None? && timer.None?
      ensures |users| == 1 && users[0].sid == sid
      ensures users[0].user.username == username && !users[0].user.ready
      ensures SeatsOf(users) == [Seat(Player1, Owner)]
    {
      var u := new User(username, Player1, Owner);
      name := "Room";
      users := [Member(sid, u)];
      settings := DefaultSettings;
      board := None;
      timer := None;
      new;
      DefaultInRange();
    }

    function SessionUser(sid: SessionId): Option<User>
      reads this
    {
      UserOf(users, sid)
    }

    /** `findPlayers` (src/server.js:75-86): the first user holding a player role. */
    function PlayerWith(r: Role): (p: Option<User>)
      reads this, (set m | m in users :: m.user)`role, (set m | m in users :: m.user)`status
      ensures p.None? <==> !Holds(SeatsOf(users), r)
      ensures p.Some? ==> p.value in Present() && p.value.role == r
      ensures p.Some? ==> exists k | 0 <= k < |users| ::
        users[k].user == p.value && forall i | 0 <= i < k :: users[i].user.role != r
    {
      FindRoleIsFirst(SeatsOf(users), r);
      SeatsOfAt(users);
      match FindRole(SeatsOf(users), r)
      case None => None
      case Some(k) =>
        assert users[k] in users;
        assert forall i | 0 <= i < k :: users[i].user.role != r;
        Some(users[k].user)
    }

    /** `player1?.ready && player2?.ready` over the user map (src/server.js:228-229). */
    predicate BothPlayersReady()
      reads this, Present()
    {
      var p1 := PlayerWith(Player1);
      var p2 := PlayerWith(Player2);
      p1.Some? && p1.value.ready && p2.Some? && p2.value.ready
    }

    /** `join-room` once the room exists (src/server.js:654-660): the session's entry gets a
        new guest record with the role `identifyInitRole` picks. */
    method Join(sid: SessionId, username: string) returns (u: User)
      requires Valid()
      modifies this`users
      ensures Valid() && fresh(u)
      ensures u.username == username && u.status == Guest && !u.ready && u.color.None?
      ensures u.role == IdentifyInitRole(old(SeatsOf(users)))
      ensures users == Put(old(users), sid, u)
    {
      u := new User(username, IdentifyInitRole(SeatsOf(users)), Guest);
      Insert(sid, u);
    }

    /** Puts a record that is new to the room into the user map. */
    method Insert(sid: SessionId, u: User)
      requires Valid() && u !in Users() && u.color.None?
      requires u.role == IdentifyInitRole(SeatsOf(users))
      modifies this`users
      ensures Valid()
      ensures users == Put(old(users), sid, u)
    {
      JoinKeepsRosterValid(users, sid, u);
      users := Put(users, sid, u);
    }

    /** The roster reshuffle after a departure (src/server.js:508-516, 547-553), on the
        user records: see `Reassign`. */
    method Reshuffle(ownerLeft: bool, guarded: bool) returns (ok: bool)
      requires |users| > 0 && DistinctUsers(users)
      modifies Present()`role, Present()`status
      ensures ok <==> Reassign(old(SeatsOf(users)), ownerLeft, guarded).Some?
      ensures SeatsOf(users) == if ok then Reassign(old(SeatsOf(users)), ownerLeft, guarded).value else old(SeatsOf(users))
      ensures forall i | 0 <= i < |users| :: users[i].user.role == old(users[i].user.role) || users[i].user.role == Player1
      ensures forall v | v in Present() :: v.role == old(v.role) || v.role == Player1
    {
      var seats := SeatsOf(users);
      SeatsOfAt(users);
      var p1 := FindRole(seats, Player1);
      var p2 := FindRole(seats, Player2);
      if p1.None? {
        if p2.None? {
          if !guarded {
            return false;
          }
        } else {
          SetSeat(p2.value, seats[p2.value].(role := Player1));
        }
      }
      var promoted := SeatsOf(users);
      if ownerLeft {
        var heir := if p1.Some? then p1.value else 0;
        SetSeat(heir, promoted[heir].(status := Owner));
      }
      ok := true;
      ReassignRoles(seats, ownerLeft, guarded);
      SeatsOfAt(users);
      RolesOnlyPromoted(users);
    }

    /** Writes one user's role and status. */
    method SetSeat(k: nat, s: Seat)
      requires k < |users| && DistinctUsers(users)
      modifies users[k].user`role, users[k].user`status
      ensures SeatsOf(users) == old(SeatsOf(users))[k := s]
    {
      SeatsOfAt(users);
      assert forall i | 0 <= i < |users| && i != k :: users[i].user != users[k].user;
      users[k].user.role := s.role;
      users[k].user.status := s.status;
      SeatsOfAt(users);
    }
    /** The reshuffle after a departure, keeping the room valid: `Remains` when the roles
        could be reassigned, `Failed` when the unguarded handler finds no player to
        promote and throws before touching anything. */
    method Redistribute(ownerLeft: bool, guarded: bool) returns (out: Departure)
      requires Valid() && |users| > 0
      modifies Present()`role, Present()`status
      ensures Valid()
      ensures out == Remains || out == Failed
      ensures out == Remains <==> Reassign(old(SeatsOf(users)), ownerLeft, guarded).Some?
      ensures SeatsOf(users) ==
        if out == Remains then Reassign(old(SeatsOf(users)), ownerLeft, guarded).value else old(SeatsOf(users))
    {
      var seats := SeatsOf(users);
      var ok := Reshuffle(ownerLeft, guarded);
      if ok {
        ReassignKeepsPlayersUnique(seats, ownerLeft, guarded);
        out := Remains;
      } else {
        out := Failed;
      }
      PromotionKeepsValid();
    }

    /** Giving records the role of player 1 or changing their status, and nothing else,
        keeps the room valid as long as the player roles stay unique. */
    twostate lemma PromotionKeepsValid()
      requires old(Valid()) && unchanged(this)
      requires forall v | v in old(Users()) :: v.color == old(v.color) && (v.role == old(v.role) || v.role == Player1)
      requires UniquePlayers(SeatsOf(users))
      ensures Valid()
    {
      forall i | 0 <= i < |users|
        ensures users[i].user.color.Some? ==> users[i].user.role != Spectator
      {
        assert users[i] in users;
      }
    }

    /** `leave-room` (src/server.js:491-519) for the session `sid` whose socket holds the
        record `u`. The entry is deleted first. If a match is on and `u` is a player, the
        round goes to the other player in the history and that player becomes the match
        winner, without a point and without ending the match object; a player who never
        got a colour makes the handler throw there. An emptied room is reported for
        deletion; otherwise the roles are reshuffled without the guard the disconnect
        path has. */
    method Leave(sid: SessionId, u: User) returns (out: Departure)
      requires Valid()
      modifies this`users, this`board, Present()`role, Present()`status
      ensures Valid()
      ensures users == Remove(old(users), sid)
      ensures board == AfterForfeit(old(board), old(u.role), old(u.color))
      ensures out == Departed(Throws(old(board), old(u.role), old(u.color)),
                              old(SeatsOf(Remove(users, sid))), old(u.status) == Owner, false)
      ensures SeatsOf(users) == Reseated(Throws(old(board), old(u.role), old(u.color)),
                                         old(SeatsOf(Remove(users, sid))), old(u.status) == Owner, false)
    {
      var ownerLeft := u.status == Owner;
      Drop(sid);
      var crashed := ForfeitBy(u);
      if crashed {
        return Failed;
      }
      if users == [] {
        return Emptied;
      }
      out := Redistribute(ownerLeft, false);
    }

    /** Deletes the session's entry from the user map. */
    method Drop(sid: SessionId)
      requires Valid()
      modifies this`users
      ensures Valid()
      ensures users == Remove(old(users), sid) && Present() <= old(Present())
      ensures SeatsOf(users) == old(SeatsOf(Remove(users, sid)))
    {
      RemoveKeepsRosterValid(users, sid);
      users := Remove(users, sid);
    }

    /** The forfeit both departure paths apply (src/server.js:494-501, 531-537): when a
        match is on and `u` holds a player role, the history records the round for the
        other player and the other board player wins; it throws when `u` has no colour. */
    method ForfeitBy(u: User) returns (crashed: bool)
      requires Valid()
      modifies this`board
      ensures Valid()
      ensures crashed <==> old(board).Some? && u.role != Spectator && u.color.None?
      ensures board == AfterForfeit(old(board), u.role, u.color)
    {
      crashed := board.Some? && u.role != Spectator && u.color.None?;
      if board.Some? && u.role != Spectator && u.color.Some? {
        ApplyForfeit(u.role, u.color.value);
      }
    }

    method ApplyForfeit(leaver: Role, color: Color)
      requires Valid() && board.Some? && leaver != Spectator
      modifies this`board
      ensures Valid()
      ensures board == Some(Forfeit(old(board).value, leaver, color))
    {
      board := Some(Forfeit(board.value, leaver, color));
    }


    /** The timeout `disconnecting` arms (src/server.js:522-563), when it fires for the
        session `sid` whose socket held the record `u`. It does nothing when the user has
        reconnected or has already left; otherwise it cancels the pending clock timeout,
        forfeits as `leave-room` does, drops a decided match, deletes the entry and
        reshuffles the roles with a guard that never throws. */
    method ExpireDisconnect(sid: SessionId, u: User) returns (out: Departure)
      requires Valid()
      modifies this`users, this`board, this`timer, Present()`role, Present()`status
      ensures Valid()
      ensures old(u.connected) || old(SessionUser(sid)).None? ==>
        out == Ignored && users == old(users) && board == old(board) && timer == old(timer)
        && SeatsOf(users) == old(SeatsOf(users))
      ensures !old(u.connected) && old(SessionUser(sid)).Some? ==>
        && timer.None?
        && out == Departed(Throws(old(board), old(u.role), old(u.color)),
                           old(SeatsOf(Remove(users, sid))), old(u.status) == Owner, true)
        && (Throws(old(board), old(u.role), old(u.color)) ==>
              users == old(users) && board == old(board) && SeatsOf(users) == old(SeatsOf(users)))
        && (!Throws(old(board), old(u.role), old(u.color)) ==>
              && users == Remove(old(users), sid) && board == Closed(AfterForfeit(old(board), old(u.role), old(u.color)))
              && SeatsOf(users) == Reseated(false, old(SeatsOf(Remove(users, sid))), old(u.status) == Owner, true))
    {
      if u.connected || SessionUser(sid).None? {
        return Ignored;
      }
      out := Expire(sid, u);
    }

    method Expire(sid: SessionId, u: User) returns (out: Departure)
      requires Valid()
      modifies this`users, this`board, this`timer, Present()`role, Present()`status
      ensures Valid() && timer.None?
      ensures Throws(old(board), old(u.role), old(u.color)) ==>
        out == Failed && users == old(users) && board == old(board) && SeatsOf(users) == old(SeatsOf(users))
      ensures !Throws(old(board), old(u.role), old(u.color)) ==>
        && users == Remove(old(users), sid)
        && board == Closed(AfterForfeit(old(board), old(u.role), old(u.color)))
        && out == Departed(false, old(SeatsOf(Remove(users, sid))), old(u.status) == Owner, true)
        && SeatsOf(users) == Reseated(false, old(SeatsOf(Remove(users, sid))), old(u.status) == Owner, true)
    {
      var ownerLeft := u.status == Owner;
      timer := None;
      var crashed := ForfeitBy(u);
      if crashed {
        return Failed;
      }
      SeatsOfUnchanged(Remove(users, sid));
      out := Depart(sid, ownerLeft);
    }

    /** What the expiry does once the forfeit is settled: a decided match is dropped, the
        entry deleted, and the remaining users reshuffled with the guarded lookup. */
    method Depart(sid: SessionId, ownerLeft: bool) returns (out: Departure)
      requires Valid()
      modifies this`users, this`board, Present()`role, Present()`status
      ensures Valid()
      ensures users == Remove(old(users), sid) && board == Closed(old(board))
      ensures out == Departed(false, old(SeatsOf(Remove(users, sid))), ownerLeft, true)
      ensures SeatsOf(users) == Reseated(false, old(SeatsOf(Remove(users, sid))), ownerLeft, true)
    {
      CloseDecided();
      SeatsOfUnchanged(Remove(users, sid));
      Drop(sid);
      if users == [] {
        return Emptied;
      }
      out := Redistribute(ownerLeft, true);
    }

    /** Drops the match once it has a winner. */
    method CloseDecided()
      requires Valid()
      modifies this`board
      ensures Valid() && board == Closed(old(board))
    {
      if board.Some? && board.value.winner.Some? {
        board := None;
      }
    }

    /** The socket middleware on a reconnect (src/server.js:284-289): the session's
        record, if it is still in the map, is marked connected. */
    method Reconnect(sid: SessionId)
      requires Valid()
      modifies Present()`connected
      ensures Valid()
      ensures SessionUser(sid).Some? ==> SessionUser(sid).value.connected
      ensures forall v | v in Present() && Some(v) != SessionUser(sid) :: v.connected == old(v.connected)
    {
      var who := SessionUser(sid);
      if who.Some? {
        LookupIsFirst(users, sid);
        assert users[Lookup(users, sid).value] in users;
        who.value.connected := true;
      }
    }

    /** Changing what the user records hold besides their roles and statuses keeps the
        room valid, as long as no colour is taken away or given to a record that had none
        and the match's players keep opposite colours. */
    twostate lemma RecordsKeepValid()
      requires old(Valid()) && unchanged(this)
      requires forall v | v in old(Users()) ::
        && v.role == old(v.role) && v.status == old(v.status)
        && (v.color == old(v.color) || (old(v.color).Some? && v.color.Some?))
      requires board.Some? ==> board.value.player1.color != board.value.player2.color
      ensures Valid()
    {
      forall i | 0 <= i < |users|
        ensures users[i].user.color.Some? ==> users[i].user.role != Spectator
      {
        assert users[i] in users;
      }
    }

    /** The socket middleware on a disconnect (src/server.js:522-523): the record is
        marked disconnected; the expiry is `ExpireDisconnect`. */
    method Disconnect(u: User)
      requires Valid()
      modifies u`connected
      ensures Valid() && !u.connected
    {
      u.connected := false;
      RecordsKeepValid();
    }

    /** `set-settings` (src/server.js:362-373): guests are ignored; the owner's or a
        player's payload is applied as `ApplySettings` says, and a missing payload throws
        before anything is written. */
    method SetSettings(sid: SessionId, p: Option<SettingsPayload>) returns (out: Reply)
      requires Valid()
      modifies this`settings
      ensures Valid()
      ensures out == Threw <==> SessionUser(sid).None? || (SessionUser(sid).value.status != Guest && p.None?)
      ensures out == Skipped <==> SessionUser(sid).Some? && SessionUser(sid).value.status == Guest
      ensures out == Done <==> SessionUser(sid).Some? && SessionUser(sid).value.status != Guest && p.Some?
      ensures settings == if out == Done then ApplySettings(old(settings), p) else old(settings)
    {
      var who := SessionUser(sid);
      if who.None? {
        return Threw;
      }
      if who.value.status == Guest {
        return Skipped;
      }
      if p.None? {
        return Threw;
      }
      ApplyKeepsRange(settings, p);
      settings := ApplySettings(settings, p);
      out := Done;
    }

    /** `changed-username` (src/server.js:348-360): a field equal to the session's current
        name or whose string form does not match the user-name pattern is ignored;
        otherwise the record takes the field (the session keeps the old name). */
    method ChangeUsername(sid: SessionId, sessionName: string, f: NameField) returns (out: Reply)
      requires Valid()
      modifies Present()`username
      ensures Valid()
      ensures out == Done || out == Skipped || out == Threw
      ensures out == Skipped <==> SameName(f, sessionName) || !ValidUsername(Coerced(f))
      ensures out == Threw <==> !SameName(f, sessionName) && ValidUsername(Coerced(f)) && SessionUser(sid).None?
      ensures out == Done ==> SessionUser(sid).Some? && SessionUser(sid).value.username == Stored(f)
      ensures forall v | v in Present() && (out != Done || Some(v) != SessionUser(sid)) :: v.username == old(v.username)
    {
      if SameName(f, sessionName) || !ValidUsername(Coerced(f)) {
        return Skipped;
      }
      var who := SessionUser(sid);
      if who.None? {
        return Threw;
      }
      LookupIsFirst(users, sid);
      assert users[Lookup(users, sid).value] in users;
      who.value.username := Stored(f);
      RecordsKeepValid();
      out := Done;
    }

    /** `startNextRound` (src/server.js:235-248): once both of the match's players are
        ready, their flags are reset, they swap colours, and the next round starts on a
        fresh grid with white to move; otherwise nothing changes. */
    method StartNextRound() returns (started: bool)
      requires Valid() && board.Some?
      modifies this`board, board.value.player1`ready, board.value.player1`color
      modifies board.value.player2`ready, board.value.player2`color
      ensures Valid()
      ensures started <==> old(board.value.player1.ready && board.value.player2.ready)
      ensures !started ==> board == old(board) && unchanged(old(Players()))
      ensures started ==>
        var m := old(board.value);
        && board.Some? && fresh(board.value.content) && board.value.content[..] == DefaultBoard()
        && board.value == m.(content := board.value.content, currentColor := White, currentRound := m.currentRound + 1)
        && !m.player1.ready && !m.player2.ready
        && m.player1.color == old(m.player2.color) && m.player2.color == old(m.player1.color)
    {
      var m := board.value;
      if !(m.player1.ready && m.player2.ready) {
        return false;
      }
      m.player1.ready := false;
      m.player2.ready := false;
      m.player1.color := Some(Opposite(m.player1.color.value));
      m.player2.color := Some(Opposite(m.player2.color.value));
      RecordsKeepValid();
      Restart();
      started := true;
    }

    /** The match moves on to its next round on a fresh grid, white to move. */
    method Restart()
      requires Valid() && board.Some?
      modifies this`board
      ensures Valid() && board.Some?
      ensures fresh(board.value.content) && board.value.content[..] == DefaultBoard()
      ensures board.value == old(board.value).(content := board.value.content, currentColor := White,
                                                 currentRound := old(board.value.currentRound) + 1)
    {
      var content := DefaultBoardContent();
      var m := board.value;
      board := Some(m.(content := content, currentColor := White, currentRound := m.currentRound + 1));
    }

    /** The match's players. */
    function Players(): set<User>
      reads this
    {
      if board.Some? then {board.value.player1, board.value.player2} else {}
    }

    /** `ready-status` (src/server.js:376-389): spectators are ignored, and so is a player
        while a round is being played. Otherwise the flag is set; without a match the
        countdown begins when both roster players are ready (`countdown`, whose first tick
        is `CountdownTick(4)`), and during a match the next round starts when both of the
        match's players are ready (`next`). */
    method SetReady(sid: SessionId, flag: bool) returns (out: Reply, countdown: bool, next: bool)
      requires Valid()
      modifies Present()`ready, this`board, Players()`ready, Players()`color
      ensures Valid()
      ensures out == Threw <==> old(SessionUser(sid)).None?
      ensures out == Skipped <==>
        && old(SessionUser(sid)).Some?
        && (old(SessionUser(sid).value.role) == Spectator ||
            (old(board).Some? && old(board.value.currentRound) != |old(board.value.roundsHistory)|))
      ensures out == Done || out == Skipped || out == Threw
      ensures out != Done ==> !countdown && !next && board == old(board)
      ensures out != Done ==> forall v | v in old(Present()) :: v.ready == old(v.ready)
      ensures out == Done && old(board).None? ==>
        && !next && board.None? && SessionUser(sid).value.ready == flag
        && (countdown <==> BothPlayersReady())
      ensures out == Done && old(board).Some? ==>
        var m, u := old(board.value), old(SessionUser(sid)).value;
        && !countdown && board.Some?
        && (next <==> (if m.player1 == u then flag else old(m.player1.ready))
                      && (if m.player2 == u then flag else old(m.player2.ready)))
        && (next ==>
              && fresh(board.value.content) && board.value.content[..] == DefaultBoard()
              && board.value == m.(content := board.value.content, currentColor := White,
                                   currentRound := m.currentRound + 1)
              && !m.player1.ready && !m.player2.ready
              && m.player1.color == old(m.player2.color) && m.player2.color == old(m.player1.color))
        && (!next ==> board == old(board) && u.ready == flag)
      ensures out == Done ==>
        var u := old(SessionUser(sid)).value;
        forall v | v in old(Present() + Players()) && v != u && !(next && v in old(Players())) :: v.ready == old(v.ready)
      ensures forall v | v in old(Present() + Players()) && !(next && v in old(Players())) :: v.color == old(v.color)
    {
      countdown, next := false, false;
      var who := SessionUser(sid);
      if who.None? {
        return Threw, false, false;
      }
      var u := who.value;
      if u.role == Spectator || (board.Some? && board.value.currentRound != |board.value.roundsHistory|) {
        return Skipped, false, false;
      }
      LookupIsFirst(users, sid);
      assert users[Lookup(users, sid).value] in users;
      out := Done;
      if board.None? {
        SetFlag(u, flag);
        countdown := BothPlayersReady();
      } else {
        next := ReadyInMatch(u, flag);
      }
    }

    /** `ready-status` between two rounds of a match: the flag is set and `startNextRound`
        runs. */
    method ReadyInMatch(u: User, flag: bool) returns (next: bool)
      requires Valid() && board.Some? && u in Present()
      modifies u`ready, this`board, Players()`ready, Players()`color
      ensures Valid()
      ensures var m := old(board.value);
        && board.Some?
        && (next <==> (if m.player1 == u then flag else old(m.player1.ready))
                      && (if m.player2 == u then flag else old(m.player2.ready)))
        && (next ==>
              && fresh(board.value.content) && board.value.content[..] == DefaultBoard()
              && board.value == m.(content := board.value.content, currentColor := White,
                                   currentRound := m.currentRound + 1)
              && !m.player1.ready && !m.player2.ready
              && m.player1.color == old(m.player2.color) && m.player2.color == old(m.player1.color))
        && (!next ==> board == old(board) && u.ready == flag)
        && (!next ==> forall v | v in old(Players()) :: v.color == old(v.color) && (v != u ==> v.ready == old(v.ready)))
    {
      SetFlag(u, flag);
      next := StartNextRound();
    }

    /** One tick of `readyCountDown` (src/server.js:226-233): at zero the game starts;
        before that the next tick is scheduled only while both roster players are ready. */
    method CountdownTick(i: int, coin: bool, now: int) returns (out: Countdown)
      requires Valid()
      modifies this`board, this`timer, Present()`ready, Present()`color
      modifies Present()`remainTime, Present()`startTime
      ensures Valid()
      ensures i != 0 ==> board == old(board) && timer == old(timer)
      ensures i != 0 ==> out == if old(BothPlayersReady()) then Next(i - 1) else Halted
      ensures i != 0 ==> forall v | v in old(Present()) ::
        && v.ready == old(v.ready) && v.color == old(v.color)
        && v.remainTime == old(v.remainTime) && v.startTime == old(v.startTime)
      ensures i == 0 ==> (out == GameStarted <==> old(PlayerWith(Player1)).Some? && old(PlayerWith(Player2)).Some?)
      ensures i == 0 ==> out == GameStarted || out == GameThrew
      ensures out == GameThrew ==> board == old(board) && timer == old(timer)
      ensures out == GameThrew && old(PlayerWith(Player1)).Some? ==> !old(PlayerWith(Player1)).value.ready
      ensures out == GameThrew ==> forall v | v in old(Present()) ::
        && v.color == old(v.color) && v.remainTime == old(v.remainTime) && v.startTime == old(v.startTime)
        && (Some(v) != old(PlayerWith(Player1)) ==> v.ready == old(v.ready))
      ensures out == GameStarted ==>
        && board.Some? && fresh(board.value.content) && Begun(board.value, coin, now)
        && board.value.player1 == old(PlayerWith(Player1)).value
        && board.value.player2 == old(PlayerWith(Player2)).value
        && (settings.timerEnabled ==> ClocksStarted(board.value, timer, coin, settings.timerLength, now))
        && (!settings.timerEnabled ==> timer == old(timer))
      ensures out == GameStarted ==> forall v | v in old(Present()) ::
        && (Some(v) != old(PlayerWith(Player1)) && Some(v) != old(PlayerWith(Player2)) ==>
              v.ready == old(v.ready) && v.color == old(v.color))
        && ((Some(v) != old(PlayerWith(Player1)) && Some(v) != old(PlayerWith(Player2))) || !settings.timerEnabled ==>
              v.remainTime == old(v.remainTime) && v.startTime == old(v.startTime))
    {
      if i == 0 {
        var ok := StartGame(coin, now);
        out := if ok then GameStarted else GameThrew;
      } else {
        out := if BothPlayersReady() then Next(i - 1) else Halted;
      }
    }

    /** `startGame` (src/server.js:124-177): the two roster players lose their ready
        flags, the coin gives one of them white and a new match starts, with the clocks set
        when they are on. A missing player makes the handler throw, after player 1's flag
        was reset if there is a player 1. */
    method StartGame(coin: bool, now: int) returns (ok: bool)
      requires Valid()
      modifies this`board, this`timer, Present()`ready, Present()`color
      modifies Present()`remainTime, Present()`startTime
      ensures Valid()
      ensures ok <==> old(PlayerWith(Player1)).Some? && old(PlayerWith(Player2)).Some?
      ensures !ok ==> board == old(board) && timer == old(timer)
      ensures !ok ==> forall v | v in old(Present()) ::
        && v.color == old(v.color) && v.remainTime == old(v.remainTime) && v.startTime == old(v.startTime)
        && (Some(v) != old(PlayerWith(Player1)) ==> v.ready == old(v.ready))
      ensures old(PlayerWith(Player1)).Some? ==> !old(PlayerWith(Player1)).value.ready
      ensures ok ==>
        && board.Some? && fresh(board.value.content) && Begun(board.value, coin, now)
        && board.value.player1 == old(PlayerWith(Player1)).value
        && board.value.player2 == old(PlayerWith(Player2)).value
      ensures ok && settings.timerEnabled ==> ClocksStarted(board.value, timer, coin, settings.timerLength, now)
      ensures ok && !settings.timerEnabled ==> timer == old(timer)
      ensures ok ==> forall v | v in old(Present()) ::
        && (Some(v) != old(PlayerWith(Player1)) && Some(v) != old(PlayerWith(Player2)) ==>
              v.ready == old(v.ready) && v.color == old(v.color))
        && ((Some(v) != old(PlayerWith(Player1)) && Some(v) != old(PlayerWith(Player2))) || !settings.timerEnabled ==>
              v.remainTime == old(v.remainTime) && v.startTime == old(v.startTime))
    {
      var p1 := PlayerWith(Player1);
      if p1.None? {
        return false;
      }
      var p2 := PlayerWith(Player2);
      if p2.None? {
        SetFlag(p1.value, false);
        return false;
      }
      Begin(p1.value, p2.value, coin, now);
      ok := true;
    }

    /** `startGame` once both roster players are found: their flags are reset and the
        match opens. No other record changes, and the clocks only when they are on. */
    method Begin(p1: User, p2: User, coin: bool, now: int)
      requires Valid() && PlayerWith(Player1) == Some(p1) && PlayerWith(Player2) == Some(p2)
      modifies this`board, this`timer, p1`ready, p1`color, p1`remainTime, p1`startTime
      modifies p2`ready, p2`color, p2`remainTime, p2`startTime
      ensures Valid()
      ensures board.Some? && fresh(board.value.content) && Begun(board.value, coin, now)
      ensures board.value.player1 == p1 && board.value.player2 == p2
      ensures settings.timerEnabled ==> ClocksStarted(board.value, timer, coin, settings.timerLength, now)
      ensures !settings.timerEnabled ==> timer == old(timer)
      ensures !settings.timerEnabled ==>
        && p1.remainTime == old(p1.remainTime) && p1.startTime == old(p1.startTime)
        && p2.remainTime == old(p2.remainTime) && p2.startTime == old(p2.startTime)
    {
      SetFlag(p1, false);
      SetFlag(p2, false);
      Launch(p1, p2, coin, now);
    }

    /** Sets one record's ready flag. */
    method SetFlag(u: User, flag: bool)
      requires Valid()
      modifies u`ready
      ensures Valid() && u.ready == flag
    {
      u.ready := flag;
      RecordsKeepValid();
    }

    /** The new match between the two roster players and, when the clocks are on, its
        clocks. */
    method Launch(p1: User, p2: User, coin: bool, now: int)
      requires Valid() && PlayerWith(Player1) == Some(p1) && PlayerWith(Player2) == Some(p2)
      requires !p1.ready && !p2.ready
      modifies p1`color, p2`color, this`board, this`timer
      modifies p1`startTime, p1`remainTime, p2`startTime, p2`remainTime
      ensures Valid()
      ensures board.Some? && fresh(board.value.content) && Begun(board.value, coin, now)
      ensures board.value.player1 == p1 && board.value.player2 == p2
      ensures settings.timerEnabled ==> ClocksStarted(board.value, timer, coin, settings.timerLength, now)
      ensures !settings.timerEnabled ==> timer == old(timer)
      ensures !settings.timerEnabled ==>
        && p1.remainTime == old(p1.remainTime) && p1.startTime == old(p1.startTime)
        && p2.remainTime == old(p2.remainTime) && p2.startTime == old(p2.startTime)
    {
      OpenMatch(p1, p2, coin, now);
      if settings.timerEnabled {
        if coin {
          StartClocks(p1, p2, now);
        } else {
          StartClocks(p2, p1, now);
        }
      }
    }

    /** The coin's colours and the new match between the two roster players. */
    method OpenMatch(p1: User, p2: User, coin: bool, now: int)
      requires Valid() && PlayerWith(Player1) == Some(p1) && PlayerWith(Player2) == Some(p2)
      modifies p1`color, p2`color, this`board
      ensures Valid()
      ensures p1.color == Some(if coin then White else Black) && p2.color == Some(if coin then Black else White)
      ensures board.Some? && fresh(board.value.content) && board.value.content[..] == DefaultBoard()
      ensures board.value == Match(board.value.content, White, 1, [], Score(0, 0), Stats(0, 0, 0, now, 0), p1, p2, None)
    {
      if coin {
        p1.color := Some(White);
        p2.color := Some(Black);
      } else {
        p2.color := Some(White);
        p1.color := Some(Black);
      }
      var content := DefaultBoardContent();
      board := Some(Match(content, White, 1, [], Score(0, 0), Stats(0, 0, 0, now, 0), p1, p2, None));
      OpenKeepsValid();
    }

    /** A match between the two roster players, given opposite colours, keeps the room
        valid. */
    twostate lemma OpenKeepsValid()
      requires old(Valid()) && board.Some?
      requires old(PlayerWith(Player1)) == Some(board.value.player1)
      requires old(PlayerWith(Player2)) == Some(board.value.player2)
      requires users == old(users) && settings == old(settings) && timer == old(timer)
      requires board.value.content.Length == Cells
      requires board.value.player1.color.Some? && board.value.player2.color.Some?
      requires board.value.player1.color != board.value.player2.color
      requires board.value.player1.role == Player1 && board.value.player2.role == Player2
      requires forall i | 0 <= i < |users| ::
        users[i].user.role == old(users[i].user.role) && users[i].user.status == old(users[i].user.status)
      requires forall i | 0 <= i < |users| ::
        users[i].user.color == old(users[i].user.color) || users[i].user in Players()
      requires timer.Some? ==>
        && timer.value.player.role == old(timer.value.player.role)
        && (timer.value.player.color == old(timer.value.player.color) || timer.value.player in Players())
      ensures Valid()
    {
      RecolorKeepsRoster(users);
      assert MatchValid(board.value);
    }

    /** Both clocks get the clock length plus 100 ms; white's starts now, and the timeout
        that credits black fires when white's time is up (src/server.js:160-174). */
    method StartClocks(w: User, b: User, now: int)
      requires Valid() && board.Some? && {w, b} == {board.value.player1, board.value.player2}
      modifies w`startTime, w`remainTime, b`startTime, b`remainTime, this`timer
      ensures Valid()
      ensures w.startTime == now && b.startTime == now
      ensures w.remainTime == settings.timerLength + 100 && b.remainTime == settings.timerLength + 100
      ensures timer == Some(Armed(b, settings.timerLength + 100))
    {
      w.startTime := now;
      b.startTime := now;
      w.remainTime := settings.timerLength + 100;
      b.remainTime := settings.timerLength + 100;
      SwitchTimers(b, w, 0, now);
      RecordsKeepValid();
      timer := Some(Armed(b, w.remainTime));
    }

    method Disarm()
      requires Valid()
      modifies this`timer
      ensures Valid() && timer.None?
    {
      timer := None;
    }

    /** `setPlayerTimeout` (src/server.js:250-274): a timeout crediting `u` after `delay`. */
    method Arm(u: User, delay: int)
      requires Valid() && u.color.Some? && u.role != Spectator
      modifies this`timer
      ensures Valid() && timer == Some(Armed(u, delay))
    {
      timer := Some(Armed(u, delay));
    }

    /** Replaces the match by one between the same players on a full grid. */
    method Replace(m: Match)
      requires Valid() && board.Some? && m.content.Length == Cells
      requires m.player1 == board.value.player1 && m.player2 == board.value.player2
      modifies this`board
      ensures Valid() && board == Some(m)
    {
      board := Some(m);
    }

    /** The pending timeout fires (src/server.js:252-271). Nothing happens without a match
        or once the current round is in the history; otherwise the credited player scores
        the round as `TimedOut` says and a decided match is dropped. */
    method FireTimeout(now: int) returns (out: Reply)
      requires Valid()
      modifies this`board, this`timer
      ensures Valid() && timer.None?
      ensures out == Done || out == Skipped
      ensures out == Done <==>
        old(timer).Some? && old(board).Some? && |old(board.value.roundsHistory)| != old(board.value.currentRound)
      ensures out == Skipped ==> board == old(board)
      ensures out == Done ==>
        board == Closed(Some(TimedOut(old(board.value), old(timer.value.player.role), old(timer.value.player.color.value),
                                      old(timer.value.player), settings.rounds, now)))
    {
      if timer.None? {
        return Skipped;
      }
      var p := timer.value.player;
      var role, color := p.role, p.color.value;
      Disarm();
      if board.None? || |board.value.roundsHistory| == board.value.currentRound {
        return Skipped;
      }
      Replace(TimedOut(board.value, role, color, p, settings.rounds, now));
      CloseDecided();
      out := Done;
    }

    /** The clock part of the move handler (src/server.js:460-473) for the mover `u`
        playing `c`: the pending timeout is cancelled, the mover's clock is charged with the
        bonus and the opponent's starts now, and while the round is still in play a new
        timeout credits the mover once the opponent's time is up. */
    method Clocks(u: User, c: Color, now: int)
      requires Valid() && board.Some? && u.color == Some(c) && u.role != Spectator
      modifies this`timer, u`remainTime, Opponent(board.value, c)`startTime
      ensures Valid()
      ensures u.remainTime == Charged(old(u.remainTime), old(u.startTime), settings.timerBonus, now)
      ensures Opponent(board.value, c).startTime == now
      ensures u.startTime == old(u.startTime)
      ensures Opponent(board.value, c).remainTime == old(Opponent(board.value, c).remainTime)
      ensures forall v | v in Players() && v != Opponent(board.value, c) :: v.startTime == old(v.startTime)
      ensures timer == if InPlay(board.value) then Some(Armed(u, Opponent(board.value, c).remainTime)) else None
    {
      var o := Opponent(board.value, c);
      SwitchTimers(u, o, settings.timerBonus, now);
      RecordsKeepValid();
      Disarm();
      if InPlay(board.value) {
        Arm(u, o.remainTime);
      }
    }

    /** A move that `CheckMove` accepted, by `u` from `origin` to `d`. */
    method Play(u: User, origin: Pos, d: Destination, mate: MateOracle, now: int) returns (out: Reply)
      requires Valid() && board.Some? && u.color == Some(board.value.currentColor) && u.role != Spectator
      requires OnBoard(origin) && OnBoard(DestPos(d))
      requires board.value.content[Index(origin)].Piece?
      modifies this`board, this`timer, board.value.content, u`remainTime
      modifies Opponent(board.value, board.value.currentColor)`startTime
      ensures Valid() && settings == old(settings)
      ensures MoveApplied(old(board.value), old(board.value.content[..]), u, origin, d, mate, now, out,
                          settings, old(timer), board, timer)
      ensures out == Done || out == Threw
      ensures out == Threw ==> forall v | v in old(Present() + Players()) ::
        v.remainTime == old(v.remainTime) && v.startTime == old(v.startTime)
      ensures !settings.timerEnabled ==>
        && u.remainTime == old(u.remainTime)
        && old(Opponent(board.value, board.value.currentColor)).startTime == old(Opponent(board.value, board.value.currentColor).startTime)
    {
      var m := board.value;
      var s := CountMove(m.stats, m.currentColor, m.content[Index(origin)].color, m.player1.color.value, m.player2.color.value);
      Replace(m.(stats := s));
      var crashed := MoveGrid(origin, d);
      if crashed {
        return Threw;
      }
      Finish(u, d, mate, now);
      out := Done;
    }

    /** The rest of the move once the grid steps are done. */
    method Finish(u: User, d: Destination, mate: MateOracle, now: int)
      requires Valid() && board.Some? && u.color == Some(board.value.currentColor) && u.role != Spectator
      requires OnBoard(DestPos(d))
      modifies this`board, this`timer, board.value.content, u`remainTime
      modifies Opponent(board.value, board.value.currentColor)`startTime
      ensures Valid() && settings == old(settings)
      ensures MoveFinished(old(board.value), old(board.value.content[..]), u, d, mate, now, settings, old(timer), board, timer)
      ensures !settings.timerEnabled ==>
        && u.remainTime == old(u.remainTime)
        && old(Opponent(board.value, board.value.currentColor)).startTime == old(Opponent(board.value, board.value.currentColor).startTime)
    {
      var m := board.value;
      var mated := mate(m.content[..], Opposite(m.currentColor));
      Replace(AfterPlay(m, mated, u.role, u, settings.rounds, now));
      if settings.timerEnabled {
        Clocks(u, m.currentColor, now);
      }
      PromoteGrid(d);
      CloseDecided();
    }

    /** The grid steps of a checked move, for the side to move. */
    method MoveGrid(origin: Pos, d: Destination) returns (crashed: bool)
      requires Valid() && board.Some? && OnBoard(origin) && OnBoard(DestPos(d))
      requires board.value.content[Index(origin)].Piece?
      modifies board.value.content
      ensures Valid()
      ensures var r := PlayMove(old(board.value.content[..]), origin, d, board.value.currentColor);
        board.value.content[..] == r.g && crashed == r.Crash?
    {
      crashed := PlayMoveInPlace(board.value.content, origin, d, board.value.currentColor);
    }

    /** The pawn promotion on the match's grid. */
    method PromoteGrid(d: Destination)
      requires Valid() && board.Some? && OnBoard(DestPos(d))
      modifies board.value.content
      ensures Valid() && board.value.content[..] == Promote(old(board.value.content[..]), d)
    {
      PromoteInPlace(board.value.content, d);
    }

    /** The match's grid. */
    function Grid(): set<array<Square>>
      reads this
    {
      if board.Some? then {board.value.content} else {}
    }

    /** The session's record, the only one whose time left a move can charge. */
    function Mover(sid: SessionId): set<User>
      reads this
    {
      if SessionUser(sid).Some? then {SessionUser(sid).value} else {}
    }

    /** The match player not to move, the only one whose clock a move can start. */
    function Rival(): set<User>
      reads this, Players()
    {
      if board.Some? then {Opponent(board.value, board.value.currentColor)} else {}
    }

    /** `move` (src/server.js:392-484) from the session `sid`. Without a match the handler
        throws; once the match is won or the round is in the history the move is ignored;
        an unknown session or an origin off the board throws; a move `checkMove` turns
        down changes nothing; a checked move goes on as `MoveApplied` says. Of all user
        records, only the mover's time left and the other match player's start time can
        change (the `modifies` clause). */
    method Move(sid: SessionId, origin: Pos, dest: Destination, moves: MovesOracle, mate: MateOracle, now: int)
      returns (out: Reply)
      requires Valid() && OnBoardOracle(moves)
      modifies this`board, this`timer, Grid(), Mover(sid)`remainTime, Rival()`startTime
      ensures Valid()
      ensures old(board).None? ==> out == Threw && board == old(board) && timer == old(timer)
      ensures out != Done ==> forall v | v in old(Present() + Players()) ::
        v.remainTime == old(v.remainTime) && v.startTime == old(v.startTime)
      ensures out == Done && !settings.timerEnabled && old(board).Some? && old(SessionUser(sid)).Some? ==>
        && old(SessionUser(sid)).value.remainTime == old(SessionUser(sid).value.remainTime)
        && old(Opponent(board.value, board.value.currentColor)).startTime ==
           old(Opponent(board.value, board.value.currentColor).startTime)
      ensures old(board).Some? && !InPlay(old(board).value) ==> out == Skipped && board == old(board) && timer == old(timer)
      ensures old(board).Some? && InPlay(old(board).value) && (old(SessionUser(sid)).None? || !OnBoard(origin)) ==>
        out == Threw && board == old(board) && timer == old(timer)
      ensures old(board).Some? && (out == Skipped || out == Refused) ==> unchanged(old(board).value.content)
      ensures old(board).Some? && InPlay(old(board).value) && old(SessionUser(sid)).Some? && OnBoard(origin) ==>
        var u := old(SessionUser(sid)).value;
        var d := CheckMove(old(board.value.content[..]), old(u.color), old(board.value.currentColor), origin, dest, moves);
        && (d.None? ==> out == Refused && board == old(board) && timer == old(timer))
        && (d.Some? ==>
              && OnBoard(DestPos(d.value)) && old(board.value.content[..])[Index(origin)].Piece?
              && old(u.role) != Spectator
              && MoveApplied(old(board.value), old(board.value.content[..]), u, origin, d.value, mate, now, out,
                             settings, old(timer), board, timer))
    {
      if board.None? {
        return Threw;
      }
      var m := board.value;
      if !InPlay(m) {
        return Skipped;
      }
      var who := SessionUser(sid);
      if who.None? || !OnBoard(origin) {
        return Threw;
      }
      var u := who.value;
      var d := CheckMove(m.content[..], u.color, m.currentColor, origin, dest, moves);
      if d.None? {
        return Refused;
      }
      CheckedOnBoard(m.content[..], u.color, m.currentColor, origin, dest, moves);
      LookupIsFirst(users, sid);
      assert users[Lookup(users, sid).value] in users;
      out := Play(u, origin, d.value, mate, now);
    }

  }
}
