/** Roles and statuses of the users of a room, seen as the sequence of seats the room's
    user map holds in insertion order, and the two roster rules of the source: the role a
    newcomer receives and the reshuffle after a user departs. */
module Roster {
  import opened Wrappers

  datatype Role = Player1 | Player2 | Spectator

  datatype Status = Owner | Guest

  /** What the roster rules look at in a user: its role and its status. */
  datatype Seat = Seat(role: Role, status: Status)

  /** The first seat holding role r, as `Array.prototype.find` returns it (src/server.js:68-69, 78-83). */
  function FindRole(seats: seq<Seat>, r: Role): (k: Option<nat>)
    ensures k.Some? ==> k.value < |seats| && seats[k.value].role == r
  {
    if seats == [] then None
    else if seats[0].role == r then Some(0)
    else match FindRole(seats[1..], r)
      case None => None
      case Some(k) => Some(k + 1)
  }

  /** `FindRole` finds the first seat with the role, and finds none only when no seat has it. */
  lemma {:induction false} FindRoleIsFirst(seats: seq<Seat>, r: Role)
    ensures var k := FindRole(seats, r);
      && (k.None? <==> !Holds(seats, r))
      && (k.Some? ==> k.value < |seats| && seats[k.value].role == r)
      && (k.Some? ==> forall i | 0 <= i < k.value :: seats[i].role != r)
  {
    if seats != [] && seats[0].role != r {
      FindRoleIsFirst(seats[1..], r);
      if Holds(seats, r) {
        var i :| 0 <= i < |seats| && seats[i].role == r;
        assert seats[1..][i - 1].role == r;
      }
    }
  }

  predicate Holds(seats: seq<Seat>, r: Role) {
    exists i | 0 <= i < |seats| :: seats[i].role == r
  }

  /** `identifyInitRole` (src/server.js:63-72). */
  function IdentifyInitRole(seats: seq<Seat>): (r: Role)
  {
    var r := Spectator;
    var r := if FindRole(seats, Player2).None? then Player2 else r;
    if FindRole(seats, Player1).None? then Player1 else r
  }

  /** A newcomer takes the first free player seat, player 1 before player 2, and is a
      spectator only when both are taken. */
  lemma InitRoleIsFirstFreeSeat(seats: seq<Seat>)
    ensures IdentifyInitRole(seats) == Player1 <==> !Holds(seats, Player1)
    ensures IdentifyInitRole(seats) == Player2 <==> Holds(seats, Player1) && !Holds(seats, Player2)
    ensures IdentifyInitRole(seats) == Spectator <==> Holds(seats, Player1) && Holds(seats, Player2)
  {
    FindRoleIsFirst(seats, Player1);
    FindRoleIsFirst(seats, Player2);
  }

  /** No two seats share a player role. */
  predicate UniquePlayers(seats: seq<Seat>) {
    forall i, j | 0 <= i < j < |seats| :: seats[i].role == seats[j].role ==> seats[i].role == Spectator
  }

  /** The room's user map either replaces the entry of a session that is already present
      (keeping its position) or appends a new one (src/server.js:656-660). */
  function PutSeat(seats: seq<Seat>, at: Option<nat>, s: Seat): seq<Seat>
    requires at.Some? ==> at.value < |seats|
  {
    if at.Some? then seats[at.value := s] else seats + [s]
  }

  /** A newcomer with the role `identifyInitRole` gives it never takes a player role that is
      held by somebody else, so player roles stay unique. */
  lemma JoinKeepsPlayersUnique(seats: seq<Seat>, at: Option<nat>, st: Status)
    requires UniquePlayers(seats)
    requires at.Some? ==> at.value < |seats|
    ensures UniquePlayers(PutSeat(seats, at, Seat(IdentifyInitRole(seats), st)))
  {
    InitRoleIsFirstFreeSeat(seats);
    var r := IdentifyInitRole(seats);
    var t := PutSeat(seats, at, Seat(r, st));
    forall i, j | 0 <= i < j < |t| && t[i].role == t[j].role
      ensures t[i].role == Spectator
    {
      var k := if at.Some? then at.value else |seats|;
      if r != Spectator && (i == k || j == k) {
        assert false;
      }
    }
  }

  /** The roster reshuffle after a user has left (src/server.js:508-516) or has been
      dropped after a lost connection (src/server.js:547-553). `seats` is what remains;
      `ownerLeft` says whether the departed user was the owner. If no player 1 remains,
      the first player 2 becomes player 1: the leave route does this without checking that
      a player 2 exists and fails when none does (None), the disconnect route checks
      (`guarded`). An owner who left hands the status to the player 1 found before that
      promotion, or else to the first remaining user. */
  function Reassign(seats: seq<Seat>, ownerLeft: bool, guarded: bool): (r: Option<seq<Seat>>)
    requires |seats| > 0
    ensures r.None? <==> !guarded && !Holds(seats, Player1) && !Holds(seats, Player2)
    ensures r.Some? ==> |r.value| == |seats|
  {
    FindRoleIsFirst(seats, Player1);
    FindRoleIsFirst(seats, Player2);
    var p1 := FindRole(seats, Player1);
    var p2 := FindRole(seats, Player2);
    if p1.None? && p2.None? && !guarded then None
    else
      var promoted := if p1.None? && p2.Some? then seats[p2.value := seats[p2.value].(role := Player1)] else seats;
      Some(
        if !ownerLeft then promoted
        else if p1.Some? then promoted[p1.value := promoted[p1.value].(status := Owner)]
        else promoted[0 := promoted[0].(status := Owner)])
  }

  /** What the reshuffle does to the roles: whenever a player remains, somebody is player 1
      afterwards; the only role that changes is that of the first player 2, and only when no
      player 1 remained. */
  lemma ReassignRoles(seats: seq<Seat>, ownerLeft: bool, guarded: bool)
    requires |seats| > 0 && Reassign(seats, ownerLeft, guarded).Some?
    ensures var r := Reassign(seats, ownerLeft, guarded).value;
      && (Holds(seats, Player1) || Holds(seats, Player2) ==> Holds(r, Player1))
      && forall i | 0 <= i < |seats| ::
           r[i].role == (if !Holds(seats, Player1) && FindRole(seats, Player2) == Some(i) then Player1 else seats[i].role)
  {
    var r := Reassign(seats, ownerLeft, guarded).value;
    FindRoleIsFirst(seats, Player1);
    FindRoleIsFirst(seats, Player2);
    var p1 := FindRole(seats, Player1);
    var p2 := FindRole(seats, Player2);
    var promoted := if p1.None? && p2.Some? then seats[p2.value := seats[p2.value].(role := Player1)] else seats;
    assert forall i | 0 <= i < |seats| :: r[i].role == promoted[i].role;
    if p1.Some? {
      assert r[p1.value].role == Player1;
    } else if p2.Some? {
      assert r[p2.value].role == Player1;
    }
  }

  /** What the reshuffle does to the statuses: only a departed owner's status moves, to the
      player 1 present before the promotion, or else to the first remaining user. */
  lemma ReassignOwner(seats: seq<Seat>, ownerLeft: bool, guarded: bool)
    requires |seats| > 0 && Reassign(seats, ownerLeft, guarded).Some?
    ensures var r := Reassign(seats, ownerLeft, guarded).value;
      var heir := match FindRole(seats, Player1) case Some(k) => k case None => 0;
      forall i | 0 <= i < |seats| ::
        r[i].status == (if ownerLeft && i == heir then Owner else seats[i].status)
  {
  }

  /** The reshuffle keeps player roles unique: the promoted player 2 becomes the only player 1. */
  lemma ReassignKeepsPlayersUnique(seats: seq<Seat>, ownerLeft: bool, guarded: bool)
    requires |seats| > 0 && UniquePlayers(seats) && Reassign(seats, ownerLeft, guarded).Some?
    ensures UniquePlayers(Reassign(seats, ownerLeft, guarded).value)
  {
    ReassignRoles(seats, ownerLeft, guarded);
    var r := Reassign(seats, ownerLeft, guarded).value;
    var p2 := FindRole(seats, Player2);
    forall i, j | 0 <= i < j < |r| && r[i].role == r[j].role
      ensures r[i].role == Spectator
    {
      if !Holds(seats, Player1) && (p2 == Some(i) || p2 == Some(j)) {
        assert false;
      }
    }
  }

  /** Removing a user never creates a clash of player roles. */
  lemma RemoveKeepsPlayersUnique(seats: seq<Seat>, k: nat)
    requires UniquePlayers(seats) && k < |seats|
    ensures UniquePlayers(seats[..k] + seats[k + 1..])
  {
    var t := seats[..k] + seats[k + 1..];
    forall i, j | 0 <= i < j < |t| && t[i].role == t[j].role
      ensures t[i].role == Spectator
    {
      var i' := if i < k then i else i + 1;
      var j' := if j < k then j else j + 1;
      assert t[i] == seats[i'] && t[j] == seats[j'];
    }
  }
}
