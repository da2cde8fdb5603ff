/** The room's user map (src/server.js): user records keyed by session id, kept in
    insertion order as a JavaScript `Map` keeps them. The records are objects shared
    with the match and with pending timeouts, so they are a class. */
module UserMap {
  import opened Wrappers
  import opened Board
  import opened Roster

  type SessionId = string

  /** A user record (src/server.js:633-638, 656-660). `color`, `remainTime` and
      `startTime` are added by the first match; before that they are absent (None, 0). */
  class User {
    var username: string
    var role: Role
    var status: Status
    var ready: bool
    var connected: bool
    var color: Option<Color>
    var remainTime: int
    var startTime: int

    constructor (username: string, role: Role, status: Status)
      ensures this.username == username && this.role == role && this.status == status
      ensures !ready && !connected && color.None? && remainTime == 0 && startTime == 0
    {
      this.username := username;
      this.role := role;
      this.status := status;
      ready := false;
      connected := false;
      color := None;
      remainTime := 0;
      startTime := 0;
    }
  }

  /** An entry of the room's user map, keyed by session id. */
  datatype Member = Member(sid: SessionId, user: User)

  predicate UniqueSids(ms: seq<Member>) {
    forall i, j | 0 <= i < j < |ms| :: ms[i].sid != ms[j].sid
  }

  predicate DistinctUsers(ms: seq<Member>) {
    forall i, j | 0 <= i < j < |ms| :: ms[i].user != ms[j].user
  }

  function UsersOf(ms: seq<Member>): set<User> {
    set m | m in ms :: m.user
  }

  /** The position of a session's entry (`Map.prototype.get`). */
  function Lookup(ms: seq<Member>, sid: SessionId): (k: Option<nat>)
    ensures k.Some? ==> k.value < |ms| && ms[k.value].sid == sid
  {
    if ms == [] then None
    else if ms[0].sid == sid then Some(0)
    else match Lookup(ms[1..], sid)
      case None => None
      case Some(k) => Some(k + 1)
  }

  /** `Lookup` finds the first entry of the session, and none only when there is none. */
  lemma {:induction false} LookupIsFirst(ms: seq<Member>, sid: SessionId)
    ensures Lookup(ms, sid).None? <==> forall i | 0 <= i < |ms| :: ms[i].sid != sid
    ensures Lookup(ms, sid).Some? ==> forall i | 0 <= i < Lookup(ms, sid).value :: ms[i].sid != sid
  {
    if ms != [] && ms[0].sid != sid {
      LookupIsFirst(ms[1..], sid);
      assert forall i | 1 <= i < |ms| :: ms[i] == ms[1..][i - 1];
    }
  }

  function UserOf(ms: seq<Member>, sid: SessionId): Option<User> {
    match Lookup(ms, sid)
    case None => None
    case Some(k) => Some(ms[k].user)
  }

  /** `Map.prototype.set`: a present key keeps its place and gets the new value, a new key
      goes last. */
  function Put(ms: seq<Member>, sid: SessionId, u: User): seq<Member> {
    match Lookup(ms, sid)
    case Some(k) => ms[k := Member(sid, u)]
    case None => ms + [Member(sid, u)]
  }

  /** `Map.prototype.delete`. */
  function Remove(ms: seq<Member>, sid: SessionId): seq<Member> {
    match Lookup(ms, sid)
    case Some(k) => ms[..k] + ms[k + 1..]
    case None => ms
  }

  /** The sequence of entries behaves as a map: after `Put` the key reads the new user,
      every other key reads what it read before, and keys stay unique. */
  lemma PutIsMapSet(ms: seq<Member>, sid: SessionId, u: User)
    requires UniqueSids(ms)
    ensures UniqueSids(Put(ms, sid, u))
    ensures UserOf(Put(ms, sid, u), sid) == Some(u)
    ensures forall s | s != sid :: UserOf(Put(ms, sid, u), s) == UserOf(ms, s)
  {
    var t := Put(ms, sid, u);
    var k := Lookup(ms, sid);
    LookupIsFirst(ms, sid);
    var at := if k.Some? then k.value else |ms|;
    assert forall i | 0 <= i < |t| && i != at :: t[i] == ms[i];
    assert t[at] == Member(sid, u);
    assert UniqueSids(t);
    LookupUnique(t, sid, at);
    forall s | s != sid
      ensures UserOf(t, s) == UserOf(ms, s)
    {
      LookupIsFirst(ms, s);
      match Lookup(ms, s)
      case None => LookupIsFirst(t, s);
      case Some(i) => LookupUnique(t, s, i);
    }
  }

  /** After `Remove` the key is absent, every other key reads what it read before, and
      keys stay unique. */
  lemma RemoveIsMapDelete(ms: seq<Member>, sid: SessionId)
    requires UniqueSids(ms)
    ensures UniqueSids(Remove(ms, sid))
    ensures UserOf(Remove(ms, sid), sid).None?
    ensures forall s | s != sid :: UserOf(Remove(ms, sid), s) == UserOf(ms, s)
  {
    LookupIsFirst(ms, sid);
    var t := Remove(ms, sid);
    match Lookup(ms, sid)
    case None =>
    case Some(k) =>
      assert forall i | 0 <= i < |t| :: t[i] == ms[if i < k then i else i + 1];
      LookupIsFirst(t, sid);
      forall s | s != sid
        ensures UserOf(t, s) == UserOf(ms, s)
      {
        RemoveKeepsOthers(ms, k, s);
      }
  }

  lemma RemoveKeepsOthers(ms: seq<Member>, k: nat, s: SessionId)
    requires UniqueSids(ms) && k < |ms| && ms[k].sid != s
    ensures UniqueSids(ms[..k] + ms[k + 1..])
    ensures UserOf(ms[..k] + ms[k + 1..], s) == UserOf(ms, s)
  {
    var t := ms[..k] + ms[k + 1..];
    assert forall i | 0 <= i < |t| :: t[i] == ms[if i < k then i else i + 1];
    LookupIsFirst(ms, s);
    match Lookup(ms, s)
    case None =>
      LookupIsFirst(t, s);
    case Some(j) =>
      var j' := if j < k then j else j - 1;
      assert t[j'] == ms[j];
      LookupUnique(t, s, j');
  }

  /** With unique keys, an entry holding the key is the one `Lookup` finds. */
  lemma LookupUnique(ms: seq<Member>, s: SessionId, j: nat)
    requires UniqueSids(ms) && j < |ms| && ms[j].sid == s
    ensures Lookup(ms, s) == Some(j)
  {
    LookupIsFirst(ms, s);
  }

  /** Putting a user who is not yet in the map keeps the records distinct, adds only that
      user, and changes the seats as `PutSeat` says. */
  lemma PutKeepsRoster(ms: seq<Member>, sid: SessionId, u: User)
    requires DistinctUsers(ms) && u !in UsersOf(ms)
    ensures DistinctUsers(Put(ms, sid, u))
    ensures UsersOf(Put(ms, sid, u)) <= UsersOf(ms) + {u}
    ensures SeatsOf(Put(ms, sid, u)) == PutSeat(SeatsOf(ms), Lookup(ms, sid), Seat(u.role, u.status))
  {
    var t := Put(ms, sid, u);
    SeatsOfAt(ms);
    SeatsOfAt(t);
    forall i, j | 0 <= i < j < |t|
      ensures t[i].user != t[j].user
    {
      assert ms[i] in ms;
      if j < |ms| {
        assert ms[j] in ms;
      }
    }
    forall v | v in UsersOf(t)
      ensures v in UsersOf(ms) + {u}
    {
      var m :| m in t && m.user == v;
      var i :| 0 <= i < |t| && t[i] == m;
      if i < |ms| && t[i] == ms[i] {
        assert ms[i] in ms;
      }
    }
  }

  /** Only players are ever given a colour, and a colour is never taken away. */
  ghost predicate ColoredArePlayers(ms: seq<Member>)
    reads set m | m in ms :: m.user
  {
    forall i | 0 <= i < |ms| :: ms[i].user.color.Some? ==> ms[i].user.role != Spectator
  }

  /** What the room's user map keeps true: one entry per session, one entry per record,
      at most one holder of each player role, and colours only on players. */
  ghost predicate RosterValid(ms: seq<Member>)
    reads set m | m in ms :: m.user
  {
    UniqueSids(ms) && DistinctUsers(ms) && UniquePlayers(SeatsOf(ms)) && ColoredArePlayers(ms)
  }

  /** A newcomer with no colour and the role `identifyInitRole` gives keeps the map valid. */
  lemma JoinKeepsRosterValid(ms: seq<Member>, sid: SessionId, u: User)
    requires RosterValid(ms) && u !in UsersOf(ms) && u.color.None?
    requires u.role == IdentifyInitRole(SeatsOf(ms))
    ensures RosterValid(Put(ms, sid, u))
  {
    var t := Put(ms, sid, u);
    var seats := SeatsOf(ms);
    assert UniqueSids(t) by {
      PutIsMapSet(ms, sid, u);
    }
    assert DistinctUsers(t) && SeatsOf(t) == PutSeat(seats, Lookup(ms, sid), Seat(u.role, u.status)) by {
      PutKeepsRoster(ms, sid, u);
    }
    assert UniquePlayers(SeatsOf(t)) by {
      JoinKeepsPlayersUnique(seats, Lookup(ms, sid), u.status);
    }
    assert forall i | 0 <= i < |t| :: t[i].user == u || t[i] == ms[i];
  }

  /** The roster seats of a sequence of entries, read from the user records. */
  function SeatsOf(ms: seq<Member>): (s: seq<Seat>)
    reads (set m | m in ms :: m.user)`role, (set m | m in ms :: m.user)`status
    ensures |s| == |ms|
  {
    if ms == [] then [] else [Seat(ms[0].user.role, ms[0].user.status)] + SeatsOf(ms[1..])
  }

  /** Seat i is read from entry i's record. */
  lemma {:induction false} SeatsOfAt(ms: seq<Member>)
    ensures forall i | 0 <= i < |ms| :: SeatsOf(ms)[i] == Seat(ms[i].user.role, ms[i].user.status)
  {
    if ms != [] {
      SeatsOfAt(ms[1..]);
    }
  }

  /** Removing an entry keeps the map valid, keeps only records that were there, and
      removes the entry's seat. */
  lemma RemoveKeepsRosterValid(ms: seq<Member>, sid: SessionId)
    requires RosterValid(ms)
    ensures RosterValid(Remove(ms, sid))
    ensures UsersOf(Remove(ms, sid)) <= UsersOf(ms)
    ensures Lookup(ms, sid).Some? ==>
      SeatsOf(Remove(ms, sid)) == SeatsOf(ms)[..Lookup(ms, sid).value] + SeatsOf(ms)[Lookup(ms, sid).value + 1..]
    ensures Lookup(ms, sid).None? ==> Remove(ms, sid) == ms
  {
    RemoveIsMapDelete(ms, sid);
    match Lookup(ms, sid)
    case None =>
    case Some(k) =>
      var t := ms[..k] + ms[k + 1..];
      assert Remove(ms, sid) == t;
      DropKeepsRecords(ms, k);
      SeatsOfDrop(ms, k);
      RemoveKeepsPlayersUnique(SeatsOf(ms), k);
      assert UniquePlayers(SeatsOf(t));
  }

  lemma DropKeepsRecords(ms: seq<Member>, k: nat)
    requires k < |ms| && DistinctUsers(ms) && ColoredArePlayers(ms)
    ensures DistinctUsers(ms[..k] + ms[k + 1..]) && ColoredArePlayers(ms[..k] + ms[k + 1..])
    ensures UsersOf(ms[..k] + ms[k + 1..]) <= UsersOf(ms)
  {
    var t := ms[..k] + ms[k + 1..];
    assert forall i | 0 <= i < |t| :: t[i] == ms[if i < k then i else i + 1];
    forall v | v in UsersOf(t)
      ensures v in UsersOf(ms)
    {
      var m :| m in t && m.user == v;
      var i :| 0 <= i < |t| && t[i] == m;
      assert ms[if i < k then i else i + 1] in ms;
    }
  }

  lemma SeatsOfDrop(ms: seq<Member>, k: nat)
    requires k < |ms|
    ensures SeatsOf(ms[..k] + ms[k + 1..]) == SeatsOf(ms)[..k] + SeatsOf(ms)[k + 1..]
  {
    var a, b := ms[..k], ms[k + 1..];
    SplitAt(ms, k);
    SeatsOfAppend(a, [ms[k]] + b);
    SeatsOfAppend([ms[k]], b);
    SeatsOfAppend(a, b);
    DropMiddle(SeatsOf(a), SeatsOf([ms[k]]), SeatsOf(b));
  }

  lemma SplitAt<T>(s: seq<T>, k: nat)
    requires k < |s|
    ensures s == s[..k] + ([s[k]] + s[k + 1..])
  {
  }

  lemma DropMiddle<T>(x: seq<T>, y: seq<T>, z: seq<T>)
    requires |y| == 1
    ensures (x + (y + z))[..|x|] + (x + (y + z))[|x| + 1..] == x + z
  {
    assert (x + (y + z))[..|x|] == x;
    assert (x + (y + z))[|x| + 1..] == z;
  }

  lemma {:induction false} SeatsOfAppend(a: seq<Member>, b: seq<Member>)
    ensures SeatsOf(a + b) == SeatsOf(a) + SeatsOf(b)
  {
    if a == [] {
      assert a + b == b;
    } else {
      assert (a + b)[1..] == a[1..] + b;
      SeatsOfAppend(a[1..], b);
    }
  }

  /** Between two states in which each entry's role stayed or became player 1, the same
      holds of every record in the map. */
  twostate lemma RolesOnlyPromoted(ms: seq<Member>)
    requires forall i | 0 <= i < |ms| :: ms[i].user.role == old(ms[i].user.role) || ms[i].user.role == Player1
    ensures forall v | v in UsersOf(ms) :: v.role == old(v.role) || v.role == Player1
  {
    forall v | v in UsersOf(ms)
      ensures v.role == old(v.role) || v.role == Player1
    {
      var m :| m in ms && m.user == v;
      var i :| 0 <= i < |ms| && ms[i] == m;
    }
  }

  /** The seats depend on the records' roles and statuses only. */
  twostate lemma SeatsOfUnchanged(ms: seq<Member>)
    requires unchanged(set m | m in ms :: m.user)
    ensures SeatsOf(ms) == old(SeatsOf(ms))
  {
  }

  /** Seats are read from roles and statuses only. */
  twostate lemma {:induction false} SeatsOfKept(ms: seq<Member>)
    requires forall i | 0 <= i < |ms| ::
      ms[i].user.role == old(ms[i].user.role) && ms[i].user.status == old(ms[i].user.status)
    ensures SeatsOf(ms) == old(SeatsOf(ms))
  {
    if ms != [] {
      assert forall i | 0 <= i < |ms| - 1 :: ms[1..][i] == ms[i + 1];
      SeatsOfKept(ms[1..]);
    }
  }

  /** Giving colours to players, and changing nothing else that the map's validity reads,
      keeps the map valid. */
  twostate lemma RecolorKeepsRoster(ms: seq<Member>)
    requires old(RosterValid(ms))
    requires forall i | 0 <= i < |ms| ::
      ms[i].user.role == old(ms[i].user.role) && ms[i].user.status == old(ms[i].user.status)
    requires forall i | 0 <= i < |ms| ::
      ms[i].user.color.Some? ==> old(ms[i].user.color).Some? || ms[i].user.role != Spectator
    ensures RosterValid(ms)
  {
    SeatsOfKept(ms);
  }
}
