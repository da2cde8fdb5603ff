/** The server's room registry (src/server.js:49-60) and what the session-bound HTTP
    routes and socket handlers do to it: the default session, user and room names,
    creating and joining rooms, and the two ways of leaving one. */
module Server {
  import opened Wrappers
  import opened Roster
  import opened Config
  import opened Names
  import opened UserMap
  import opened Matches
  import opened Rooms

  /** `generateRoomId` draws ids from 0 to 999999 (src/server.js:55-60). */
  const RoomIds := 1000000

  /** What the server keeps in a session: the user name (empty while unset) and the id of
      the room the session is in, 0 meaning none. */
  datatype Session = Session(username: string, room: int)

  /** The defaults both middlewares give a session without a user name. */
  const Fresh := Session("Player", 0)

  /** The middlewares of src/server.js:279-283 and 568-573: a session without a user name
      gets "Player" and no room; any other session is left alone. */
  function WithDefaults(s: Session): (r: Session)
    ensures r.username != ""
    ensures s.username != "" ==> r == s
    ensures s.username == "" ==> r.room == 0
  {
    if s.username == "" then Fresh else s
  }

  /** `/submit-username` (src/server.js:592-604): the session and whether the error
      message is sent. Resubmitting the current name is accepted as it is; another field is
      stored when its string form passes the user-name pattern. */
  function SubmitUsername(s: Session, f: NameField): (r: (Session, bool))
    ensures r.0.room == s.room
    ensures r.1 <==> !SameName(f, s.username) && !ValidUsername(Coerced(f))
    ensures !r.1 ==> r.0.username == Stored(f)
    ensures r.1 ==> r.0 == s
  {
    if SameName(f, s.username) then (s, false)
    else if ValidUsername(Coerced(f)) then (s.(username := Stored(f)), false)
    else (s, true)
  }

  /** A body without a user name passes the pattern as "undefined" or "null", so the
      route clears the session's name, and the middleware then resets the session to
      "Player" in no room on its next request. */
  lemma MissingNameLeavesRoom(s: Session, f: NameField)
    requires s.username != "" && !f.Text?
    ensures !SubmitUsername(s, f).1 && SubmitUsername(s, f).0.username == ""
    ensures WithDefaults(SubmitUsername(s, f).0) == Fresh
  {
    CoercedFields();
  }

  /** The user name a request sees once the middleware has run always passes the
      user-name pattern: the default does, and a submitted text keeps a valid name valid
      whether it is accepted or not. */
  lemma SessionNamesValid(s: Session, f: NameField)
    requires s.username == "" || ValidUsername(s.username)
    ensures ValidUsername(WithDefaults(s).username)
    ensures f.Text? ==> ValidUsername(SubmitUsername(WithDefaults(s), f).0.username)
    ensures ValidUsername(WithDefaults(SubmitUsername(WithDefaults(s), f).0).username)
  {
    assert WordRun(Fresh.username, 1, 4);
  }

  class Registry {
    /** `rooms`: room id to room. */
    var rooms: map<int, Room>

    ghost predicate Valid()
      reads this
    {
      forall id | id in rooms :: 0 <= id < RoomIds
    }

    constructor ()
      ensures Valid() && rooms == map[]
    {
      rooms := map[];
    }

    /** The user records of room `id`, if there is one. */
    function Members(id: int): set<User>
      reads this, if id in rooms then {rooms[id]} else {}
    {
      if id in rooms then rooms[id].Present() else {}
    }

    /** The room a session is in, if any. */
    function RoomOf(s: Session): set<Room>
      reads this
    {
      if s.room in rooms then {rooms[s.room]} else {}
    }

    /** `/create-room` (src/server.js:619-644), with `generateRoomId`'s pick as `id`: an
        id in range that no room uses. A new room with its creator as player 1 and owner
        is registered under it and the session moves there. The route does not look at
        the session's current room. */
    method CreateRoom(sid: SessionId, s: Session, id: int) returns (r: Session, room: Room)
      requires Valid() && 0 <= id < RoomIds && id !in rooms
      modifies this`rooms
      ensures Valid() && fresh(room) && room.Valid()
      ensures rooms == old(rooms)[id := room]
      ensures r == s.(room := id)
      ensures room.name == "Room" && room.settings == DefaultSettings && room.board.None?
      ensures |room.users| == 1 && room.users[0].sid == sid && room.users[0].user.username == s.username
      ensures SeatsOf(room.users) == [Seat(Player1, Owner)]
    {
      room := new Room(sid, s.username);
      rooms := rooms[id := room];
      r := s.(room := id);
    }

    /** `/join-room/:id` (src/server.js:647-669), with the parsed id (None for a text
        that does not parse). A session already in a room is granted access and nothing
        changes; otherwise an existing room takes the session in with the role
        `identifyInitRole` picks, and an unknown id is refused. */
    method JoinRoom(sid: SessionId, s: Session, id: Option<int>) returns (r: Session, granted: bool)
      requires Valid()
      requires id.Some? && id.value in rooms ==> rooms[id.value].Valid()
      modifies if s.room == 0 && id.Some? && id.value in rooms then {rooms[id.value]} else {}
      ensures Valid() && rooms == old(rooms)
      ensures granted <==> s.room != 0 || (id.Some? && id.value in rooms)
      ensures s.room != 0 || !granted ==> r == s
      ensures s.room == 0 && granted ==>
        && r == s.(room := id.value)
        && rooms[id.value].Valid()
        && rooms[id.value].name == old(rooms[id.value].name)
        && rooms[id.value].settings == old(rooms[id.value].settings)
        && rooms[id.value].board == old(rooms[id.value].board)
        && rooms[id.value].timer == old(rooms[id.value].timer)
        && var u := UserOf(rooms[id.value].users, sid);
           && u.Some? && fresh(u.value)
           && rooms[id.value].users == Put(old(rooms[id.value].users), sid, u.value)
           && u.value.username == s.username && u.value.status == Guest && !u.value.ready
           && u.value.role == IdentifyInitRole(old(SeatsOf(rooms[id.value].users)))
    {
      if s.room != 0 {
        return s, true;
      }
      if id.None? || id.value !in rooms {
        return s, false;
      }
      var room := rooms[id.value];
      ghost var before := room.users;
      var u := room.Join(sid, s.username);
      PutIsMapSet(before, sid, u);
      r, granted := s.(room := id.value), true;
    }

    /** `/submit-room-name` (src/server.js:607-616): a field whose string form passes the
        room-name pattern becomes the name of the session's room, which throws when the
        session is in no room; any other field is refused. */
    method SubmitRoomName(s: Session, f: NameField) returns (out: Reply)
      requires Valid()
      modifies RoomOf(s)
      ensures Valid() && rooms == old(rooms)
      ensures out == Done || out == Refused || out == Threw
      ensures out == Refused <==> !ValidRoomName(Coerced(f))
      ensures out == Threw <==> ValidRoomName(Coerced(f)) && s.room !in rooms
      ensures out == Done ==> rooms[s.room].name == Stored(f)
      ensures s.room in rooms ==>
        && rooms[s.room].users == old(rooms[s.room].users)
        && rooms[s.room].settings == old(rooms[s.room].settings)
        && rooms[s.room].board == old(rooms[s.room].board)
        && rooms[s.room].timer == old(rooms[s.room].timer)
        && (out != Done ==> rooms[s.room].name == old(rooms[s.room].name))
    {
      if !ValidRoomName(Coerced(f)) {
        return Refused;
      }
      if s.room !in rooms {
        return Threw;
      }
      rooms[s.room].name := Stored(f);
      out := Done;
    }

    /** The socket middleware (src/server.js:279-291): the session gets its defaults, and
        when it names a room, the session's record in that room is marked connected; a
        room id that names no room throws. */
    method Connect(sid: SessionId, s: Session) returns (r: Session, out: Reply)
      requires Valid()
      requires WithDefaults(s).room in rooms ==> rooms[WithDefaults(s).room].Valid()
      modifies Members(WithDefaults(s).room)`connected
      ensures Valid() && rooms == old(rooms)
      ensures r == WithDefaults(s)
      ensures out == Skipped <==> r.room == 0
      ensures out == Threw <==> r.room != 0 && r.room !in rooms
      ensures out == Done ==>
        && rooms[r.room].Valid()
        && var u := rooms[r.room].SessionUser(sid);
           && (u.Some? ==> u.value.connected)
           && forall v | v in rooms[r.room].Present() && Some(v) != u :: v.connected == old(v.connected)
    {
      r := WithDefaults(s);
      if r.room == 0 {
        return r, Skipped;
      }
      if r.room !in rooms {
        return r, Threw;
      }
      rooms[r.room].Reconnect(sid);
      out := Done;
    }

    /** `leave-room` (src/server.js:491-519) in room `id`, which the session's socket
        joined: the session leaves its room before anything can throw, and the room is
        deleted from the registry exactly when the departure emptied it. */
    method LeaveRoom(id: int, room: Room, sid: SessionId, s: Session, u: User) returns (r: Session, out: Departure)
      requires Valid() && id in rooms && rooms[id] == room && room.Valid()
      modifies this`rooms, room`users, room`board, room.Present()`role, room.Present()`status
      ensures Valid() && room.Valid()
      ensures r == s.(room := 0)
      ensures room.users == Remove(old(room.users), sid)
      ensures room.board == AfterForfeit(old(room.board), old(u.role), old(u.color))
      ensures out == Departed(Throws(old(room.board), old(u.role), old(u.color)),
                              old(SeatsOf(Remove(room.users, sid))), old(u.status) == Owner, false)
      ensures SeatsOf(room.users) == Reseated(Throws(old(room.board), old(u.role), old(u.color)),
                                              old(SeatsOf(Remove(room.users, sid))), old(u.status) == Owner, false)
      ensures out == Emptied <==> room.users == [] && !Throws(old(room.board), old(u.role), old(u.color))
      ensures rooms == if out == Emptied then old(rooms) - {id} else old(rooms)
    {
      out := room.Leave(sid, u);
      r := s.(room := 0);
      if out == Emptied {
        Forget(id, room);
      }
    }

    /** The expiry of a disconnect (src/server.js:524-563) in room `id`: when the user
        has not come back and is still in the room, the session leaves the room unless
        the forfeit throws first, and the room is deleted when the departure emptied it. */
    method ExpireSession(id: int, room: Room, sid: SessionId, s: Session, u: User) returns (r: Session, out: Departure)
      requires Valid() && id in rooms && rooms[id] == room && room.Valid()
      modifies this`rooms, room`users, room`board, room`timer, room.Present()`role, room.Present()`status
      ensures Valid() && room.Valid()
      ensures out == Ignored <==> old(u.connected) || old(room.SessionUser(sid)).None?
      ensures r == if out == Ignored || out == Failed then s else s.(room := 0)
      ensures out == Ignored ==>
        && room.users == old(room.users) && room.board == old(room.board) && room.timer == old(room.timer)
        && SeatsOf(room.users) == old(SeatsOf(room.users))
      ensures out != Ignored ==>
        && room.timer.None?
        && out == Departed(Throws(old(room.board), old(u.role), old(u.color)),
                           old(SeatsOf(Remove(room.users, sid))), old(u.status) == Owner, true)
        && (Throws(old(room.board), old(u.role), old(u.color)) ==>
              && room.users == old(room.users) && room.board == old(room.board)
              && SeatsOf(room.users) == old(SeatsOf(room.users)))
        && (!Throws(old(room.board), old(u.role), old(u.color)) ==>
              && room.users == Remove(old(room.users), sid)
              && room.board == Closed(AfterForfeit(old(room.board), old(u.role), old(u.color)))
              && SeatsOf(room.users) == Reseated(false, old(SeatsOf(Remove(room.users, sid))), old(u.status) == Owner, true))
      ensures out == Emptied <==> out != Ignored && room.users == [] && !Throws(old(room.board), old(u.role), old(u.color))
      ensures rooms == if out == Emptied then old(rooms) - {id} else old(rooms)
    {
      out := room.ExpireDisconnect(sid, u);
      r := if out == Ignored || out == Failed then s else s.(room := 0);
      if out == Emptied {
        Forget(id, room);
      }
    }

    /** `rooms.delete(id)` once `room` has been emptied; the room object itself is untouched. */
    method Forget(id: int, ghost room: Room)
      requires Valid() && room.Valid()
      modifies this`rooms
      ensures Valid() && room.Valid() && rooms == old(rooms) - {id}
    {
      rooms := rooms - {id};
    }
  }
}
