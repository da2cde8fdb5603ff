# Chess rooms: a Dafny model of the room and match engine

This project models the in-memory engine of the chess server in `src/server.js`. The
server keeps a map of rooms. Each room has a user map in insertion order, its settings,
an optional match (`room.board`) and at most one pending clock timeout. Socket handlers
and HTTP routes change these in place. The model mirrors that structure:

- **Board** (`board.dfy`): colours, pieces, the 8x8 grid kept flat (cell `8*y + x`), and
  `defaultBoardContent` as a method that fills an array, proved equal to the starting
  position `DefaultBoard`.
- **Moves** (`moves.dfy`): `checkMove` and the grid steps of a valid move, in handler order:
  1. clear the stale en-passant flag;
  2. the en-passant attack or double step;
  3. castling;
  4. relocation;
  5. promotion.

  Each step is a function on values, with a method that performs the same writes on the
  match's array. The legality library `piecesMoves` is not part of this model: it enters as
  two function-typed oracles, `MovesOracle` and `MateOracle`.
- **Scoring** (`scoring.dfy`): the end of a round by checkmate, timeout or forfeit.
- **Config** (`config.dfy`): the settings and the range checks of `set-settings`.
- **Names** (`names.dfy`): the user-name and room-name patterns.
- **Roster** (`roster.dfy`) and **UserMap** (`usermap.dfy`):
  - user records are a `class User`, because the same record object is shared by the user
    map, the match's players and the pending timeout;
  - the user map is a `seq<Member>` of session id and record;
  - `identifyInitRole`, `findPlayers` and the role and ownership reshuffle after a departure
    are functions on the sequence of seats.
- **Matches** (`match.dfy`): the match value, with its grid as an array updated in place,
  plus the functions and predicates that state what each handler does to it.
- **Rooms** (`rooms.dfy`): `class Room` with one method per handler or callback. Every
  method keeps the room invariant `Valid`. Its `modifies` clause names the fields it may
  write, and its `ensures` state what they become.
- **Server** (`registry.dfy`): the room registry (`rooms`), the session data and the HTTP
  routes that create, join and name rooms.

Effects are parameters:
- `Math.random` is a boolean `coin`;
- `generateRoomId` is a fresh `id` argument;
- `new Date()` is an integer `now`;
- the 1-second countdown, the 120-second grace period and the clock timeout are methods
  that the environment calls (`CountdownTick`, `ExpireDisconnect`, `FireTimeout`).

A handler that throws on an undefined value (a `TypeError` in JavaScript) ends with an
outcome `Threw` or `Failed`. It keeps every write made before the throw, and the room goes
on serving later events (see "## Left out" for this assumption).

Behaviours of the source that the model reproduces as written:
- The move handler passes the origin square where `gameStatsUpdate` expects the captured
  one. Every valid move therefore raises the mover's own kill counter (`MoverCountsOwnKill`).
- `leave-room` records a forfeit without a point and keeps the decided match. The
  disconnect path drops the match.
- `leave-room` promotes `players[1]` without checking that it exists (`Reassign` with
  `guarded == false`). The disconnect path checks.
- An en-passant attack empties the squares above and below the destination. On row 0 or
  row 7 the handler throws part way.
- A client-set `destination.enPassant` survives `checkMove` when the legal move has no flag.
- The checkmate test runs before the pawn promotion.
- The timeout callback checks only `roundsHistory.length === currentRound`. A timeout
  never declares a draw.
- The name patterns are not anchored at the end, so only a prefix of a name is checked.
- `/submit-username` tests the field's string form, so a body without a user name passes as
  "undefined". The session's name is cleared, and the next request puts it back in no room
  (`MissingNameLeavesRoom`).
- `changed-username` and `/submit-room-name` test their payload's string form the same way
  (`CoercedFields`). A missing user name or room name passes and is stored as no name; a
  `null` user name passes too.

## Model

| member | source | states |
|---|---|---|
| Board.DefaultBoardContent | src/server.js:96-122 | the method builds a fresh 64-cell array equal to `DefaultBoard` |
| Board.PlaceBackRank | src/server.js:101-116 | row 0 or 7 receives rook, knight, bishop, queen, king, bishop, knight, rook of its colour, castling flags on rooks and king; other rows untouched |
| Board.PlacePawns | src/server.js:118-119 | row 1 or 6 receives eight pawns of its colour; other rows untouched |
| Board.DefaultBoardLayout | src/server.js:96-122 | starting position: white on rows 0-1, black on rows 6-7, pawns on rows 1 and 6, rows 2-5 empty, back rank order, castling flag exactly on rooks and kings, no en-passant flag |
| Board.DefaultBoardCastlers | src/server.js:101-116 | the kings stand on file 4 and the rooks on files 0 and 7 of rows 0 and 7, all with the castling right |
| Moves.FindLegal | src/server.js:195-202 | the `.find`: the first legal move reaching the destination, none only when no move reaches it |
| Moves.CheckMove | src/server.js:180-207 | accepted exactly when the mover plays the colour to move, the origin holds a piece of that colour and some legal move reaches the destination; the result carries the first such move's type and its en-passant flag or the client's |
| Moves.CheckedOnBoard | src/server.js:187-203 | an accepted destination lies on the board, and the origin holds a piece of the colour to move |
| Moves.FirstEnPassant | src/server.js:403-405 | the first cell in `.flat()` order holding a flagged piece of the colour; none only when there is none |
| Moves.ClearStaleEnPassant | src/server.js:403-406 | only that first flagged piece loses its flag; every other cell is unchanged |
| Moves.EnPassantStep | src/server.js:408-413 | an en-passant attack empties the cells above and below the destination and throws exactly on rows 0 and 7; a double step flags the moving pawn; otherwise nothing changes |
| Moves.CastleStep | src/server.js:415-430 | a king moving more than one file right (left) moves the file-7 (file-0) rook next to its destination without its castling flag and empties the rook's square; otherwise the grid is unchanged |
| Moves.Relocate | src/server.js:432-438 | the origin piece without its castling flag lands on the destination; the origin is empty; no other cell changes |
| Moves.Promote | src/server.js:476-480 | a pawn on row 0 or 7 at the destination becomes a queen; otherwise the grid is unchanged |
| Moves.MovedPieceLands | src/server.js:432-438 | after a valid move the destination holds the moved piece's kind and colour without castling flag, flagged after a double step, and the origin is empty |
| Moves.CastlingRightMovesRook | src/server.js:417-422 | castling right: the rook from file 7 stands left of the king's destination without its castling flag, file 7 is emptied |
| Moves.CastlingLeftMovesRook | src/server.js:424-429 | castling left: the rook from file 0 stands right of the king's destination, file 0 is emptied |
| Moves.EnPassantAttackClears | src/server.js:408-411 | away from the edge rows an en-passant attack leaves both the square above and the square below the destination empty |
| Moves.MoveIsLocal | src/server.js:402-438 | a move changes only the origin, destination, en-passant and castling squares and the cell of the cleared stale flag |
| Moves.StaleFlagGone | src/server.js:403-406 | with at most one flag of the moving colour, none is left after the clearing, and the other colour's flags are untouched |
| Moves.MoveKeepsFlagsUnique | src/server.js:402-480 | a valid move keeps at most one en-passant flag per colour |
| Moves.PlayMoveInPlace | src/server.js:402-438 | the in-place writes leave the array equal to `PlayMove` of the old cells, and report the throw exactly when `PlayMove` crashes |
| Moves.ClearStaleEnPassantInPlace | src/server.js:403-406 | the array becomes `ClearStaleEnPassant` of its old cells |
| Moves.EnPassantInPlace | src/server.js:408-413 | the array becomes `EnPassantStep` of its old cells, throw included |
| Moves.CastleInPlace | src/server.js:415-430 | the array becomes `CastleStep` of its old cells |
| Moves.RelocateInPlace | src/server.js:432-438 | the array becomes `Relocate` of its old cells |
| Moves.PromoteInPlace | src/server.js:476-480 | the array becomes `Promote` of its old cells |
| Config.ApplySettings | src/server.js:365-371 | each number is taken only inside its range (0 < rounds < 16, 0 < length < 6000000, 0 < bonus < 61000), `timerEnabled` is copied unconditionally, a missing payload writes nothing |
| Config.DefaultInRange | src/server.js:621-627 | the settings of a new room lie in range |
| Config.ApplyKeepsRange | src/server.js:365-371 | an update never takes a setting out of range |
| Config.ApplyIdempotent | src/server.js:365-371 | applying the same payload twice equals applying it once |
| Config.RejectedNumbersIgnored | src/server.js:365-371 | with every number out of range, only `timerEnabled` changes |
| Names.MatchesNamePattern | src/server.js:351 | the decision equals the regular expression's meaning: a letter, then a word-character run of at least n ending anywhere |
| Names.ValidNameExtends | src/server.js:597 | a valid name stays valid whatever is appended (no end anchor) |
| Names.NameShapes | src/server.js:609 | a valid user name is a letter and 3 word characters at the start, a room name a letter and 4; every valid room name is a valid user name |
| Names.TrailingCharactersAccepted | src/server.js:597 | "Anna!" passes the user-name check while "Ann!" does not |
| Names.CoercedFields | src/server.js:609 | a missing field, read as "undefined", passes both name patterns; a null one, read as "null", passes the user-name pattern and fails the room-name pattern |
| Scoring.OtherPlayer | src/server.js:497 | the opposing role is a player role different from the leaver's |
| Scoring.MajorityIsMoreThanHalf | src/server.js:261 | `2*score > rounds` is the source's `score > rounds / 2` |
| Scoring.ConcludeRound | src/server.js:444-456 | the history gets exactly one entry for the winner and colour, the winner's score rises by one, the other's does not; won iff majority, drawn iff draws are allowed, no majority, level scores and the last round |
| Scoring.ForfeitEntry | src/server.js:496-499 | a forfeit credits the other role with the other colour |
| Scoring.WinsAppend | src/server.js:256-259 | appending an entry adds one win exactly for its winner |
| Scoring.ConcludeKeepsScoreBacked | src/server.js:444-448 | every point is backed by a history entry, and a concluded round keeps it so |
| Scoring.ForfeitKeepsScoreBacked | src/server.js:496-499 | a forfeit adds an entry but no point, so scores stay backed |
| Scoring.ShortMatches | src/server.js:449-456 | one round: the first mate wins; two rounds: one win is not enough, level scores after round 2 draw by mate but not by timeout |
| Roster.FindRoleIsFirst | src/server.js:75-86 | `find` returns the first user holding the role, none only when nobody holds it |
| Roster.InitRoleIsFirstFreeSeat | src/server.js:63-72 | a newcomer is player1 iff nobody is player1, player2 iff player1 is taken and player2 is not, spectator iff both are taken |
| Roster.JoinKeepsPlayersUnique | src/server.js:63-72 | a join never creates a second player1 or player2 |
| Roster.Reassign | src/server.js:508-516 | the unguarded leave-room reshuffle fails exactly when no player remains; the result keeps the length |
| Roster.ReassignRoles | src/server.js:510-511 | somebody is player1 afterwards whenever a player remains; only the first player2 changes role, and only when player1 was absent |
| Roster.ReassignOwner | src/server.js:513-515 | only a departed owner's status moves, to the player1 found before the promotion, else to the first remaining user |
| Roster.ReassignKeepsPlayersUnique | src/server.js:549-553 | the reshuffle keeps player roles unique |
| Roster.RemoveKeepsPlayersUnique | src/server.js:492 | deleting a user keeps player roles unique |
| UserMap.LookupIsFirst | src/server.js:287 | `users.get` finds the session's first entry, none only when absent |
| UserMap.PutIsMapSet | src/server.js:633-638 | `Map.set` binds the session to the record and leaves every other binding alone |
| UserMap.RemoveIsMapDelete | src/server.js:492 | `Map.delete` unbinds the session and leaves every other binding alone |
| UserMap.PutKeepsRoster | src/server.js:656-660 | a new record replaces the entry in place or goes last; records stay distinct |
| UserMap.JoinKeepsRosterValid | src/server.js:654-660 | a newcomer with `identifyInitRole`'s role keeps the user map valid |
| UserMap.RemoveKeepsRosterValid | src/server.js:492 | a deletion keeps the user map valid and removes exactly the session's seat |
| UserMap.SeatsOfAt | src/server.js:66 | seat i is read from entry i's record |
| UserMap.RecolorKeepsRoster | src/server.js:131-135 | giving colours to players keeps the user map valid |
| Matches.Forfeit | src/server.js:494-501 | the round goes to the other player with the other colour, that player wins, score and everything else unchanged |
| Matches.CountMove | src/server.js:210-223 | a white move adds one to `moves`; the counter of the player whose colour matches the inspected piece rises by one, the other does not |
| Matches.MoverCountsOwnKill | src/server.js:396-400 | because the origin is inspected, every checked move raises exactly the mover's own kill counter |
| Matches.Charged | src/server.js:88-90 | the clock does not lose time iff the move took no longer than the bonus |
| Matches.SwitchTimers | src/server.js:88-94 | the player's clock is charged, the other player's clock starts now |
| Matches.WinnerAfter | src/server.js:449-456 | no winner iff undecided, "draw" iff drawn, the player iff won |
| Matches.Departed | src/server.js:505-518 | a departure empties the room iff nothing threw and nobody remains; it fails iff the forfeit threw or the unguarded reshuffle had no player |
| Matches.Closed | src/server.js:541 | a decided match is dropped, an undecided one kept |
| Matches.Opponent | src/server.js:465-467 | the opponent of the player of colour c: player 2 when player 1 plays c, player 1 otherwise |
| Matches.TimedOut | src/server.js:253-265 | the armed player's round is recorded and scored; a majority makes it the winner and stamps the end time; never a draw; nothing else changes |
| Matches.Checkmated | src/server.js:443-458 | the mover's round is recorded and scored; majority wins, level scores in the last round draw, the end time is stamped |
| Matches.AfterPlay | src/server.js:439-458 | the turn passes to the other colour and the round is concluded exactly when the side to move is mated |
| Matches.ConcludedRoundStopsPlay | src/server.js:393-397 | after a mate or timeout of the current round, the match is out of play until the next round |
| Rooms.Room.constructor | src/server.js:621-638 | `create-room`: named "Room", default settings, no match, the creator alone as player1 and owner |
| Rooms.Room.PlayerWith | src/server.js:75-86 | `findPlayers`: a user of the map holding the role with no holder before it in map order; none iff nobody holds it |
| Rooms.Room.Join | src/server.js:654-660 | a fresh guest record with `identifyInitRole`'s role is put under the session |
| Rooms.Room.Leave | src/server.js:491-519 | `leave-room`: entry deleted, forfeit without point and without dropping the match, throw for a colourless player, room emptied, or the unguarded reshuffle |
| Rooms.Room.ForfeitBy | src/server.js:495-501 | the forfeit applies to a player with a colour during a match and throws for a player without one |
| Rooms.Room.ExpireDisconnect | src/server.js:524-563 | ignored after a reconnect or a departure, nothing changed; otherwise the timeout is cancelled, and a throwing forfeit leaves map, match and seats as they were; else the forfeit applied, a decided match dropped, the entry deleted and the seats become the guarded `Reseated` of the remaining ones |
| Rooms.Room.Reconnect | src/server.js:284-289 | the session's record is marked connected, no other record changes |
| Rooms.Room.Disconnect | src/server.js:522-523 | the record is marked disconnected |
| Rooms.Room.SetSettings | src/server.js:362-373 | guests are ignored; a missing payload throws; otherwise the settings become `ApplySettings` of the payload |
| Rooms.Room.ChangeUsername | src/server.js:348-360 | ignored iff the payload equals the session's name (`===`, an unset name equal to a missing payload) or its string form ("undefined", "null" for a missing or null payload) fails the pattern; throws without a record; otherwise the session's record takes the payload and no other record's name changes |
| Rooms.Room.StartNextRound | src/server.js:235-248 | nothing changes unless both match players are ready; then both flags reset, colours swap, a fresh starting grid, white to move, round plus one, score, history and stats kept |
| Rooms.Room.SetReady | src/server.js:376-389 | spectators and players mid-round are ignored with nothing changed; otherwise the flag is set; without a match the countdown starts iff both roster players are ready; in a match the next round starts iff both match players are ready once the flag is set, with flags reset, colours swapped, a fresh grid, white to move and round plus one, else the match is kept; no other record's flag or colour changes |
| Rooms.Room.CountdownTick | src/server.js:226-233 | before 0 nothing changes and the next tick is scheduled iff both players are ready; at 0 the match of `StartGame` opens between the roster players (`Begun`, and `ClocksStarted` with the clocks on), or it throws when a player is missing, with match and timer kept and only player 1's flag reset; when the match opens, no other record's flag or colour changes, and with the clocks off no clock changes |
| Rooms.Room.StartGame | src/server.js:124-177 | both players unready, colours by the coin, a fresh match on the starting grid, and with clocks on both clocks set to length+100 and black's timeout armed; a missing player throws, only player 1's flag reset; on success no other record's flag or colour changes, and with the clocks off no clock changes |
| Rooms.Room.FireTimeout | src/server.js:252-271 | skipped without a match or once the round is in the history; otherwise `TimedOut` and a decided match dropped |
| Rooms.Room.Clocks | src/server.js:460-473 | the pending timeout is cancelled, the mover charged with the bonus, the opponent's clock started, and a timeout for the opponent's remaining time armed while the round is in play; the mover's start time, the opponent's time left and every other start time are kept |
| Rooms.Room.Play | src/server.js:400-483 | stats counted, grid steps applied in place; on a throw the handler stops with every clock untouched, otherwise as `MoveFinished`; with the clocks off no clock changes |
| Rooms.Room.Finish | src/server.js:439-483 | turn flip, mate test, clocks, promotion after the mate test, decided match dropped; with the clocks off no clock changes |
| Rooms.Room.Move | src/server.js:392-484 | throws without a match, ignored when decided or the round is recorded, throws for an unknown session, refused by `checkMove` with match and timer unchanged; no clock changes unless the move completes; otherwise `MoveApplied`, and only the mover's time left and the other player's start time can change (`modifies`), neither with the clocks off |
| Server.WithDefaults | src/server.js:279-283 | a session without a name gets "Player" and no room; others are untouched |
| Server.SubmitUsername | src/server.js:592-604 | resubmitting the current name succeeds; another field is stored iff its string form ("undefined", "null" for a missing or null field) passes the pattern, else the error is sent and the session is unchanged |
| Server.MissingNameLeavesRoom | src/server.js:568-604 | a body without a user name clears the session's name, and the next request resets the session to "Player" in no room |
| Server.SessionNamesValid | src/server.js:568-604 | the user name a request sees after the middleware passes the user-name pattern, and a submitted text keeps it valid |
| Server.Registry.CreateRoom | src/server.js:619-644 | a new valid room under the fresh id, the session moved to it |
| Server.Registry.JoinRoom | src/server.js:647-669 | granted without change when already in a room; otherwise an existing room takes the session in as a fresh guest, its name, settings, match and timer kept; an unknown id is refused |
| Server.Registry.SubmitRoomName | src/server.js:607-616 | a field whose string form ("undefined" for a missing field, "null" for null) passes the room pattern renames the session's room to the field and throws without a room; any other field is refused |
| Server.Registry.Connect | src/server.js:279-291 | defaults applied; the session's record in its room is marked connected and no other record's flag changes; an id naming no room throws |
| Server.Registry.LeaveRoom | src/server.js:491-519 | the session leaves its room; the room's entry, match, outcome and seats are those of `Room.Leave` (forfeit and unguarded `Reseated`); the room is deleted exactly when the departure emptied it |
| Server.Registry.ExpireSession | src/server.js:524-563 | unless ignored or thrown, the session leaves its room; the room's entry, match, timer, outcome and seats are those of `Room.ExpireDisconnect`; the room is deleted exactly when emptied |

## Left out

- Express, sessions, MongoStore, CORS and logging are left out: they are framework plumbing. Sessions are a value (`Session`) passed in and returned.
- Socket emits and the `enter-room`, `get-user-data`, `msg`, `change-room-name` and `reload-session` handlers are left out: they only send data.
- The `piecesMoves` library is not part of this model. It is the oracles `MovesOracle` and `MateOracle`, and `Move` assumes its moves stay on the board.
- Timing is left out: `setTimeout`, `clearTimeout` and the delays. The environment calls the callbacks, and the room holds a single timeout slot.
- A timeout that `startGame` orphans by overwriting `room.timerId` is not modelled. The slot is replaced.
- `Rooms.Room.Expire`: the end time that the disconnect path stamps on the match just before dropping it is not kept, because the dropped match is unobservable.
- Non-integer settings payloads (strings, fractions) are left out. Numbers are integers or absent.
- Server.SubmitUsername: a `username` field that is a number, a boolean, an array or an object is left out. `test` would check its string form and the route would store the raw value. Only texts and a missing or `null` field are modelled.
- Rooms.Room.ChangeUsername: the same holds for the `changed-username` payload: only a text, a missing payload and `null` are modelled. A stored missing or `null` name is the empty name.
- Server.Registry.SubmitRoomName: the same holds for the `room-name` field: only a text, a missing field and `null` are modelled. A room renamed to a missing field has the empty name.
- The match's `movesHistory` is left out: it is always empty.
- `generateRoomId`'s retry loop is the precondition that `id` is unused and in range.
- Handlers look the user up by session id in the room's map. The record captured when the socket connected is the same unless the session left and came back. `leave-room` and the disconnect expiry take the captured record as a parameter.
- Each handler reads the clock once: `now` is one value per call.
- Score backing (`ScoreBacked`) is proved on the pure round functions, not carried as a room invariant.
- A throw in a socket handler or a timer callback is assumed to end only that handler. The source installs no `uncaughtException` handler and no `try`/`catch`, so in Node.js such a throw most likely ends the whole process and every room with it. The model keeps the room and its writes so that the state after a throw can be stated. (Express itself catches a throw in an HTTP route and answers with an error.)
- Rooms.Room.Clocks: a record's `remainTime` and `startTime` start at 0 in the model. In the source they are undefined until a `startGame` with the clocks on sets them. If `set-settings` turns the clocks on during a match, the next `switchTimers` (src/server.js:88-94) computes `NaN`, which then stays in the record's time left. The model charges from 0 instead. `Rooms.Room.Play`, `Rooms.Room.Finish` and `Rooms.Room.Move` inherit this.
- Integer width is not an issue here: every count and time is a JavaScript number well inside the exact range.
