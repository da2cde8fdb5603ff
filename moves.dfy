/** Move validation (`checkMove`) and the changes a valid move makes to the grid, in the
    order of the `move` handler (src/server.js:392-484). The legality library
    (`piecesMoves`) is not part of this model: it enters as two function-typed oracles. */
module Moves {
  import opened Wrappers
  import opened Board

  /** The `type` tag of a legal move; the handler only tests for "move" and "attack". */
  datatype MoveType = Move | Attack | Other

  /** One entry of the oracle's answer `{x, y, type, enPassant?}`. */
  datatype LegalMove = LegalMove(y: int, x: int, kind: MoveType, enPassant: bool)

  /** The destination object a client sends. `checkMove` overwrites its `type` and, only
      when the legal move carries one, its `enPassant` flag; a flag the client set itself
      survives otherwise. */
  datatype Destination = Destination(y: int, x: int, kind: Option<MoveType>, enPassant: bool)

  function DestPos(d: Destination): Pos {
    Pos(d.y, d.x)
  }

  /** `piecesMoves[piece + "Moves"](content, origin, color, castling)` */
  type MovesOracle = (Grid, Pos, Kind, Color, bool) -> seq<LegalMove>

  /** `piecesMoves.isCheckmate(content, color)` */
  type MateOracle = (Grid, Color) -> bool

  /** The legality library only ever answers with squares of the board. */
  ghost predicate OnBoardOracle(moves: MovesOracle) {
    forall g: Grid, p: Pos, k: Kind, c: Color, f: bool, i: int
      | 0 <= i < |moves(g, p, k, c, f)| ::
      OnBoard(Pos(moves(g, p, k, c, f)[i].y, moves(g, p, k, c, f)[i].x))
  }

  function LegalMoves(g: Grid, origin: Pos, moves: MovesOracle): seq<LegalMove>
    requires OnBoard(origin) && At(g, origin).Piece?
  {
    var s := At(g, origin);
    moves(g, origin, s.kind, s.color, s.castling)
  }

  predicate Reaches(m: LegalMove, d: Destination) {
    m.y == d.y && m.x == d.x
  }

  /** The `.find` over the oracle's answer: the first legal move that reaches d. */
  function FindLegal(ms: seq<LegalMove>, d: Destination): (k: Option<nat>)
    ensures k.Some? ==> k.value < |ms| && Reaches(ms[k.value], d)
    ensures k.Some? ==> forall j | 0 <= j < k.value :: !Reaches(ms[j], d)
    ensures k.None? ==> forall j | 0 <= j < |ms| :: !Reaches(ms[j], d)
  {
    if ms == [] then None
    else if Reaches(ms[0], d) then Some(0)
    else match FindLegal(ms[1..], d)
      case None => None
      case Some(k) => Some(k + 1)
  }

  /** `checkMove` (src/server.js:180-207): the mover must play the colour whose turn it is,
      the origin must hold a piece of that colour, and the destination must be among the
      oracle's moves for that piece. On success the result is the destination with the
      matched move's type and en-passant flag copied onto it. */
  function CheckMove(g: Grid, mover: Option<Color>, current: Color, origin: Pos,
                     dest: Destination, moves: MovesOracle): (r: Option<Destination>)
    requires OnBoard(origin)
    ensures r.Some? <==>
      && mover == Some(current)
      && At(g, origin).Piece? && At(g, origin).color == current
      && exists i | 0 <= i < |LegalMoves(g, origin, moves)| :: Reaches(LegalMoves(g, origin, moves)[i], dest)
    ensures r.Some? ==>
      var ms := LegalMoves(g, origin, moves);
      exists i | 0 <= i < |ms| ::
        && Reaches(ms[i], dest)
        && (forall j | 0 <= j < i :: !Reaches(ms[j], dest))
        && r.value == dest.(kind := Some(ms[i].kind), enPassant := ms[i].enPassant || dest.enPassant)
  {
    var s := At(g, origin);
    if mover == Some(current) && s.Piece? && s.color == current then
      var ms := LegalMoves(g, origin, moves);
      match FindLegal(ms, dest)
      case None => None
      case Some(i) =>
        Some(dest.(kind := Some(ms[i].kind), enPassant := ms[i].enPassant || dest.enPassant))
    else
      None
  }

  /** A destination `checkMove` accepts lies on the board when the legality library only
      answers with squares of the board, and the origin holds a piece of the side to move. */
  lemma CheckedOnBoard(g: Grid, mover: Option<Color>, current: Color, origin: Pos,
                       dest: Destination, moves: MovesOracle)
    requires OnBoard(origin) && OnBoardOracle(moves)
    requires CheckMove(g, mover, current, origin, dest, moves).Some?
    ensures OnBoard(DestPos(CheckMove(g, mover, current, origin, dest, moves).value))
    ensures At(g, origin).Piece? && At(g, origin).color == current && mover == Some(current)
  {
    var ms := LegalMoves(g, origin, moves);
    var i :| 0 <= i < |ms| && Reaches(ms[i], dest);
    var s := At(g, origin);
    assert OnBoard(Pos(moves(g, origin, s.kind, s.color, s.castling)[i].y, moves(g, origin, s.kind, s.color, s.castling)[i].x));
  }

  // ---------------------------------------------------------------------------
  // The grid steps of a valid move

  predicate Flagged(s: Square, c: Color) {
    s.Piece? && s.color == c && s.enPassant
  }

  /** `content.flat().find(piece => piece.color === currentColor && piece.enPassant)` */
  function FirstEnPassant(g: seq<Square>, c: Color): (k: Option<nat>)
    ensures k.Some? ==> k.value < |g| && Flagged(g[k.value], c)
    ensures k.Some? ==> forall j | 0 <= j < k.value :: !Flagged(g[j], c)
    ensures k.None? ==> forall j | 0 <= j < |g| :: !Flagged(g[j], c)
  {
    if g == [] then None
    else if Flagged(g[0], c) then Some(0)
    else match FirstEnPassant(g[1..], c)
      case None => None
      case Some(k) => Some(k + 1)
  }

  /** The stale flag of the colour about to move is dropped from the first piece of that
      colour that carries one (src/server.js:403-406); every other square is untouched. */
  function ClearStaleEnPassant(g: Grid, c: Color): (r: Grid)
    ensures FirstEnPassant(g, c).None? ==> r == g
    ensures FirstEnPassant(g, c).Some? ==>
      var k := FirstEnPassant(g, c).value;
      r[k] == g[k].(enPassant := false) && forall j | 0 <= j < Cells && j != k :: r[j] == g[j]
  {
    match FirstEnPassant(g, c)
    case None => g
    case Some(k) => g[k := WithoutEnPassant(g[k])]
  }

  /** The outcome of the grid phase: the handler either goes on, or throws part way
      (the source indexes a row that does not exist) and keeps what it wrote so far. */
  datatype Stage = Continue(g: Grid) | Crash(g: Grid)

  /** src/server.js:408-413. An en-passant attack empties the squares above and below the
      destination; on row 0 the first write already fails, on row 7 the second does. A
      double step puts the en-passant flag on the moving pawn. */
  function EnPassantStep(g: Grid, origin: Pos, d: Destination): (r: Stage)
    requires OnBoard(origin) && OnBoard(DestPos(d)) && At(g, origin).Piece?
    ensures r.Crash? <==> d.enPassant && d.kind == Some(Attack) && (d.y == 0 || d.y == 7)
    ensures d.enPassant && d.kind == Some(Attack) && 1 <= d.y <= 6 ==>
      && At(r.g, Pos(d.y - 1, d.x)) == Empty && At(r.g, Pos(d.y + 1, d.x)) == Empty
      && forall j | 0 <= j < Cells && j != Index(Pos(d.y - 1, d.x)) && j != Index(Pos(d.y + 1, d.x)) ::
           r.g[j] == g[j]
    ensures d.enPassant && d.kind == Some(Move) ==>
      r == Continue(g[Index(origin) := At(g, origin).(enPassant := true)])
    ensures !d.enPassant || d.kind !in {Some(Attack), Some(Move)} ==> r == Continue(g)
  {
    if d.enPassant && d.kind == Some(Attack) then
      if d.y == 0 then Crash(g)
      else if d.y == 7 then Crash(g[Index(Pos(6, d.x)) := Empty])
      else Continue(g[Index(Pos(d.y - 1, d.x)) := Empty][Index(Pos(d.y + 1, d.x)) := Empty])
    else if d.enPassant && d.kind == Some(Move) then
      Continue(g[Index(origin) := At(g, origin).(enPassant := true)])
    else
      Continue(g)
  }

  predicate IsKing(s: Square) {
    s.Piece? && s.kind == King
  }

  /** src/server.js:415-430. A king moving more than one file to the right takes the rook
      from file 7 to the file left of its destination, to the left the rook from file 0 to
      the file right of it; the rook loses its castling flag and its old square is emptied. */
  function CastleStep(g: Grid, origin: Pos, d: Destination): (r: Grid)
    requires OnBoard(origin) && OnBoard(DestPos(d))
    ensures !IsKing(At(g, origin)) || -1 <= d.x - origin.x <= 1 ==> r == g
    ensures At(r, origin) == At(g, origin)
    ensures IsKing(At(g, origin)) && d.x - origin.x > 1 ==>
      && At(r, Pos(d.y, d.x - 1)) == WithoutCastling(At(g, Pos(d.y, 7)))
      && At(r, Pos(d.y, 7)) == Empty
      && forall j | 0 <= j < Cells && j != Index(Pos(d.y, d.x - 1)) && j != Index(Pos(d.y, 7)) :: r[j] == g[j]
    ensures IsKing(At(g, origin)) && d.x - origin.x < -1 ==>
      && At(r, Pos(d.y, d.x + 1)) == WithoutCastling(At(g, Pos(d.y, 0)))
      && At(r, Pos(d.y, 0)) == Empty
      && forall j | 0 <= j < Cells && j != Index(Pos(d.y, d.x + 1)) && j != Index(Pos(d.y, 0)) :: r[j] == g[j]
  {
    if IsKing(At(g, origin)) && d.x - origin.x > 1 then
      var rook := WithoutCastling(At(g, Pos(d.y, 7)));
      g[Index(Pos(d.y, d.x - 1)) := rook][Index(Pos(d.y, 7)) := Empty]
    else if IsKing(At(g, origin)) && d.x - origin.x < -1 then
      var rook := WithoutCastling(At(g, Pos(d.y, 0)));
      g[Index(Pos(d.y, d.x + 1)) := rook][Index(Pos(d.y, 0)) := Empty]
    else
      g
  }

  /** src/server.js:432-438: the origin piece loses its castling flag and is moved to the
      destination; the origin becomes empty. */
  function Relocate(g: Grid, origin: Pos, d: Destination): (r: Grid)
    requires OnBoard(origin) && OnBoard(DestPos(d))
    ensures origin != DestPos(d) ==> At(r, DestPos(d)) == WithoutCastling(At(g, origin))
    ensures At(r, origin) == Empty
    ensures forall j | 0 <= j < Cells && j != Index(origin) && j != Index(DestPos(d)) :: r[j] == g[j]
  {
    var piece := WithoutCastling(At(g, origin));
    g[Index(origin) := piece][Index(DestPos(d)) := piece][Index(origin) := Empty]
  }

  /** The grid after the board-changing part of a valid move, before the checkmate test. */
  function PlayMove(g: Grid, origin: Pos, d: Destination, mover: Color): Stage
    requires OnBoard(origin) && OnBoard(DestPos(d)) && At(g, origin).Piece?
  {
    var g1 := ClearStaleEnPassant(g, mover);
    match EnPassantStep(g1, origin, d)
    case Crash(g2) => Crash(g2)
    case Continue(g2) => Continue(Relocate(CastleStep(g2, origin, d), origin, d))
  }

  /** src/server.js:476-480: a pawn standing on row 0 or 7 after the move becomes a queen. */
  function Promote(g: Grid, d: Destination): (r: Grid)
    requires OnBoard(DestPos(d))
    ensures (d.y == 0 || d.y == 7) && At(g, DestPos(d)).Piece? && At(g, DestPos(d)).kind == Pawn ==>
      r == g[Index(DestPos(d)) := At(g, DestPos(d)).(kind := Queen)]
    ensures !((d.y == 0 || d.y == 7) && At(g, DestPos(d)).Piece? && At(g, DestPos(d)).kind == Pawn) ==> r == g
  {
    var s := At(g, DestPos(d));
    if (d.y == 0 || d.y == 7) && s.Piece? && s.kind == Pawn then
      g[Index(DestPos(d)) := s.(kind := Queen)]
    else
      g
  }

  // ---------------------------------------------------------------------------
  // What a valid move does to the grid

  /** The squares a move may write besides the one whose stale flag is cleared: origin,
      destination, the two en-passant squares and the castling squares of the destination row. */
  function Affected(origin: Pos, d: Destination): (s: set<int>)
    requires OnBoard(origin) && OnBoard(DestPos(d))
  {
    {Index(origin), Index(DestPos(d)), 8 * d.y, 8 * d.y + 7, 8 * (d.y - 1) + d.x, 8 * (d.y + 1) + d.x,
     8 * d.y + d.x - 1, 8 * d.y + d.x + 1}
  }

  /** The moving piece lands on the destination with its kind and colour and without its
      castling flag, carries the en-passant flag after a double step, and the origin is
      left empty. (An en-passant attack straight along the origin's file empties the origin
      before the relocation, so the piece is lost; that case is excluded here.) */
  lemma MovedPieceLands(g: Grid, origin: Pos, d: Destination, mover: Color)
    requires OnBoard(origin) && OnBoard(DestPos(d)) && At(g, origin).Piece?
    requires origin != DestPos(d)
    requires PlayMove(g, origin, d, mover).Continue?
    requires d.enPassant && d.kind == Some(Attack) ==> origin.x != d.x
    ensures var r := PlayMove(g, origin, d, mover).g;
      && At(r, DestPos(d)).Piece?
      && At(r, DestPos(d)).kind == At(g, origin).kind
      && At(r, DestPos(d)).color == At(g, origin).color
      && !At(r, DestPos(d)).castling
      && (d.enPassant && d.kind == Some(Move) ==> At(r, DestPos(d)).enPassant)
      && At(r, origin) == Empty
  {
    var g1 := ClearStaleEnPassant(g, mover);
    assert At(g1, origin).Piece? && At(g1, origin).kind == At(g, origin).kind && At(g1, origin).color == At(g, origin).color;
    var g2 := EnPassantStep(g1, origin, d).g;
    assert At(g2, origin).Piece? && At(g2, origin).kind == At(g, origin).kind && At(g2, origin).color == At(g, origin).color;
    var g3 := CastleStep(g2, origin, d);
    assert At(g3, origin) == At(g2, origin);
  }

  /** Castling to the right (src/server.js:417-422): the rook from file 7 stands left of the
      king's destination without its castling flag, and file 7 is empty unless the king
      itself went there. */
  lemma CastlingRightMovesRook(g: Grid, origin: Pos, d: Destination, mover: Color)
    requires OnBoard(origin) && OnBoard(DestPos(d)) && IsKing(At(g, origin))
    requires d.x - origin.x > 1 && !d.enPassant
    ensures var r := PlayMove(g, origin, d, mover);
      && r.Continue?
      && At(r.g, Pos(d.y, d.x - 1)).Empty? == At(g, Pos(d.y, 7)).Empty?
      && (At(g, Pos(d.y, 7)).Piece? ==>
            && At(r.g, Pos(d.y, d.x - 1)).kind == At(g, Pos(d.y, 7)).kind
            && At(r.g, Pos(d.y, d.x - 1)).color == At(g, Pos(d.y, 7)).color
            && !At(r.g, Pos(d.y, d.x - 1)).castling)
      && (d.x != 7 ==> At(r.g, Pos(d.y, 7)) == Empty)
      && At(r.g, DestPos(d)) == WithoutCastling(At(ClearStaleEnPassant(g, mover), origin))
  {
    var g1 := ClearStaleEnPassant(g, mover);
    assert IsKing(At(g1, origin));
    var g3 := CastleStep(g1, origin, d);
    assert At(g1, Pos(d.y, 7)).Empty? == At(g, Pos(d.y, 7)).Empty?;
    assert Index(Pos(d.y, d.x - 1)) != Index(origin);
  }

  /** Castling to the left (src/server.js:424-429), the mirror image with the rook of file 0. */
  lemma CastlingLeftMovesRook(g: Grid, origin: Pos, d: Destination, mover: Color)
    requires OnBoard(origin) && OnBoard(DestPos(d)) && IsKing(At(g, origin))
    requires d.x - origin.x < -1 && !d.enPassant
    ensures var r := PlayMove(g, origin, d, mover);
      && r.Continue?
      && At(r.g, Pos(d.y, d.x + 1)).Empty? == At(g, Pos(d.y, 0)).Empty?
      && (At(g, Pos(d.y, 0)).Piece? ==>
            && At(r.g, Pos(d.y, d.x + 1)).kind == At(g, Pos(d.y, 0)).kind
            && At(r.g, Pos(d.y, d.x + 1)).color == At(g, Pos(d.y, 0)).color
            && !At(r.g, Pos(d.y, d.x + 1)).castling)
      && (d.x != 0 ==> At(r.g, Pos(d.y, 0)) == Empty)
      && At(r.g, DestPos(d)) == WithoutCastling(At(ClearStaleEnPassant(g, mover), origin))
  {
    var g1 := ClearStaleEnPassant(g, mover);
    assert IsKing(At(g1, origin));
    var g3 := CastleStep(g1, origin, d);
    assert At(g1, Pos(d.y, 0)).Empty? == At(g, Pos(d.y, 0)).Empty?;
    assert Index(Pos(d.y, d.x + 1)) != Index(origin);
  }

  /** An en-passant attack away from the edge rows leaves both the square above and the
      square below the destination empty (src/server.js:408-411). */
  lemma EnPassantAttackClears(g: Grid, origin: Pos, d: Destination, mover: Color)
    requires OnBoard(origin) && OnBoard(DestPos(d)) && At(g, origin).Piece?
    requires d.enPassant && d.kind == Some(Attack) && 1 <= d.y <= 6
    ensures var r := PlayMove(g, origin, d, mover);
      && r.Continue?
      && At(r.g, Pos(d.y - 1, d.x)) == Empty
      && At(r.g, Pos(d.y + 1, d.x)) == Empty
  {
    var g1 := ClearStaleEnPassant(g, mover);
    var g2 := EnPassantStep(g1, origin, d).g;
    var g3 := CastleStep(g2, origin, d);
    if IsKing(At(g2, origin)) && (d.x - origin.x > 1 || d.x - origin.x < -1) {
      assert At(g3, Pos(d.y - 1, d.x)) == Empty;
      assert At(g3, Pos(d.y + 1, d.x)) == Empty;
    }
  }

  /** Nothing outside the affected squares and the square whose stale flag is cleared changes. */
  lemma MoveIsLocal(g: Grid, origin: Pos, d: Destination, mover: Color, j: int)
    requires OnBoard(origin) && OnBoard(DestPos(d)) && At(g, origin).Piece?
    requires 0 <= j < Cells && j !in Affected(origin, d)
    requires FirstEnPassant(g, mover).Some? ==> j != FirstEnPassant(g, mover).value
    ensures PlayMove(g, origin, d, mover).g[j] == g[j]
  {
    var g1 := ClearStaleEnPassant(g, mover);
    assert g1[j] == g[j];
    EnPassantStepIsLocal(g1, origin, d, j);
    var g2 := EnPassantStep(g1, origin, d).g;
    if EnPassantStep(g1, origin, d).Continue? {
      CastleStepIsLocal(g2, origin, d, j);
    }
  }

  lemma EnPassantStepIsLocal(g: Grid, origin: Pos, d: Destination, j: int)
    requires OnBoard(origin) && OnBoard(DestPos(d)) && At(g, origin).Piece?
    requires 0 <= j < Cells && j !in Affected(origin, d)
    ensures EnPassantStep(g, origin, d).g[j] == g[j]
  {
    assert j != Index(origin) && j != 8 * (d.y - 1) + d.x && j != 8 * (d.y + 1) + d.x;
  }

  lemma CastleStepIsLocal(g: Grid, origin: Pos, d: Destination, j: int)
    requires OnBoard(origin) && OnBoard(DestPos(d))
    requires 0 <= j < Cells && j !in Affected(origin, d)
    ensures Relocate(CastleStep(g, origin, d), origin, d)[j] == g[j]
  {
    assert j != Index(origin) && j != Index(DestPos(d));
    assert j != 8 * d.y && j != 8 * d.y + 7 && j != 8 * d.y + d.x - 1 && j != 8 * d.y + d.x + 1;
  }

  // ---------------------------------------------------------------------------
  // At most one en-passant flag per colour

  function FlagCount(g: seq<Square>, c: Color): nat {
    if g == [] then 0 else (if Flagged(g[0], c) then 1 else 0) + FlagCount(g[1..], c)
  }

  lemma {:induction false} FlagCountUpdate(g: seq<Square>, i: nat, s: Square, c: Color)
    requires i < |g|
    ensures FlagCount(g[i := s], c) ==
      FlagCount(g, c) - (if Flagged(g[i], c) then 1 else 0) + (if Flagged(s, c) then 1 else 0)
  {
    if i == 0 {
      assert g[i := s][1..] == g[1..];
    } else {
      FlagCountUpdate(g[1..], i - 1, s, c);
      assert g[i := s][1..] == g[1..][i - 1 := s];
    }
  }

  lemma {:induction false} NoFlagNoCount(g: seq<Square>, c: Color)
    requires FirstEnPassant(g, c).None?
    ensures FlagCount(g, c) == 0
  {
    if g != [] {
      NoFlagNoCount(g[1..], c);
    }
  }

  /** With at most one flagged piece of the moving colour, clearing the stale flag leaves
      none: a flag set by a double step lives exactly until its owner moves again. */
  lemma StaleFlagGone(g: Grid, c: Color)
    requires FlagCount(g, c) <= 1
    ensures FlagCount(ClearStaleEnPassant(g, c), c) == 0
    ensures forall c' | c' != c :: FlagCount(ClearStaleEnPassant(g, c), c') == FlagCount(g, c')
  {
    match FirstEnPassant(g, c)
    case None => NoFlagNoCount(g, c);
    case Some(k) =>
      FlagCountUpdate(g, k, WithoutEnPassant(g[k]), c);
      forall c' | c' != c
        ensures FlagCount(ClearStaleEnPassant(g, c), c') == FlagCount(g, c')
      {
        FlagCountUpdate(g, k, WithoutEnPassant(g[k]), c');
      }
  }

  lemma CastleStepCount(g: Grid, origin: Pos, d: Destination, c: Color)
    requires OnBoard(origin) && OnBoard(DestPos(d))
    ensures FlagCount(CastleStep(g, origin, d), c) <= FlagCount(g, c)
  {
    if IsKing(At(g, origin)) && d.x - origin.x > 1 {
      var rook := WithoutCastling(At(g, Pos(d.y, 7)));
      var a, b := Index(Pos(d.y, d.x - 1)), Index(Pos(d.y, 7));
      FlagCountUpdate(g, a, rook, c);
      FlagCountUpdate(g[a := rook], b, Empty, c);
    } else if IsKing(At(g, origin)) && d.x - origin.x < -1 {
      var rook := WithoutCastling(At(g, Pos(d.y, 0)));
      var a, b := Index(Pos(d.y, d.x + 1)), Index(Pos(d.y, 0));
      FlagCountUpdate(g, a, rook, c);
      FlagCountUpdate(g[a := rook], b, Empty, c);
    }
  }

  lemma RelocateCount(g: Grid, origin: Pos, d: Destination, c: Color)
    requires OnBoard(origin) && OnBoard(DestPos(d))
    ensures FlagCount(Relocate(g, origin, d), c) <= FlagCount(g, c)
  {
    var piece := WithoutCastling(At(g, origin));
    var o, t := Index(origin), Index(DestPos(d));
    FlagCountUpdate(g, o, piece, c);
    FlagCountUpdate(g[o := piece], t, piece, c);
    FlagCountUpdate(g[o := piece][t := piece], o, Empty, c);
  }

  lemma EnPassantStepCount(g: Grid, origin: Pos, d: Destination, c: Color)
    requires OnBoard(origin) && OnBoard(DestPos(d)) && At(g, origin).Piece?
    ensures FlagCount(EnPassantStep(g, origin, d).g, c) <=
      FlagCount(g, c) + (if d.enPassant && d.kind == Some(Move) && At(g, origin).color == c then 1 else 0)
  {
    if d.enPassant && d.kind == Some(Attack) {
      if d.y == 7 {
        FlagCountUpdate(g, Index(Pos(6, d.x)), Empty, c);
      } else if d.y != 0 {
        var a, b := Index(Pos(d.y - 1, d.x)), Index(Pos(d.y + 1, d.x));
        FlagCountUpdate(g, a, Empty, c);
        FlagCountUpdate(g[a := Empty], b, Empty, c);
      }
    } else if d.enPassant && d.kind == Some(Move) {
      FlagCountUpdate(g, Index(origin), At(g, origin).(enPassant := true), c);
    }
  }

  lemma PromoteCount(g: Grid, d: Destination, c: Color)
    requires OnBoard(DestPos(d))
    ensures FlagCount(Promote(g, d), c) == FlagCount(g, c)
  {
    var s := At(g, DestPos(d));
    if (d.y == 0 || d.y == 7) && s.Piece? && s.kind == Pawn {
      FlagCountUpdate(g, Index(DestPos(d)), s.(kind := Queen), c);
    }
  }

  /** A valid move keeps "at most one en-passant flag per colour": the mover's stale flag is
      gone before its double step may set a new one, and the other side only loses flags. */
  lemma MoveKeepsFlagsUnique(g: Grid, origin: Pos, d: Destination, mover: Color)
    requires OnBoard(origin) && OnBoard(DestPos(d)) && At(g, origin).Piece?
    requires At(g, origin).color == mover
    requires FlagCount(g, White) <= 1 && FlagCount(g, Black) <= 1
    ensures var r := Promote(PlayMove(g, origin, d, mover).g, d);
      FlagCount(r, White) <= 1 && FlagCount(r, Black) <= 1
  {
    var g1 := ClearStaleEnPassant(g, mover);
    StaleFlagGone(g, mover);
    var st := EnPassantStep(g1, origin, d);
    var r := Promote(PlayMove(g, origin, d, mover).g, d);
    forall c: Color
      ensures FlagCount(r, c) <= 1
    {
      EnPassantStepCount(g1, origin, d, c);
      if st.Continue? {
        CastleStepCount(st.g, origin, d, c);
        RelocateCount(CastleStep(st.g, origin, d), origin, d, c);
      }
      PromoteCount(PlayMove(g, origin, d, mover).g, d, c);
    }
  }

  // ---------------------------------------------------------------------------
  // The same steps, performed in place on the board's cells

  /** The board-changing part of a valid move, cell by cell as the handler writes it
      (src/server.js:402-438). `crashed` reports the en-passant write to a row that does
      not exist, after which the handler stops. */
  method PlayMoveInPlace(a: array<Square>, origin: Pos, d: Destination, mover: Color)
    returns (crashed: bool)
    requires a.Length == Cells && OnBoard(origin) && OnBoard(DestPos(d))
    requires a[Index(origin)].Piece?
    modifies a
    ensures var r := PlayMove(old(a[..]), origin, d, mover);
      a[..] == r.g && crashed == r.Crash?
  {
    ClearStaleEnPassantInPlace(a, mover);
    crashed := EnPassantInPlace(a, origin, d);
    if crashed {
      return;
    }
    CastleInPlace(a, origin, d);
    RelocateInPlace(a, origin, d);
  }

  method ClearStaleEnPassantInPlace(a: array<Square>, c: Color)
    requires a.Length == Cells
    modifies a
    ensures a[..] == ClearStaleEnPassant(old(a[..]), c)
  {
    match FirstEnPassant(a[..], c) {
      case None =>
      case Some(k) => a[k] := WithoutEnPassant(a[k]);
    }
  }

  method EnPassantInPlace(a: array<Square>, origin: Pos, d: Destination) returns (crashed: bool)
    requires a.Length == Cells && OnBoard(origin) && OnBoard(DestPos(d))
    requires a[Index(origin)].Piece?
    modifies a
    ensures var r := EnPassantStep(old(a[..]), origin, d);
      a[..] == r.g && crashed == r.Crash?
  {
    crashed := false;
    if d.enPassant && d.kind == Some(Attack) {
      if d.y == 0 {
        return true;
      }
      a[Index(Pos(d.y - 1, d.x))] := Empty;
      if d.y == 7 {
        return true;
      }
      a[Index(Pos(d.y + 1, d.x))] := Empty;
    }
    if d.enPassant && d.kind == Some(Move) {
      a[Index(origin)] := a[Index(origin)].(enPassant := true);
    }
  }

  method CastleInPlace(a: array<Square>, origin: Pos, d: Destination)
    requires a.Length == Cells && OnBoard(origin) && OnBoard(DestPos(d))
    modifies a
    ensures a[..] == CastleStep(old(a[..]), origin, d)
  {
    if IsKing(a[Index(origin)]) {
      if d.x - origin.x > 1 {
        a[Index(Pos(d.y, 7))] := WithoutCastling(a[Index(Pos(d.y, 7))]);
        a[Index(Pos(d.y, d.x - 1))] := a[Index(Pos(d.y, 7))];
        a[Index(Pos(d.y, 7))] := Empty;
      }
      if d.x - origin.x < -1 {
        a[Index(Pos(d.y, 0))] := WithoutCastling(a[Index(Pos(d.y, 0))]);
        a[Index(Pos(d.y, d.x + 1))] := a[Index(Pos(d.y, 0))];
        a[Index(Pos(d.y, 0))] := Empty;
      }
    }
  }

  method RelocateInPlace(a: array<Square>, origin: Pos, d: Destination)
    requires a.Length == Cells && OnBoard(origin) && OnBoard(DestPos(d))
    modifies a
    ensures a[..] == Relocate(old(a[..]), origin, d)
  {
    a[Index(origin)] := WithoutCastling(a[Index(origin)]);
    a[Index(DestPos(d))] := a[Index(origin)];
    a[Index(origin)] := Empty;
  }

  /** src/server.js:476-480, in place. */
  method PromoteInPlace(a: array<Square>, d: Destination)
    requires a.Length == Cells && OnBoard(DestPos(d))
    modifies a
    ensures a[..] == Promote(old(a[..]), d)
  {
    var t := Index(DestPos(d));
    if (d.y == 0 || d.y == 7) && a[t].Piece? && a[t].kind == Pawn {
      a[t] := a[t].(kind := Queen);
    }
  }
}
