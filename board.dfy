/** The chess board of a match: colours, pieces, squares and the 8x8 grid.
    The grid is kept flat, row-major: row y, file x is cell 8*y + x, which is
    also the order in which the source's `content.flat()` visits the cells. */
module Board {
  import opened Wrappers

  datatype Color = White | Black

  function Opposite(c: Color): (r: Color)
    ensures r != c
  {
    if c == White then Black else White
  }

  datatype Kind = Pawn | Knight | Bishop | Rook | Queen | King

  /** A square is empty (the source's `{}`) or holds a piece with its two optional flags:
      `castling` (a rook or king that has not moved) and `enPassant` (a pawn that has just
      made a double step). An absent flag is `false`. */
  datatype Square =
    | Empty
    | Piece(kind: Kind, color: Color, castling: bool, enPassant: bool)

  const Cells := 64

  type Grid = g: seq<Square> | |g| == 64 witness seq(64, _ => Empty)

  datatype Pos = Pos(y: int, x: int)

  predicate OnBoard(p: Pos) {
    0 <= p.y < 8 && 0 <= p.x < 8
  }

  function Index(p: Pos): (i: nat)
    requires OnBoard(p)
    ensures i < Cells
    ensures i / 8 == p.y && i % 8 == p.x
  {
    8 * p.y + p.x
  }

  lemma IndexInjective(p: Pos, q: Pos)
    requires OnBoard(p) && OnBoard(q)
    ensures Index(p) == Index(q) <==> p == q
  {
  }

  function At(g: Grid, p: Pos): Square
    requires OnBoard(p)
  {
    g[Index(p)]
  }

  /** The square with its castling flag removed (the source's `delete square.castling`);
      deleting a flag of an empty square leaves it empty. */
  function WithoutCastling(s: Square): (r: Square)
    ensures r.Empty? <==> s.Empty?
    ensures r.Piece? ==> r == s.(castling := false)
  {
    if s.Piece? then s.(castling := false) else s
  }

  function WithoutEnPassant(s: Square): (r: Square)
    ensures r.Empty? <==> s.Empty?
    ensures r.Piece? ==> r == s.(enPassant := false)
  {
    if s.Piece? then s.(enPassant := false) else s
  }

  /** The back rank from file 0 to file 7. */
  function BackRank(x: int): Kind
    requires 0 <= x < 8
  {
    [Rook, Knight, Bishop, Queen, King, Bishop, Knight, Rook][x]
  }

  /** The piece the starting position puts on row y, file x (src/server.js:96-122). */
  function InitialSquare(y: int, x: int): Square
    requires 0 <= x < 8
  {
    if y == 0 || y == 7 then
      var k := BackRank(x);
      Piece(k, if y == 0 then White else Black, k == Rook || k == King, false)
    else if y == 1 then Piece(Pawn, White, false, false)
    else if y == 6 then Piece(Pawn, Black, false, false)
    else Empty
  }

  function DefaultBoard(): Grid {
    seq(64, i requires 0 <= i < 64 => InitialSquare(i / 8, i % 8))
  }

  /** The starting position as the source lays it out: white on row 0, black on row 7,
      pawns on rows 1 and 6, rows 2 to 5 empty, castling flags on exactly the rooks and
      kings, and no en-passant flag anywhere. */
  lemma DefaultBoardLayout()
    ensures forall p | OnBoard(p) && (p.y == 0 || p.y == 1) ::
      At(DefaultBoard(), p).Piece? && At(DefaultBoard(), p).color == White
    ensures forall p | OnBoard(p) && (p.y == 6 || p.y == 7) ::
      At(DefaultBoard(), p).Piece? && At(DefaultBoard(), p).color == Black
    ensures forall p | OnBoard(p) && (p.y == 1 || p.y == 6) :: At(DefaultBoard(), p).kind == Pawn
    ensures forall p | OnBoard(p) && 2 <= p.y <= 5 :: At(DefaultBoard(), p) == Empty
    ensures forall p | OnBoard(p) && (p.y == 0 || p.y == 7) :: At(DefaultBoard(), p).kind == BackRank(p.x)
    ensures forall p | OnBoard(p) && At(DefaultBoard(), p).Piece? ::
      (At(DefaultBoard(), p).castling <==> At(DefaultBoard(), p).kind in {Rook, King})
    ensures forall i | 0 <= i < Cells :: DefaultBoard()[i].Piece? ==> !DefaultBoard()[i].enPassant
  {
  }

  /** The two kings start on file 4 with their castling right, the rooks on files 0 and 7. */
  lemma DefaultBoardCastlers()
    ensures forall y | y == 0 || y == 7 ::
      && At(DefaultBoard(), Pos(y, 4)) == Piece(King, if y == 0 then White else Black, true, false)
      && At(DefaultBoard(), Pos(y, 0)) == Piece(Rook, if y == 0 then White else Black, true, false)
      && At(DefaultBoard(), Pos(y, 7)) == Piece(Rook, if y == 0 then White else Black, true, false)
  {
  }

  /** `defaultBoardContent` (src/server.js:96-122): eight rows of empty squares, the two
      back ranks square by square, then the two pawn rows. */
  method DefaultBoardContent() returns (a: array<Square>)
    ensures fresh(a) && a.Length == Cells
    ensures a[..] == DefaultBoard()
  {
    a := new Square[Cells];
    for y := 0 to 8
      invariant forall i | 0 <= i < 8 * y :: a[i] == Empty
    {
      for x := 0 to 8
        invariant forall i | 0 <= i < 8 * y + x :: a[i] == Empty
      {
        a[8 * y + x] := Empty;
      }
    }
    PlaceBackRank(a, 0);
    PlaceBackRank(a, 7);
    PlacePawns(a, 1);
    PlacePawns(a, 6);
    forall i | 0 <= i < Cells
      ensures a[i] == InitialSquare(i / 8, i % 8)
    {
      var y := i / 8;
      assert y == 0 || y == 1 || y == 6 || y == 7 || a[i] == Empty;
    }
  }

  /** Row y (0 or 7) receives its back-rank pieces, one assignment per file. */
  method PlaceBackRank(a: array<Square>, y: int)
    requires a.Length == Cells && (y == 0 || y == 7)
    modifies a
    ensures forall x | 0 <= x < 8 :: a[8 * y + x] == InitialSquare(y, x)
    ensures forall i | 0 <= i < Cells && i / 8 != y :: a[i] == old(a[i])
  {
    var c := if y == 0 then White else Black;
    var r := 8 * y;
    a[r] := Piece(Rook, c, true, false);
    a[r + 1] := Piece(Knight, c, false, false);
    a[r + 2] := Piece(Bishop, c, false, false);
    a[r + 3] := Piece(Queen, c, false, false);
    a[r + 4] := Piece(King, c, true, false);
    a[r + 5] := Piece(Bishop, c, false, false);
    a[r + 6] := Piece(Knight, c, false, false);
    a[r + 7] := Piece(Rook, c, true, false);
  }

  /** Row y (1 or 6) is filled with pawns of the side that starts there. */
  method PlacePawns(a: array<Square>, y: int)
    requires a.Length == Cells && (y == 1 || y == 6)
    modifies a
    ensures forall x | 0 <= x < 8 :: a[8 * y + x] == InitialSquare(y, x)
    ensures forall i | 0 <= i < Cells && i / 8 != y :: a[i] == old(a[i])
  {
    var c := if y == 1 then White else Black;
    var r := 8 * y;
    for x := 0 to 8
      invariant forall i | r <= i < r + x :: a[i] == Piece(Pawn, c, false, false)
      invariant forall i | 0 <= i < Cells && i / 8 != y :: a[i] == old(a[i])
    {
      a[r + x] := Piece(Pawn, c, false, false);
    }
  }
}
