/**
  Two small positions worked through the whole generator: a rook on an open
  board and a pair of pawns in contact. Each board is given both as a
  property of a grid and as one concrete grid.
 */
module Positions {
  import opened Board
  import opened MoveGen

  // ---------------------------------------------------------------------------
  // A rook on an open file
  // ---------------------------------------------------------------------------

  /** The rook's moves by direction, in the order of the straight-line table. */
  const RookD4: Square := Square(3, 4)
  const RookWest: seq<Move> := [Move(RookD4, Square(2, 4)), Move(RookD4, Square(1, 4)), Move(RookD4, Square(0, 4))]
  const RookEast: seq<Move> :=
    [Move(RookD4, Square(4, 4)), Move(RookD4, Square(5, 4)), Move(RookD4, Square(6, 4)), Move(RookD4, Square(7, 4))]
  const RookNorth: seq<Move> := [Move(RookD4, Square(3, 3)), Move(RookD4, Square(3, 2)), Move(RookD4, Square(3, 1))]
  const RookSouth: seq<Move> := [Move(RookD4, Square(3, 5)), Move(RookD4, Square(3, 6)), Move(RookD4, Square(3, 7))]

  /** White rook on d4, black pawn on d7, every other square empty. */
  ghost predicate IsRookBoard(b: Grid) {
    forall s :: OnBoard(s) ==>
      At(b, s) == if s == Square(3, 4) then 'R' else if s == Square(3, 1) then 'p' else '.'
  }

  /** The same board as 64 cells: d4 is cell 4 * 8 + 3, d7 is cell 1 * 8 + 3. */
  const RookGrid: Grid := seq(64, i => if i == 35 then 'R' else if i == 11 then 'p' else '.')

  lemma RookGridCells(s: Square)
    requires OnBoard(s)
    ensures At(RookGrid, s) == if s == Square(3, 4) then 'R' else if s == Square(3, 1) then 'p' else '.'
  {
  }

  lemma RookWestRay(b: Grid)
    requires At(b, Square(0, 4)) == '.' && At(b, Square(1, 4)) == '.' && At(b, Square(2, 4)) == '.'
    ensures Ray(b, RookD4, Square(2, 4), Dir(-1, 0), true) == RookWest
  {
  }

  lemma RookEastRay(b: Grid)
    requires At(b, Square(4, 4)) == '.' && At(b, Square(5, 4)) == '.' && At(b, Square(6, 4)) == '.' && At(b, Square(7, 4)) == '.'
    ensures Ray(b, RookD4, Square(4, 4), Dir(1, 0), true) == RookEast
  {
  }

  lemma RookNorthRay(b: Grid)
    requires At(b, Square(3, 3)) == '.' && At(b, Square(3, 2)) == '.' && At(b, Square(3, 1)) == 'p'
    ensures Ray(b, RookD4, Square(3, 3), Dir(0, -1), true) == RookNorth
  {
  }

  lemma RookSouthRay(b: Grid)
    requires At(b, Square(3, 5)) == '.' && At(b, Square(3, 6)) == '.' && At(b, Square(3, 7)) == '.'
    ensures Ray(b, RookD4, Square(3, 5), Dir(0, 1), true) == RookSouth
  {
  }

  /** The squares the rook's rays visit. */
  ghost predicate RookLines(b: Grid) {
    && At(b, Square(3, 4)) == 'R'
    && At(b, Square(0, 4)) == '.' && At(b, Square(1, 4)) == '.' && At(b, Square(2, 4)) == '.'
    && At(b, Square(4, 4)) == '.' && At(b, Square(5, 4)) == '.' && At(b, Square(6, 4)) == '.' && At(b, Square(7, 4)) == '.'
    && At(b, Square(3, 3)) == '.' && At(b, Square(3, 2)) == '.' && At(b, Square(3, 1)) == 'p'
    && At(b, Square(3, 5)) == '.' && At(b, Square(3, 6)) == '.' && At(b, Square(3, 7)) == '.'
  }

  lemma RookBoardLines(b: Grid)
    requires IsRookBoard(b)
    ensures RookLines(b)
  {
  }

  lemma RookDispatch(b: Grid)
    requires RookLines(b)
    ensures MovesFrom(b, RookD4, true) == RookWest + RookEast + RookNorth + RookSouth
  {
    MovesFromRook(b, RookD4, true);
    RookRays(b);
  }

  lemma RookRays(b: Grid)
    requires RookLines(b)
    ensures Rays(b, RookD4, true, Straights) == RookWest + RookEast + RookNorth + RookSouth
  {
    RookWestRay(b);
    RookEastRay(b);
    RookNorthRay(b);
    RookSouthRay(b);
    RookCombine(b);
  }

  /** The four rays put together in the order of the straight-line table. */
  lemma RookCombine(b: Grid)
    requires Ray(b, RookD4, Square(2, 4), Dir(-1, 0), true) == RookWest
    requires Ray(b, RookD4, Square(4, 4), Dir(1, 0), true) == RookEast
    requires Ray(b, RookD4, Square(3, 3), Dir(0, -1), true) == RookNorth
    requires Ray(b, RookD4, Square(3, 5), Dir(0, 1), true) == RookSouth
    ensures Rays(b, RookD4, true, Straights) == RookWest + RookEast + RookNorth + RookSouth
  {
    StraightRays(b, RookD4, true);
  }

  /**
    A rook on d4 with a black pawn on d7 has thirteen moves: three squares
    toward the a-file, four toward the h-file, up the d-file to d6 and the
    capture on d7, and down to d1.
   */
  lemma RookScan(b: Grid)
    requires IsRookBoard(b)
    ensures Generate(b, true) == RookWest + RookEast + RookNorth + RookSouth
  {
    LoneMover(b, true, 4, 3);
    RookBoardLines(b);
    RookDispatch(b);
  }

  lemma RookGridIsRookBoard()
    ensures IsRookBoard(RookGrid)
  {
    forall s | OnBoard(s)
      ensures At(RookGrid, s) == if s == Square(3, 4) then 'R' else if s == Square(3, 1) then 'p' else '.'
    {
      RookGridCells(s);
    }
  }

  /** Of the rook's thirteen moves exactly one, the tenth (d4-d7), is a capture. */
  lemma RookScenario()
    ensures Generate(RookGrid, true) == RookWest + RookEast + RookNorth + RookSouth
    ensures |Generate(RookGrid, true)| == 13
    ensures forall k :: 0 <= k < 13 ==>
      (IsCapture(RookGrid, Generate(RookGrid, true)[k], true) <==> k == 9)
  {
    RookGridIsRookBoard();
    RookScan(RookGrid);
  }

  // ---------------------------------------------------------------------------
  // Two pawns in contact
  // ---------------------------------------------------------------------------

  /** White pawn on e4, black pawn on d5, every other square empty. */
  ghost predicate IsPawnBoard(b: Grid) {
    forall s :: OnBoard(s) ==>
      At(b, s) == if s == Square(4, 4) then 'P' else if s == Square(3, 3) then 'p' else '.'
  }

  /** The same board as 64 cells: e4 is cell 4 * 8 + 4, d5 is cell 3 * 8 + 3. */
  const PawnGrid: Grid := seq(64, i => if i == 36 then 'P' else if i == 27 then 'p' else '.')

  lemma PawnGridIsPawnBoard()
    ensures IsPawnBoard(PawnGrid)
  {
    forall s | OnBoard(s)
      ensures At(PawnGrid, s) == if s == Square(4, 4) then 'P' else if s == Square(3, 3) then 'p' else '.'
    {
    }
  }

  /**
    With white to move the e4 pawn advances to e5 and captures on d5; it
    does not move diagonally onto the empty f5. With black to move the d5
    pawn advances to d4 and captures on e4.
   */
  lemma PawnScenario()
    ensures Generate(PawnGrid, true) == [Move(Square(4, 4), Square(4, 3)), Move(Square(4, 4), Square(3, 3))]
    ensures Generate(PawnGrid, false) == [Move(Square(3, 3), Square(3, 4)), Move(Square(3, 3), Square(4, 4))]
  {
    PawnGridIsPawnBoard();
    LoneMover(PawnGrid, true, 4, 4);
    LoneMover(PawnGrid, false, 3, 3);
    PawnPair(PawnGrid);
  }

  lemma PawnPair(b: Grid)
    requires IsPawnBoard(b)
    ensures MovesFrom(b, Square(4, 4), true) == [Move(Square(4, 4), Square(4, 3)), Move(Square(4, 4), Square(3, 3))]
    ensures MovesFrom(b, Square(3, 3), false) == [Move(Square(3, 3), Square(3, 4)), Move(Square(3, 3), Square(4, 4))]
  {
    assert At(b, Square(4, 4)) == 'P' && At(b, Square(3, 3)) == 'p';
    assert At(b, Square(4, 3)) == '.' && At(b, Square(5, 3)) == '.';
    assert At(b, Square(3, 4)) == '.' && At(b, Square(2, 4)) == '.';
    assert PawnCaptureColumns[..1] == [-1];
    assert [-1][..0] == [];
    assert PawnCaptures(b, Square(4, 4), true, [-1]) == [Move(Square(4, 4), Square(3, 3))];
    assert PawnCaptures(b, Square(4, 4), true, PawnCaptureColumns) == [Move(Square(4, 4), Square(3, 3))];
    assert PawnCaptures(b, Square(3, 3), false, [-1]) == [];
    assert PawnCaptures(b, Square(3, 3), false, PawnCaptureColumns) == [Move(Square(3, 3), Square(4, 4))];
  }
}
