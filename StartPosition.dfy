/**
  The default position main.py falls back to when it is given no FEN: what
  turnIntoDict decodes from it, and the whole move list findPossibleMoves
  produces for it.
 */
module StartPosition {
  import opened Board
  import opened Fen
  import opened MoveGen

  /** The eight rank segments and the five further fields of the default position. */
  const BlackPieces: string := "rnbqkbnr"
  const BlackPawns: string := "pppppppp"
  const EmptyRun: string := "8"
  const WhitePawns: string := "PPPPPPPP"
  const WhitePieces: string := "RNBQKBNR"
  const StartSegments: seq<string> :=
    [BlackPieces, BlackPawns, EmptyRun, EmptyRun, EmptyRun, EmptyRun, WhitePawns, WhitePieces]
  const StartFields: seq<string> := ["w", "KQkq", "-", "0", "1"]
  /**
    The default position main.py uses when no FEN is given, written as its
    eight rank segments joined by '/' and its five further fields joined by
    ' '; StartFenLiteral shows it is the literal text of the source.
   */
  const StartFen: string := Join([Join(StartSegments, '/')] + StartFields, ' ')

  /** The default FEN is the source's literal text. */
  lemma StartFenLiteral()
    ensures StartFen == "rnbqkbnr/pppppppp/8/8/8/8/PPPPPPPP/RNBQKBNR w KQkq - 0 1"
  {
    var placement := Join(StartSegments, '/');
    assert placement == "rnbqkbnr/pppppppp/8/8/8/8/PPPPPPPP/RNBQKBNR" by {
      var front, back := StartSegments[..4], StartSegments[4..];
      assert StartSegments == front + back;
      JoinAppend(front, back, '/');
      FrontText(front);
      BackText(back);
      PlacementHalves();
    }
    JoinCons(placement, StartFields, ' ');
    FieldsText(StartFields);
    FenHalves();
  }

  lemma PlacementHalves()
    ensures "rnbqkbnr/pppppppp/8/8" + ['/'] + "8/8/PPPPPPPP/RNBQKBNR" == "rnbqkbnr/pppppppp/8/8/8/8/PPPPPPPP/RNBQKBNR"
  {
  }

  lemma FenHalves()
    ensures "rnbqkbnr/pppppppp/8/8/8/8/PPPPPPPP/RNBQKBNR" + [' '] + "w KQkq - 0 1"
      == "rnbqkbnr/pppppppp/8/8/8/8/PPPPPPPP/RNBQKBNR w KQkq - 0 1"
  {
  }

  /** Ranks 8 to 5 of the default FEN. */
  lemma FrontText(front: seq<string>)
    requires front == [BlackPieces, BlackPawns, EmptyRun, EmptyRun]
    ensures Join(front, '/') == "rnbqkbnr/pppppppp/8/8"
  {
    JoinFour(front[0], front[1], front[2], front[3], '/');
    assert front[0] == "rnbqkbnr";
    assert "rnbqkbnr" + ['/'] == "rnbqkbnr/";
    assert "rnbqkbnr/" + front[1] == "rnbqkbnr/pppppppp";
    assert "rnbqkbnr/pppppppp" + ['/'] == "rnbqkbnr/pppppppp/";
    assert "rnbqkbnr/pppppppp/" + front[2] == "rnbqkbnr/pppppppp/8";
    assert "rnbqkbnr/pppppppp/8" + ['/'] == "rnbqkbnr/pppppppp/8/";
    assert "rnbqkbnr/pppppppp/8/" + front[3] == "rnbqkbnr/pppppppp/8/8";
  }

  /** Ranks 4 to 1 of the default FEN. */
  lemma BackText(back: seq<string>)
    requires back == [EmptyRun, EmptyRun, WhitePawns, WhitePieces]
    ensures Join(back, '/') == "8/8/PPPPPPPP/RNBQKBNR"
  {
    JoinFour(back[0], back[1], back[2], back[3], '/');
    assert back[0] == "8";
    assert "8" + ['/'] == "8/";
    assert "8/" + back[1] == "8/8";
    assert "8/8" + ['/'] == "8/8/";
    assert "8/8/" + back[2] == "8/8/PPPPPPPP";
    assert "8/8/PPPPPPPP" + ['/'] == "8/8/PPPPPPPP/";
    assert "8/8/PPPPPPPP/" + back[3] == "8/8/PPPPPPPP/RNBQKBNR";
  }

  /** The five fields after the placement in the default FEN. */
  lemma FieldsText(fields: seq<string>)
    requires fields == ["w", "KQkq", "-", "0", "1"]
    ensures Join(fields, ' ') == "w KQkq - 0 1"
  {
    var xs := fields[1..];
    JoinCons(fields[0], xs, ' ');
    assert [fields[0]] + xs == fields;
    JoinFour(xs[0], xs[1], xs[2], xs[3], ' ');
    assert [xs[0], xs[1], xs[2], xs[3]] == xs;
    assert "w" + [' '] + ("KQkq" + [' '] + "-" + [' '] + "0" + [' '] + "1") == "w KQkq - 0 1";
  }

  /** Four pieces joined with a separator. */
  lemma JoinFour(a: string, b: string, c: string, d: string, sep: char)
    ensures Join([a, b, c, d], sep) == a + [sep] + b + [sep] + c + [sep] + d
  {
    var xs := [a, b, c, d];
    JoinFrom(xs, 0, sep);
    JoinFrom(xs, 1, sep);
    JoinFrom(xs, 2, sep);
    assert xs[3..] == [d];
    assert xs[0..] == xs;
  }

  /** Joining two non-empty lists puts one separator between their joins. */
  lemma {:induction false} JoinAppend(xs: seq<string>, ys: seq<string>, sep: char)
    requires |xs| >= 1 && |ys| >= 1
    ensures Join(xs + ys, sep) == Join(xs, sep) + [sep] + Join(ys, sep)
    decreases |xs|
  {
    if |xs| == 1 {
      assert xs + ys == [xs[0]] + ys;
      JoinCons(xs[0], ys, sep);
    } else {
      assert xs + ys == [xs[0]] + (xs[1..] + ys);
      JoinCons(xs[0], xs[1..] + ys, sep);
      JoinAppend(xs[1..], ys, sep);
      JoinCons(xs[0], xs[1..], sep);
      assert xs == [xs[0]] + xs[1..];
    }
  }

  /** Join unfolded at piece k of a list. */
  lemma JoinFrom(xs: seq<string>, k: nat, sep: char)
    requires k < |xs| - 1
    ensures Join(xs[k..], sep) == xs[k] + [sep] + Join(xs[k + 1..], sep)
  {
    assert xs[k..][1..] == xs[k + 1..];
  }

  const EmptyRank: string := "........"
  const StartRanks: seq<string> :=
    [BlackPieces, BlackPawns, EmptyRank, EmptyRank, EmptyRank, EmptyRank, WhitePawns, WhitePieces]
  const StartGrid: Grid :=
    BlackPieces + BlackPawns + EmptyRank + EmptyRank + EmptyRank + EmptyRank + WhitePawns + WhitePieces

  lemma BlackPiecesCells() ensures Expand(BlackPieces) == BlackPieces { ExpandNoDigits(BlackPieces); }
  lemma BlackPawnsCells() ensures Expand(BlackPawns) == BlackPawns { ExpandNoDigits(BlackPawns); }
  lemma WhitePawnsCells() ensures Expand(WhitePawns) == WhitePawns { ExpandNoDigits(WhitePawns); }
  lemma WhitePiecesCells() ensures Expand(WhitePieces) == WhitePieces { ExpandNoDigits(WhitePieces); }
  lemma EmptyRunCells() ensures Expand(EmptyRun) == EmptyRank {
    assert Expand(EmptyRun) == CellsOf('8') + Expand([]);
  }

  // ---------------------------------------------------------------------------
  // Decoding the default FEN
  // ---------------------------------------------------------------------------

  /** The strings of xs one after another. */
  function Concat(xs: seq<string>): string {
    if xs == [] then [] else Concat(xs[..|xs| - 1]) + xs[|xs| - 1]
  }

  /** The first n segments each expand to exactly the corresponding eight-cell rank. */
  ghost predicate ExactRanks(data: seq<string>, ranks: seq<string>, n: nat)
    requires n <= |ranks| && n <= |data|
  {
    n == 0 || (ExactRanks(data, ranks, n - 1) && |ranks[n - 1]| == 8 && Expand(data[n - 1]) == ranks[n - 1])
  }

  /** The placement of segments that each stand for exactly eight cells is their concatenation. */
  lemma {:induction false} PlacementOfExact(data: seq<string>, ranks: seq<string>, n: nat)
    requires n <= |ranks| && n <= |data|
    requires ExactRanks(data, ranks, n)
    ensures RanksExpand(data, n)
    ensures Placement(data, n) == Concat(ranks[..n])
  {
    if n > 0 {
      PlacementOfExact(data, ranks, n - 1);
      assert ranks[..n][..n - 1] == ranks[..n - 1];
      assert ranks[n - 1][..8] == ranks[n - 1];
    }
  }

  lemma StartConcat(ranks: seq<string>)
    requires ranks == StartRanks
    ensures Concat(ranks) == StartGrid
  {
    assert ranks[..1][..0] == [];
    assert Concat(ranks[..1]) == BlackPieces;
    assert ranks[..2][..1] == ranks[..1];
    assert Concat(ranks[..2]) == BlackPieces + BlackPawns;
    assert ranks[..3][..2] == ranks[..2];
    assert Concat(ranks[..3]) == BlackPieces + BlackPawns + EmptyRank;
    assert ranks[..4][..3] == ranks[..3];
    assert Concat(ranks[..4]) == BlackPieces + BlackPawns + EmptyRank + EmptyRank;
    assert ranks[..5][..4] == ranks[..4];
    assert Concat(ranks[..5]) == BlackPieces + BlackPawns + EmptyRank + EmptyRank + EmptyRank;
    assert ranks[..6][..5] == ranks[..5];
    assert Concat(ranks[..6]) == BlackPieces + BlackPawns + EmptyRank + EmptyRank + EmptyRank + EmptyRank;
    assert ranks[..7][..6] == ranks[..6];
    assert Concat(ranks[..7]) == BlackPieces + BlackPawns + EmptyRank + EmptyRank + EmptyRank + EmptyRank + WhitePawns;
    assert ranks[..7] == ranks[..|ranks| - 1];
  }

  /** The eight segments of the default placement, one by one. */
  lemma StartSegmentsAt(data: seq<string>)
    requires |data| >= 8 && data[..8] == StartSegments
    ensures data[0] == BlackPieces && data[1] == BlackPawns
    ensures data[2] == EmptyRun && data[3] == EmptyRun && data[4] == EmptyRun && data[5] == EmptyRun
    ensures data[6] == WhitePawns && data[7] == WhitePieces
  {
    assert forall k :: 0 <= k < 8 ==> data[k] == StartSegments[k];
  }

  /** Each default segment stands for exactly its rank of the start grid. */
  lemma StartExact(data: seq<string>, ranks: seq<string>)
    requires |data| >= 8 && ranks == StartRanks
    requires data[0] == BlackPieces && data[1] == BlackPawns
    requires data[2] == EmptyRun && data[3] == EmptyRun && data[4] == EmptyRun && data[5] == EmptyRun
    requires data[6] == WhitePawns && data[7] == WhitePieces
    ensures ExactRanks(data, ranks, 8)
  {
    forall k | 0 <= k < 8
      ensures |ranks[k]| == 8 && Expand(data[k]) == ranks[k]
    {
      if k == 0 {
        BlackPiecesCells();
      } else if k == 1 {
        BlackPawnsCells();
      } else if k < 6 {
        EmptyRunCells();
      } else if k == 6 {
        WhitePawnsCells();
      } else {
        WhitePiecesCells();
      }
    }
    ExactRanksFrom(data, ranks, 8);
  }

  lemma {:induction false} ExactRanksFrom(data: seq<string>, ranks: seq<string>, n: nat)
    requires n <= |ranks| && n <= |data|
    requires forall k :: 0 <= k < n ==> |ranks[k]| == 8 && Expand(data[k]) == ranks[k]
    ensures ExactRanks(data, ranks, n)
  {
    if n > 0 {
      ExactRanksFrom(data, ranks, n - 1);
    }
  }

  lemma StartPlacement(data: seq<string>, ranks: seq<string>, n: nat)
    requires n == 8 && |data| >= n && data[..n] == StartSegments && ranks == StartRanks
    ensures RanksExpand(data, n)
    ensures Placement(data, n) == StartGrid
  {
    assert RanksExpand(data, n) && Placement(data, n) == Concat(ranks[..n]) by {
      StartSegmentsAt(data);
      StartExact(data, ranks);
      PlacementOfExact(data, ranks, n);
    }
    assert Concat(ranks[..n]) == StartGrid by {
      assert ranks[..n] == ranks;
      StartConcat(ranks);
    }
  }

  /**
    The default FEN decodes to the standard start: black's pieces on ranks 8
    and 7, four empty ranks, white's pawns on rank 2 and pieces on rank 1,
    white to move, castling "KQkq", no en-passant square, clocks "0" and "1".
   */
  lemma DecodeStart()
    ensures Decode(StartFen).Some?
    ensures Decode(StartFen).value.squares == StartGrid
    ensures Decode(StartFen).value.turn == "w"
    ensures Decode(StartFen).value.castling == "KQkq"
    ensures Decode(StartFen).value.enpassant == "-"
    ensures Decode(StartFen).value.halfmoves == "0"
    ensures Decode(StartFen).value.fullmoves == "1"
  {
    DecodeJoined(StartSegments, StartFields);
  }

  /** DecodeStart for the default segments and fields passed as values. */
  lemma DecodeJoined(segments: seq<string>, fields: seq<string>)
    requires segments == StartSegments && fields == StartFields
    ensures var d := Decode(Join([Join(segments, '/')] + fields, ' '));
      && d.Some? && d.value.squares == StartGrid
      && d.value.turn == "w" && d.value.castling == "KQkq" && d.value.enpassant == "-"
      && d.value.halfmoves == "0" && d.value.fullmoves == "1"
  {
    var fen := Join([Join(segments, '/')] + fields, ' ');
    var data := Fields(fen);
    assert data == segments + fields by {
      StartNoSeparators(segments, fields);
      FieldsOfJoin(segments, fields);
    }
    assert |data| == 13 && data[8] == "w" && data[9] == "KQkq" && data[10] == "-" && data[11] == "0" && data[12] == "1" by {
      assert forall k :: 0 <= k < 5 ==> data[8 + k] == fields[k];
    }
    assert RanksExpand(data, 8) && Placement(data, 8) == StartGrid by {
      assert data[..8] == StartSegments;
      StartPlacement(data, StartRanks, 8);
    }
  }

  lemma StartNoSeparators(segments: seq<string>, fields: seq<string>)
    requires segments == StartSegments && fields == StartFields
    ensures NoSeparator(segments, '/') && NoSeparator(segments, ' ') && NoSeparator(fields, ' ')
  {
  }

  // ---------------------------------------------------------------------------
  // Moves from the default position
  // ---------------------------------------------------------------------------

  /** A board laid out as the standard start, cell by cell. */
  ghost predicate IsStartBoard(b: Grid) {
    forall s :: OnBoard(s) ==> At(b, s) == StartCell(s)
  }

  function StartCell(s: Square): char
    requires OnBoard(s)
  {
    if s.row == 0 then BlackPieces[s.col]
    else if s.row == 1 then 'p'
    else if s.row <= 5 then '.'
    else if s.row == 6 then 'P'
    else WhitePieces[s.col]
  }

  /** Each white pawn has exactly its single step: the squares ahead and diagonally ahead are empty. */
  lemma StartPawn(b: Grid, c: int)
    requires IsStartBoard(b) && 0 <= c < 8
    ensures MovesFrom(b, Square(c, 6), true) == [Move(Square(c, 6), Square(c, 5))]
  {
    var s := Square(c, 6);
    assert At(b, s) == 'P';
    assert At(b, Square(c, 5)) == '.';
    assert PawnCaptureColumns[..1] == [-1];
    assert [-1][..0] == [];
    if c > 0 { assert At(b, Square(c - 1, 5)) == '.'; }
    if c < 7 { assert At(b, Square(c + 1, 5)) == '.'; }
    assert PawnCaptures(b, s, true, [-1]) == [];
    assert PawnCaptures(b, s, true, PawnCaptureColumns) == [];
  }

  lemma {:induction false} StartPawnRank(b: Grid, n: nat)
    requires IsStartBoard(b) && n <= 8
    ensures RankMoves(b, true, 6, n) == seq(n, c => Move(Square(c, 6), Square(c, 5)))
  {
    if n > 0 {
      var earlier, here := RankMoves(b, true, 6, n - 1), MovesFrom(b, Square(n - 1, 6), true);
      assert RankMoves(b, true, 6, n) == earlier + here;
      StartPawnRank(b, n - 1);
      StartPawn(b, n - 1);
      PawnStepsSnoc(n);
    }
  }

  lemma PawnStepsSnoc(n: nat)
    requires 0 < n
    ensures seq(n, c => Move(Square(c, 6), Square(c, 5)))
      == seq(n - 1, c => Move(Square(c, 6), Square(c, 5))) + [Move(Square(n - 1, 6), Square(n - 1, 5))]
  {
  }

  /** Every neighbour of a white back-rank square is off the board or holds a white piece. */
  lemma StartBackRankHemmed(b: Grid, c: int, d: Dir)
    requires IsStartBoard(b) && 0 <= c < 8 && IsDirection(d)
    ensures !OnBoard(Step(Square(c, 7), d)) || IsBlocker(At(b, Step(Square(c, 7), d)), true)
  {
    var t := Step(Square(c, 7), d);
    if OnBoard(t) {
      assert At(b, t) == StartCell(t);
      assert t.row == 7 ==> At(b, t) in WhitePieces;
    }
  }

  /** A white knight on b1 or g1 reaches the two empty squares of rank 3 in front of it. */
  lemma StartKnight(b: Grid, c: int)
    requires IsStartBoard(b) && (c == 1 || c == 6)
    ensures MovesFrom(b, Square(c, 7), true) == [Move(Square(c, 7), Square(c - 1, 5)), Move(Square(c, 7), Square(c + 1, 5))]
  {
    var s := Square(c, 7);
    assert At(b, s) == 'N';
    var j := KnightJumps;
    assert j[..1][..0] == [];
    assert j[..2][..1] == j[..1];
    assert j[..3][..2] == j[..2];
    assert j[..4][..3] == j[..3];
    assert j[..5][..4] == j[..4];
    assert j[..6][..5] == j[..5];
    assert j[..7][..6] == j[..6];
    assert j[..8][..7] == j[..7];
    assert j[..8] == j;
    assert At(b, Square(c - 1, 5)) == '.' && At(b, Square(c + 1, 5)) == '.';
    var m1, m2 := Move(s, Square(c - 1, 5)), Move(s, Square(c + 1, 5));
    assert !OnBoard(Square(c + 2, 6)) || At(b, Square(c + 2, 6)) == 'P';
    assert !OnBoard(Square(c - 2, 6)) || At(b, Square(c - 2, 6)) == 'P';
    assert Leaps(b, s, true, j[..1]) == [];
    assert Leaps(b, s, true, j[..2]) == [];
    assert Leaps(b, s, true, j[..3]) == [m1];
    assert Leaps(b, s, true, j[..4]) == [m1];
    assert Leaps(b, s, true, j[..5]) == [m1, m2];
    assert Leaps(b, s, true, j[..6]) == [m1, m2];
    assert Leaps(b, s, true, j[..7]) == [m1, m2];
  }

  /** The rooks, bishops, queen and king of the white back rank cannot move. */
  lemma StartBackPiece(b: Grid, c: int)
    requires IsStartBoard(b) && 0 <= c < 8 && c != 1 && c != 6
    ensures MovesFrom(b, Square(c, 7), true) == []
  {
    assert At(b, Square(c, 7)) == WhitePieces[c];
    forall d | IsDirection(d)
      ensures !OnBoard(Step(Square(c, 7), d)) || IsBlocker(At(b, Step(Square(c, 7), d)), true)
    {
      StartBackRankHemmed(b, c, d);
    }
    HemmedPieceIsStuck(b, Square(c, 7), true);
  }

  const StartPawnMoves: seq<Move> := seq(8, c => Move(Square(c, 6), Square(c, 5)))
  const StartKnightMoves: seq<Move> :=
    [Move(Square(1, 7), Square(0, 5)), Move(Square(1, 7), Square(2, 5)),
     Move(Square(6, 7), Square(5, 5)), Move(Square(6, 7), Square(7, 5))]

  lemma StartBackRank(b: Grid)
    requires IsStartBoard(b)
    ensures RankMoves(b, true, 7, 8) == StartKnightMoves
  {
    StartBackPiece(b, 0);
    StartKnight(b, 1);
    StartBackPiece(b, 2);
    StartBackPiece(b, 3);
    StartBackPiece(b, 4);
    StartBackPiece(b, 5);
    StartKnight(b, 6);
    StartBackPiece(b, 7);
    assert RankMoves(b, true, 7, 1) == [];
    assert RankMoves(b, true, 7, 2) == StartKnightMoves[..2];
    assert RankMoves(b, true, 7, 3) == StartKnightMoves[..2];
    assert RankMoves(b, true, 7, 4) == StartKnightMoves[..2];
    assert RankMoves(b, true, 7, 5) == StartKnightMoves[..2];
    assert RankMoves(b, true, 7, 6) == StartKnightMoves[..2];
    assert RankMoves(b, true, 7, 7) == StartKnightMoves;
  }

  lemma StartGenerate(b: Grid)
    requires IsStartBoard(b)
    ensures Generate(b, true) == StartPawnMoves + StartKnightMoves
  {
    forall r | 0 <= r < 6
      ensures IdleCells(b, true, r, 0, 8)
    {
      forall c | 0 <= c < 8
        ensures At(b, Square(c, r)) == '.' || IsEnemy(At(b, Square(c, r)), true)
      {
        assert At(b, Square(c, r)) == StartCell(Square(c, r));
        assert r == 0 ==> BlackPieces[c] in BlackPieces;
      }
    }
    ScanMovesIdle(b, true, 0, 6);
    StartPawnRank(b, 8);
    StartBackRank(b);
    assert ScanMoves(b, true, 7) == StartPawnMoves;
  }

  /** The decoded default board is laid out as the standard start. */
  lemma StartGridIsStart()
    ensures IsStartBoard(StartGrid)
  {
    forall s | OnBoard(s)
      ensures At(StartGrid, s) == StartCell(s)
    {
      StartGridCells(s);
    }
  }

  lemma StartGridCells(s: Square)
    requires OnBoard(s)
    ensures At(StartGrid, s) == StartCell(s)
  {
    if s.row == 0 {
      StartGridBlackPieces(s.col);
    } else if s.row == 1 {
      StartGridBlackPawns(s.col);
    } else if s.row <= 5 {
      StartGridEmpty(s.row, s.col);
    } else if s.row == 6 {
      StartGridWhitePawns(s.col);
    } else {
      StartGridWhitePieces(s.col);
    }
  }

  lemma StartGridBlackPieces(c: int)
    requires 0 <= c < 8
    ensures StartGrid[c] == BlackPieces[c]
  {
  }

  lemma StartGridBlackPawns(c: int)
    requires 0 <= c < 8
    ensures StartGrid[8 + c] == 'p'
  {
  }

  lemma StartGridEmpty(r: int, c: int)
    requires 2 <= r <= 5 && 0 <= c < 8
    ensures StartGrid[r * 8 + c] == '.'
  {
  }

  lemma StartGridWhitePawns(c: int)
    requires 0 <= c < 8
    ensures StartGrid[48 + c] == 'P'
  {
  }

  lemma StartGridWhitePieces(c: int)
    requires 0 <= c < 8
    ensures StartGrid[56 + c] == WhitePieces[c]
  {
  }

  /**
    From the default position white has twelve moves: the eight pawns step
    one square (a2-a3 .. h2-h3), then the knights jump (b1-a3, b1-c3, g1-f3,
    g1-h3). There is no two-square pawn advance.
   */
  lemma StartPositionMoves()
    ensures Generate(StartGrid, true) == StartPawnMoves + StartKnightMoves
    ensures |Generate(StartGrid, true)| == 12
  {
    StartGridIsStart();
    StartGenerate(StartGrid);
  }

  /**
    The run main.py performs when no FEN is given: decoding the default FEN
    and generating for the side it names (white) gives the twelve moves.
   */
  lemma DefaultRun()
    ensures Decode(StartFen).Some?
    ensures var d := Decode(StartFen).value;
      Generate(d.squares, d.turn == "w") == StartPawnMoves + StartKnightMoves
  {
    DecodeStart();
    StartPositionMoves();
  }
}
