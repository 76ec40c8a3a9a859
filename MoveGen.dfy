/**
  Pseudo-legal move generation (main.py, findPossibleMoves and the
  per-piece generators).

  Each generator of the source is a method that builds its move list with
  loops, and is proved equal to a recursive function over the same tables
  (Ray, Rays, Leaps, PawnMovesOf, Generate). The properties the generator
  promises are lemmas about those functions.
 */
module MoveGen {
  import opened Board

  /** Offsets of the source's tables, as (column, row) changes. */
  const KnightJumps: seq<Dir> :=
    [Dir(-2, -1), Dir(-2, 1), Dir(-1, -2), Dir(-1, 2), Dir(1, -2), Dir(1, 2), Dir(2, -1), Dir(2, 1)]
  const KingSteps: seq<Dir> :=
    [Dir(-1, -1), Dir(-1, 0), Dir(-1, 1), Dir(0, -1), Dir(0, 1), Dir(1, -1), Dir(1, 0), Dir(1, 1)]
  const Diagonals: seq<Dir> := [Dir(-1, -1), Dir(-1, 1), Dir(1, -1), Dir(1, 1)]
  const Straights: seq<Dir> := [Dir(-1, 0), Dir(1, 0), Dir(0, -1), Dir(0, 1)]

  /** A unit step of a sliding piece: each coordinate changes by at most one, not both by zero. */
  predicate IsDirection(d: Dir) {
    -1 <= d.dc <= 1 && -1 <= d.dr <= 1 && (d.dc != 0 || d.dr != 0)
  }

  predicate AllDirections(dirs: seq<Dir>) {
    forall k :: 0 <= k < |dirs| ==> IsDirection(dirs[k])
  }

  /** How far a coordinate has advanced along a direction component. */
  function Progress(c: int, d: int): int {
    if d > 0 then c else if d < 0 then -c else 0
  }

  /** The termination measure of a ray: at least 2 on the board, one less per step. */
  function Reach(s: Square, d: Dir): int {
    16 - Progress(s.col, d.dc) - Progress(s.row, d.dr)
  }

  lemma ReachStep(s: Square, d: Dir)
    requires IsDirection(d)
    ensures Reach(Step(s, d), d) < Reach(s, d)
    ensures OnBoard(s) ==> Reach(s, d) >= 2
  {
  }

  /** The square k steps from s along d. */
  function StepN(s: Square, d: Dir, k: nat): Square
    decreases k
  {
    if k == 0 then s else StepN(Step(s, d), d, k - 1)
  }

  // ---------------------------------------------------------------------------
  // Sliding pieces (get_diagonal_moves, get_straight_moves)
  // ---------------------------------------------------------------------------

  /** The moves from `from` along d, starting at `cur`: empty squares, then at most one enemy. */
  function Ray(b: Grid, from: Square, cur: Square, d: Dir, white: bool): seq<Move>
    requires IsDirection(d)
    decreases Reach(cur, d)
  {
    if !OnBoard(cur) then []
    else if At(b, cur) == '.' then
      ReachStep(cur, d);
      [Move(from, cur)] + Ray(b, from, Step(cur, d), d, white)
    else if IsEnemy(At(b, cur), white) then [Move(from, cur)]
    else []
  }

  /** The rays of a direction table, concatenated in table order. */
  function Rays(b: Grid, from: Square, white: bool, dirs: seq<Dir>): seq<Move>
    requires AllDirections(dirs)
  {
    if dirs == [] then []
    else
      var d := dirs[|dirs| - 1];
      Rays(b, from, white, dirs[..|dirs| - 1]) + Ray(b, from, Step(from, d), d, white)
  }

  /** The i-th move of a ray goes to the square i steps along the direction. */
  lemma {:induction false} RayIndex(b: Grid, from: Square, cur: Square, d: Dir, white: bool)
    requires IsDirection(d)
    ensures var r := Ray(b, from, cur, d, white);
      forall i :: 0 <= i < |r| ==> OnBoard(StepN(cur, d, i)) && r[i] == Move(from, StepN(cur, d, i))
    decreases Reach(cur, d)
  {
    if OnBoard(cur) && At(b, cur) == '.' {
      var next := Step(cur, d);
      ReachStep(cur, d);
      RayIndex(b, from, next, d, white);
      var r, r' := Ray(b, from, cur, d, white), Ray(b, from, next, d, white);
      assert r == [Move(from, cur)] + r';
      forall i | 0 <= i < |r|
        ensures OnBoard(StepN(cur, d, i)) && r[i] == Move(from, StepN(cur, d, i))
      {
        if i > 0 {
          assert r[i] == r'[i - 1];
          assert StepN(cur, d, i) == StepN(next, d, i - 1);
        }
      }
    } else {
      assert StepN(cur, d, 0) == cur;
    }
  }

  /** The square of the i-th move of a ray is empty or an enemy, and empty unless it is the last. */
  lemma {:induction false} RayCell(b: Grid, from: Square, cur: Square, d: Dir, white: bool, i: nat)
    requires IsDirection(d) && i < |Ray(b, from, cur, d, white)|
    ensures OnBoard(StepN(cur, d, i)) && IsTarget(At(b, StepN(cur, d, i)), white)
    ensures i < |Ray(b, from, cur, d, white)| - 1 ==> At(b, StepN(cur, d, i)) == '.'
    decreases i
  {
    if i > 0 {
      ReachStep(cur, d);
      RayCell(b, from, Step(cur, d), d, white, i - 1);
    }
  }

  /** A ray ends on a capture, at the board edge, or in front of a blocker. */
  lemma {:induction false} RayEnd(b: Grid, from: Square, cur: Square, d: Dir, white: bool)
    requires IsDirection(d)
    ensures var r := Ray(b, from, cur, d, white);
      || (|r| > 0 && OnBoard(r[|r| - 1].to) && IsEnemy(At(b, r[|r| - 1].to), white))
      || !OnBoard(StepN(cur, d, |r|))
      || IsBlocker(At(b, StepN(cur, d, |r|)), white)
    decreases Reach(cur, d)
  {
    if OnBoard(cur) && At(b, cur) == '.' {
      var next := Step(cur, d);
      ReachStep(cur, d);
      RayEnd(b, from, next, d, white);
      var r, r' := Ray(b, from, cur, d, white), Ray(b, from, next, d, white);
      assert r == [Move(from, cur)] + r';
      assert StepN(cur, d, |r|) == StepN(next, d, |r'|);
      if |r'| > 0 {
        assert r[|r| - 1] == r'[|r'| - 1];
      }
    }
  }

  /**
    The shape of one ray: its i-th move goes to the square i steps along the
    direction; all but the last are empty squares; the last is empty or an
    enemy; and the ray ends because it captured, left the board, or met a
    blocker, so nothing beyond the first occupied square appears.
   */
  lemma RayShape(b: Grid, from: Square, cur: Square, d: Dir, white: bool)
    requires IsDirection(d)
    ensures var r := Ray(b, from, cur, d, white);
      forall i :: 0 <= i < |r| ==> OnBoard(StepN(cur, d, i)) && r[i] == Move(from, StepN(cur, d, i))
    ensures var r := Ray(b, from, cur, d, white);
      forall i :: 0 <= i < |r| - 1 ==> OnBoard(StepN(cur, d, i)) && At(b, StepN(cur, d, i)) == '.'
    ensures var r := Ray(b, from, cur, d, white);
      |r| > 0 ==> OnBoard(StepN(cur, d, |r| - 1)) && IsTarget(At(b, StepN(cur, d, |r| - 1)), white)
    ensures var r := Ray(b, from, cur, d, white);
      || (|r| > 0 && OnBoard(r[|r| - 1].to) && IsEnemy(At(b, r[|r| - 1].to), white))
      || !OnBoard(StepN(cur, d, |r|))
      || IsBlocker(At(b, StepN(cur, d, |r|)), white)
  {
    var r := Ray(b, from, cur, d, white);
    RayIndex(b, from, cur, d, white);
    forall i | 0 <= i < |r|
      ensures IsTarget(At(b, StepN(cur, d, i)), white)
      ensures i < |r| - 1 ==> At(b, StepN(cur, d, i)) == '.'
    {
      RayCell(b, from, cur, d, white, i);
    }
    RayEnd(b, from, cur, d, white);
  }

  /** Every move of a ray starts at `from` and lands on an empty or enemy square. */
  lemma {:induction false} RaySound(b: Grid, from: Square, cur: Square, d: Dir, white: bool)
    requires IsDirection(d)
    ensures forall m :: m in Ray(b, from, cur, d, white) ==>
      m.from == from && OnBoard(m.to) && IsTarget(At(b, m.to), white)
    decreases Reach(cur, d)
  {
    if OnBoard(cur) && At(b, cur) == '.' {
      ReachStep(cur, d);
      RaySound(b, from, Step(cur, d), d, white);
    }
  }

  lemma {:induction false} RaysSound(b: Grid, from: Square, white: bool, dirs: seq<Dir>)
    requires AllDirections(dirs)
    ensures forall m :: m in Rays(b, from, white, dirs) ==>
      m.from == from && OnBoard(m.to) && IsTarget(At(b, m.to), white)
  {
    if dirs != [] {
      var d := dirs[|dirs| - 1];
      RaysSound(b, from, white, dirs[..|dirs| - 1]);
      RaySound(b, from, Step(from, d), d, white);
    }
  }

  /** Casting the rays of two tables one after the other is casting the rays of the joined table. */
  lemma {:induction false} RaysAppend(b: Grid, from: Square, white: bool, xs: seq<Dir>, ys: seq<Dir>)
    requires AllDirections(xs) && AllDirections(ys)
    ensures AllDirections(xs + ys)
    ensures Rays(b, from, white, xs + ys) == Rays(b, from, white, xs) + Rays(b, from, white, ys)
  {
    if ys != [] {
      var n := |ys| - 1;
      assert (xs + ys)[..|xs + ys| - 1] == xs + ys[..n];
      RaysAppend(b, from, white, xs, ys[..n]);
    } else {
      assert xs + ys == xs;
    }
  }

  /** The shared ray-casting loop of get_diagonal_moves and get_straight_moves. */
  method SlidingMoves(b: Grid, from: Square, white: bool, dirs: seq<Dir>) returns (moves: seq<Move>)
    requires AllDirections(dirs)
    ensures moves == Rays(b, from, white, dirs)
  {
    moves := [];
    for i := 0 to |dirs|
      invariant moves == Rays(b, from, white, dirs[..i])
    {
      var d := dirs[i];
      ghost var goal := Rays(b, from, white, dirs[..i + 1]);
      assert goal == moves + Ray(b, from, Step(from, d), d, white) by {
        assert dirs[..i + 1][..i] == dirs[..i];
      }
      var cur := Step(from, d);
      while OnBoard(cur)
        invariant moves + Ray(b, from, cur, d, white) == goal
        decreases Reach(cur, d)
      {
        ReachStep(cur, d);
        var target := At(b, cur);
        if target == '.' {
          assert Ray(b, from, cur, d, white) == [Move(from, cur)] + Ray(b, from, Step(cur, d), d, white);
          AppendAssoc(moves, [Move(from, cur)], Ray(b, from, Step(cur, d), d, white));
          moves := moves + [Move(from, cur)];
        } else if IsEnemy(target, white) {
          assert Ray(b, from, cur, d, white) == [Move(from, cur)];
          moves := moves + [Move(from, cur)];
          assert moves == goal;
          break;
        } else {
          assert Ray(b, from, cur, d, white) == [];
          assert moves == goal;
          break;
        }
        cur := Step(cur, d);
      }
    }
    assert dirs[..|dirs|] == dirs;
  }

  method DiagonalMoves(b: Grid, from: Square, white: bool) returns (moves: seq<Move>)
    ensures moves == Rays(b, from, white, Diagonals)
  {
    moves := SlidingMoves(b, from, white, Diagonals);
  }

  method StraightMoves(b: Grid, from: Square, white: bool) returns (moves: seq<Move>)
    ensures moves == Rays(b, from, white, Straights)
  {
    moves := SlidingMoves(b, from, white, Straights);
  }

  method BishopMoves(b: Grid, from: Square, white: bool) returns (moves: seq<Move>)
    ensures moves == Rays(b, from, white, Diagonals)
  {
    moves := DiagonalMoves(b, from, white);
  }

  method RookMoves(b: Grid, from: Square, white: bool) returns (moves: seq<Move>)
    ensures moves == Rays(b, from, white, Straights)
  {
    moves := StraightMoves(b, from, white);
  }

  /** Queen moves are the diagonal moves followed by the straight moves, i.e. the rays of both tables. */
  method QueenMoves(b: Grid, from: Square, white: bool) returns (moves: seq<Move>)
    ensures moves == Rays(b, from, white, Diagonals) + Rays(b, from, white, Straights)
    ensures moves == Rays(b, from, white, Diagonals + Straights)
  {
    var diagonal := DiagonalMoves(b, from, white);
    var straight := StraightMoves(b, from, white);
    moves := diagonal + straight;
    RaysAppend(b, from, white, Diagonals, Straights);
  }

  // ---------------------------------------------------------------------------
  // Knight and king (getKnightMoves, getKingMoves)
  // ---------------------------------------------------------------------------

  /** The single-step moves of an offset table, in table order. */
  function Leaps(b: Grid, from: Square, white: bool, offs: seq<Dir>): seq<Move>
  {
    if offs == [] then []
    else
      var t := Step(from, offs[|offs| - 1]);
      Leaps(b, from, white, offs[..|offs| - 1])
        + (if OnBoard(t) && IsTarget(At(b, t), white) then [Move(from, t)] else [])
  }

  /**
    A leap lands exactly on the on-board, empty-or-enemy squares the table
    reaches, one move per table entry at most.
   */
  lemma LeapsShape(b: Grid, from: Square, white: bool, offs: seq<Dir>)
    ensures var r := Leaps(b, from, white, offs);
      && |r| <= |offs|
      && (forall m :: m in r ==>
            m.from == from && OnBoard(m.to) && IsTarget(At(b, m.to), white)
            && Dir(m.to.col - from.col, m.to.row - from.row) in offs)
      && (forall k :: 0 <= k < |offs| && OnBoard(Step(from, offs[k])) && IsTarget(At(b, Step(from, offs[k])), white)
            ==> Move(from, Step(from, offs[k])) in r)
  {
    LeapsLength(b, from, white, offs);
    LeapsSound(b, from, white, offs);
    LeapsComplete(b, from, white, offs);
  }

  lemma {:induction false} LeapsLength(b: Grid, from: Square, white: bool, offs: seq<Dir>)
    ensures |Leaps(b, from, white, offs)| <= |offs|
  {
    if offs != [] {
      LeapsLength(b, from, white, offs[..|offs| - 1]);
    }
  }

  lemma {:induction false} LeapsSound(b: Grid, from: Square, white: bool, offs: seq<Dir>)
    ensures forall m :: m in Leaps(b, from, white, offs) ==>
      m.from == from && OnBoard(m.to) && IsTarget(At(b, m.to), white)
      && Dir(m.to.col - from.col, m.to.row - from.row) in offs
  {
    if offs != [] {
      var n := |offs| - 1;
      LeapsSound(b, from, white, offs[..n]);
      forall m | m in Leaps(b, from, white, offs)
        ensures Dir(m.to.col - from.col, m.to.row - from.row) in offs
      {
        if m in Leaps(b, from, white, offs[..n]) {
          var k :| 0 <= k < n && offs[..n][k] == Dir(m.to.col - from.col, m.to.row - from.row);
          assert offs[k] == offs[..n][k];
        } else {
          assert offs[n] == Dir(m.to.col - from.col, m.to.row - from.row);
        }
      }
    }
  }

  lemma {:induction false} LeapsComplete(b: Grid, from: Square, white: bool, offs: seq<Dir>)
    ensures forall k :: 0 <= k < |offs| && OnBoard(Step(from, offs[k])) && IsTarget(At(b, Step(from, offs[k])), white) ==>
      Move(from, Step(from, offs[k])) in Leaps(b, from, white, offs)
  {
    if offs != [] {
      var n := |offs| - 1;
      LeapsComplete(b, from, white, offs[..n]);
      var t := Step(from, offs[n]);
      var earlier := Leaps(b, from, white, offs[..n]);
      assert Leaps(b, from, white, offs)
        == earlier + (if OnBoard(t) && IsTarget(At(b, t), white) then [Move(from, t)] else []);
      forall k | 0 <= k < n && OnBoard(Step(from, offs[k])) && IsTarget(At(b, Step(from, offs[k])), white)
        ensures Move(from, Step(from, offs[k])) in earlier
      {
        assert offs[..n][k] == offs[k];
      }
    }
  }


  /** The shared offset loop of getKnightMoves and getKingMoves. */
  method JumpMoves(b: Grid, from: Square, white: bool, offs: seq<Dir>) returns (moves: seq<Move>)
    ensures moves == Leaps(b, from, white, offs)
  {
    moves := [];
    for i := 0 to |offs|
      invariant moves == Leaps(b, from, white, offs[..i])
    {
      assert offs[..i + 1][..i] == offs[..i];
      var t := Step(from, offs[i]);
      if 0 <= t.col < 8 && 0 <= t.row < 8 {
        var target := At(b, t);
        if target == '.' || IsEnemy(target, white) {
          moves := moves + [Move(from, t)];
        }
      }
    }
    assert offs[..|offs|] == offs;
  }

  method KnightMoves(b: Grid, from: Square, white: bool) returns (moves: seq<Move>)
    ensures moves == Leaps(b, from, white, KnightJumps)
  {
    moves := JumpMoves(b, from, white, KnightJumps);
  }

  method KingMoves(b: Grid, from: Square, white: bool) returns (moves: seq<Move>)
    ensures moves == Leaps(b, from, white, KingSteps)
  {
    moves := JumpMoves(b, from, white, KingSteps);
  }

  // ---------------------------------------------------------------------------
  // Pawns (getPawnMoves)
  // ---------------------------------------------------------------------------

  /** The row step of a pawn: white moves toward row 0 (rank 8), black toward row 7. */
  function Forward(white: bool): int {
    if white then -1 else 1
  }

  /** The single forward step, onto an empty square only. */
  function PawnAdvance(b: Grid, from: Square, white: bool): seq<Move>
    requires OnBoard(from)
  {
    var t := Square(from.col, from.row + Forward(white));
    if OnBoard(t) && At(b, t) == '.' then [Move(from, t)] else []
  }

  /** The diagonal capture dc columns aside, onto an enemy square only. */
  function PawnCapture(b: Grid, from: Square, white: bool, dc: int): seq<Move>
  {
    var t := Square(from.col + dc, from.row + Forward(white));
    if OnBoard(t) && IsEnemy(At(b, t), white) then [Move(from, t)] else []
  }

  /** The diagonal captures for the given column offsets, in offset order. */
  function PawnCaptures(b: Grid, from: Square, white: bool, colOffsets: seq<int>): seq<Move>
  {
    if colOffsets == [] then []
    else
      PawnCaptures(b, from, white, colOffsets[..|colOffsets| - 1])
        + PawnCapture(b, from, white, colOffsets[|colOffsets| - 1])
  }

  const PawnCaptureColumns: seq<int> := [-1, 1]

  function PawnMovesOf(b: Grid, from: Square, white: bool): seq<Move>
    requires OnBoard(from)
  {
    PawnAdvance(b, from, white) + PawnCaptures(b, from, white, PawnCaptureColumns)
  }

  /**
    At most three pawn moves, all one row forward: straight ahead only onto an
    empty square, diagonally only onto an enemy piece (never onto an empty
    square); and each such square does get its move.
   */
  lemma PawnShape(b: Grid, from: Square, white: bool)
    requires OnBoard(from)
    ensures var r := PawnMovesOf(b, from, white);
      && |r| <= 3
      && (forall m :: m in r ==>
            m.from == from && OnBoard(m.to) && m.to.row == from.row + Forward(white)
            && ((m.to.col == from.col && At(b, m.to) == '.')
                || ((m.to.col == from.col - 1 || m.to.col == from.col + 1) && IsEnemy(At(b, m.to), white))))
      && (forall m :: m in r && m.to.col != from.col ==> At(b, m.to) != '.')
      && (var t := Square(from.col, from.row + Forward(white));
          OnBoard(t) && At(b, t) == '.' ==> Move(from, t) in r)
      && (var t := Square(from.col - 1, from.row + Forward(white));
          OnBoard(t) && IsEnemy(At(b, t), white) ==> Move(from, t) in r)
      && (var t := Square(from.col + 1, from.row + Forward(white));
          OnBoard(t) && IsEnemy(At(b, t), white) ==> Move(from, t) in r)
  {
    PawnCapturePair(b, from, white);
  }

  lemma PawnCapturesStep(b: Grid, from: Square, white: bool, offs: seq<int>, i: int)
    requires 0 <= i < |offs|
    ensures PawnCaptures(b, from, white, offs[..i + 1])
      == PawnCaptures(b, from, white, offs[..i]) + PawnCapture(b, from, white, offs[i])
  {
    assert offs[..i + 1][..i] == offs[..i];
  }

  lemma AppendAssoc<T>(x: seq<T>, y: seq<T>, z: seq<T>)
    ensures (x + y) + z == x + (y + z)
  {
  }

  /** The capture toward file a comes first, then the one toward file h. */
  lemma PawnCapturePair(b: Grid, from: Square, white: bool)
    ensures PawnCaptures(b, from, white, PawnCaptureColumns)
      == PawnCapture(b, from, white, -1) + PawnCapture(b, from, white, 1)
  {
    assert PawnCaptureColumns[..1] == [-1];
    assert [-1][..0] == [];
    assert PawnCaptures(b, from, white, [-1]) == [] + PawnCapture(b, from, white, -1);
  }

  method PawnMoves(b: Grid, from: Square, white: bool) returns (moves: seq<Move>)
    requires OnBoard(from)
    ensures moves == PawnMovesOf(b, from, white)
  {
    moves := [];
    var direction := if white then -1 else 1;
    var newRow := from.row + direction;
    if 0 <= newRow < 8 {
      var t := Square(from.col, newRow);
      if At(b, t) == '.' {
        moves := moves + [Move(from, t)];
      }
    }
    assert moves == PawnAdvance(b, from, white);
    var colOffsets := PawnCaptureColumns;
    for i := 0 to |colOffsets|
      invariant moves == PawnAdvance(b, from, white) + PawnCaptures(b, from, white, colOffsets[..i])
    {
      ghost var before := moves;
      var newCol := from.col + colOffsets[i];
      newRow := from.row + direction;
      if 0 <= newCol < 8 && 0 <= newRow < 8 {
        var target := At(b, Square(newCol, newRow));
        if target != '.' && IsEnemy(target, white) {
          moves := moves + [Move(from, Square(newCol, newRow))];
        }
      }
      assert moves == before + PawnCapture(b, from, white, colOffsets[i]);
      PawnCapturesStep(b, from, white, colOffsets, i);
      AppendAssoc(PawnAdvance(b, from, white), PawnCaptures(b, from, white, colOffsets[..i]),
        PawnCapture(b, from, white, colOffsets[i]));
    }
    assert colOffsets[..|colOffsets|] == colOffsets;
  }

  // ---------------------------------------------------------------------------
  // Dispatch and the board scan (findPossibleMoves)
  // ---------------------------------------------------------------------------

  /** The moves of the piece on one square: none for empty, enemy or unknown cells. */
  function MovesFrom(b: Grid, s: Square, white: bool): seq<Move>
    requires OnBoard(s)
  {
    var piece := At(b, s);
    if piece == '.' || IsEnemy(piece, white) then []
    else
      var pieceType := ToLower(piece);
      if pieceType == 'p' then PawnMovesOf(b, s, white)
      else if pieceType == 'n' then Leaps(b, s, white, KnightJumps)
      else if pieceType == 'b' then Rays(b, s, white, Diagonals)
      else if pieceType == 'r' then Rays(b, s, white, Straights)
      else if pieceType == 'q' then Rays(b, s, white, Diagonals) + Rays(b, s, white, Straights)
      else if pieceType == 'k' then Leaps(b, s, white, KingSteps)
      else []
  }

  /** The moves of the first n squares of a row, file a first. */
  function RankMoves(b: Grid, white: bool, row: int, n: nat): seq<Move>
    requires 0 <= row < 8 && n <= 8
  {
    if n == 0 then [] else RankMoves(b, white, row, n - 1) + MovesFrom(b, Square(n - 1, row), white)
  }

  /** The moves of the first n rows, rank 8 first. */
  function ScanMoves(b: Grid, white: bool, n: nat): seq<Move>
    requires n <= 8
  {
    if n == 0 then [] else ScanMoves(b, white, n - 1) + RankMoves(b, white, n - 1, 8)
  }

  /** All pseudo-legal moves of the side to move, in the source's scan order. */
  function Generate(b: Grid, white: bool): seq<Move>
  {
    ScanMoves(b, white, 8)
  }

  /** A move list in which every move starts on s and lands on an empty or enemy square. */
  ghost predicate SoundFrom(b: Grid, s: Square, white: bool, ms: seq<Move>) {
    forall m :: m in ms ==> m.from == s && OnBoard(m.to) && IsTarget(At(b, m.to), white)
  }

  /**
    A square yields moves only if it holds one of the mover's six pieces, and
    those moves start there and never land on a friendly piece.
   */
  lemma MovesFromSound(b: Grid, s: Square, white: bool)
    requires OnBoard(s)
    ensures SoundFrom(b, s, white, MovesFrom(b, s, white))
    ensures MovesFrom(b, s, white) != [] ==> IsOwnPiece(At(b, s), white)
  {
    var piece := At(b, s);
    if piece != '.' && !IsEnemy(piece, white) {
      var pieceType := ToLower(piece);
      if pieceType == 'p' {
        assert SoundFrom(b, s, white, PawnMovesOf(b, s, white)) by { PawnShape(b, s, white); }
      } else if pieceType == 'n' {
        assert SoundFrom(b, s, white, Leaps(b, s, white, KnightJumps)) by { LeapsShape(b, s, white, KnightJumps); }
      } else if pieceType == 'b' {
        assert SoundFrom(b, s, white, Rays(b, s, white, Diagonals)) by { RaysSound(b, s, white, Diagonals); }
      } else if pieceType == 'r' {
        assert SoundFrom(b, s, white, Rays(b, s, white, Straights)) by { RaysSound(b, s, white, Straights); }
      } else if pieceType == 'q' {
        assert SoundFrom(b, s, white, Rays(b, s, white, Diagonals) + Rays(b, s, white, Straights)) by {
          RaysSound(b, s, white, Diagonals);
          RaysSound(b, s, white, Straights);
        }
      } else if pieceType == 'k' {
        assert SoundFrom(b, s, white, Leaps(b, s, white, KingSteps)) by { LeapsShape(b, s, white, KingSteps); }
      }
    }
  }


  lemma {:induction false} RankMovesSound(b: Grid, white: bool, row: int, n: nat)
    requires 0 <= row < 8 && n <= 8
    ensures forall m :: m in RankMoves(b, white, row, n) ==>
      && m.from.row == row && 0 <= m.from.col < n
      && IsOwnPiece(At(b, m.from), white) && OnBoard(m.to) && IsTarget(At(b, m.to), white)
      && m in MovesFrom(b, m.from, white)
  {
    if n > 0 {
      RankMovesSound(b, white, row, n - 1);
      MovesFromSound(b, Square(n - 1, row), white);
    }
  }

  lemma {:induction false} ScanMovesSound(b: Grid, white: bool, n: nat)
    requires n <= 8
    ensures forall m :: m in ScanMoves(b, white, n) ==>
      && OnBoard(m.from) && m.from.row < n
      && IsOwnPiece(At(b, m.from), white) && OnBoard(m.to) && IsTarget(At(b, m.to), white)
      && m in MovesFrom(b, m.from, white)
  {
    if n > 0 {
      ScanMovesSound(b, white, n - 1);
      RankMovesSound(b, white, n - 1, 8);
    }
  }

  lemma {:induction false} RankMovesComplete(b: Grid, white: bool, row: int, n: nat, col: int)
    requires 0 <= row < 8 && n <= 8 && 0 <= col < n
    ensures forall m :: m in MovesFrom(b, Square(col, row), white) ==> m in RankMoves(b, white, row, n)
  {
    var here := MovesFrom(b, Square(col, row), white);
    var earlier, last := RankMoves(b, white, row, n - 1), MovesFrom(b, Square(n - 1, row), white);
    assert RankMoves(b, white, row, n) == earlier + last;
    if col < n - 1 {
      RankMovesComplete(b, white, row, n - 1, col);
      forall m | m in here
        ensures m in earlier + last
      {
        assert m in earlier;
      }
    } else {
      assert here == last;
    }
  }

  lemma {:induction false} ScanMovesComplete(b: Grid, white: bool, n: nat, s: Square)
    requires n <= 8 && OnBoard(s) && s.row < n
    ensures forall m :: m in MovesFrom(b, s, white) ==> m in ScanMoves(b, white, n)
  {
    if s.row < n - 1 {
      ScanMovesComplete(b, white, n - 1, s);
    } else {
      RankMovesComplete(b, white, s.row, 8, s.col);
    }
  }

  /**
    The generated list is exactly the union of the per-square move lists:
    every generated move starts on a square holding a piece of the side to
    move, never lands on a friendly piece (nor on its own square), and is
    one of that square's moves; and every square's moves are generated.
   */
  lemma GenerateSoundAndComplete(b: Grid, white: bool)
    ensures forall m :: m in Generate(b, white) ==>
      && OnBoard(m.from) && IsOwnPiece(At(b, m.from), white)
      && OnBoard(m.to) && IsTarget(At(b, m.to), white) && m.to != m.from
      && m in MovesFrom(b, m.from, white)
    ensures forall s, m :: OnBoard(s) && m in MovesFrom(b, s, white) ==> m in Generate(b, white)
  {
    ScanMovesSound(b, white, 8);
    forall s, m | OnBoard(s) && m in MovesFrom(b, s, white)
      ensures m in Generate(b, white)
    {
      ScanMovesComplete(b, white, 8, s);
    }
  }

  /** One square of the scan appended to the moves so far. */
  lemma RankStep(b: Grid, white: bool, row: int, col: int, moves: seq<Move>, before: seq<Move>, squareMoves: seq<Move>)
    requires 0 <= row < 8 && 0 <= col < 8
    requires moves == before + RankMoves(b, white, row, col)
    requires squareMoves == MovesFrom(b, Square(col, row), white)
    ensures moves + squareMoves == before + RankMoves(b, white, row, col + 1)
  {
  }

  /** One finished row of the scan. */
  lemma ScanStep(b: Grid, white: bool, row: int, moves: seq<Move>, before: seq<Move>)
    requires 0 <= row < 8
    requires before == ScanMoves(b, white, row)
    requires moves == before + RankMoves(b, white, row, 8)
    ensures moves == ScanMoves(b, white, row + 1)
  {
  }

  /** The dispatch on piece type for one square the scan did not skip. */
  method PieceMoves(b: Grid, square: Square, white: bool) returns (moves: seq<Move>)
    requires OnBoard(square)
    requires At(b, square) != '.' && !IsEnemy(At(b, square), white)
    ensures moves == MovesFrom(b, square, white)
  {
    var pieceType := ToLower(At(b, square));
    moves := [];
    if pieceType == 'p' {
      moves := PawnMoves(b, square, white);
    } else if pieceType == 'n' {
      moves := KnightMoves(b, square, white);
    } else if pieceType == 'b' {
      moves := BishopMoves(b, square, white);
    } else if pieceType == 'r' {
      moves := RookMoves(b, square, white);
    } else if pieceType == 'q' {
      moves := QueenMoves(b, square, white);
    } else if pieceType == 'k' {
      moves := KingMoves(b, square, white);
    }
  }

  /** The source's findPossibleMoves: scan rank 8 to rank 1, file a to h, skip and dispatch. */
  method FindPossibleMoves(d: BoardDict) returns (moves: seq<Move>)
    ensures moves == Generate(d.squares, d.turn == "w")
    ensures forall m :: m in moves ==>
      && OnBoard(m.from) && IsOwnPiece(At(d.squares, m.from), d.turn == "w")
      && OnBoard(m.to) && IsTarget(At(d.squares, m.to), d.turn == "w") && m.to != m.from
  {
    var b := d.squares;
    var isWhite := d.turn == "w";
    moves := [];
    for row := 0 to 8
      invariant moves == ScanMoves(b, isWhite, row)
    {
      ghost var before := moves;
      for col := 0 to 8
        invariant moves == before + RankMoves(b, isWhite, row, col)
      {
        var square := Square(col, row);
        var piece := At(b, square);
        if piece == '.' || IsEnemy(piece, isWhite) {
          RankStep(b, isWhite, row, col, moves, before, []);
          continue;
        }
        var pieceMoves := PieceMoves(b, square, isWhite);
        RankStep(b, isWhite, row, col, moves, before, pieceMoves);
        moves := moves + pieceMoves;
      }
      ScanStep(b, isWhite, row, moves, before);
    }
    GenerateSoundAndComplete(b, isWhite);
  }

  // ---------------------------------------------------------------------------
  // Squares that contribute nothing to the scan
  // ---------------------------------------------------------------------------

  /** Squares col lo .. n-1 of a row hold nothing the mover can move. */
  ghost predicate IdleCells(b: Grid, white: bool, row: int, lo: int, n: int)
    requires 0 <= row < 8
  {
    forall c :: lo <= c < n && 0 <= c < 8 ==> At(b, Square(c, row)) == '.' || IsEnemy(At(b, Square(c, row)), white)
  }

  /** Squares without a piece of the mover add nothing to a row's moves. */
  lemma {:induction false} RankMovesIdle(b: Grid, white: bool, row: int, lo: nat, n: nat)
    requires 0 <= row < 8 && lo <= n <= 8
    requires IdleCells(b, white, row, lo, n)
    ensures RankMoves(b, white, row, n) == RankMoves(b, white, row, lo)
  {
    if lo < n {
      RankMovesIdle(b, white, row, lo, n - 1);
    }
  }

  /** Rows without a piece of the mover add nothing to the scan. */
  lemma {:induction false} ScanMovesIdle(b: Grid, white: bool, lo: nat, n: nat)
    requires lo <= n <= 8
    requires forall r :: lo <= r < n ==> IdleCells(b, white, r, 0, 8)
    ensures ScanMoves(b, white, n) == ScanMoves(b, white, lo)
  {
    if lo == n {
    } else {
      ScanMovesIdle(b, white, lo, n - 1);
      RankMovesIdle(b, white, n - 1, 0, 8);
    }
  }

  /** A slider whose first square in every direction is off the board or blocked has no moves. */
  lemma {:induction false} RaysBlocked(b: Grid, from: Square, white: bool, dirs: seq<Dir>)
    requires AllDirections(dirs)
    requires forall k :: 0 <= k < |dirs| ==>
      !OnBoard(Step(from, dirs[k])) || IsBlocker(At(b, Step(from, dirs[k])), white)
    ensures Rays(b, from, white, dirs) == []
  {
    if dirs != [] {
      RaysBlocked(b, from, white, dirs[..|dirs| - 1]);
    }
  }

  /** The jump counterpart of RaysBlocked. */
  lemma {:induction false} LeapsBlocked(b: Grid, from: Square, white: bool, offs: seq<Dir>)
    requires forall k :: 0 <= k < |offs| ==>
      !OnBoard(Step(from, offs[k])) || IsBlocker(At(b, Step(from, offs[k])), white)
    ensures Leaps(b, from, white, offs) == []
  {
    if offs != [] {
      LeapsBlocked(b, from, white, offs[..|offs| - 1]);
    }
  }

  /** The rays of a four-direction table, one after another. */
  lemma RaysOfFour(b: Grid, from: Square, white: bool, dirs: seq<Dir>)
    requires |dirs| == 4 && AllDirections(dirs)
    ensures Rays(b, from, white, dirs) ==
      Ray(b, from, Step(from, dirs[0]), dirs[0], white) + Ray(b, from, Step(from, dirs[1]), dirs[1], white)
      + Ray(b, from, Step(from, dirs[2]), dirs[2], white) + Ray(b, from, Step(from, dirs[3]), dirs[3], white)
  {
    assert dirs[..1][..0] == [];
    assert Rays(b, from, white, dirs[..1]) == Ray(b, from, Step(from, dirs[0]), dirs[0], white);
    assert dirs[..2][..1] == dirs[..1];
    assert Rays(b, from, white, dirs[..2]) == Rays(b, from, white, dirs[..1]) + Ray(b, from, Step(from, dirs[1]), dirs[1], white);
    assert dirs[..3][..2] == dirs[..2];
    assert Rays(b, from, white, dirs[..3]) == Rays(b, from, white, dirs[..2]) + Ray(b, from, Step(from, dirs[2]), dirs[2], white);
    assert dirs[..3] == dirs[..|dirs| - 1];
  }

  /** The four straight rays from s, toward file a, file h, rank 8 and rank 1. */
  lemma StraightRays(b: Grid, s: Square, white: bool)
    ensures Rays(b, s, white, Straights) ==
      Ray(b, s, Square(s.col - 1, s.row), Dir(-1, 0), white) + Ray(b, s, Square(s.col + 1, s.row), Dir(1, 0), white)
      + Ray(b, s, Square(s.col, s.row - 1), Dir(0, -1), white) + Ray(b, s, Square(s.col, s.row + 1), Dir(0, 1), white)
  {
    assert AllDirections(Straights);
    RaysOfFour(b, s, white, Straights);
  }

  /**
    When the square (col, row) is the only one holding a piece of the side
    to move, the whole scan yields exactly that piece's moves.
   */
  lemma LoneMover(b: Grid, white: bool, row: int, col: int)
    requires 0 <= row < 8 && 0 <= col < 8
    requires forall s :: OnBoard(s) && s != Square(col, row) ==>
      At(b, s) == '.' || IsEnemy(At(b, s), white)
    ensures Generate(b, white) == MovesFrom(b, Square(col, row), white)
  {
    LoneMoverIdle(b, white, row, col);
    LoneScan(b, white, row, col);
  }

  /** The squares other than (col, row), rank by rank. */
  lemma LoneMoverIdle(b: Grid, white: bool, row: int, col: int)
    requires 0 <= row < 8 && 0 <= col < 8
    requires forall s :: OnBoard(s) && s != Square(col, row) ==>
      At(b, s) == '.' || IsEnemy(At(b, s), white)
    ensures forall r :: 0 <= r < 8 && r != row ==> IdleCells(b, white, r, 0, 8)
    ensures IdleCells(b, white, row, 0, col) && IdleCells(b, white, row, col + 1, 8)
  {
    forall r | 0 <= r < 8 && r != row
      ensures IdleCells(b, white, r, 0, 8)
    {
      forall c | 0 <= c < 8
        ensures At(b, Square(c, r)) == '.' || IsEnemy(At(b, Square(c, r)), white)
      {
        assert Square(c, r) != Square(col, row);
      }
    }
    forall c | 0 <= c < 8 && c != col
      ensures At(b, Square(c, row)) == '.' || IsEnemy(At(b, Square(c, row)), white)
    {
      assert Square(c, row) != Square(col, row);
    }
  }

  /** The scan of a board whose only mover's piece is on (col, row). */
  lemma LoneScan(b: Grid, white: bool, row: int, col: int)
    requires 0 <= row < 8 && 0 <= col < 8
    requires forall r :: 0 <= r < 8 && r != row ==> IdleCells(b, white, r, 0, 8)
    requires IdleCells(b, white, row, 0, col) && IdleCells(b, white, row, col + 1, 8)
    ensures Generate(b, white) == MovesFrom(b, Square(col, row), white)
  {
    ScanMovesIdle(b, white, 0, row);
    RankMovesIdle(b, white, row, 0, col);
    RankMovesIdle(b, white, row, col + 1, 8);
    ScanMovesIdle(b, white, row + 1, 8);
    var own := MovesFrom(b, Square(col, row), white);
    assert RankMoves(b, white, row, 0) == [] && ScanMoves(b, white, 0) == [];
    assert RankMoves(b, white, row, col + 1) == RankMoves(b, white, row, col) + own;
    assert ScanMoves(b, white, row + 1) == ScanMoves(b, white, row) + RankMoves(b, white, row, 8);
    assert [] + ([] + own) == own;
  }

  /** The dispatch of MovesFrom for a square holding one of the mover's rooks. */
  lemma MovesFromRook(b: Grid, s: Square, white: bool)
    requires OnBoard(s) && At(b, s) == (if white then 'R' else 'r')
    ensures MovesFrom(b, s, white) == Rays(b, s, white, Straights)
  {
  }

  /**
    A bishop, rook, queen or king all of whose neighbouring squares are off
    the board or blocked has no moves.
   */
  lemma HemmedPieceIsStuck(b: Grid, s: Square, white: bool)
    requires OnBoard(s) && ToLower(At(b, s)) != 'p' && ToLower(At(b, s)) != 'n'
    requires forall d :: IsDirection(d) ==> !OnBoard(Step(s, d)) || IsBlocker(At(b, Step(s, d)), white)
    ensures MovesFrom(b, s, white) == []
  {
    assert AllDirections(Diagonals) && AllDirections(Straights) && AllDirections(KingSteps);
    RaysBlocked(b, s, white, Diagonals);
    RaysBlocked(b, s, white, Straights);
    LeapsBlocked(b, s, white, KingSteps);
  }
}
