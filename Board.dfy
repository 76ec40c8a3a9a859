/**
  The data model shared by the FEN decoder and the move generator.

  A board is 64 characters in row-major order. Row 0 is rank 8 and row 7 is
  rank 1; column 0 is file a and column 7 is file h. Each cell holds the
  character the decoder stored for that square: '.' for an empty square,
  otherwise the FEN character verbatim. The letter's case gives the colour:
  upper case is white, lower case is black.
 */
module Board {

  /** The 64 cells of a decoded board, row-major, rank 8 first. */
  type Grid = s: seq<char> | |s| == 64 witness seq(64, _ => '.')

  /** A coordinate pair (file index, rank index); it may lie off the board. */
  datatype Square = Square(col: int, row: int)

  /** An offset applied to a square: a knight or king jump, a ray direction. */
  datatype Dir = Dir(dc: int, dr: int)

  /** A move is only its origin and its destination; no capture flag is kept. */
  datatype Move = Move(from: Square, to: Square)

  /**
    The dictionary turnIntoDict returns: the 64 square cells, the five
    trailing FEN fields as given, and the per-file and per-rank summary
    strings ('a-file' .. 'h-file' as files[0..8], 'rank-8' .. 'rank-1' as
    ranks[0..8]).
   */
  datatype BoardDict = BoardDict(
    squares: Grid,
    turn: string,
    castling: string,
    enpassant: string,
    halfmoves: string,
    fullmoves: string,
    files: seq<string>,
    ranks: seq<string>)

  predicate OnBoard(s: Square) {
    0 <= s.col < 8 && 0 <= s.row < 8
  }

  function Step(s: Square, d: Dir): (t: Square)
    ensures t.col - s.col == d.dc && t.row - s.row == d.dr
  {
    Square(s.col + d.dc, s.row + d.dr)
  }

  /** The cell of an on-board square. */
  function At(b: Grid, s: Square): char
    requires OnBoard(s)
  {
    b[s.row * 8 + s.col]
  }

  /** Python's islower/isupper, restricted to ASCII letters. */
  predicate IsLower(c: char) { 'a' <= c <= 'z' }
  predicate IsUpper(c: char) { 'A' <= c <= 'Z' }

  /** Python's str.lower on one character, restricted to ASCII letters. */
  function ToLower(c: char): (l: char)
    ensures IsUpper(c) ==> IsLower(l) && l as int == c as int + 32
    ensures !IsUpper(c) ==> l == c
  {
    if IsUpper(c) then (c as int + 32) as char else c
  }

  /** A cell holding a piece of the side that is not moving. */
  predicate IsEnemy(c: char, white: bool) {
    if white then IsLower(c) else IsUpper(c)
  }

  /** A cell a piece may move onto: empty or held by the opponent. */
  predicate IsTarget(c: char, white: bool) {
    c == '.' || IsEnemy(c, white)
  }

  /** A cell that stops a ray without giving a move (own piece, or any other character). */
  predicate IsBlocker(c: char, white: bool) {
    !IsTarget(c, white)
  }

  /** A cell holding one of the six pieces of the side to move. */
  predicate IsOwnPiece(c: char, white: bool) {
    if white then c in "PNBRQK" else c in "pnbrqk"
  }

  /** A move lands on an opponent's piece. */
  predicate IsCapture(b: Grid, m: Move, white: bool)
    requires OnBoard(m.to)
  {
    IsEnemy(At(b, m.to), white)
  }

  const Letters: seq<char> := "abcdefgh"
  const Numbers: seq<char> := "87654321"

  /** The algebraic name of a square, e.g. Square(4, 6) is "e2". */
  function SquareName(s: Square): (n: string)
    requires OnBoard(s)
    ensures |n| == 2 && 'a' <= n[0] <= 'h' && '1' <= n[1] <= '8'
    ensures n[0] as int - 'a' as int == s.col
    ensures '8' as int - n[1] as int == s.row
  {
    [Letters[s.col], Numbers[s.row]]
  }

  /** The "sq-sq" text the generator emits for a move. */
  function Render(m: Move): (t: string)
    requires OnBoard(m.from) && OnBoard(m.to)
    ensures |t| == 5 && t[2] == '-'
  {
    SquareName(m.from) + "-" + SquareName(m.to)
  }

  lemma SquareNameInjective(s: Square, t: Square)
    requires OnBoard(s) && OnBoard(t)
    requires SquareName(s) == SquareName(t)
    ensures s == t
  {
    assert Letters[s.col] == Letters[t.col];
    assert Numbers[s.row] == Numbers[t.row];
  }

  /** Distinct on-board moves are rendered as distinct strings. */
  lemma RenderInjective(m: Move, n: Move)
    requires OnBoard(m.from) && OnBoard(m.to) && OnBoard(n.from) && OnBoard(n.to)
    requires Render(m) == Render(n)
    ensures m == n
  {
    var a, c := Render(m), Render(n);
    assert SquareName(m.from) == a[..2] == c[..2] == SquareName(n.from);
    assert SquareName(m.to) == a[3..] == c[3..] == SquareName(n.to);
    SquareNameInjective(m.from, n.from);
    SquareNameInjective(m.to, n.to);
  }
}
