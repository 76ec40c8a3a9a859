/**
  The FEN decoder (main.py, turnIntoDict).

  The decoder splits the FEN text on spaces and its first field on '/',
  expands the first eight segments into 64 cells, copies the next five
  fields through unchanged, and builds the per-file and per-rank summary
  strings. It validates nothing: wherever Python would raise an IndexError,
  the model returns None.
 */
module Fen {
  import opened Board

  datatype Option<T> = None | Some(value: T)

  // ---------------------------------------------------------------------------
  // Python's str.split(sep) for a single-character separator
  // ---------------------------------------------------------------------------

  /** The position of the first occurrence of c in s. */
  function IndexOf(s: string, c: char): (i: nat)
    requires c in s
    ensures i < |s| && s[i] == c && c !in s[..i]
  {
    if s[0] == c then 0
    else
      var i := IndexOf(s[1..], c);
      assert s[..i + 1] == [s[0]] + s[1..][..i];
      i + 1
  }

  /**
    The pieces of s between occurrences of sep; empty pieces are kept. The
    first piece runs up to the first separator, the rest is the split of
    what follows it.
   */
  function Split(s: string, sep: char): (r: seq<string>)
    ensures |r| >= 1
    decreases |s|
  {
    if sep !in s then [s]
    else
      var i := IndexOf(s, sep);
      [s[..i]] + Split(s[i + 1..], sep)
  }

  /** The pieces put back together with sep between neighbours. */
  function Join(xs: seq<string>, sep: char): string
    requires |xs| >= 1
  {
    if |xs| == 1 then xs[0] else xs[0] + [sep] + Join(xs[1..], sep)
  }

  predicate NoSeparator(xs: seq<string>, sep: char) {
    forall k :: 0 <= k < |xs| ==> sep !in xs[k]
  }

  /** Joining a first piece in front of further pieces. */
  lemma JoinCons(x: string, ys: seq<string>, sep: char)
    requires |ys| >= 1
    ensures Join([x] + ys, sep) == x + [sep] + Join(ys, sep)
  {
    assert ([x] + ys)[1..] == ys;
  }

  /** Splitting loses nothing: the pieces joined back give the original text. */
  lemma {:induction false} JoinSplit(s: string, sep: char)
    ensures Join(Split(s, sep), sep) == s
    decreases |s|
  {
    if sep in s {
      var i := IndexOf(s, sep);
      var rest := Split(s[i + 1..], sep);
      JoinSplit(s[i + 1..], sep);
      JoinCons(s[..i], rest, sep);
      assert s == s[..i] + [sep] + s[i + 1..];
    }
  }

  /** No piece of a split contains the separator. */
  lemma {:induction false} SplitNoSeparator(s: string, sep: char)
    ensures NoSeparator(Split(s, sep), sep)
    decreases |s|
  {
    if sep in s {
      var i := IndexOf(s, sep);
      SplitNoSeparator(s[i + 1..], sep);
      var r := Split(s, sep);
      forall k | 0 <= k < |r|
        ensures sep !in r[k]
      {
        if k > 0 {
          assert r[k] == Split(s[i + 1..], sep)[k - 1];
        }
      }
    }
  }

  /** The first separator of x + [sep] + u is the one after x, when x has none. */
  lemma {:induction false} IndexAfter(x: string, u: string, sep: char)
    requires sep !in x
    ensures sep in x + [sep] + u && IndexOf(x + [sep] + u, sep) == |x|
  {
    var s := x + [sep] + u;
    assert s[|x|] == sep;
    if x != [] {
      assert s[0] == x[0] && s[1..] == x[1..] + [sep] + u;
      IndexAfter(x[1..], u, sep);
    }
  }

  lemma SplitAfter(x: string, u: string, sep: char)
    requires sep !in x
    ensures Split(x + [sep] + u, sep) == [x] + Split(u, sep)
  {
    var s := x + [sep] + u;
    IndexAfter(x, u, sep);
    assert s[..|x|] == x && s[|x| + 1..] == u;
  }

  /** Joining separator-free pieces and splitting again gives the same pieces. */
  lemma {:induction false} SplitJoin(xs: seq<string>, sep: char)
    requires |xs| >= 1 && NoSeparator(xs, sep)
    ensures Split(Join(xs, sep), sep) == xs
  {
    if |xs| == 1 {
      assert sep !in xs[0];
    } else {
      assert sep !in xs[0];
      SplitJoin(xs[1..], sep);
      SplitAfter(xs[0], Join(xs[1..], sep), sep);
      assert [xs[0]] + xs[1..] == xs;
    }
  }

  // ---------------------------------------------------------------------------
  // Expanding one rank segment
  // ---------------------------------------------------------------------------

  /** The characters the decoder treats as a run of empty squares: '1' .. '8' only. */
  predicate IsRankDigit(c: char) {
    '1' <= c <= '8'
  }

  function DigitValue(c: char): (n: nat)
    requires IsRankDigit(c)
    ensures 1 <= n <= 8
  {
    c as int - '0' as int
  }

  function Dots(n: nat): (r: seq<char>)
    ensures |r| == n && forall j :: 0 <= j < n ==> r[j] == '.'
  {
    seq(n, _ => '.')
  }

  /** The cells one segment character stands for: a digit run of '.', anything else itself. */
  function CellsOf(c: char): (cells: seq<char>)
    ensures |cells| >= 1
  {
    if IsRankDigit(c) then Dots(DigitValue(c)) else [c]
  }

  /** All the cells a segment stands for, character by character. */
  function Expand(seg: string): seq<char> {
    if seg == [] then [] else CellsOf(seg[0]) + Expand(seg[1..])
  }

  lemma {:induction false} ExpandAppend(x: string, y: string)
    ensures Expand(x + y) == Expand(x) + Expand(y)
  {
    if x == [] {
      assert x + y == y;
    } else {
      assert (x + y)[1..] == x[1..] + y;
      ExpandAppend(x[1..], y);
    }
  }

  /**
    Each character of a segment lands right after the cells of the characters
    before it: a digit N gives N consecutive '.' cells, any other character is
    stored verbatim in one cell.
   */
  lemma ExpandCharacter(seg: string, k: int)
    requires 0 <= k < |seg|
    ensures var p := |Expand(seg[..k])|;
      && p + |CellsOf(seg[k])| <= |Expand(seg)|
      && (IsRankDigit(seg[k]) ==>
            |CellsOf(seg[k])| == DigitValue(seg[k])
            && forall j :: p <= j < p + DigitValue(seg[k]) ==> Expand(seg)[j] == '.')
      && (!IsRankDigit(seg[k]) ==> |CellsOf(seg[k])| == 1 && Expand(seg)[p] == seg[k])
  {
    assert seg == seg[..k] + ([seg[k]] + seg[k + 1..]);
    ExpandAppend(seg[..k], [seg[k]] + seg[k + 1..]);
    assert Expand([seg[k]] + seg[k + 1..]) == CellsOf(seg[k]) + Expand(seg[k + 1..]);
  }

  /** A segment without digits is stored verbatim. */
  lemma {:induction false} ExpandNoDigits(seg: string)
    requires forall k :: 0 <= k < |seg| ==> !IsRankDigit(seg[k])
    ensures Expand(seg) == seg
  {
    if seg != [] {
      ExpandNoDigits(seg[1..]);
    }
  }

  // ---------------------------------------------------------------------------
  // The decoded dictionary
  // ---------------------------------------------------------------------------

  /** The decoder's list `data`: the rank segments followed by the remaining space-separated fields. */
  function Fields(fen: string): seq<string> {
    var parts := Split(fen, ' ');
    Split(parts[0], '/') + parts[1..]
  }

  predicate RanksExpand(data: seq<string>, n: nat) {
    n <= |data| && forall r :: 0 <= r < n ==> |Expand(data[r])| >= 8
  }

  /** The cells of the first n segments, in row-major order. */
  function Placement(data: seq<string>, n: nat): (cells: seq<char>)
    requires RanksExpand(data, n)
    ensures |cells| == 8 * n
  {
    if n == 0 then [] else Placement(data, n - 1) + Expand(data[n - 1])[..8]
  }

  /** Cell (row, col) of the placement is cell col of segment row. */
  lemma {:induction false} PlacementAt(data: seq<string>, n: nat, row: int, col: int)
    requires RanksExpand(data, n) && 0 <= row < n && 0 <= col < 8
    ensures Placement(data, n)[row * 8 + col] == Expand(data[row])[col]
  {
    if row < n - 1 {
      PlacementAt(data, n - 1, row, col);
    }
  }

  /** 'a-file' .. 'h-file': each file's cells from rank 8 down to rank 1. */
  function FileStrings(squares: Grid): seq<string> {
    seq(8, c requires 0 <= c < 8 => seq(8, r requires 0 <= r < 8 => squares[r * 8 + c]))
  }

  /** 'rank-8' .. 'rank-1': each rank's cells from file a to file h. */
  function RankStrings(squares: Grid): seq<string> {
    seq(8, r requires 0 <= r < 8 => squares[r * 8..r * 8 + 8])
  }

  /** The two summaries are transposes of each other, both eight strings of eight cells. */
  lemma SummariesTranspose(squares: Grid)
    ensures |FileStrings(squares)| == 8 && |RankStrings(squares)| == 8
    ensures forall c, r :: 0 <= c < 8 && 0 <= r < 8 ==>
      |FileStrings(squares)[c]| == 8 && |RankStrings(squares)[r]| == 8
      && FileStrings(squares)[c][r] == RankStrings(squares)[r][c] == squares[r * 8 + c]
  {
  }

  /** The ranks, read in order, are the whole board. */
  lemma RanksCoverBoard(squares: Grid)
    ensures var ranks := RankStrings(squares);
      ranks[0] + ranks[1] + ranks[2] + ranks[3] + ranks[4] + ranks[5] + ranks[6] + ranks[7] == squares
  {
    var ranks := RankStrings(squares);
    var joined := ranks[0] + ranks[1] + ranks[2] + ranks[3] + ranks[4] + ranks[5] + ranks[6] + ranks[7];
    assert |joined| == 64;
    forall i | 0 <= i < 64
      ensures joined[i] == squares[i]
    {
      var r := i / 8;
      assert squares[i] == ranks[r][i - r * 8];
    }
  }

  /** What turnIntoDict returns, or None where it raises. */
  function Decode(fen: string): Option<BoardDict> {
    var data := Fields(fen);
    if |data| >= 13 && RanksExpand(data, 8) then
      var squares := Placement(data, 8);
      Some(BoardDict(squares, data[8], data[9], data[10], data[11], data[12],
                     FileStrings(squares), RankStrings(squares)))
    else None
  }

  /**
    Decoding succeeds exactly when there are at least 13 entries in `data`
    and each of the first eight segments stands for at least eight cells;
    then square (row, col) holds cell col of segment row, the five metadata
    fields are entries 8 to 12 copied verbatim, and the summaries are the
    files and ranks of the board.
   */
  lemma DecodeMeaning(fen: string)
    ensures var data := Fields(fen);
      Decode(fen).Some? <==> |data| >= 13 && forall r :: 0 <= r < 8 ==> |Expand(data[r])| >= 8
    ensures var data := Fields(fen); Decode(fen).Some? ==>
      && (forall row, col :: 0 <= row < 8 && 0 <= col < 8 ==>
            Decode(fen).value.squares[row * 8 + col] == Expand(data[row])[col])
      && Decode(fen).value.turn == data[8]
      && Decode(fen).value.castling == data[9]
      && Decode(fen).value.enpassant == data[10]
      && Decode(fen).value.halfmoves == data[11]
      && Decode(fen).value.fullmoves == data[12]
      && Decode(fen).value.files == FileStrings(Decode(fen).value.squares)
      && Decode(fen).value.ranks == RankStrings(Decode(fen).value.squares)
  {
    var data := Fields(fen);
    if Decode(fen).Some? {
      forall row, col | 0 <= row < 8 && 0 <= col < 8
        ensures Decode(fen).value.squares[row * 8 + col] == Expand(data[row])[col]
      {
        PlacementAt(data, 8, row, col);
      }
    }
  }

  /** The decoder's `data` for a FEN assembled from '/'-free segments and space-free fields. */
  lemma FieldsOfJoin(segments: seq<string>, fields: seq<string>)
    requires |segments| >= 1 && NoSeparator(segments, '/') && NoSeparator(segments, ' ')
    requires NoSeparator(fields, ' ')
    ensures Fields(Join([Join(segments, '/')] + fields, ' ')) == segments + fields
  {
    var placement := Join(segments, '/');
    JoinHasNoSeparator(segments, '/', ' ');
    assert NoSeparator([placement] + fields, ' ');
    SplitJoin([placement] + fields, ' ');
    assert ([placement] + fields)[1..] == fields;
    SplitJoin(segments, '/');
  }

  /**
    A FEN built from eight '/'-free segments and at least five more space-free
    fields decodes to those segments' cells, with side to move, castling,
    en passant and both clocks copied verbatim and unvalidated.
   */
  lemma DecodeWellFormed(segments: seq<string>, fields: seq<string>)
    requires |segments| == 8 && NoSeparator(segments, '/') && NoSeparator(segments, ' ')
    requires |fields| >= 5 && NoSeparator(fields, ' ')
    requires forall r :: 0 <= r < 8 ==> |Expand(segments[r])| >= 8
    ensures var fen := Join([Join(segments, '/')] + fields, ' ');
      && Decode(fen).Some?
      && (forall row, col :: 0 <= row < 8 && 0 <= col < 8 ==>
            Decode(fen).value.squares[row * 8 + col] == Expand(segments[row])[col])
      && Decode(fen).value.turn == fields[0]
      && Decode(fen).value.castling == fields[1]
      && Decode(fen).value.enpassant == fields[2]
      && Decode(fen).value.halfmoves == fields[3]
      && Decode(fen).value.fullmoves == fields[4]
  {
    var fen := Join([Join(segments, '/')] + fields, ' ');
    FieldsOfJoin(segments, fields);
    var data := Fields(fen);
    assert data == segments + fields;
    assert forall r :: 0 <= r < 8 ==> data[r] == segments[r];
    assert data[8..13] == fields[..5];
    DecodeMeaning(fen);
  }

  lemma {:induction false} JoinHasNoSeparator(xs: seq<string>, sep: char, other: char)
    requires |xs| >= 1 && NoSeparator(xs, other) && sep != other
    ensures other !in Join(xs, sep)
  {
    if |xs| > 1 {
      JoinHasNoSeparator(xs[1..], sep, other);
    }
  }

  /** A segment standing for fewer than eight cells makes the decoder fail (Python's IndexError). */
  lemma DecodeShortSegment(segments: seq<string>, fields: seq<string>, r: int)
    requires |segments| == 8 && NoSeparator(segments, '/') && NoSeparator(segments, ' ')
    requires NoSeparator(fields, ' ')
    requires 0 <= r < 8 && |Expand(segments[r])| < 8
    ensures Decode(Join([Join(segments, '/')] + fields, ' ')) == None
  {
    FieldsOfJoin(segments, fields);
    assert (segments + fields)[r] == segments[r];
  }

  /** Fewer than five fields after an eight-segment placement make the decoder fail. */
  lemma DecodeMissingFields(segments: seq<string>, fields: seq<string>)
    requires |segments| == 8 && NoSeparator(segments, '/') && NoSeparator(segments, ' ')
    requires |fields| < 5 && NoSeparator(fields, ' ')
    ensures Decode(Join([Join(segments, '/')] + fields, ' ')) == None
  {
    FieldsOfJoin(segments, fields);
  }

  // ---------------------------------------------------------------------------
  // The decoder's loops
  // ---------------------------------------------------------------------------

  /** The summary loops: files[c] gathers column c rank 8 first, ranks[r] gathers row r file a first. */
  method Summaries(squares: Grid) returns (files: seq<string>, ranks: seq<string>)
    ensures files == FileStrings(squares) && ranks == RankStrings(squares)
  {
    files := [];
    for c := 0 to 8
      invariant |files| == c
      invariant forall k :: 0 <= k < c ==> files[k] == FileStrings(squares)[k]
    {
      var file: string := [];
      for r := 0 to 8
        invariant |file| == r && forall i :: 0 <= i < r ==> file[i] == squares[i * 8 + c]
      {
        file := file + [squares[r * 8 + c]];
      }
      files := files + [file];
    }
    ranks := [];
    for r := 0 to 8
      invariant |ranks| == r
      invariant forall k :: 0 <= k < r ==> ranks[k] == RankStrings(squares)[k]
    {
      var rank: string := [];
      for c := 0 to 8
        invariant rank == squares[r * 8..r * 8 + c]
      {
        assert squares[r * 8..r * 8 + c + 1] == squares[r * 8..r * 8 + c] + [squares[r * 8 + c]];
        rank := rank + [squares[r * 8 + c]];
      }
      ranks := ranks + [rank];
    }
  }

  /**
    The segment loop of turnIntoDict: for each of the eight files either use
    up a pending run of empty squares or read the next segment character.
    Returns None where Python would index past the end of the segment.
   */
  method ExpandSegment(seg: string) returns (cells: Option<seq<char>>)
    ensures cells.Some? <==> |Expand(seg)| >= 8
    ensures cells.Some? ==> cells.value == Expand(seg)[..8]
  {
    var out: seq<char> := [];
    var index := 0;
    var numberCounter := 0;
    for col := 0 to 8
      invariant 0 <= index <= |seg| && numberCounter >= 0
      invariant |Expand(seg[..index])| == col + numberCounter
      invariant out == Expand(seg[..index])[..col]
      invariant forall j :: col <= j < |Expand(seg[..index])| ==> Expand(seg[..index])[j] == '.'
    {
      ghost var done := Expand(seg[..index]);
      if numberCounter > 0 {
        PendingCell(done, col, out);
        out := out + ['.'];
        numberCounter := numberCounter - 1;
      } else {
        if index >= |seg| {
          assert seg[..index] == seg;
          assert |Expand(seg)| < 8;
          return None;
        }
        var c := seg[index];
        ExpandNext(seg, index);
        ReadCell(done, c, col, out);
        if IsRankDigit(c) {
          out := out + ['.'];
          numberCounter := DigitValue(c) - 1;
        } else {
          out := out + [c];
        }
        index := index + 1;
      }
    }
    ExpandPrefix(seg, index);
    assert Expand(seg)[..8] == Expand(seg[..index])[..8];
    cells := Some(out);
  }

  /** A pending empty square of a digit run is the next cell. */
  lemma PendingCell(done: seq<char>, col: int, out: seq<char>)
    requires 0 <= col < |done| && done[col] == '.' && out == done[..col]
    ensures out + ['.'] == done[..col + 1]
  {
  }

  /** The first cell of the next character goes right after the cells so far; the rest of a digit run is empty. */
  lemma ReadCell(done: seq<char>, c: char, col: int, out: seq<char>)
    requires |done| == col && out == done[..col]
    ensures var next := done + CellsOf(c);
      && out + [next[col]] == next[..col + 1]
      && (IsRankDigit(c) ==> next[col] == '.' && |next| == col + DigitValue(c))
      && (!IsRankDigit(c) ==> next[col] == c && |next| == col + 1)
      && forall j :: col < j < |next| ==> next[j] == '.'
  {
    var next := done + CellsOf(c);
    assert next[..col] == done;
    assert next[..col + 1] == next[..col] + [next[col]];
  }

  /** Reading one more character of a segment appends that character's cells. */
  lemma ExpandNext(seg: string, index: int)
    requires 0 <= index < |seg|
    ensures Expand(seg[..index + 1]) == Expand(seg[..index]) + CellsOf(seg[index])
  {
    assert seg[..index + 1] == seg[..index] + [seg[index]];
    ExpandAppend(seg[..index], [seg[index]]);
    assert Expand([seg[index]]) == CellsOf(seg[index]) + Expand([]);
  }

  /** The cells of a prefix of a segment begin the cells of the whole segment. */
  lemma ExpandPrefix(seg: string, index: int)
    requires 0 <= index <= |seg|
    ensures |Expand(seg[..index])| <= |Expand(seg)|
    ensures Expand(seg)[..|Expand(seg[..index])|] == Expand(seg[..index])
  {
    assert seg == seg[..index] + seg[index..];
    ExpandAppend(seg[..index], seg[index..]);
  }

  method TurnIntoDict(fen: string) returns (r: Option<BoardDict>)
    ensures r == Decode(fen)
  {
    var parts := Split(fen, ' ');
    var rows := Split(parts[0], '/');
    var data := rows + parts[1..];
    assert data == Fields(fen);
    var squares: seq<char> := [];
    for row := 0 to 8
      invariant RanksExpand(data, row) && squares == Placement(data, row)
    {
      if row >= |data| {
        return None;
      }
      var cells := ExpandSegment(data[row]);
      if cells.None? {
        return None;
      }
      squares := squares + cells.value;
    }
    if |data| < 13 {
      return None;
    }
    var files, ranks := Summaries(squares);
    r := Some(BoardDict(squares, data[8], data[9], data[10], data[11], data[12], files, ranks));
  }
}
