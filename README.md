# Pseudo-legal chess move generation, modelled in Dafny

This project models `main.py`, a small chess program. `turnIntoDict` decodes
a FEN position into a dictionary of 64 square cells, five metadata fields
and per-file and per-rank summary strings. `findPossibleMoves` scans that
board from rank 8 to rank 1, file a to h. For every piece of the side to
move it lists the moves from one of six per-piece generators:

- pawn: single step and diagonal capture;
- knight and king: fixed offset tables;
- bishop, rook and queen: ray casting along diagonals and straight lines.

No castling, en passant, double pawn step, promotion or check detection
exists in the source, and none is modelled.

Modules:

- `Board` (Board.dfy): squares, directions, moves, the decoded dictionary,
  the colour tests, and the `"sq-sq"` rendering of a move.
- `MoveGen` (MoveGen.dfy): each generator as a method with the source's
  loops. Each method is proved equal to a recursive specification function
  (`Ray`/`Rays`, `Leaps`, `PawnMovesOf`, `MovesFrom`, `Generate`). The
  promised properties are lemmas about those functions.
- `Fen` (Fen.dfy): Python's `str.split`, the run-length expansion of a rank
  segment, the decoder `Decode` (a function) and the methods `TurnIntoDict`,
  `ExpandSegment` and `Summaries` with the source's loops.
- `StartPosition` (StartPosition.dfy): the default FEN of main.py, what it
  decodes to, and the complete move list for it.
- `Positions` (Positions.dfy): two small worked boards. In the first, a white
  rook on d4 with a black pawn on d7 has thirteen moves: 3 toward file a, 4
  toward file h, 3 up to and including the capture on d7, and 3 down to d1.
  The second has a pair of pawns.

The offset tables are constants of `MoveGen` with the source's entries in the source's order:
- `KnightJumps` is the table at main.py:80;
- `KingSteps` is main.py:110;
- `Diagonals` is main.py:128;
- `Straights` is main.py:152;
- `PawnCaptureColumns` is the column-offset list at main.py:64.

Coordinates: column 0..7 is file a..h. Row 0..7 is rank 8..1, matching the
source's `numbers` list. The board is 64 cells, row-major.

## Model

| member | source | states |
|---|---|---|
| Board.OnBoard | main.py:85 | definition of the bounds test `0 <= new_col < 8 and 0 <= new_row < 8`, written the same way at main.py:58, 67, 115, 132 and 156 |
| Board.IsLower | main.py:29 | definition of `str.islower` on one cell (ASCII letters 'a'..'z'), as used at main.py:29, 70, 88, 118, 137 and 161 |
| Board.IsUpper | main.py:29 | definition of `str.isupper` on one cell (ASCII letters 'A'..'Z'), as used at the same lines |
| Board.IsEnemy | main.py:70 | definition of `(isWhite and target.islower()) or (not isWhite and target.isupper())`: the cell holds a piece of the side not moving; the same test is the second half of the skip rule at main.py:29 and the capture test at main.py:88, 118, 137 and 161 |
| Board.IsTarget | main.py:88 | definition of `target == '.' or` the enemy test: a square a knight, king or slider may land on (main.py:88, 118, and the first two branches at main.py:135-138 and 159-162) |
| Board.IsBlocker | main.py:140-141 | definition of the `else: break` branch of a ray: any cell that is neither '.' nor an enemy, including a friendly piece or an unknown character |
| Board.SquareName | main.py:68 | the algebraic name of an on-board square, built as `letters[new_col] + numbers[new_row]` (also at main.py:59 and 86): two characters, the file letter 'a'..'h' at offset col from 'a', then the rank digit '1'..'8' with row = '8' − digit, so row 0 is rank 8 |
| Board.ToLower | main.py:33 | `str.lower` on one character: upper-case letters map to lower case, all else is unchanged |
| Board.Render | main.py:61 | a move is rendered as a five-character `"sq-sq"` text with '-' in the middle |
| Board.SquareNameInjective | main.py:59 | distinct on-board squares have distinct two-character names |
| Board.RenderInjective | main.py:61 | distinct on-board moves render as distinct strings, so coordinate pairs lose nothing |
| MoveGen.Ray | main.py:132-143 | definition of one ray: from the current square onward, each empty square gives a move and the ray goes on; an enemy square gives a move and ends it; the board edge or any other cell ends it with no move; properties in `RayShape`, `RayIndex`, `RayEnd`, `RaySound` |
| MoveGen.Rays | main.py:130-143 | definition of the rays of a direction table: each direction's ray from the square next to the origin, in table order; used by `SlidingMoves` and `RaysAppend` |
| MoveGen.RayShape | main.py:130-143 | the i-th move of a ray lands i steps from the origin; all but the last landing square are empty; the last is empty or an enemy; the ray stops only on a capture, at the board edge, or before a blocker |
| MoveGen.RaySound | main.py:132-141 | every ray move starts on the origin and lands on an on-board empty or enemy square |
| MoveGen.RaysSound | main.py:130-143 | the same for all the rays of a direction table |
| MoveGen.RaysAppend | main.py:102-103 | the rays of two tables cast one after the other are the rays of the joined table |
| MoveGen.RayIndex | main.py:130-143 | the i-th move of a ray lands on the on-board square i steps from the first square along the direction |
| MoveGen.RayEnd | main.py:135-141 | a ray ends on a capture, or the next square along the direction is off the board or blocked |
| MoveGen.StraightRays | main.py:152-167 | the straight moves are the ray toward file a, then toward file h, then toward rank 8, then toward rank 1 |
| MoveGen.SlidingMoves | main.py:124-169 | the shared `for`/`while` loop of `get_diagonal_moves` and `get_straight_moves` returns exactly the rays of its direction table |
| MoveGen.DiagonalMoves | main.py:124-145 | `get_diagonal_moves` gives the rays of the four diagonals in table order |
| MoveGen.StraightMoves | main.py:148-169 | `get_straight_moves` gives the rays of the four straight lines in table order |
| MoveGen.BishopMoves | main.py:94-95 | bishop moves are the diagonal rays |
| MoveGen.RookMoves | main.py:98-99 | rook moves are the straight rays |
| MoveGen.QueenMoves | main.py:102-103 | queen moves are the diagonal moves followed by the straight moves, which is the rays of the joined table |
| MoveGen.Leaps | main.py:82-89 | definition of the jump loop: one move per table entry whose square is on the board and empty or an enemy, in table order; properties in `LeapsShape`, `LeapsSound`, `LeapsComplete` |
| MoveGen.LeapsShape | main.py:80-89 | a jump table gives at most one move per entry (at most 8 for knight and king); each move's destination is on the board, empty or an enemy, and differs from the origin by a listed offset; every such destination is generated |
| MoveGen.LeapsSound | main.py:82-89 | every leap starts on the origin, lands on an on-board empty or enemy square, and differs from the origin by a listed offset |
| MoveGen.LeapsComplete | main.py:82-89 | every table offset landing on an on-board empty or enemy square yields that move |
| MoveGen.JumpMoves | main.py:82-89 | the shared offset loop of `getKnightMoves` and `getKingMoves` returns exactly the leaps of its table |
| MoveGen.KnightMoves | main.py:76-91 | knight moves are the leaps of the eight (±1,±2)/(±2,±1) offsets in the source's order |
| MoveGen.KingMoves | main.py:106-121 | king moves are the leaps of the eight unit offsets in the source's order |
| MoveGen.Forward | main.py:54 | definition of `direction = -1 if isWhite else 1`: white pawns move toward rank 8 (row − 1), black toward rank 1 (row + 1) |
| MoveGen.PawnAdvance | main.py:54-61 | definition of the forward step: one row toward the opponent (row − 1 for white, row + 1 for black), only onto an on-board empty square |
| MoveGen.PawnCapture | main.py:65-71 | definition of one diagonal capture: the square one column aside and one row forward, only when it is on the board and holds an enemy |
| MoveGen.PawnCaptures | main.py:64-71 | definition of the capture loop: the captures for a list of column offsets, in list order |
| MoveGen.PawnMovesOf | main.py:50-73 | definition of a pawn's moves: the forward step followed by the captures for offsets −1 and then +1; properties in `PawnShape` |
| MoveGen.PawnShape | main.py:54-71 | at most three pawn moves, all one row forward (white toward rank 8, black toward rank 1); straight only onto an empty square; diagonal only onto an enemy, never onto an empty square; each qualifying square gets its move |
| MoveGen.PawnCapturePair | main.py:64-71 | the capture loop tries the square toward file a first, then the one toward file h, each only onto an enemy |
| MoveGen.PawnMoves | main.py:50-73 | `getPawnMoves` with its forward test and capture loop returns exactly the advance followed by the captures |
| MoveGen.MovesFrom | main.py:26-45 | definition of one square's moves: none for '.' or an enemy piece; otherwise the generator chosen by the lower-cased letter, and none for any other character; properties in `MovesFromSound` |
| MoveGen.RankMoves | main.py:24-45 | definition of the inner loop: the moves of the first n squares of a row, file a first |
| MoveGen.ScanMoves | main.py:23-45 | definition of the outer loop: the moves of the first n rows, rank 8 first |
| MoveGen.Generate | main.py:20-47 | definition of the move list `findPossibleMoves` returns, in scan order; properties in `GenerateSoundAndComplete` |
| MoveGen.MovesFromSound | main.py:28-45 | a square yields moves only if it holds one of the mover's six pieces; its moves start there and land on empty or enemy squares |
| MoveGen.RankMovesSound | main.py:24-45 | every move from a rank prefix starts on that rank, on a square holding the mover's piece, and is that square's move |
| MoveGen.ScanMovesSound | main.py:23-45 | every move from the scanned rows has an origin holding the mover's piece and a non-friendly target |
| MoveGen.RankMovesComplete | main.py:24-45 | every move of a square in the rank prefix appears in the rank's list |
| MoveGen.ScanMovesComplete | main.py:23-45 | every move of a square in the scanned rows appears in the scan |
| MoveGen.GenerateSoundAndComplete | main.py:20-47 | the generated list contains exactly the per-square moves: each origin holds a piece of the side to move, no destination holds a friendly piece or is the origin, and every square's moves appear |
| MoveGen.PieceMoves | main.py:33-45 | the dispatch on the lower-cased piece letter calls the matching generator; other letters give nothing |
| MoveGen.FindPossibleMoves | main.py:4-47 | the nested scan with its skip rule returns `Generate` on the board, with white meaning `turn == "w"` and anything else black; every move has an own-piece origin and a non-friendly on-board destination |
| MoveGen.RankMovesIdle | main.py:28-30 | squares holding nothing of the mover's add nothing to a rank's moves |
| MoveGen.ScanMovesIdle | main.py:23-30 | ranks holding nothing of the mover's add nothing to the scan |
| MoveGen.RaysBlocked | main.py:132-141 | a slider whose first square in every direction is off the board or blocked has no moves |
| MoveGen.LeapsBlocked | main.py:85-89 | a jumper whose every target is off the board or blocked has no moves |
| MoveGen.LoneMover | main.py:23-45 | when one square holds the only piece of the side to move, the scan yields exactly that piece's moves |
| MoveGen.HemmedPieceIsStuck | main.py:38-45 | a bishop, rook, queen or king surrounded by the board edge and blockers has no moves |
| Fen.Split | main.py:173-174 | Python's `str.split(sep)` always gives at least one piece; the pieces are the text between separators (see `JoinSplit`, `SplitNoSeparator`) |
| Fen.JoinSplit | main.py:173-174 | joining the pieces of a split with the separator restores the text |
| Fen.SplitJoin | main.py:173-174 | splitting a join of separator-free pieces gives the pieces back |
| Fen.SplitAfter | main.py:173-174 | a separator-free piece followed by the separator splits off as the first piece, and the rest is split on its own |
| Fen.SplitNoSeparator | main.py:173-174 | no piece of a split contains the separator |
| Fen.CellsOf | main.py:189-197 | definition of what one segment character stands for: a digit '1'..'8' gives that many '.' cells, any other character one cell holding it; at least one cell either way |
| Fen.Expand | main.py:184-199 | definition of all the cells a segment stands for, character by character; properties in `ExpandAppend`, `ExpandCharacter`, `ExpandNoDigits`, `ExpandSegment` |
| Fen.DigitValue | main.py:193-195 | a rank digit '1'..'8' stands for 1 to 8 empty squares |
| Fen.ExpandAppend | main.py:184-199 | the cells of two segments written one after the other are the cells of the first followed by those of the second |
| Fen.ExpandCharacter | main.py:189-199 | within a segment, a digit N yields N consecutive '.' cells and any other character is stored verbatim in the next cell |
| Fen.ExpandNoDigits | main.py:196-197 | a segment without digits is stored verbatim |
| Fen.ExpandSegment | main.py:185-199 | the per-rank loop with its `index` and `numberCounter` cursors returns Some exactly when the segment stands for at least eight cells, and then the first eight cells of `Expand` of the segment, so whatever it stands for beyond eight cells is dropped; otherwise it returns None, where Python indexes past the segment's end |
| Fen.Fields | main.py:173-176 | definition of `data`: the '/'-pieces of the first space-separated field, followed by the other space-separated fields |
| Fen.Placement | main.py:181-199 | definition of the squares from the first n entries of `data`: the first eight cells of each, rank 8 first; 8·n cells in all |
| Fen.PlacementAt | main.py:184-199 | square (row, col) of the placement is cell col of segment row, so each of the 64 squares is assigned exactly once |
| Fen.FileStrings | main.py:207-212 | definition of the 'a-file' .. 'h-file' strings: file c's string is column c's cells from rank 8 down to rank 1 |
| Fen.RankStrings | main.py:214-219 | definition of the 'rank-8' .. 'rank-1' strings: rank r's string is row r's cells from file a to file h |
| Fen.SummariesTranspose | main.py:207-219 | the 8 file strings and the 8 rank strings have 8 cells each; file c at position r and rank r at position c are both square (r, c) |
| Fen.RanksCoverBoard | main.py:214-219 | the eight rank strings in order are the whole board |
| Fen.Summaries | main.py:207-219 | the two accumulation loops build exactly the file strings (rank 8 first) and the rank strings (file a first) |
| Fen.Decode | main.py:172-221 | definition of the dictionary `turnIntoDict` returns, or None where it raises `IndexError`; properties in `DecodeMeaning`, `DecodeWellFormed`, `DecodeShortSegment`, `DecodeMissingFields` |
| Fen.DecodeMeaning | main.py:172-221 | decoding succeeds iff `data` has at least 13 entries and each of its first eight segments stands for at least eight cells; then the squares are the segments' cells, the five metadata fields are `data[8..12]` verbatim, and the summaries are the board's files and ranks |
| Fen.FieldsOfJoin | main.py:173-176 | for a FEN built from '/'-free segments and space-free fields, `data` is the segments followed by the fields |
| Fen.DecodeWellFormed | main.py:184-205 | a FEN of eight separator-free segments, each standing for at least eight cells, and at least five separator-free fields decodes to the segments' cells, with side to move, castling, en passant and the two clocks copied unvalidated |
| Fen.DecodeShortSegment | main.py:193 | a segment standing for fewer than eight cells makes the decoder fail |
| Fen.DecodeMissingFields | main.py:201-205 | fewer than five fields after the placement make the decoder fail |
| Fen.TurnIntoDict | main.py:172-221 | `turnIntoDict` with its loops returns `Decode` of the text |
| StartPosition.StartFenLiteral | main.py:227 | the default FEN, built from its segments and fields, is exactly the text "rnbqkbnr/pppppppp/8/8/8/8/PPPPPPPP/RNBQKBNR w KQkq - 0 1" |
| StartPosition.DecodeStart | main.py:227 | the default FEN decodes to the standard start with white to move, castling "KQkq", no en-passant square and clocks "0" and "1" |
| StartPosition.StartKnight | main.py:76-91 | a white knight on b1 or g1 of the start board has exactly the two moves onto rank 3, toward file a first |
| StartPosition.StartPositionMoves | main.py:4-47 | from the start board white has exactly twelve moves: the eight single pawn steps a2-a3 .. h2-h3, then b1-a3, b1-c3, g1-f3, g1-h3 |
| StartPosition.DefaultRun | main.py:227-230 | decoding the default FEN and generating for the side it names gives those twelve moves |
| Positions.RookScenario | main.py:148-169 | a white rook on d4 with a black pawn on d7 has thirteen moves in table order (toward a, toward h, up to the capture on d7, down to d1); exactly one, d4-d7, is a capture |
| Positions.PawnScenario | main.py:50-73 | with a white pawn on e4 and a black pawn on d5, white gets e4-e5 and e4-d5 (not f5), and black gets d5-d4 and d5-e4 |

## Left out

- The console code at main.py:223-232 (`input`, the 'N'/'NO' choice, `print`) is I/O. The default FEN appears only as the constant `StartFen`.
- Moves are coordinate pairs. The `"sq-sq"` f-strings are modelled by `Render`, and `RenderInjective` shows nothing is lost. The generators' `letters.index`/`numbers.index` lookups become integer coordinates.
- `islower`, `isupper` and `lower` are modelled for ASCII only. The source's Unicode behaviour on non-ASCII cell characters is not modelled.
- The dictionary is a datatype with named fields, not a map keyed by `'e4'`, `'turn'` or `'a-file'`. Square keys become grid indices; `files[c]` is `'X-file'`; `ranks[r]` is `'rank-N'`.
- Where Python raises `IndexError`, the model returns `None`. That happens when one of the first eight entries of `data` stands for fewer than eight cells (an empty or short segment), when `data` has fewer than eight entries, or when it has fewer than 13. Exceptions as such are not modelled.
- Because `data = rows + parts[1:]` (main.py:176) and the ranks are `data[:8]` (main.py:181), the number of '/' segments shifts everything after them, in the source and in the model alike, with nothing flagged:
  - more than eight segments: the extra segments are read as side to move, castling and so on;
  - fewer than eight segments: the following space-separated fields are read as the missing ranks, and the metadata comes from later fields.
- `StartFen` is written as its segments joined by '/' and its fields joined by ' '. `StartFenLiteral` proves it equal to the literal text at main.py:227.
- Decoding validates nothing, as in the code: a segment standing for more than eight cells is cut to its first eight, and any text is accepted as the side to move, the castling rights, the en-passant square or a clock.
- The code has no two-square pawn advance, so white has twelve moves from the start position (`StartPosition.StartPositionMoves`), not the twenty of standard chess.
- Black's twelve moves from the start position are not stated as a scenario. The colour rule is covered by `FindPossibleMoves` and `Positions.PawnScenario`.
