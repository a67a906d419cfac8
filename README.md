# chess_logic in Dafny

A verified model of the engine in `chess_logic/src/lib.rs`. The engine is a Rust chess library whose position (`GAME`) is a
64-byte board, with one byte per square: a type bit (pawn 1, knight 2, bishop 4, rook 8, queen 16, king 32) plus a
colour bit (white 64, black 128). It also holds the side to move, two en-passant squares and four castling flags.

The model covers:

- the twelve piece predicates;
- the distance-to-edge table;
- the square-name parser;
- the six move generators and their dispatcher;
- the move executor;
- the FEN loader;
- `init_game`.

It follows the code as written, quirks included. The model takes Rust's debug-build semantics, where an arithmetic
overflow, an out-of-range index or an `unwrap` on `None` aborts it. Each of these is an explicit `Panic(reason)`
result (`Results.Result`), never a precondition.

Modules, one per part of the source:

- `Results`: the `Ok`/`Panic` outcome shared by all modules.
- `Pieces`: the byte encoding and the twelve `is_<colour>_<type>` predicates.
- `Geometry`: square index `rank * 8 + file`, the direction offsets and `tiles_to_the_edge`. The generators' offset
  walks are proved against rank/file geometry here.
- `Notation`: `algebraic_notation_to_memory_location`.
- `MoveGen`: the king, knight, queen, rook and bishop generators as read-only methods with loops. The pawn mask and
  the dispatcher are defined here as functions.
- `Chess`:
  - `Position`, the value of a game, and `Move`, what one executor call does to it;
  - the class `Game` with the fields of `GAME`, whose methods are proved to behave as those functions say. These are
    the dispatcher, the pawn generator (which writes `potential_tile_to_un_passant`), the executor, the FEN loader
    and `init_game`.
- `MoveLaws`: what the executor does and leaves alone, plus a few worked positions.
- `Fen`: the FEN loader as pure functions. It covers the whitespace split, the four fields it reads and the walk over
  the piece placement. It also proves what a well-formed FEN loads to, including the documentation example and the
  position `init_game` loads.

## Model

| member | source | states |
|---|---|---|
| Pieces.PredicateIsBitTest | chess_logic/src/lib.rs:18-101 | each `is_<colour>_<type>` holds exactly when the byte has that type bit and that colour bit |
| Pieces.ExactlyOnePredicateHolds | chess_logic/src/lib.rs:5-109 | on a byte built as type + colour, exactly one of the twelve predicates holds, the one for that type and colour |
| Pieces.NoPredicateHoldsOnEmpty | chess_logic/src/lib.rs:18-101 | on the empty square (0) none of the twelve holds |
| Pieces.Decode | chess_logic/src/lib.rs:5-109 | a byte read back as (type, colour) re-encodes to itself; the empty square reads as no piece |
| Pieces.DecodeEncode | chess_logic/src/lib.rs:5-109 | encoding a type and colour and reading it back gives the same type and colour |
| Geometry.TilesToTheEdge | chess_logic/src/lib.rs:125-149 | the nested loops fill row rank*8+file with [rank, 7-rank, file, 7-file] and the four diagonal minima |
| Geometry.EdgeTableShape | chess_logic/src/lib.rs:125-149 | every entry is at most 7, opposite distances add up to 7, each diagonal is the minimum of its two orthogonals |
| Geometry.StepsWithinDistanceStayOnBoard | chess_logic/src/lib.rs:125-149 | k steps in direction d stay on the board exactly when k is at most the table entry, so no walk wraps around a file edge |
| Geometry.StepIndex | chess_logic/src/lib.rs:286 | within the table distance, `square + k * offset` is the square k rank and file steps away |
| Geometry.StepOnRay | chess_logic/src/lib.rs:302-331 | each step of a ray walk lies in that direction at exactly that distance |
| Geometry.RayOfSquare | chess_logic/src/lib.rs:302-331 | conversely every square on a line through the origin is reached by the walk, within the table distance |
| Notation.AlgebraicNotationToMemoryLocation | chess_logic/src/lib.rs:188-203 | the character loop returns what the scan `SquareIndex` gives, including its two panics: a letter past h, and a usize overflow |
| Notation.ScanKeepsLastLetterAndDigit | chess_logic/src/lib.rs:188-203 | when every letter is a file letter, the last letter sets the file and the last digit sets the rank; otherwise the parse panics |
| Notation.NameToSquare | chess_logic/src/lib.rs:188-203 | a file letter a-h in either case and a digit 1-8 give (8 - digit) * 8 + file, always on the board, and that square's name gives the lower-case name back |
| Notation.SquareNameRoundTrip | chess_logic/src/lib.rs:188-203 | every square's name parses back to that square |
| Notation.Corners | chess_logic/src/lib.rs:188-203 | "a8" is square 0 and "h1" is square 63 |
| Notation.OutOfRangeDigits | chess_logic/src/lib.rs:197-202 | the digit 0 yields 64, one past the board; the digit 9 overflows usize and panics |
| MoveGen.KingMovementFromTile | chess_logic/src/lib.rs:278-300 | exactly the neighbouring squares that hold no piece of the king's colour are marked |
| MoveGen.KnightGateMeansOnBoard | chess_logic/src/lib.rs:395-478 | each knight offset's N/E/S/W threshold pair holds exactly when the jump stays on the board, and then the index sum is a true (1,2)/(2,1) jump |
| MoveGen.KnightMovementFromTile | chess_logic/src/lib.rs:395-478 | exactly the (1,2)/(2,1) jumps that land on the board and hold no piece of the knight's colour are marked |
| MoveGen.SlidingMovementFromTile | chess_logic/src/lib.rs:302-393 | a square is marked exactly when it lies on one of the piece's lines, every square before it on that line is empty and it holds no friendly piece |
| MoveGen.QueenMovementFromTile | chess_logic/src/lib.rs:302-331 | the queen mask is the sliding mask over all eight directions |
| MoveGen.RookMovementFromTile | chess_logic/src/lib.rs:333-362 | the rook mask is the sliding mask over N, S, W, E |
| MoveGen.BishopMovementFromTile | chess_logic/src/lib.rs:364-393 | the bishop mask is the sliding mask over the four diagonals |
| MoveGen.QueenIsRookUnionBishop | chess_logic/src/lib.rs:302-393 | the queen's mask is the union of the rook's and the bishop's |
| MoveGen.SlidingTargetsOnLines | chess_logic/src/lib.rs:333-393 | rook targets share the origin's rank or file, bishop targets a diagonal, and neither is the origin |
| MoveGen.LoneRookOnD5 | chess_logic/src/lib.rs:333-362 | a rook alone on square 27 reaches exactly the 14 other squares of its rank and file |
| MoveGen.LoneKnightInCorner | chess_logic/src/lib.rs:395-478 | a knight alone on square 0 reaches exactly squares 10 and 17 |
| Chess.Game.AvailableMovesForPiece | chess_logic/src/lib.rs:260-276 | the mask of the generator of the highest type bit, all-true for a byte without one; only a pawn changes `potential` |
| Chess.Game.PawnMovementFromTile | chess_logic/src/lib.rs:480-580 | the mask is the single push onto an empty square, the double push from the start rank over two empty squares, and the diagonal captures onto an enemy or the en-passant square, nothing else; `potential` becomes the passed square exactly when the double push is open |
| Chess.Game.PawnPasses | chess_logic/src/lib.rs:493-573 | the three passes of the colour's loop build the slot-by-slot mask and set `potential` as above |
| Chess.Game.PawnSlotsMeaning | chess_logic/src/lib.rs:493-573 | after each pass the mask holds exactly the pawn targets of the slots done so far |
| Chess.Game.constructor | chess_logic/src/lib.rs:597-609 | a fresh game: empty board, white to move, both en-passant squares 100, no castling rights |
| Chess.Game.IsWhitesTurn | chess_logic/src/lib.rs:175-181 | true exactly when the turn has the white bit |
| Chess.Game.GetBoard | chess_logic/src/lib.rs:155-157 | the 64 squares of the board |
| Chess.Game.MovePieceFromTo | chess_logic/src/lib.rs:205-258 | parses both names, then the result and the new position are those of `Move`, with a parse panic first |
| Chess.Game.MoveOnBoard | chess_logic/src/lib.rs:208-257 | the returned flag, the new board, turn, en-passant squares and castling rights are exactly those of `Move`, or the same panic |
| Chess.Game.CheckMove | chess_logic/src/lib.rs:211-225 | accepts exactly when the piece has the colour of the side to move and its mask marks the target; the generator runs regardless |
| Chess.Game.EnPassantUpdate | chess_logic/src/lib.rs:227-246 | performs `EnPassantBookkeeping`: clears the square behind the en-passant square on a diagonal pawn move, publishes `potential` on a double advance, resets to 100 for any other piece, with the usize/u8 panics |
| Chess.Game.Relocate | chess_logic/src/lib.rs:248-256 | empties the from-square, puts the piece on the to-square and flips the turn |
| Chess.ClearSquare | chess_logic/src/lib.rs:230-238 | `board[(available ± 8) as usize] = 0` panics on u8 overflow or an index past 63, otherwise clears that square |
| MoveLaws.AcceptedExactly | chess_logic/src/lib.rs:205-258 | the executor returns true exactly when both indices are on the board, colour test and mask accept, and the bookkeeping does not panic |
| MoveLaws.OffBoardPanics | chess_logic/src/lib.rs:208-221 | an index off the board panics |
| MoveLaws.RefusedMoveKeepsPosition | chess_logic/src/lib.rs:219-225 | a refused move leaves board, turn, en-passant square and castling rights unchanged; only `potential` may change |
| MoveLaws.OnlyTheSideToMoveMoves | chess_logic/src/lib.rs:212-218 | an empty square or a piece of the side not to move is never moved |
| MoveLaws.AcceptedMoveEffects | chess_logic/src/lib.rs:227-256 | after an accepted move the piece is on the target, its square is empty, only the en-passant victim square also changes, the turn flips, castling stays, and the en-passant square is 100 after a non-pawn move, `potential` after a double advance, and unchanged otherwise |
| MoveLaws.TurnAlternates | chess_logic/src/lib.rs:251-255 | when the turn is white or black, an accepted move negates `is_whites_turn`, and two accepted moves hand the turn back to the side that started |
| MoveLaws.AcceptedDoubleAdvancePublishes | chess_logic/src/lib.rs:227-246 | an accepted two-square advance of a pawn makes the square it passed over, (from + to) / 2, the new en-passant square |
| MoveLaws.WhitePawnBeforePromotionPanics | chess_logic/src/lib.rs:228-235 | every accepted white pawn move from squares 8-15 panics (`from_tile - 16` underflows) |
| MoveLaws.WhiteDiagonalNeedsEnPassantSquare | chess_logic/src/lib.rs:228-232 | an accepted white diagonal pawn move panics exactly when the en-passant square is 56 or more, so also for the values 100 and 63 |
| MoveLaws.EnPassantScenario | chess_logic/src/lib.rs:205-258 | e2-e4 publishes square 44, and d4xe3 en passant then removes the white pawn on 36 |
| MoveLaws.RefusedPawnMoveWritesPotential | chess_logic/src/lib.rs:219 | a pawn move refused by the colour test still sets `potential` to the passed square |
| Fen.WordLength | chess_logic/src/lib.rs:653 | the length of the leading run of non-whitespace: all of it non-whitespace, and whitespace right after |
| Fen.Fields | chess_logic/src/lib.rs:653 | `split_whitespace`: every field is non-empty and contains no whitespace |
| Fen.FieldsOfJoin | chess_logic/src/lib.rs:653 | splitting fields joined by single spaces gives the fields back |
| Fen.ParseDecimal | chess_logic/src/lib.rs:697 | every u8 written in decimal, with or without a leading '+', parses back to itself |
| Fen.CastlingMeaning | chess_logic/src/lib.rs:679-691 | right k is on after the field exactly when it was on before or its letter (K, Q, k, q) occurs in the field |
| Fen.EnPassantFieldReadings | chess_logic/src/lib.rs:692-698 | worked examples: "-" and "e3-e4" give 63, "44" gives 44, the square name "e3" and the number "256" panic |
| Fen.EnPassantDash | chess_logic/src/lib.rs:694-695 | every field containing '-', wherever it stands, gives 63 |
| Fen.EnPassantNumber | chess_logic/src/lib.rs:696-697 | the decimal digits of n give n when n fits in a u8, and the `unwrap` panics for every n from 256 on |
| Fen.LaterFieldsIgnored | chess_logic/src/lib.rs:699-703 | the fifth and later fields change nothing |
| Fen.PlaceAppend | chess_logic/src/lib.rs:711-727 | walking s + t is walking s, then t from where s ended, with a panic in s ending the walk |
| Fen.PlaceRank | chess_logic/src/lib.rs:711-727 | a rank description of known letters and at most 8 squares writes each letter's byte on its square, leaves skipped squares as they were, and advances the file by the squares it describes |
| Fen.RanksAreWords | chess_logic/src/lib.rs:653 | rank descriptions joined by '/' form a single field |
| Fen.BoardSquare | chess_logic/src/lib.rs:711-727 | square i of the loaded board is the piece the description of rank i/8 puts on file i%8, or the old square when it puts none |
| Fen.PlaceBoard | chess_logic/src/lib.rs:711-727 | walking well-formed ranks joined by '/' never panics and lays every rank on its own row, top row first |
| Fen.LoadFenMeaning | chess_logic/src/lib.rs:649-729 | a FEN of well-formed ranks, a side, castling letters, an accepted en-passant field and any further fields loads those ranks onto the board, sets the turn for "w"/"b", adds the castling rights and returns the en-passant value |
| Fen.BoardOfRows | chess_logic/src/lib.rs:711-727 | on an empty board eight rank descriptions load as their eight rows one after another |
| Fen.BlackPieceBytes | chess_logic/src/lib.rs:719-723 | lower-case letters write type + 128: p 129, n 130, b 132, r 136, q 144, k 160 |
| Fen.WhitePieceBytes | chess_logic/src/lib.rs:719-723 | upper-case letters write type + 64: P 65, N 66, B 68, R 72, Q 80, K 96 |
| Fen.LoadsAsRows | chess_logic/src/lib.rs:649-729 | eight placeable ranks followed by "w KQkq - 0 1" load onto an empty board as their rows, white to move, all four rights, en-passant 63 |
| Fen.StandardRows | chess_logic/src/lib.rs:645 | the standard ranks' rows are the array the documentation example expects |
| Fen.StandardFenLoads | chess_logic/src/lib.rs:631-647 | the standard FEN loads onto an empty board as that documented array, white to move, all four castling rights, en-passant 63 |
| Fen.StartingRows | chess_logic/src/lib.rs:627 | the ranks of STARTINGFEN give the standard rows with a white pawn on 30 and a black pawn on 38 |
| Fen.StartingFenLoads | chess_logic/src/lib.rs:597-627 | STARTINGFEN on init_game's empty board loads that board, white to move, all four castling rights, en-passant 63 |
| Chess.Game.SetCastlingRights | chess_logic/src/lib.rs:679-691 | the loop over the castling field leaves the rights that `CastlingFrom` computes |
| Chess.Game.ReadField | chess_logic/src/lib.rs:665-706 | one pass of the field loop does what `ApplyField` says, storing turn and castling rights in the game |
| Chess.Game.PlacePieces | chess_logic/src/lib.rs:708-727 | the placement loop returns the board `Place` computes, or the same panic, checked in the source's order |
| Chess.Game.LoadPositionFromFen | chess_logic/src/lib.rs:649-729 | the returned board and en-passant square, and the stored turn and castling rights, are those of `LoadFen`, or the same panic |
| Chess.Game.InitGame | chess_logic/src/lib.rs:597-624 | a fresh game holding what `LoadFen` gives for STARTINGFEN, with `potential` 100 |

## Left out

- `draw_movement_board` and every `println!`, including the one in `init_game` (lib.rs:582-595, 623). They only write
  to stdout.
- The check, draw and check-mate flags and their getters, including `get_game_status` (lib.rs:119-121, 163-185).
  Nothing ever sets them.
- The move history `moves` and `get_played_moves` (lib.rs:115, 159-161). Nothing ever appends to it.
- Castling legality. The castling flags are parsed and stored but nothing reads them.
- The halfmove and fullmove FEN fields. They are read and discarded, which `Fen.LaterFieldsIgnored` states.
- The GUI crate `chess_gui`: window, images, drawing and floating-point pixel maths.
- The state a panic leaves behind. The Rust process aborts, so the model returns `Panic` and says nothing about the
  fields afterwards.
- Release-build wrap-around. Only the debug profile, where overflow panics, is modelled.
- Character classes beyond ASCII. `is_alphabetic`, `is_uppercase` and `to_lowercase` are modelled for ASCII only,
  and `is_digit(10)` is exact. A non-ASCII letter in a square name or a FEN placement is outside the model.
  Whitespace for `split_whitespace` is the full Unicode White_Space set.
- Fen.LoadFenMeaning: the i32 field counter `parts_index` is unbounded in the model, so a FEN with more than 2^31
  fields is not covered.
- Chess.Game.PlacePieces: the copy of the board is a local sequence rather than an array. The source copies
  `game.board` by value, so no aliasing is lost.
- Chess.Game.PawnPasses: the white and black loops of the source (lib.rs:493-531, 533-573) are one method. It takes
  the first distance-table index (0 for white, 3 for black, the `index` against `index + 3` of lib.rs:498 and 540)
  and the enemy colour. The mover's colour gives the rest through `Forward` and `StartRank`: the offsets, the start
  rank test (lib.rs:507 against 549) and the side of the target on which the passed square lies (lib.rs:508-510
  against 550-552).
- The documentation example (lib.rs:631-647) passes a board where the loader takes a game. `Fen.StandardFenLoads`
  states its expected array against the loader's real signature, on a fresh game's empty board.
