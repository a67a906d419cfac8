/** The position (`GAME`, chess_logic/src/lib.rs:111-122) and the move
    executor `move_piece_from_to` (lib.rs:205-258) with the two generators that
    need the position itself: the dispatcher `available_moves_for_piece`
    (lib.rs:260-276) and the pawn generator (lib.rs:480-580), which writes
    `potential_tile_to_un_passant` while computing its mask.

    `Position` is the value of a game; `Move` is what one call of the executor
    does to it.  The class `Game` holds the same state in mutable fields and its
    methods are proved to behave as `Move` says. */
module Chess {

  import opened Results
  import opened Pieces
  import opened Geometry
  import opened MoveGen
  import opened Notation
  import Fen

  /** "No en-passant square" (lib.rs:245, 603-604). */
  const NO_EN_PASSANT: Byte := 100

  datatype Position = Position(
    board: seq<Byte>,    // the 64 squares
    turn: Byte,          // WHITE or BLACK
    available: Byte,     // tile_available_to_un_passant
    potential: Byte,     // potential_tile_to_un_passant
    castling: seq<bool>) // chastling_ability: K, Q, k, q
  {
    predicate Valid() {
      |board| == 64 && |castling| == 4
    }

    predicate WhiteToMove() {
      turn & WHITE > 0
    }
  }

  /** The colour test of lib.rs:212-218: the piece carries the colour bit of
      the side to move. */
  predicate ColourToMove(turn: Byte, piece: Byte) {
    (turn & WHITE > 0 && piece & WHITE > 0) || (turn & BLACK > 0 && piece & BLACK > 0)
  }

  /** lib.rs:251-255: anything but WHITE becomes WHITE. */
  function Flip(turn: Byte): Byte {
    if turn == WHITE then BLACK else WHITE
  }

  /** `board[(available ± 8) as usize] = NONE` with u8 arithmetic (lib.rs:231, 238). */
  function ClearSquare(board: seq<Byte>, index: int): (r: Result<seq<Byte>>)
    requires |board| == 64
    ensures r.Ok? ==> 0 <= index < 64 && r.value == board[index := NONE]
    ensures r.Panic? ==> !(0 <= index < 64)
  {
    if index < 0 || index > 255 then Panic(ArithmeticOverflow)
    else if index >= 64 then Panic(IndexOutOfBounds)
    else Ok(board[index := NONE])
  }

  /** Whether an accepted move of `piece` is a "diagonal pawn move" in the
      source's sense (lib.rs:230, 237): the index differs by 7 or 9. */
  predicate PawnDiagonal(piece: Byte, from: int, to: int) {
    piece & PAWN > 0 &&
    if piece & WHITE > 0 then to == from - 7 || to == from - 9
    else piece & BLACK > 0 && (to == from + 7 || to == from + 9)
  }

  /** The en-passant bookkeeping of lib.rs:228-246 for an accepted move: the
      board after clearing the captured square, and the new available square.
      Every comparison is on usize, so `from - 7`, `from - 9` and `from - 16`
      panic when they would go below zero. */
  function EnPassantBookkeeping(board: seq<Byte>, piece: Byte, from: int, to: int, available: Byte, potential: Byte)
    : Result<(seq<Byte>, Byte)>
    requires |board| == 64 && 0 <= from < 64 && 0 <= to < 64
  {
    if piece & PAWN > 0 then
      if piece & WHITE > 0 then
        if from < 7 then Panic(ArithmeticOverflow)
        else if to != from - 7 && from < 9 then Panic(ArithmeticOverflow)
        else
          var cleared :-
            if to == from - 7 || to == from - 9 then ClearSquare(board, available as int + 8) else Ok(board);
          if from < 16 then Panic(ArithmeticOverflow)
          else Ok((cleared, if to == from - 16 then potential else available))
      else if piece & BLACK > 0 then
        var cleared :-
          if to == from + 7 || to == from + 9 then ClearSquare(board, available as int - 8) else Ok(board);
        Ok((cleared, if to == from + 16 then potential else available))
      else Ok((board, available))
    else Ok((board, NO_EN_PASSANT))
  }

  /** One call of the executor on board indices: the boolean it returns and
      the position it leaves, or the panic. */
  function Move(p: Position, from: nat, to: nat): Result<(bool, Position)>
    requires p.Valid()
  {
    if from >= 64 then Panic(IndexOutOfBounds)
    else
      var piece := p.board[from];
      var mask := AvailableMoves(p.board, piece, from, p.available);
      var potential := PotentialAfter(p.board, piece, from, p.potential);
      if to >= 64 then Panic(IndexOutOfBounds)
      else if !(mask[to] && ColourToMove(p.turn, piece)) then Ok((false, p.(potential := potential)))
      else
        var bookkept :- EnPassantBookkeeping(p.board, piece, from, to, p.available, potential);
        Ok((true, Position(bookkept.0[from := NONE][to := piece], Flip(p.turn), bookkept.1, potential, p.castling)))
  }

  /** A move the colour test or the generator refuses changes nothing but
      the potential en-passant square the pawn generator may have written. */
  lemma MoveRejected(p: Position, from: nat, to: nat)
    requires p.Valid() && from < 64 && to < 64
    requires !(AvailableMoves(p.board, p.board[from], from, p.available)[to] && ColourToMove(p.turn, p.board[from]))
    ensures Move(p, from, to) == Ok((false, p.(potential := PotentialAfter(p.board, p.board[from], from, p.potential))))
  {
  }

  /** An accepted move does the bookkeeping, empties the from-square, puts
      the piece on the to-square and hands the turn over. */
  lemma MoveAccepted(p: Position, from: nat, to: nat, cleared: seq<Byte>, available: Byte)
    requires p.Valid() && from < 64 && to < 64
    requires AvailableMoves(p.board, p.board[from], from, p.available)[to] && ColourToMove(p.turn, p.board[from])
    requires EnPassantBookkeeping(p.board, p.board[from], from, to, p.available,
                                  PotentialAfter(p.board, p.board[from], from, p.potential)) == Ok((cleared, available))
    ensures Move(p, from, to) ==
      Ok((true, Position(cleared[from := NONE][to := p.board[from]], Flip(p.turn), available,
                         PotentialAfter(p.board, p.board[from], from, p.potential), p.castling)))
  {
  }

  /** A panic in the bookkeeping of an accepted move is the panic of the move. */
  lemma MoveBookkeepingPanics(p: Position, from: nat, to: nat)
    requires p.Valid() && from < 64 && to < 64
    requires AvailableMoves(p.board, p.board[from], from, p.available)[to] && ColourToMove(p.turn, p.board[from])
    requires EnPassantBookkeeping(p.board, p.board[from], from, to, p.available,
                                  PotentialAfter(p.board, p.board[from], from, p.potential)).Panic?
    ensures Move(p, from, to) ==
      Panic(EnPassantBookkeeping(p.board, p.board[from], from, to, p.available,
                                 PotentialAfter(p.board, p.board[from], from, p.potential)).reason)
  {
  }

  /** `move_piece_from_to` on square names. */
  function MoveFromTo(p: Position, fromName: string, toName: string): Result<(bool, Position)>
    requires p.Valid()
  {
    var from :- SquareIndex(fromName);
    var to :- SquareIndex(toName);
    Move(p, from, to)
  }

  /** The pawn offsets of lib.rs:486: three forward for white, three for black. */
  const PAWN_OFFSETS: seq<int> := [-9, -8, -7, 9, 8, 7]

  class Game {
    var distances: seq<seq<nat>>  // computed_distances
    var board: array<Byte>
    var turn: Byte
    var available: Byte           // tile_available_to_un_passant
    var potential: Byte           // potential_tile_to_un_passant
    var castling: array<bool>     // chastling_ability

    ghost predicate Valid()
      reads this
    {
      IsEdgeTable(distances) && board.Length == 64 && castling.Length == 4
    }

    ghost function Model(): (p: Position)
      reads this, board, castling
      requires Valid()
      ensures p.Valid()
    {
      Position(board[..], turn, available, potential, castling[..])
    }

    /** The struct literal of init_game (lib.rs:598-609): empty board, white
        to move, no en-passant square, no castling rights. */
    constructor ()
      ensures Valid() && fresh(board) && fresh(castling)
      ensures Model() == Position(seq(64, _ => NONE), WHITE, NO_EN_PASSANT, NO_EN_PASSANT, [false, false, false, false])
    {
      var table := TilesToTheEdge();
      distances := table;
      board := new Byte[64](_ => NONE);
      turn := WHITE;
      available := NO_EN_PASSANT;
      potential := NO_EN_PASSANT;
      castling := new bool[4](_ => false);
    }

    /** is_whites_turn (lib.rs:175-181). */
    function IsWhitesTurn(): (r: bool)
      reads this, board, castling
      requires Valid()
      ensures r == Model().WhiteToMove()
    {
      turn & WHITE > 0
    }

    /** get_board (lib.rs:155-157). */
    function GetBoard(): (r: seq<Byte>)
      reads this, board, castling
      requires Valid()
      ensures r == Model().board && |r| == 64
    {
      board[..]
    }

    /** available_moves_for_piece (lib.rs:260-276): the generator chosen by
        the highest type bit, and an all-true mask for a piece with none.
        Only the pawn generator touches the game, and only `potential`. */
    method AvailableMovesForPiece(piece: Byte, tile: int) returns (moves: seq<bool>)
      requires Valid() && 0 <= tile < 64
      modifies this`potential
      ensures moves == AvailableMoves(board[..], piece, tile, available)
      ensures potential == PotentialAfter(board[..], piece, tile, old(potential))
    {
      moves := seq(64, _ => true);
      if piece & KING > 0 {
        moves := KingMovementFromTile(board[..], piece, tile, distances);
        assert moves == KingMask(board[..], piece, tile);
      } else if piece & QUEEN > 0 {
        moves := QueenMovementFromTile(board[..], piece, tile, distances);
      } else if piece & ROOK > 0 {
        moves := RookMovementFromTile(board[..], piece, tile, distances);
      } else if piece & BISHOP > 0 {
        moves := BishopMovementFromTile(board[..], piece, tile, distances);
      } else if piece & KNIGHT > 0 {
        moves := KnightMovementFromTile(board[..], piece, tile, distances);
        assert moves == KnightMask(board[..], piece, tile);
      } else if piece & PAWN > 0 {
        moves := PawnMovementFromTile(piece, tile);
      }
    }

    /** move_piece_from_to (lib.rs:205-258): parse both square names, then
        make the move on board indices.  A Rust panic is the `Panic` result;
        the state it leaves is not specified. */
    method MovePieceFromTo(fromName: string, toName: string) returns (r: Result<bool>)
      requires Valid()
      modifies this, board
      ensures Valid() && board == old(board) && castling == old(castling)
      ensures var expected := MoveFromTo(old(Model()), fromName, toName);
        (expected.Panic? ==> r == Panic(expected.reason)) &&
        (expected.Ok? ==> r == Ok(expected.value.0) && Model() == expected.value.1)
    {
      var fromIndex := AlgebraicNotationToMemoryLocation(fromName);
      if fromIndex.Panic? {
        return Panic(fromIndex.reason);
      }
      var toIndex := AlgebraicNotationToMemoryLocation(toName);
      if toIndex.Panic? {
        return Panic(toIndex.reason);
      }
      r := MoveOnBoard(fromIndex.value, toIndex.value);
    }

    /** The body of move_piece_from_to after parsing (lib.rs:208-257): run the
        generator of the piece on the from-square (whatever its colour), and
        when the piece belongs to the side to move and the generator marks
        the to-square, do the en-passant bookkeeping, move the piece and hand
        the turn over. */
    method MoveOnBoard(from: nat, to: nat) returns (r: Result<bool>)
      requires Valid()
      modifies this, board
      ensures Valid() && board == old(board) && castling == old(castling)
      ensures var expected := Move(old(Model()), from, to);
        (expected.Panic? ==> r == Panic(expected.reason)) &&
        (expected.Ok? ==> r == Ok(expected.value.0) && Model() == expected.value.1)
    {
      ghost var p := Model();
      if from >= 64 {
        return Panic(IndexOutOfBounds);
      }
      var piece := board[from];
      var checked := CheckMove(piece, from, to);
      if checked.Panic? {
        return Panic(checked.reason);
      }
      var valid := checked.value;
      if valid {
        var bookkept := EnPassantUpdate(piece, from, to);
        if bookkept.Panic? {
          MoveBookkeepingPanics(p, from, to);
          return Panic(bookkept.reason);
        }
        MoveAccepted(p, from, to, board[..], available);
        Relocate(piece, from, to);
      } else {
        MoveRejected(p, from, to);
      }
      r := Ok(valid);
    }

    /** The acceptance test of move_piece_from_to (lib.rs:211-225): the piece
        must carry the colour of the side to move and its generator, run
        whatever the colour, must mark the target square. */
    method CheckMove(piece: Byte, from: int, to: nat) returns (r: Result<bool>)
      requires Valid() && 0 <= from < 64 && piece == board[from]
      modifies this`potential
      ensures potential == PotentialAfter(board[..], piece, from, old(potential))
      ensures to >= 64 ==> r == Panic(IndexOutOfBounds)
      ensures to < 64 ==> r == Ok(AvailableMoves(board[..], piece, from, available)[to] && ColourToMove(turn, piece))
    {
      var valid: bool;
      if turn & WHITE > 0 && piece & WHITE > 0 {
        valid := true;
      } else if turn & BLACK > 0 && piece & BLACK > 0 {
        valid := true;
      } else {
        valid := false;
      }
      var moves := AvailableMovesForPiece(piece, from);
      if to >= 64 {
        return Panic(IndexOutOfBounds);
      }
      valid := moves[to] && valid;
      r := Ok(valid);
    }

    /** The last steps of an accepted move (lib.rs:248-256): the piece leaves
        its square for the target square and the turn passes to the other
        side. */
    method Relocate(piece: Byte, from: int, to: int)
      requires Valid() && 0 <= from < 64 && 0 <= to < 64
      modifies this`turn, board
      ensures board[..] == old(board[..])[from := NONE][to := piece]
      ensures turn == Flip(old(turn))
    {
      board[from] := NONE;
      board[to] := piece;
      if turn == WHITE {
        turn := BLACK;
      } else {
        turn := WHITE;
      }
    }

    /** The en-passant bookkeeping of an accepted move (lib.rs:227-246), with
        the usize and u8 arithmetic that panics on the way. */
    method EnPassantUpdate(piece: Byte, from: int, to: int) returns (r: Result<()>)
      requires Valid() && 0 <= from < 64 && 0 <= to < 64
      modifies this`available, board
      ensures var expected := EnPassantBookkeeping(old(board[..]), piece, from, to, old(available), potential);
        (expected.Panic? ==> r == Panic(expected.reason)) &&
        (expected.Ok? ==> r.Ok? && board[..] == expected.value.0 && available == expected.value.1)
    {
      if piece & PAWN > 0 {
        if piece & WHITE > 0 {
          if from < 7 {
            return Panic(ArithmeticOverflow);
          }
          var diagonal := to == from - 7;
          if !diagonal {
            if from < 9 {
              return Panic(ArithmeticOverflow);
            }
            diagonal := to == from - 9;
          }
          if diagonal {
            var victim := available as int + 8;
            if victim > 255 {
              return Panic(ArithmeticOverflow);
            }
            if victim >= 64 {
              return Panic(IndexOutOfBounds);
            }
            board[victim] := NONE;
          }
          if from < 16 {
            return Panic(ArithmeticOverflow);
          }
          if to == from - 16 {
            available := potential;
          }
        } else if piece & BLACK > 0 {
          if to == from + 7 || to == from + 9 {
            var victim := available as int - 8;
            if victim < 0 {
              return Panic(ArithmeticOverflow);
            }
            if victim >= 64 {
              return Panic(IndexOutOfBounds);
            }
            board[victim] := NONE;
          }
          if to == from + 16 {
            available := potential;
          }
        }
      } else {
        available := NO_EN_PASSANT;
      }
      r := Ok(());
    }

    /** pawn_movement_from_tile (lib.rs:480-580). */
    method PawnMovementFromTile(piece: Byte, tile: int) returns (mask: seq<bool>)
      requires Valid() && 0 <= tile < 64
      modifies this`potential
      ensures mask == PawnMask(board[..], piece, tile, available)
      ensures potential == PawnPotential(board[..], piece, tile, old(potential))
    {
      var precomputed := distances;
      var unPassant := available;
      var b := board[..];
      var edges := [precomputed[tile][4], precomputed[tile][0], precomputed[tile][6],
                    precomputed[tile][5], precomputed[tile][1], precomputed[tile][7]];
      assert edges == PawnEdges(tile);
      if piece & WHITE > 0 {
        mask := PawnPasses(b, piece, tile, unPassant, edges, 0, BLACK);
      } else {
        mask := PawnPasses(b, piece, tile, unPassant, edges, 3, WHITE);
      }
      PawnSlotsComplete(b, piece, tile, unPassant, mask);
    }

    /** The three passes of the loop over `PAWN_OFFSETS[first..first + 3]`
        (lib.rs:493-531 for white, 533-573 for black). */
    method PawnPasses(b: seq<Byte>, piece: Byte, tile: int, unPassant: Byte, edges: seq<nat>, first: int, enemy: Byte)
      returns (mask: seq<bool>)
      requires |b| == 64 && 0 <= tile < 64 && edges == PawnEdges(tile)
      requires first == PawnSlotOf(piece, 0) && enemy == EnemyColour(piece)
      modifies this`potential
      ensures mask == PawnSlots(b, piece, tile, unPassant, 3)
      ensures potential == PawnPotential(b, piece, tile, old(potential))
    {
      var offsets := PAWN_OFFSETS;
      mask := seq(64, _ => false);
      for index := 0 to 3
        invariant mask == PawnSlots(b, piece, tile, unPassant, index)
        invariant index <= 1 ==> potential == old(potential)
        invariant index > 1 ==> potential == PawnPotential(b, piece, tile, old(potential))
      {
        var target := tile + offsets[index + first];
        if index == 0 || index == 2 {
          mask := DiagonalSlot(b, piece, tile, unPassant, index, enemy, edges, index + first, target, mask);
        } else {
          mask := ForwardSlot(b, piece, tile, unPassant, edges, index + first, target, mask);
        }
      }
    }

    /** One diagonal pass of the pawn loop (lib.rs:498-504, 520-526): the
        square is marked when it exists and holds an enemy piece or is the
        en-passant square. */
    static method DiagonalSlot(b: seq<Byte>, piece: Byte, tile: int, unPassant: Byte, index: int, enemy: Byte,
                               edges: seq<nat>, slot: int, target: int, mask: seq<bool>)
      returns (marked: seq<bool>)
      requires |b| == 64 && 0 <= tile < 64 && (index == 0 || index == 2) && enemy == EnemyColour(piece)
      requires edges == PawnEdges(tile) && slot == PawnSlotOf(piece, index) && target == tile + PAWN_OFFSETS[slot]
      requires mask == PawnSlots(b, piece, tile, unPassant, index)
      ensures marked == PawnSlots(b, piece, tile, unPassant, index + 1)
    {
      var edge := edges[slot];
      PawnTable(tile, edges);
      CaptureSlot(b, piece, tile, unPassant, index, edge, target, mask);
      marked := mask;
      if edge > 0 {
        if b[target] & enemy > 0 || target == unPassant as int {
          marked := marked[target := true];
        }
      }
    }

    /** The forward pass of the pawn loop (lib.rs:505-519, 541-555): one
        square ahead when empty, and from the starting rank two squares when
        both are empty, which also records the square passed over as the
        potential en-passant square. */
    method ForwardSlot(b: seq<Byte>, piece: Byte, tile: int, unPassant: Byte, edges: seq<nat>, slot: int, target: int,
                       mask: seq<bool>)
      returns (marked: seq<bool>)
      requires |b| == 64 && 0 <= tile < 64
      requires edges == PawnEdges(tile) && slot == PawnSlotOf(piece, 1) && target == tile + PAWN_OFFSETS[slot]
      requires mask == PawnSlots(b, piece, tile, unPassant, 1)
      modifies this`potential
      ensures marked == PawnSlots(b, piece, tile, unPassant, 2)
      ensures potential == PawnPotential(b, piece, tile, old(potential))
    {
      var edge := edges[slot];
      PawnTable(tile, edges);
      PushSlot(b, piece, tile, unPassant, edge, target, mask, potential);
      marked := mask;
      if edge > 0 {
        var start := if piece & WHITE > 0 then 47 < tile < 56 else 7 < tile < 16;
        var beyond := if piece & WHITE > 0 then target - 8 else target + 8;
        if start {
          if b[beyond] == NONE && b[target] == NONE {
            marked := marked[target := true][beyond := true];
            potential := target as Byte;
          } else if b[target] == NONE {
            marked := marked[target := true];
          }
        } else if b[target] == NONE {
          marked := marked[target := true];
        }
      }
    }

    /** A diagonal slot of the pawn loop adds its square exactly when the
        table distance allows it and it holds an enemy piece or is the
        en-passant square. */
    static lemma CaptureSlot(b: seq<Byte>, piece: Byte, tile: int, unPassant: Byte, index: int, edge: nat, target: int,
                             before: seq<bool>)
      requires |b| == 64 && 0 <= tile < 64 && (index == 0 || index == 2)
      requires before == PawnSlots(b, piece, tile, unPassant, index)
      requires edge > 0 <==> OnBoard(Rank(tile) + Forward(piece), File(tile) + SlotFile(piece, index))
      requires target == tile + 8 * Forward(piece) + SlotFile(piece, index)
      ensures edge > 0 ==> 0 <= target < 64
      ensures PawnSlots(b, piece, tile, unPassant, index + 1) ==
        if edge > 0 && (b[target] & EnemyColour(piece) > 0 || target == unPassant as int) then before[target := true]
        else before
    {
      PawnStepGeometry(piece, tile, index, edge, target);
    }

    /** The forward slot of the pawn loop adds the square ahead when it is
        empty, and from the starting rank also the square beyond when both
        are empty; exactly then the square passed over becomes `potential`. */
    static lemma PushSlot(b: seq<Byte>, piece: Byte, tile: int, unPassant: Byte, edge: nat, target: int, before: seq<bool>,
                          potential: Byte)
      requires |b| == 64 && 0 <= tile < 64
      requires before == PawnSlots(b, piece, tile, unPassant, 1)
      requires edge > 0 <==> OnBoard(Rank(tile) + Forward(piece), File(tile))
      requires target == tile + 8 * Forward(piece)
      ensures var start := if piece & WHITE > 0 then 47 < tile < 56 else 7 < tile < 16;
        var beyond := target + 8 * Forward(piece);
        var after := PawnSlots(b, piece, tile, unPassant, 2);
        (edge > 0 ==> 0 <= target < 64) &&
        (edge > 0 && start ==> 0 <= beyond < 64) &&
        (edge == 0 ==> before == after && PawnPotential(b, piece, tile, potential) == potential) &&
        (edge > 0 && start && b[beyond] == NONE && b[target] == NONE ==>
           before[target := true][beyond := true] == after && PawnPotential(b, piece, tile, potential) == target as Byte) &&
        (edge > 0 && !(start && b[beyond] == NONE && b[target] == NONE) ==>
           (if b[target] == NONE then before[target := true] else before) == after &&
           PawnPotential(b, piece, tile, potential) == potential)
    {
      PawnStepGeometry(piece, tile, 1, edge, target);
      PawnDoubleStep(b, piece, tile, edge, target);
    }

    /** The mask after the first `index` passes of the pawn loop. */
    static ghost function PawnSlots(b: seq<Byte>, piece: Byte, tile: int, unPassant: Byte, index: nat): (r: seq<bool>)
      requires |b| == 64 && 0 <= tile < 64 && index <= 3
      ensures |r| == 64
    {
      if index == 0 then seq(64, _ => false)
      else PawnStepResult(b, piece, tile, unPassant, index - 1, PawnSlots(b, piece, tile, unPassant, index - 1))
    }

    /** The passes so far have marked exactly the targets of their slots. */
    static lemma {:induction false} PawnSlotsMeaning(b: seq<Byte>, piece: Byte, tile: int, unPassant: Byte, index: nat)
      requires |b| == 64 && 0 <= tile < 64 && index <= 3
      ensures PawnSlots(b, piece, tile, unPassant, index) == PawnSlotsDone(b, piece, tile, unPassant, index)
    {
      if index > 0 {
        PawnSlotsMeaning(b, piece, tile, unPassant, index - 1);
        PawnStepMaintains(b, piece, tile, unPassant, index - 1, PawnSlots(b, piece, tile, unPassant, index - 1));
      }
    }

    /** The pawn targets of the slots before `index`. */
    static ghost function PawnSlotsDone(b: seq<Byte>, piece: Byte, tile: int, unPassant: Byte, index: int): seq<bool>
      requires |b| == 64 && 0 <= tile < 64
    {
      seq(64, t requires 0 <= t < 64 => PawnTarget(b, piece, tile, unPassant, t) && PawnSlot(piece, tile, t) < index)
    }

    /** The source's test for the two-square advance is `DoublePushOpen`. */
    static lemma PawnDoubleStep(b: seq<Byte>, piece: Byte, tile: int, edge: nat, target: int)
      requires |b| == 64 && 0 <= tile < 64
      requires target == tile + 8 * Forward(piece)
      requires edge > 0 <==> OnBoard(Rank(tile) + Forward(piece), File(tile))
      ensures (edge > 0 && Rank(tile) == StartRank(piece) && b[target + 8 * Forward(piece)] == NONE && b[target] == NONE)
        <==> DoublePushOpen(b, piece, tile)
    {
    }

    /** After the three slots the mask is the pawn's whole target set. */
    static lemma PawnSlotsComplete(b: seq<Byte>, piece: Byte, tile: int, unPassant: Byte, mask: seq<bool>)
      requires |b| == 64 && 0 <= tile < 64
      requires mask == PawnSlots(b, piece, tile, unPassant, 3)
      ensures mask == PawnMask(b, piece, tile, unPassant)
    {
      PawnSlotsMeaning(b, piece, tile, unPassant, 3);
    }

    /** What one pass of the pawn loop does to the mask, in rank/file terms. */
    static ghost function PawnStepResult(b: seq<Byte>, piece: Byte, tile: int, unPassant: Byte, index: int, before: seq<bool>)
      : seq<bool>
      requires |b| == 64 && 0 <= tile < 64 && 0 <= index < 3 && |before| == 64
    {
      var fwd := Forward(piece);
      var df := SlotFile(piece, index);
      var target := tile + 8 * fwd + df;
      if !OnBoard(Rank(tile) + fwd, File(tile) + df) then before
      else if index != 1 then
        if b[target] & EnemyColour(piece) > 0 || target == unPassant as int then before[target := true] else before
      else if Rank(tile) == StartRank(piece) && b[target + 8 * fwd] == NONE && b[target] == NONE
      then before[target := true][target + 8 * fwd := true]
      else if b[target] == NONE then before[target := true]
      else before
    }

    /** The file step of slot `index`: the source walks white pawns' slots
        left to right and black pawns' right to left. */
    static function SlotFile(piece: Byte, index: int): int {
      if piece & WHITE > 0 then index - 1 else 1 - index
    }

    /** One pass of the pawn loop extends the mask by the targets of its slot. */
    static lemma PawnStepMaintains(b: seq<Byte>, piece: Byte, tile: int, unPassant: Byte, index: int, before: seq<bool>)
      requires |b| == 64 && 0 <= tile < 64 && 0 <= index < 3 && |before| == 64
      requires before == PawnSlotsDone(b, piece, tile, unPassant, index)
      ensures PawnStepResult(b, piece, tile, unPassant, index, before) == PawnSlotsDone(b, piece, tile, unPassant, index + 1)
    {
      forall t | 0 <= t < 64
        ensures PawnStepResult(b, piece, tile, unPassant, index, before)[t] <==>
          PawnTarget(b, piece, tile, unPassant, t) && PawnSlot(piece, tile, t) < index + 1
      {
        PawnStepAt(b, piece, tile, unPassant, index, before, t);
      }
    }

    static lemma PawnStepAt(b: seq<Byte>, piece: Byte, tile: int, unPassant: Byte, index: int, before: seq<bool>, t: int)
      requires |b| == 64 && 0 <= tile < 64 && 0 <= index < 3 && |before| == 64 && 0 <= t < 64
      requires before[t] <==> PawnTarget(b, piece, tile, unPassant, t) && PawnSlot(piece, tile, t) < index
      ensures var after := PawnStepResult(b, piece, tile, unPassant, index, before);
        |after| == 64 &&
        (after[t] <==> PawnTarget(b, piece, tile, unPassant, t) && PawnSlot(piece, tile, t) < index + 1)
    {
      if PawnSlot(piece, tile, t) != index {
        PawnStepOtherSlot(b, piece, tile, unPassant, index, before, t);
      } else if index != 1 {
        PawnStepDiagonal(b, piece, tile, unPassant, index, before, t);
      } else {
        PawnStepForward(b, piece, tile, unPassant, before, t);
      }
    }

    /** A pass leaves the squares of the other slots as they were. */
    static lemma PawnStepOtherSlot(b: seq<Byte>, piece: Byte, tile: int, unPassant: Byte, index: int, before: seq<bool>, t: int)
      requires |b| == 64 && 0 <= tile < 64 && 0 <= index < 3 && |before| == 64 && 0 <= t < 64
      requires PawnSlot(piece, tile, t) != index
      ensures PawnStepResult(b, piece, tile, unPassant, index, before)[t] == before[t]
    {
      var fwd := Forward(piece);
      var df := SlotFile(piece, index);
      var target := tile + 8 * fwd + df;
      assert File(t) - File(tile) != df;
      if OnBoard(Rank(tile) + fwd, File(tile) + df) {
        Displacement(tile, target, fwd, df);
        if index == 1 && Rank(tile) == StartRank(piece) {
          Displacement(tile, target + 8 * fwd, 2 * fwd, df);
        }
      }
    }

    /** A diagonal pass marks its square exactly when it is a capture. */
    static lemma PawnStepDiagonal(b: seq<Byte>, piece: Byte, tile: int, unPassant: Byte, index: int, before: seq<bool>, t: int)
      requires |b| == 64 && 0 <= tile < 64 && (index == 0 || index == 2) && |before| == 64 && 0 <= t < 64
      requires PawnSlot(piece, tile, t) == index && !before[t]
      ensures PawnStepResult(b, piece, tile, unPassant, index, before)[t] <==> PawnTarget(b, piece, tile, unPassant, t)
    {
      var fwd := Forward(piece);
      var df := SlotFile(piece, index);
      var target := tile + 8 * fwd + df;
      assert File(t) - File(tile) == df && df != 0;
      Displacement(tile, t, fwd, df);
      if OnBoard(Rank(tile) + fwd, File(tile) + df) {
        Displacement(tile, target, fwd, df);
      }
      assert PawnTarget(b, piece, tile, unPassant, t) <==> PawnCapture(b, piece, tile, unPassant, t);
    }

    /** The forward pass marks its square exactly when it is a push or a
        two-square advance. */
    static lemma PawnStepForward(b: seq<Byte>, piece: Byte, tile: int, unPassant: Byte, before: seq<bool>, t: int)
      requires |b| == 64 && 0 <= tile < 64 && |before| == 64 && 0 <= t < 64
      requires PawnSlot(piece, tile, t) == 1 && !before[t]
      ensures PawnStepResult(b, piece, tile, unPassant, 1, before)[t] <==> PawnTarget(b, piece, tile, unPassant, t)
    {
      var fwd := Forward(piece);
      var target := tile + 8 * fwd;
      assert File(t) == File(tile);
      Displacement(tile, t, fwd, 0);
      Displacement(tile, t, 2 * fwd, 0);
      if OnBoard(Rank(tile) + fwd, File(tile)) {
        Displacement(tile, target, fwd, 0);
        if Rank(tile) == StartRank(piece) {
          Displacement(tile, target + 8 * fwd, 2 * fwd, 0);
        }
      }
      assert !PawnCapture(b, piece, tile, unPassant, t);
    }

    /** Which of the three pawn slots (left diagonal, forward, right
        diagonal, in the source's loop order) covers `t`. */
    static function PawnSlot(piece: Byte, tile: int, t: int): int {
      if piece & WHITE > 0 then File(t) - File(tile) + 1 else 1 - (File(t) - File(tile))
    }

    /** Geometry of one pawn step: the offset and the table distance the
        source picks for slot `index` lead to the square one rank forward
        and `SlotFile` files across, which exists exactly when that distance
        is positive; the source's start-rank test is a rank test. */
    static lemma PawnStepGeometry(piece: Byte, tile: int, index: int, edge: nat, target: int)
      requires 0 <= tile < 64 && 0 <= index < 3
      requires edge > 0 <==> OnBoard(Rank(tile) + Forward(piece), File(tile) + SlotFile(piece, index))
      requires target == tile + 8 * Forward(piece) + SlotFile(piece, index)
      ensures edge > 0 ==> 0 <= target < 64
      ensures edge > 0 && index == 1 && Rank(tile) == StartRank(piece) ==> 0 <= target + 8 * Forward(piece) < 64
      ensures ((piece & WHITE > 0 && 47 < tile < 56) || (piece & WHITE == 0 && 7 < tile < 16)) <==>
        Rank(tile) == StartRank(piece)
    {
    }

    /** The six table distances the pawn generator reads, in the order of
        `PAWN_OFFSETS`. */
    static function PawnEdges(tile: int): (r: seq<nat>)
      requires 0 <= tile < 64
      ensures |r| == 6
    {
      var e := EdgeDistances(Rank(tile), File(tile));
      [e[4], e[0], e[6], e[5], e[1], e[7]]
    }

    /** Where slot `index` of a pawn of this colour sits in `PAWN_OFFSETS`:
        white pawns use the first three entries, black pawns the last three. */
    static function PawnSlotOf(piece: Byte, index: int): int {
      if piece & WHITE > 0 then index else index + 3
    }

    /** A pawn slot's table distance is positive exactly when the square it
        leads to is on the board. */
    static lemma PawnTable(tile: int, edges: seq<nat>)
      requires 0 <= tile < 64 && edges == PawnEdges(tile)
      ensures edges[0] > 0 <==> OnBoard(Rank(tile) - 1, File(tile) - 1)
      ensures edges[1] > 0 <==> OnBoard(Rank(tile) - 1, File(tile))
      ensures edges[2] > 0 <==> OnBoard(Rank(tile) - 1, File(tile) + 1)
      ensures edges[3] > 0 <==> OnBoard(Rank(tile) + 1, File(tile) + 1)
      ensures edges[4] > 0 <==> OnBoard(Rank(tile) + 1, File(tile))
      ensures edges[5] > 0 <==> OnBoard(Rank(tile) + 1, File(tile) - 1)
    {
    }

    // ----- Loading a position -----

    /** The castling loop of lib.rs:681-691 on the game's rights. */
    method SetCastlingRights(part: string)
      requires Valid()
      modifies castling
      ensures castling[..] == Fen.CastlingFrom(old(castling[..]), part)
    {
      ghost var before := castling[..];
      for k := 0 to |part|
        invariant Fen.CastlingFrom(before, part) == Fen.CastlingFrom(castling[..], part[k..])
      {
        ghost var rights := castling[..];
        assert part[k..][1..] == part[k + 1..];
        if part[k] == 'K' {
          castling[0] := true;
        } else if part[k] == 'Q' {
          castling[1] := true;
        } else if part[k] == 'k' {
          castling[2] := true;
        } else if part[k] == 'q' {
          castling[3] := true;
        }
        assert castling[..] == Fen.Castle(rights, part[k]);
      }
      assert part[|part|..] == [];
    }

    /** One pass of the field loop (lib.rs:665-706): the field at position
        `index` is the placement text, the turn, the castling rights or the
        en-passant square; the turn and the rights go straight into the game. */
    method ReadField(index: nat, part: string, positions: string, unPassant: Byte) returns (r: Result<(string, Byte)>)
      requires Valid()
      modifies this`turn, castling
      ensures Valid()
      ensures match Fen.ApplyField(Fen.Header(positions, old(turn), old(castling[..]), unPassant), index, part)
        case Panic(reason) => r == Panic(reason)
        case Ok(h) => r == Ok((h.placement, h.available)) && turn == h.turn && castling[..] == h.castling
    {
      r := Ok((positions, unPassant));
      if index == 0 {
        r := Ok((part, unPassant));
      } else if index == 1 {
        if part == "w" {
          turn := WHITE;
        } else if part == "b" {
          turn := BLACK;
        }
      } else if index == 2 {
        SetCastlingRights(part);
      } else if index == 3 {
        if '-' in part {
          r := Ok((positions, Fen.NO_EN_PASSANT_FIELD));
        } else {
          var parsed := Fen.ParseU8(part);
          if parsed.None? {
            return Panic(UnwrapOnNone);
          }
          r := Ok((positions, parsed.value));
        }
      }
    }

    /** load_position_from_fen (lib.rs:649-729).  The field loop stores the
        turn and the castling rights in the game as it goes; the placement
        loop writes the pieces into a copy of the game's board.  The result
        is that board and the en-passant square, and everything agrees with
        `Fen.LoadFen`; a Rust panic is the `Panic` result. */
    method LoadPositionFromFen(fen: string, symbols: map<char, Byte>) returns (r: Result<(seq<Byte>, Byte)>)
      requires Valid()
      modifies this`turn, castling
      ensures Valid()
      ensures var expected := Fen.LoadFen(fen, old(board[..]), old(turn), old(castling[..]), available, symbols);
        match expected
        case Panic(reason) => r == Panic(reason)
        case Ok(loaded) =>
          r == Ok((loaded.board, loaded.available)) && turn == loaded.turn && castling[..] == loaded.castling
    {
      var parts := Fen.Fields(fen);
      ghost var h0 := Fen.Header("", turn, castling[..], available);
      var positions: string := "";
      var unPassant := available;
      var empty := false;
      var partsIndex: nat := 0;
      while !empty
        invariant Valid()
        invariant !empty ==> partsIndex <= |parts|
        invariant !empty ==>
          (Fen.ApplyFields(h0, 0, parts) ==
           Fen.ApplyFields(Fen.Header(positions, turn, castling[..], unPassant), partsIndex, parts[partsIndex..]))
        invariant empty ==> Fen.ApplyFields(h0, 0, parts) == Ok(Fen.Header(positions, turn, castling[..], unPassant))
        decreases |parts| + 1 - partsIndex, !empty
      {
        if partsIndex == |parts| {
          empty := true;
        } else {
          var part := parts[partsIndex];
          assert parts[partsIndex..][0] == part && parts[partsIndex..][1..] == parts[partsIndex + 1..];
          var read :- ReadField(partsIndex, part, positions, unPassant);
          positions, unPassant := read.0, read.1;
        }
        partsIndex := partsIndex + 1;
      }

      var placed :- PlacePieces(board[..], positions, symbols);
      return Ok((placed, unPassant));
    }

    /** The placement loop of lib.rs:708-727 over a copy of the board: the
        board `Fen.Place` leaves, or the panic it meets. */
    static method PlacePieces(board: seq<Byte>, positions: string, symbols: map<char, Byte>) returns (r: Result<seq<Byte>>)
      requires |board| == 64
      ensures match Fen.Place(Fen.Cursor(board, 0, 0), positions, symbols)
        case Panic(reason) => r == Panic(reason)
        case Ok(c) => r == Ok(c.board)
    {
      var b := board;
      var rank: nat := 0;
      var file: nat := 0;
      for i := 0 to |positions|
        invariant |b| == 64
        invariant Fen.Place(Fen.Cursor(board, 0, 0), positions, symbols) ==
          Fen.Place(Fen.Cursor(b, rank, file), positions[i..], symbols)
      {
        var ch := positions[i];
        assert positions[i..][0] == ch && positions[i..][1..] == positions[i + 1..];
        if ch == '/' {
          file := 0;
          if rank + 1 >= Fen.U32_LIMIT {
            return Panic(ArithmeticOverflow);
          }
          rank := rank + 1;
        } else if IsDigit(ch) {
          if file + Fen.DigitValue(ch) >= Fen.U32_LIMIT {
            return Panic(ArithmeticOverflow);
          }
          file := file + Fen.DigitValue(ch);
        } else {
          var colour := if Fen.IsUpper(ch) then WHITE else BLACK;
          var lower := ToLower(ch);
          if rank * 8 + file >= Fen.U32_LIMIT {
            return Panic(ArithmeticOverflow);
          }
          var square := rank * 8 + file;
          if lower !in symbols {
            return Panic(UnwrapOnNone);
          }
          if symbols[lower] > 0xFF - colour {
            return Panic(ArithmeticOverflow);
          }
          if square >= 64 {
            return Panic(IndexOutOfBounds);
          }
          b := b[square := symbols[lower] + colour];
          file := file + 1;
        }
      }
      assert positions[|positions|..] == [];
      return Ok(b);
    }

    /** init_game (lib.rs:597-624): a fresh game, the six piece letters, and
        STARTINGFEN loaded over it; the loaded board and en-passant square
        are stored, the potential en-passant square stays 100. */
    static method InitGame() returns (r: Result<Game>)
      ensures var expected := Fen.LoadFen(Fen.STARTING_FEN, seq(64, _ => NONE), WHITE,
                                          [false, false, false, false], NO_EN_PASSANT, Fen.PIECE_SYMBOLS);
        match expected
        case Panic(reason) => r == Panic(reason)
        case Ok(loaded) =>
          r.Ok? && fresh(r.value) && r.value.Valid() &&
          r.value.Model() == Position(loaded.board, loaded.turn, loaded.available, NO_EN_PASSANT, loaded.castling)
    {
      var game := new Game();
      var loaded :- game.LoadPositionFromFen(Fen.STARTING_FEN, Fen.PIECE_SYMBOLS);
      forall i | 0 <= i < 64 {
        game.board[i] := loaded.0[i];
      }
      game.available := loaded.1;
      return Ok(game);
    }
  }
}
