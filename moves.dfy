/** What one call of the move executor (`move_piece_from_to`,
    chess_logic/src/lib.rs:205-258) does to a position, stated over the pure
    model `Chess.Move`: which moves it carries out, what an accepted move
    changes and what it leaves alone, and a few positions worked through. */
module MoveLaws {

  import opened Results
  import opened Pieces
  import opened Geometry
  import opened MoveGen
  import opened Chess

  /** The generator and the colour test both accept the move. */
  predicate Allowed(p: Position, from: nat, to: nat)
    requires p.Valid() && from < 64 && to < 64
  {
    AvailableMoves(p.board, p.board[from], from, p.available)[to] && ColourToMove(p.turn, p.board[from])
  }

  /** The square the en-passant bookkeeping empties when `piece` moves
      diagonally: the one behind the en-passant square, seen from the mover. */
  predicate Victim(piece: Byte, from: int, to: int, available: Byte, t: int) {
    PawnDiagonal(piece, from, to) &&
    t == (if piece & WHITE > 0 then available as int + 8 else available as int - 8)
  }

  /** A two-square advance in the source's sense (lib.rs:233, 240). */
  predicate DoubleAdvance(piece: Byte, from: int, to: int) {
    if piece & WHITE > 0 then to == from - 16 else to == from + 16
  }

  /** The executor reports `true` exactly when both square indices are on the
      board, the generator and the colour test accept, and the en-passant
      bookkeeping does not panic. */
  lemma AcceptedExactly(p: Position, from: nat, to: nat)
    requires p.Valid()
    ensures (Move(p, from, to).Ok? && Move(p, from, to).value.0) <==>
      (from < 64 && to < 64 && Allowed(p, from, to) &&
       EnPassantBookkeeping(p.board, p.board[from], from, to, p.available,
                            PotentialAfter(p.board, p.board[from], from, p.potential)).Ok?)
  {
  }

  /** A square index off the board is a panic (lib.rs:210, 221). */
  lemma OffBoardPanics(p: Position, from: nat, to: nat)
    requires p.Valid() && (from >= 64 || to >= 64)
    ensures Move(p, from, to) == Panic(IndexOutOfBounds)
  {
  }

  /** A refused move leaves board, turn, en-passant square and castling
      rights as they were; only the potential en-passant square may change,
      because the pawn generator writes it even for a refused move. */
  lemma RefusedMoveKeepsPosition(p: Position, from: nat, to: nat)
    requires p.Valid()
    requires Move(p, from, to).Ok? && !Move(p, from, to).value.0
    ensures from < 64 && to < 64 && !Allowed(p, from, to)
    ensures var q := Move(p, from, to).value.1;
      q.board == p.board && q.turn == p.turn && q.available == p.available && q.castling == p.castling &&
      q.potential == PotentialAfter(p.board, p.board[from], from, p.potential)
  {
  }

  /** An empty square, or a piece of the side not to move, never moves. */
  lemma OnlyTheSideToMoveMoves(p: Position, from: nat, to: nat)
    requires p.Valid() && from < 64
    requires p.board[from] == NONE || !ColourToMove(p.turn, p.board[from])
    ensures !(Move(p, from, to).Ok? && Move(p, from, to).value.0)
  {
  }

  /** What an accepted move does: the piece lands on the target square and
      leaves its own, the square behind the en-passant square is emptied
      after a diagonal pawn move, every other square keeps its piece, the
      turn passes over, the castling rights stay, a non-pawn move clears
      the en-passant square and a two-square pawn advance publishes the
      potential one. */
  lemma AcceptedMoveEffects(p: Position, from: nat, to: nat)
    requires p.Valid()
    requires Move(p, from, to).Ok? && Move(p, from, to).value.0
    ensures from < 64 && to < 64 && Allowed(p, from, to)
    ensures var q := Move(p, from, to).value.1;
      var piece := p.board[from];
      q.Valid() &&
      q.board[to] == piece &&
      (from != to ==> q.board[from] == NONE) &&
      (forall t :: 0 <= t < 64 && t != from && t != to && !Victim(piece, from, to, p.available, t) ==>
         q.board[t] == p.board[t]) &&
      (forall t :: 0 <= t < 64 && t != to && Victim(piece, from, to, p.available, t) ==> q.board[t] == NONE) &&
      q.turn == Flip(p.turn) && q.castling == p.castling &&
      q.potential == PotentialAfter(p.board, piece, from, p.potential) &&
      q.available == (if piece & PAWN == 0 then NO_EN_PASSANT
                      else if DoubleAdvance(piece, from, to) then q.potential
                      else p.available)
  {
    var piece := p.board[from];
    var potential := PotentialAfter(p.board, piece, from, p.potential);
    var bookkept := EnPassantBookkeeping(p.board, piece, from, to, p.available, potential);
    assert bookkept.Ok?;
    var cleared := bookkept.value.0;
    forall t | 0 <= t < 64 && !Victim(piece, from, to, p.available, t)
      ensures cleared[t] == p.board[t]
    {
    }
    forall t | 0 <= t < 64 && Victim(piece, from, to, p.available, t)
      ensures cleared[t] == NONE
    {
    }
  }

  /** Two accepted moves in a row hand the turn back to the side that
      started, when the turn is one of the two colours. */
  lemma TurnAlternates(p: Position, from1: nat, to1: nat, from2: nat, to2: nat)
    requires p.Valid() && (p.turn == WHITE || p.turn == BLACK)
    requires Move(p, from1, to1).Ok? && Move(p, from1, to1).value.0
    requires Move(Move(p, from1, to1).value.1, from2, to2).Ok? && Move(Move(p, from1, to1).value.1, from2, to2).value.0
    ensures Move(p, from1, to1).value.1.turn != p.turn
    ensures Move(p, from1, to1).value.1.WhiteToMove() == !p.WhiteToMove()
    ensures Move(Move(p, from1, to1).value.1, from2, to2).value.1.turn == p.turn
  {
    AcceptedMoveEffects(p, from1, to1);
    AcceptedMoveEffects(Move(p, from1, to1).value.1, from2, to2);
  }

  /** An accepted two-square advance of a piece the dispatcher hands to the
      pawn generator publishes the square the pawn passed over as the new
      en-passant square (lib.rs:233-234, 240-241 with lib.rs:511, 553). A
      byte with a pawn bit and a higher type bit is generated as that other
      piece, leaves `potential` as it was and so is not covered. */
  lemma AcceptedDoubleAdvancePublishes(p: Position, from: nat, to: nat)
    requires p.Valid() && from < 64 && to < 64
    requires Move(p, from, to).Ok? && Move(p, from, to).value.0
    requires DispatchesToPawn(p.board[from]) && DoubleAdvance(p.board[from], from, to)
    ensures Move(p, from, to).value.1.available as int == (from + to) / 2
    ensures Move(p, from, to).value.1.available as int == from + 8 * Forward(p.board[from])
  {
    var piece := p.board[from];
    AcceptedMoveEffects(p, from, to);
    assert PawnTarget(p.board, piece, from, p.available, to);
    assert PawnDoublePush(p.board, piece, from, to);
    assert DoublePushOpen(p.board, piece, from);
  }

  /** An accepted move of a white pawn from squares 8-15 (the rank before
      promotion) always panics: `from_tile - 16` (lib.rs:233) underflows in
      usize, and from square 8 already `from_tile - 9` (lib.rs:230) does. */
  lemma WhitePawnBeforePromotionPanics(p: Position, from: nat, to: nat)
    requires p.Valid() && 8 <= from < 16 && to < 64
    requires p.board[from] & PAWN > 0 && p.board[from] & WHITE > 0 && Allowed(p, from, to)
    ensures Move(p, from, to).Panic?
  {
  }

  /** An accepted diagonal move of a white pawn panics unless the en-passant
      square is on one of the ranks 8 to 2 (square < 56): the source empties
      `board[available + 8]` on every diagonal pawn move (lib.rs:230-231),
      and the "none" values 100 and 63 point beyond the board. */
  lemma WhiteDiagonalNeedsEnPassantSquare(p: Position, from: nat, to: nat)
    requires p.Valid() && 16 <= from < 64 && to < 64
    requires p.board[from] & PAWN > 0 && p.board[from] & WHITE > 0 && Allowed(p, from, to)
    requires to == from - 7 || to == from - 9
    ensures Move(p, from, to).Panic? <==> p.available as int >= 56
  {
  }

  /** e2-e4 by white, then d4xe3 en passant by black. */
  function EnPassantBoard(): (b: seq<Byte>)
    ensures |b| == 64
  {
    seq(64, i => if i == 52 then WHITE + PAWN else if i == 35 then BLACK + PAWN else NONE)
  }

  /** The double step publishes the passed-over square 44 (e3) as the
      en-passant square; the black pawn on 35 (d4) then takes on 44 and the
      white pawn on 36 (e4) disappears. */
  lemma EnPassantScenario()
    ensures var p0 := Position(EnPassantBoard(), WHITE, NO_EN_PASSANT, NO_EN_PASSANT, [true, true, true, true]);
      var r1 := Move(p0, 52, 36);
      r1.Ok? && r1.value.0 && r1.value.1.available == 44 && r1.value.1.turn == BLACK &&
      var r2 := Move(r1.value.1, 35, 44);
      r2.Ok? && r2.value.0 && r2.value.1.turn == WHITE &&
      r2.value.1.board == seq(64, i => if i == 44 then BLACK + PAWN else NONE)
  {
    var p0 := Position(EnPassantBoard(), WHITE, NO_EN_PASSANT, NO_EN_PASSANT, [true, true, true, true]);
    assert PawnPush(p0.board, WHITE + PAWN, 52, 44);
    assert DoublePushOpen(p0.board, WHITE + PAWN, 52);
    assert PawnTarget(p0.board, WHITE + PAWN, 52, NO_EN_PASSANT, 36);
    var p1 := Move(p0, 52, 36).value.1;
    assert p1.board == seq(64, i => if i == 36 then WHITE + PAWN else if i == 35 then BLACK + PAWN else NONE);
    assert PawnCapture(p1.board, BLACK + PAWN, 35, 44, 44);
    assert PawnTarget(p1.board, BLACK + PAWN, 35, 44, 44);
  }

  /** The pawn generator runs before the colour test is used, so a refused
      pawn move still records its potential en-passant square: black to move,
      asking the white pawn on 52 to go to 36 is refused, yet the potential
      square becomes 44. */
  lemma RefusedPawnMoveWritesPotential()
    ensures var p0 := Position(EnPassantBoard(), BLACK, NO_EN_PASSANT, NO_EN_PASSANT, [true, true, true, true]);
      Move(p0, 52, 36) == Ok((false, p0.(potential := 44)))
  {
    var p0 := Position(EnPassantBoard(), BLACK, NO_EN_PASSANT, NO_EN_PASSANT, [true, true, true, true]);
    assert DoublePushOpen(p0.board, WHITE + PAWN, 52);
  }
}
