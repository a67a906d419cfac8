/** Piece encoding (chess_logic/src/lib.rs:5-109): one byte per square, a type
    bit (1, 2, 4, 8, 16 or 32) plus a colour bit (64 or 128); 0 is an empty
    square.  The source's twelve `is_<colour>_<type>` tests are bit tests on
    that byte. */
module Pieces {

  import opened Results

  type Byte = bv8

  // TYPES (lib.rs:8-16)
  const NONE: Byte := 0
  const PAWN: Byte := 1
  const KNIGHT: Byte := 2
  const BISHOP: Byte := 4
  const ROOK: Byte := 8
  const QUEEN: Byte := 16
  const KING: Byte := 32

  // COLORS (lib.rs:106-109)
  const WHITE: Byte := 64
  const BLACK: Byte := 128

  // The twelve predicates of lib.rs:18-101, each "type bit set and colour bit set".
  predicate IsBlackKing(piece: Byte)   { (piece & KING > 0) && (piece & BLACK > 0) }
  predicate IsBlackQueen(piece: Byte)  { (piece & QUEEN > 0) && (piece & BLACK > 0) }
  predicate IsBlackRook(piece: Byte)   { (piece & ROOK > 0) && (piece & BLACK > 0) }
  predicate IsBlackBishop(piece: Byte) { (piece & BISHOP > 0) && (piece & BLACK > 0) }
  predicate IsBlackKnight(piece: Byte) { (piece & KNIGHT > 0) && (piece & BLACK > 0) }
  predicate IsBlackPawn(piece: Byte)   { (piece & PAWN > 0) && (piece & BLACK > 0) }
  predicate IsWhiteKing(piece: Byte)   { (piece & KING > 0) && (piece & WHITE > 0) }
  predicate IsWhiteQueen(piece: Byte)  { (piece & QUEEN > 0) && (piece & WHITE > 0) }
  predicate IsWhiteRook(piece: Byte)   { (piece & ROOK > 0) && (piece & WHITE > 0) }
  predicate IsWhiteBishop(piece: Byte) { (piece & BISHOP > 0) && (piece & WHITE > 0) }
  predicate IsWhiteKnight(piece: Byte) { (piece & KNIGHT > 0) && (piece & WHITE > 0) }
  predicate IsWhitePawn(piece: Byte)   { (piece & PAWN > 0) && (piece & WHITE > 0) }

  /** The tagged view of an occupied square. */
  datatype PieceType = Pawn | Knight | Bishop | Rook | Queen | King
  datatype Colour = White | Black

  function TypeBit(t: PieceType): Byte {
    match t
    case Pawn => PAWN
    case Knight => KNIGHT
    case Bishop => BISHOP
    case Rook => ROOK
    case Queen => QUEEN
    case King => KING
  }

  function ColourBit(c: Colour): Byte {
    match c
    case White => WHITE
    case Black => BLACK
  }

  /** How the FEN loader builds a square's byte: type plus colour (lib.rs:723). */
  function Encode(t: PieceType, c: Colour): Byte {
    TypeBit(t) + ColourBit(c)
  }

  /** Which of the twelve source predicates answers for (t, c). */
  predicate IsPiece(piece: Byte, t: PieceType, c: Colour) {
    match (c, t)
    case (Black, King) => IsBlackKing(piece)
    case (Black, Queen) => IsBlackQueen(piece)
    case (Black, Rook) => IsBlackRook(piece)
    case (Black, Bishop) => IsBlackBishop(piece)
    case (Black, Knight) => IsBlackKnight(piece)
    case (Black, Pawn) => IsBlackPawn(piece)
    case (White, King) => IsWhiteKing(piece)
    case (White, Queen) => IsWhiteQueen(piece)
    case (White, Rook) => IsWhiteRook(piece)
    case (White, Bishop) => IsWhiteBishop(piece)
    case (White, Knight) => IsWhiteKnight(piece)
    case (White, Pawn) => IsWhitePawn(piece)
  }

  /** Every source predicate is the conjunction of its two bit tests. */
  lemma PredicateIsBitTest(piece: Byte, t: PieceType, c: Colour)
    ensures IsPiece(piece, t, c) <==> (piece & TypeBit(t) > 0 && piece & ColourBit(c) > 0)
  {
  }

  /** On a well-formed byte exactly one of the twelve predicates holds: the one
      for the type and colour it was built from. */
  lemma ExactlyOnePredicateHolds(t: PieceType, c: Colour, t': PieceType, c': Colour)
    ensures IsPiece(Encode(t, c), t', c') <==> (t' == t && c' == c)
  {
  }

  /** On an empty square none of the twelve holds. */
  lemma NoPredicateHoldsOnEmpty(t: PieceType, c: Colour)
    ensures !IsPiece(NONE, t, c)
  {
  }

  /** Reading a byte back as a tagged piece; None for the empty square and for
      bytes that are not one type bit plus one colour bit. */
  function Decode(piece: Byte): (r: Option<(PieceType, Colour)>)
    ensures r.Some? ==> Encode(r.value.0, r.value.1) == piece
    ensures piece == NONE ==> r.None?
  {
    var colour :=
      if piece & 0xC0 == WHITE then Some(White)
      else if piece & 0xC0 == BLACK then Some(Black)
      else None;
    var kind :=
      match piece & 0x3F
      case 1 => Some(Pawn)
      case 2 => Some(Knight)
      case 4 => Some(Bishop)
      case 8 => Some(Rook)
      case 16 => Some(Queen)
      case 32 => Some(King)
      case _ => None;
    if colour.Some? && kind.Some? then Some((kind.value, colour.value)) else None
  }

  lemma DecodeEncode(t: PieceType, c: Colour)
    ensures Decode(Encode(t, c)) == Some((t, c))
  {
  }

  /** A square that the sliding generators treat as empty: neither colour bit. */
  predicate Vacant(piece: Byte) {
    piece & WHITE == 0 && piece & BLACK == 0
  }

  /** The colour the generators attribute to a mover: white if its white bit is
      set, black otherwise (lib.rs:281-285 and the same test in every generator). */
  function MoverColour(piece: Byte): Byte {
    if piece & WHITE > 0 then WHITE else BLACK
  }

  function EnemyColour(piece: Byte): Byte {
    if piece & WHITE > 0 then BLACK else WHITE
  }
}
