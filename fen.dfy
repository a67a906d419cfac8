/** Forsyth-Edwards Notation as `load_position_from_fen` reads it
    (chess_logic/src/lib.rs:649-729), as pure functions: the split into
    whitespace-separated fields, the four fields it looks at, and the walk
    over the piece placement that writes pieces onto the game's board.  The
    class `Chess.Game` runs the same steps with loops and is proved to agree
    with `LoadFen`.

    The reading is the code's, not the standard's: an empty square in the
    placement does not clear the board underneath, a "-" anywhere in the
    en-passant field stands for square 63, a turn other than "w" or "b" keeps
    the old turn, and castling letters only ever switch a right on. */
module Fen {

  import opened Results
  import opened Pieces
  import opened Notation

  /** u32 is 32 bits wide: `rank` and `file` of the placement walk. */
  const U32_LIMIT: int := 0x1_0000_0000

  /** The square `-` in the en-passant field stands for (lib.rs:695). */
  const NO_EN_PASSANT_FIELD: Byte := 63

  // ----- split_whitespace -----

  /** Rust's `char::is_whitespace`: the Unicode White_Space property. */
  predicate IsWhitespace(c: char) {
    var n := c as int;
    (9 <= n <= 13) || n == 32 || n == 0x85 || n == 0xA0 || n == 0x1680 ||
    (0x2000 <= n <= 0x200A) || n == 0x2028 || n == 0x2029 || n == 0x202F ||
    n == 0x205F || n == 0x3000
  }

  /** A field: a non-empty run of non-whitespace characters. */
  predicate IsWord(w: string) {
    w != [] && forall i :: 0 <= i < |w| ==> !IsWhitespace(w[i])
  }

  /** The length of the run of non-whitespace at the front of s. */
  function WordLength(s: string): (n: nat)
    ensures n <= |s|
    ensures forall i :: 0 <= i < n ==> !IsWhitespace(s[i])
    ensures n < |s| ==> IsWhitespace(s[n])
    decreases |s|
  {
    if s == [] || IsWhitespace(s[0]) then 0 else 1 + WordLength(s[1..])
  }

  /** `str::split_whitespace`: the maximal runs of non-whitespace, in order. */
  function Fields(s: string): (r: seq<string>)
    ensures forall k :: 0 <= k < |r| ==> IsWord(r[k])
    decreases |s|
  {
    if s == [] then []
    else if IsWhitespace(s[0]) then Fields(s[1..])
    else
      var n := WordLength(s);
      [s[..n]] + Fields(s[n..])
  }

  /** Fields written out with one space between them. */
  function Join(ws: seq<string>): string
    decreases |ws|
  {
    if ws == [] then ""
    else if |ws| == 1 then ws[0]
    else ws[0] + " " + Join(ws[1..])
  }

  lemma {:induction false} WordLengthOfWord(w: string, rest: string)
    requires IsWord(w) || w == []
    requires rest == [] || IsWhitespace(rest[0])
    ensures WordLength(w + rest) == |w|
    decreases |w|
  {
    if w != [] {
      assert (w + rest)[1..] == w[1..] + rest;
      assert IsWord(w[1..]) || w[1..] == [] by {
        assert forall i :: 0 <= i < |w[1..]| ==> w[1..][i] == w[i + 1];
      }
      WordLengthOfWord(w[1..], rest);
    }
  }

  /** Splitting fields joined by spaces gives the fields back. */
  lemma {:induction false} FieldsOfJoin(ws: seq<string>)
    requires forall k :: 0 <= k < |ws| ==> IsWord(ws[k])
    ensures Fields(Join(ws)) == ws
    decreases |ws|
  {
    if |ws| == 1 {
      WordLengthOfWord(ws[0], []);
      assert ws[0][..|ws[0]|] == ws[0];
      assert ws[0][|ws[0]|..] == [];
    } else if |ws| > 1 {
      var w := ws[0];
      var rest := " " + Join(ws[1..]);
      assert Join(ws) == w + rest;
      WordLengthOfWord(w, rest);
      assert (w + rest)[..|w|] == w;
      assert (w + rest)[|w|..] == rest;
      assert rest[1..] == Join(ws[1..]);
      FieldsOfJoin(ws[1..]);
    }
  }

  // ----- str::parse::<u8> -----

  function DigitValue(c: char): nat
    requires IsDigit(c)
  {
    c as int - '0' as int
  }

  predicate AllDigits(s: string) {
    forall i :: 0 <= i < |s| ==> IsDigit(s[i])
  }

  /** The number a string of decimal digits denotes. */
  function DecimalValue(s: string): nat
    requires AllDigits(s)
    decreases |s|
  {
    if s == [] then 0 else 10 * DecimalValue(s[..|s| - 1]) + DigitValue(s[|s| - 1])
  }

  /** `s.parse::<u8>()`: an optional '+', then at least one ASCII digit, and a
      value that fits in u8; anything else is an error. */
  function ParseU8(s: string): (r: Option<Byte>)
    ensures r.Some? ==> s != [] && s != "+"
  {
    if s == [] || s == "+" || s == "-" then None
    else
      var digits := if s[0] == '+' then s[1..] else s;
      if AllDigits(digits) && DecimalValue(digits) < 256 then Some(DecimalValue(digits) as Byte)
      else None
  }

  /** The decimal digits of n, without leading zeros. */
  function Decimal(n: nat): (s: string)
    ensures s != [] && AllDigits(s)
    decreases n
  {
    if n < 10 then [('0' as int + n) as char]
    else Decimal(n / 10) + [('0' as int + n % 10) as char]
  }

  lemma {:induction false} DecimalValueOfDecimal(n: nat)
    ensures DecimalValue(Decimal(n)) == n
    decreases n
  {
    if n >= 10 {
      DecimalValueOfDecimal(n / 10);
      var s := Decimal(n);
      assert s[..|s| - 1] == Decimal(n / 10);
    }
  }

  /** Every u8 written in decimal, with or without a '+', parses back. */
  lemma ParseDecimal(n: nat)
    requires n < 256
    ensures ParseU8(Decimal(n)) == Some(n as Byte)
    ensures ParseU8("+" + Decimal(n)) == Some(n as Byte)
  {
    DecimalValueOfDecimal(n);
    var s := Decimal(n);
    assert s[0] != '+';
    assert ("+" + s)[1..] == s;
  }

  // ----- The four fields -----

  /** lib.rs:681-691: K, Q, k, q switch on rights 0 to 3. */
  function Castle(rights: seq<bool>, c: char): (r: seq<bool>)
    requires |rights| == 4
    ensures |r| == 4
  {
    if c == 'K' then rights[0 := true]
    else if c == 'Q' then rights[1 := true]
    else if c == 'k' then rights[2 := true]
    else if c == 'q' then rights[3 := true]
    else rights
  }

  /** The castling loop over the characters of the field. */
  function CastlingFrom(rights: seq<bool>, s: string): (r: seq<bool>)
    requires |rights| == 4
    ensures |r| == 4
    decreases |s|
  {
    if s == [] then rights else CastlingFrom(Castle(rights, s[0]), s[1..])
  }

  /** The letter that switches on castling right k. */
  function CastlingLetter(k: int): char
    requires 0 <= k < 4
  {
    ['K', 'Q', 'k', 'q'][k]
  }

  /** A right is on after the field exactly when it was on before or its
      letter occurs in the field. */
  lemma {:induction false} CastlingMeaning(rights: seq<bool>, s: string, k: int)
    requires |rights| == 4 && 0 <= k < 4
    ensures CastlingFrom(rights, s)[k] <==> rights[k] || CastlingLetter(k) in s
    decreases |s|
  {
    if s != [] {
      CastlingMeaning(Castle(rights, s[0]), s[1..], k);
      assert s == [s[0]] + s[1..];
    }
  }

  /** The fields the loop remembers: the placement text, and the turn,
      castling rights and en-passant square as they stand. */
  datatype Header = Header(placement: string, turn: Byte, castling: seq<bool>, available: Byte)

  /** The turn field (lib.rs:673-679): "w" and "b" set the turn, anything
      else keeps it. */
  function TurnAfter(side: string, turn: Byte): Byte {
    if side == "w" then WHITE else if side == "b" then BLACK else turn
  }

  /** The en-passant field (lib.rs:693-699): any '-' in it stands for square
      63; otherwise it must parse as a u8 or the `unwrap` panics. */
  function EnPassantField(part: string): Result<Byte> {
    if '-' in part then Ok(NO_EN_PASSANT_FIELD)
    else
      match ParseU8(part)
      case None => Panic(UnwrapOnNone)
      case Some(v) => Ok(v)
  }

  /** The field is a raw u8, not a square name: "-" and "e3-e4" stand for
      63, "44" is square 44, and the standard's square name "e3" or a number
      past 255 makes the `unwrap` panic. */
  lemma EnPassantFieldReadings()
    ensures EnPassantField("-") == Ok(NO_EN_PASSANT_FIELD) && EnPassantField("e3-e4") == Ok(NO_EN_PASSANT_FIELD)
    ensures EnPassantField("44") == Ok(44)
    ensures EnPassantField("e3") == Panic(UnwrapOnNone)
    ensures EnPassantField("256") == Panic(UnwrapOnNone)
  {
    assert '-' in "-" && '-' in "e3-e4";
    assert !IsDigit("e3"[0]);
    assert DecimalValue("44") == 44 by {
      assert "44"[..1] == "4" && "4"[..0] == "";
    }
    assert DecimalValue("256") == 256 by {
      assert "256"[..2] == "25" && "25"[..1] == "2" && "2"[..0] == "";
    }
  }

  /** Any field with a '-' in it, wherever the dash stands, reads as 63. */
  lemma EnPassantDash(part: string)
    requires '-' in part
    ensures EnPassantField(part) == Ok(NO_EN_PASSANT_FIELD)
  {
  }

  /** A field of decimal digits reads as its value when that value fits in a
      u8, and makes the `unwrap` panic from 256 on. */
  lemma EnPassantNumber(n: nat)
    ensures n < 256 ==> EnPassantField(Decimal(n)) == Ok(n as Byte)
    ensures n >= 256 ==> EnPassantField(Decimal(n)) == Panic(UnwrapOnNone)
  {
    var s := Decimal(n);
    DecimalValueOfDecimal(n);
    assert IsDigit(s[0]);
    assert '-' !in s by {
      forall i | 0 <= i < |s| ensures s[i] != '-' {
        assert IsDigit(s[i]);
      }
    }
  }

  /** What the loop does with the field at position `index` (lib.rs:665-706);
      fields from the fifth on are read and ignored. */
  function ApplyField(h: Header, index: nat, part: string): (r: Result<Header>)
    requires |h.castling| == 4
    ensures r.Ok? ==> |r.value.castling| == 4
  {
    if index == 0 then Ok(h.(placement := part))
    else if index == 1 then Ok(h.(turn := TurnAfter(part, h.turn)))
    else if index == 2 then Ok(h.(castling := CastlingFrom(h.castling, part)))
    else if index == 3 then
      var available :- EnPassantField(part);
      Ok(h.(available := available))
    else Ok(h)
  }

  /** The field loop over `parts`, the first of them at position `index`. */
  function ApplyFields(h: Header, index: nat, parts: seq<string>): (r: Result<Header>)
    requires |h.castling| == 4
    ensures r.Ok? ==> |r.value.castling| == 4
    decreases |parts|
  {
    if parts == [] then Ok(h)
    else
      var h' :- ApplyField(h, index, parts[0]);
      ApplyFields(h', index + 1, parts[1..])
  }

  // ----- The piece placement -----

  /** The state of the placement walk: the board and the u32 rank and file. */
  datatype Cursor = Cursor(board: seq<Byte>, rank: nat, file: nat)

  predicate IsUpper(c: char) {
    'A' <= c <= 'Z'
  }

  /** `piece_color`: white for an upper-case letter, black otherwise. */
  function ColourOf(c: char): Byte {
    if IsUpper(c) then WHITE else BLACK
  }

  /** `piece_type + piece_color` stays within u8. */
  predicate Fits(c: char, symbols: map<char, Byte>)
    requires ToLower(c) in symbols
  {
    symbols[ToLower(c)] <= 0xFF - ColourOf(c)
  }

  /** `piece_type + piece_color` for a piece letter. */
  function PieceOf(c: char, symbols: map<char, Byte>): Byte
    requires ToLower(c) in symbols && Fits(c, symbols)
  {
    symbols[ToLower(c)] + ColourOf(c)
  }

  /** The character loop of lib.rs:711-727: '/' starts the next rank, a digit
      skips that many files, anything else is a piece letter written at
      rank * 8 + file.  The checks come in the order the Rust code meets them:
      the u32 square, the `unwrap` of the symbol lookup, the u8 sum, the
      array index. */
  function Step(c: Cursor, ch: char, symbols: map<char, Byte>): (r: Result<Cursor>)
    requires |c.board| == 64
    ensures r.Ok? ==> |r.value.board| == 64
  {
    if ch == '/' then
      if c.rank + 1 >= U32_LIMIT then Panic(ArithmeticOverflow)
      else Ok(Cursor(c.board, c.rank + 1, 0))
    else if IsDigit(ch) then
      if c.file + DigitValue(ch) >= U32_LIMIT then Panic(ArithmeticOverflow)
      else Ok(c.(file := c.file + DigitValue(ch)))
    else
      var square := c.rank * 8 + c.file;
      if square >= U32_LIMIT then Panic(ArithmeticOverflow)
      else if ToLower(ch) !in symbols then Panic(UnwrapOnNone)
      else if !Fits(ch, symbols) then Panic(ArithmeticOverflow)
      else if square >= 64 then Panic(IndexOutOfBounds)
      else Ok(Cursor(c.board[square := PieceOf(ch, symbols)], c.rank, c.file + 1))
  }

  /** The walk over the whole placement text, one `Step` per character. */
  function Place(c: Cursor, s: string, symbols: map<char, Byte>): (r: Result<Cursor>)
    requires |c.board| == 64
    ensures r.Ok? ==> |r.value.board| == 64
    decreases |s|
  {
    if s == [] then Ok(c)
    else
      var c' :- Step(c, s[0], symbols);
      Place(c', s[1..], symbols)
  }

  /** The placement walk over s + t is the walk over s continued over t. */
  lemma {:induction false} PlaceAppend(c: Cursor, s: string, t: string, symbols: map<char, Byte>)
    requires |c.board| == 64
    ensures Place(c, s + t, symbols) ==
      (match Place(c, s, symbols)
       case Panic(reason) => Panic(reason)
       case Ok(c') => Place(c', t, symbols))
    decreases |s|
  {
    if s == [] {
      assert s + t == t;
    } else {
      assert (s + t)[0] == s[0];
      assert (s + t)[1..] == s[1..] + t;
      var step := Step(c, s[0], symbols);
      if step.Ok? {
        PlaceAppend(step.value, s[1..], t, symbols);
      }
    }
  }

  // ----- What a placement means -----

  /** A rank description with its digits spelled out: None for each skipped
      square, Some(letter) for a piece. */
  function Expand(s: string): (e: seq<Option<char>>)
    decreases |s|
  {
    if s == [] then []
    else (if IsDigit(s[0]) then seq(DigitValue(s[0]), _ => None) else [Some(s[0])]) + Expand(s[1..])
  }

  /** A rank description the walk can place: no '/', every letter a known
      piece whose value fits in u8, and at most eight squares. */
  predicate WellFormedRank(s: string, symbols: map<char, Byte>) {
    (forall i :: 0 <= i < |s| ==> s[i] != '/') &&
    (forall i :: 0 <= i < |s| && !IsDigit(s[i]) ==> ToLower(s[i]) in symbols && Fits(s[i], symbols)) &&
    |Expand(s)| <= 8
  }

  /** The byte a piece letter writes, when the walk accepts it. */
  function PieceByte(c: char, symbols: map<char, Byte>): Byte {
    if ToLower(c) in symbols && Fits(c, symbols) then PieceOf(c, symbols) else NONE
  }

  /** The board with the expanded squares e laid down from `start` on: a
      piece letter writes its piece, a skipped square keeps what was there. */
  function Overlay(board: seq<Byte>, start: int, e: seq<Option<char>>, symbols: map<char, Byte>): (r: seq<Byte>)
    requires |board| == 64
    ensures |r| == 64
  {
    seq(64, i requires 0 <= i < 64 =>
      if start <= i < start + |e| && e[i - start].Some? then PieceByte(e[i - start].value, symbols) else board[i])
  }

  /** Skipped squares at the front of e leave the board as it was there. */
  lemma OverlaySkip(board: seq<Byte>, start: int, d: nat, e: seq<Option<char>>, symbols: map<char, Byte>)
    requires |board| == 64
    ensures Overlay(board, start + d, e, symbols) == Overlay(board, start, seq(d, _ => None) + e, symbols)
  {
    var e' := seq(d, _ => None) + e;
    forall i | 0 <= i < 64
      ensures Overlay(board, start + d, e, symbols)[i] == Overlay(board, start, e', symbols)[i]
    {
      if start <= i < start + d {
        assert e'[i - start] == None;
      } else if start + d <= i < start + |e'| {
        assert e'[i - start] == e[i - start - d];
      }
    }
  }

  /** A piece at the front of e is the write of its byte at `start`. */
  lemma OverlayLetter(board: seq<Byte>, start: int, ch: char, e: seq<Option<char>>, symbols: map<char, Byte>)
    requires |board| == 64 && 0 <= start < 64
    ensures Overlay(board[start := PieceByte(ch, symbols)], start + 1, e, symbols) ==
      Overlay(board, start, [Some(ch)] + e, symbols)
  {
    var e' := [Some(ch)] + e;
    forall i | 0 <= i < 64
      ensures Overlay(board[start := PieceByte(ch, symbols)], start + 1, e, symbols)[i] == Overlay(board, start, e', symbols)[i]
    {
      if start + 1 <= i < start + |e'| {
        assert e'[i - start] == e[i - start - 1];
      }
    }
  }

  /** Walking one well-formed rank description from file `file` lays its
      pieces down on that rank and leaves the file just past the last square
      it describes. */
  lemma {:induction false} PlaceRank(c: Cursor, s: string, symbols: map<char, Byte>)
    requires |c.board| == 64 && c.rank < 8
    requires WellFormedRank(s, symbols) && c.file + |Expand(s)| <= 8
    ensures Place(c, s, symbols) ==
        Ok(Cursor(Overlay(c.board, c.rank * 8 + c.file, Expand(s), symbols), c.rank, c.file + |Expand(s)|))
    decreases |s|
  {
    var start := c.rank * 8 + c.file;
    if s == [] {
      assert Overlay(c.board, start, [], symbols) == c.board;
    } else {
      var ch := s[0];
      var tail := s[1..];
      assert WellFormedRank(tail, symbols) by {
        assert forall i :: 0 <= i < |tail| ==> tail[i] == s[i + 1];
      }
      if IsDigit(ch) {
        var d := DigitValue(ch);
        PlaceRank(c.(file := c.file + d), tail, symbols);
        assert Expand(s) == seq(d, _ => None) + Expand(tail);
        OverlaySkip(c.board, start, d, Expand(tail), symbols);
      } else {
        assert Expand(s) == [Some(ch)] + Expand(tail);
        assert PieceByte(ch, symbols) == PieceOf(ch, symbols);
        var board' := c.board[start := PieceByte(ch, symbols)];
        PlaceRank(Cursor(board', c.rank, c.file + 1), tail, symbols);
        OverlayLetter(c.board, start, ch, Expand(tail), symbols);
      }
    }
  }

  /** Rank descriptions joined by '/'. */
  function JoinRanks(ranks: seq<string>): string
    decreases |ranks|
  {
    if ranks == [] then ""
    else if |ranks| == 1 then ranks[0]
    else ranks[0] + "/" + JoinRanks(ranks[1..])
  }

  /** Ranks that are fields joined by '/' make one field. */
  lemma {:induction false} RanksAreWords(ranks: seq<string>)
    requires |ranks| >= 1 && forall k :: 0 <= k < |ranks| ==> IsWord(ranks[k])
    ensures IsWord(JoinRanks(ranks))
    decreases |ranks|
  {
    if |ranks| > 1 {
      RanksAreWords(ranks[1..]);
      var w := ranks[0] + "/" + JoinRanks(ranks[1..]);
      forall i | 0 <= i < |w|
        ensures !IsWhitespace(w[i])
      {
        if i > |ranks[0]| {
          assert w[i] == JoinRanks(ranks[1..])[i - |ranks[0]| - 1];
        }
      }
    }
  }

  /** A whole placement: the rank descriptions laid down one after another,
      the first on rank `rank`. */
  function Board(board: seq<Byte>, rank: nat, ranks: seq<string>, symbols: map<char, Byte>): (r: seq<Byte>)
    requires |board| == 64 && rank + |ranks| <= 8
    ensures |r| == 64
    decreases |ranks|
  {
    if ranks == [] then board
    else Board(Overlay(board, rank * 8, Expand(ranks[0]), symbols), rank + 1, ranks[1..], symbols)
  }

  /** Square i of a placed board comes from file i % 8 of the description of
      rank i / 8, and keeps the old board's value where that description has
      no piece. */
  lemma {:induction false} BoardSquare(board: seq<Byte>, rank: nat, ranks: seq<string>, symbols: map<char, Byte>, i: int)
    requires |board| == 64 && rank + |ranks| <= 8 && 0 <= i < 64
    requires forall k :: 0 <= k < |ranks| ==> |Expand(ranks[k])| <= 8
    ensures Board(board, rank, ranks, symbols)[i] ==
      (if rank <= i / 8 < rank + |ranks| && i % 8 < |Expand(ranks[i / 8 - rank])| &&
          Expand(ranks[i / 8 - rank])[i % 8].Some?
       then PieceByte(Expand(ranks[i / 8 - rank])[i % 8].value, symbols)
       else board[i])
    decreases |ranks|
  {
    if ranks != [] {
      var e := Expand(ranks[0]);
      var board' := Overlay(board, rank * 8, e, symbols);
      BoardSquare(board', rank + 1, ranks[1..], symbols, i);
      assert rank * 8 <= i < rank * 8 + |e| <==> i / 8 == rank && i % 8 < |e|;
      if rank < i / 8 < rank + |ranks| {
        assert ranks[1..][i / 8 - (rank + 1)] == ranks[i / 8 - rank];
      }
    }
  }

  /** The placement walk over well-formed ranks joined by '/' lays every rank
      down on its own row of the board, top row first, and never panics. */
  lemma {:induction false} PlaceBoard(board: seq<Byte>, rank: nat, ranks: seq<string>, symbols: map<char, Byte>)
    requires |board| == 64 && |ranks| >= 1 && rank + |ranks| <= 8
    requires forall k :: 0 <= k < |ranks| ==> WellFormedRank(ranks[k], symbols)
    ensures Place(Cursor(board, rank, 0), JoinRanks(ranks), symbols) ==
      Ok(Cursor(Board(board, rank, ranks, symbols), rank + |ranks| - 1, |Expand(ranks[|ranks| - 1])|))
    decreases |ranks|
  {
    PlaceRank(Cursor(board, rank, 0), ranks[0], symbols);
    var board' := Overlay(board, rank * 8, Expand(ranks[0]), symbols);
    if |ranks| > 1 {
      assert JoinRanks(ranks) == ranks[0] + ("/" + JoinRanks(ranks[1..]));
      PlaceAppend(Cursor(board, rank, 0), ranks[0], "/" + JoinRanks(ranks[1..]), symbols);
      assert ("/" + JoinRanks(ranks[1..]))[1..] == JoinRanks(ranks[1..]);
      PlaceBoard(board', rank + 1, ranks[1..], symbols);
    } else {
      assert Board(board', rank + 1, [], symbols) == board';
    }
  }

  // ----- The whole loader -----

  /** What `load_position_from_fen` computes from the game's board, turn,
      castling rights and en-passant square: the new board and en-passant
      square it returns, and the turn and castling rights it stores. */
  datatype Loaded = Loaded(board: seq<Byte>, turn: Byte, castling: seq<bool>, available: Byte)

  function LoadFen(fen: string, board: seq<Byte>, turn: Byte, castling: seq<bool>, available: Byte,
                   symbols: map<char, Byte>): (r: Result<Loaded>)
    requires |board| == 64 && |castling| == 4
    ensures r.Ok? ==> |r.value.board| == 64 && |r.value.castling| == 4
  {
    var h :- ApplyFields(Header("", turn, castling, available), 0, Fields(fen));
    var c :- Place(Cursor(board, 0, 0), h.placement, symbols);
    Ok(Loaded(c.board, h.turn, h.castling, h.available))
  }

  // ----- What a whole FEN means -----

  /** Fields from the fifth on change nothing. */
  lemma {:induction false} LaterFieldsIgnored(h: Header, index: nat, rest: seq<string>)
    requires |h.castling| == 4 && index >= 4
    ensures ApplyFields(h, index, rest) == Ok(h)
    decreases |rest|
  {
    if rest != [] {
      LaterFieldsIgnored(h, index + 1, rest[1..]);
    }
  }

  /** A FEN made of well-formed rank descriptions joined by '/', a turn,
      castling letters, an en-passant field the loader accepts and any
      further fields, separated by spaces, loads without panicking: its
      ranks are laid onto the board, and the turn, castling rights and
      en-passant square are what the three fields say. */
  lemma LoadFenMeaning(board: seq<Byte>, turn: Byte, castling: seq<bool>, available: Byte, symbols: map<char, Byte>,
                       ranks: seq<string>, side: string, rights: string, ep: string, rest: seq<string>)
    requires |board| == 64 && |castling| == 4
    requires 1 <= |ranks| <= 8
    requires forall k :: 0 <= k < |ranks| ==> IsWord(ranks[k]) && WellFormedRank(ranks[k], symbols)
    requires IsWord(side) && IsWord(rights) && IsWord(ep) && forall k :: 0 <= k < |rest| ==> IsWord(rest[k])
    requires EnPassantField(ep).Ok?
    ensures LoadFen(Join([JoinRanks(ranks), side, rights, ep] + rest), board, turn, castling, available, symbols) ==
      Ok(Loaded(Board(board, 0, ranks, symbols), TurnAfter(side, turn), CastlingFrom(castling, rights),
                EnPassantField(ep).value))
  {
    var placement := JoinRanks(ranks);
    RanksAreWords(ranks);
    var parts := [placement, side, rights, ep] + rest;
    FieldsOfJoin(parts);
    var h0 := Header("", turn, castling, available);
    var h1 := h0.(placement := placement);
    var h2 := h1.(turn := TurnAfter(side, turn));
    var h3 := h2.(castling := CastlingFrom(castling, rights));
    var h4 := h3.(available := EnPassantField(ep).value);
    LaterFieldsIgnored(h4, 4, rest);
    assert parts[4..] == rest;
    assert parts[3..][1..] == rest;
    assert ApplyFields(h3, 3, parts[3..]) == Ok(h4);
    assert parts[2..][1..] == parts[3..];
    assert ApplyFields(h2, 2, parts[2..]) == Ok(h4);
    assert parts[1..][1..] == parts[2..];
    assert ApplyFields(h1, 1, parts[1..]) == Ok(h4);
    assert ApplyFields(h0, 0, parts) == Ok(h4);
    PlaceBoard(board, 0, ranks, symbols);
  }

  /** The eight bytes a rank description puts on an empty rank. */
  function RowBytes(name: string, symbols: map<char, Byte>): (r: seq<Byte>)
    ensures |r| == 8
  {
    var e := Expand(name);
    seq(8, f requires 0 <= f < 8 => if f < |e| && e[f].Some? then PieceByte(e[f].value, symbols) else NONE)
  }

  /** The rows of rank descriptions, first rank first. */
  function Rows(ranks: seq<string>, symbols: map<char, Byte>): (r: seq<Byte>)
    ensures |r| == 8 * |ranks|
    decreases |ranks|
  {
    if ranks == [] then []
    else if |ranks| == 1 then RowBytes(ranks[0], symbols)
    else Rows(ranks[..|ranks| - 1], symbols) + RowBytes(ranks[|ranks| - 1], symbols)
  }

  lemma {:induction false} RowsIndex(ranks: seq<string>, symbols: map<char, Byte>, i: int)
    requires 0 <= i < 8 * |ranks|
    ensures Rows(ranks, symbols)[i] == RowBytes(ranks[i / 8], symbols)[i % 8]
    decreases |ranks|
  {
    if |ranks| > 1 && i < 8 * (|ranks| - 1) {
      RowsIndex(ranks[..|ranks| - 1], symbols, i);
    }
  }

  /** On an empty board, a placement of eight ranks is their rows one after
      another. */
  lemma BoardOfRows(empty: seq<Byte>, ranks: seq<string>, symbols: map<char, Byte>)
    requires |empty| == 64 && forall j :: 0 <= j < 64 ==> empty[j] == NONE
    requires |ranks| == 8 && forall k :: 0 <= k < 8 ==> |Expand(ranks[k])| <= 8
    ensures Board(empty, 0, ranks, symbols) == Rows(ranks, symbols)
  {
    forall i | 0 <= i < 64
      ensures Board(empty, 0, ranks, symbols)[i] == Rows(ranks, symbols)[i]
    {
      assert i / 8 - 0 == i / 8;
      BoardSquare(empty, 0, ranks, symbols, i);
      RowsIndex(ranks, symbols, i);
    }
  }

  // ----- The two positions the repository loads -----

  /** `piece_type_from_symbol` as init_game fills it (lib.rs:610-617). */
  const PIECE_SYMBOLS: map<char, Byte> :=
    map['k' := KING, 'p' := PAWN, 'n' := KNIGHT, 'b' := BISHOP, 'r' := ROOK, 'q' := QUEEN]

  /** The bytes the black piece letters write. */
  lemma BlackPieceBytes()
    ensures PieceByte('p', PIECE_SYMBOLS) == 129 && PieceByte('n', PIECE_SYMBOLS) == 130
    ensures PieceByte('b', PIECE_SYMBOLS) == 132 && PieceByte('r', PIECE_SYMBOLS) == 136
    ensures PieceByte('q', PIECE_SYMBOLS) == 144 && PieceByte('k', PIECE_SYMBOLS) == 160
  {
  }

  /** The bytes the white piece letters write. */
  lemma WhitePieceBytes()
    ensures PieceByte('P', PIECE_SYMBOLS) == 65 && PieceByte('N', PIECE_SYMBOLS) == 66
    ensures PieceByte('B', PIECE_SYMBOLS) == 68 && PieceByte('R', PIECE_SYMBOLS) == 72
    ensures PieceByte('Q', PIECE_SYMBOLS) == 80 && PieceByte('K', PIECE_SYMBOLS) == 96
  {
  }

  /** A rank description without digits has one square per letter. */
  lemma {:induction false} ExpandWithoutDigits(s: string)
    requires forall i :: 0 <= i < |s| ==> !IsDigit(s[i])
    ensures Expand(s) == seq(|s|, j requires 0 <= j < |s| => Some(s[j]))
    decreases |s|
  {
    if s != [] {
      ExpandWithoutDigits(s[1..]);
      assert Expand(s) == [Some(s[0])] + Expand(s[1..]);
    }
  }

  /** The twelve letters PIECE_SYMBOLS knows, in either case. */
  predicate PieceLetter(c: char) {
    c in {'k', 'p', 'n', 'b', 'r', 'q', 'K', 'P', 'N', 'B', 'R', 'Q'}
  }

  /** What the walk needs of a piece letter: it ends no field and no rank,
      it is no digit, and its piece value fits in a byte. */
  lemma PieceLetterFacts(c: char)
    requires PieceLetter(c)
    ensures !IsWhitespace(c) && c != '/' && !IsDigit(c)
    ensures ToLower(c) in PIECE_SYMBOLS && Fits(c, PIECE_SYMBOLS)
  {
  }

  /** An eight-letter rank description, letter by letter. */
  lemma LetterRow(name: string, expected: seq<Byte>)
    requires |name| == 8 && |expected| == 8
    requires PieceLetter(name[0]) && PieceLetter(name[1]) && PieceLetter(name[2]) && PieceLetter(name[3])
    requires PieceLetter(name[4]) && PieceLetter(name[5]) && PieceLetter(name[6]) && PieceLetter(name[7])
    requires PieceByte(name[0], PIECE_SYMBOLS) == expected[0] && PieceByte(name[1], PIECE_SYMBOLS) == expected[1]
    requires PieceByte(name[2], PIECE_SYMBOLS) == expected[2] && PieceByte(name[3], PIECE_SYMBOLS) == expected[3]
    requires PieceByte(name[4], PIECE_SYMBOLS) == expected[4] && PieceByte(name[5], PIECE_SYMBOLS) == expected[5]
    requires PieceByte(name[6], PIECE_SYMBOLS) == expected[6] && PieceByte(name[7], PIECE_SYMBOLS) == expected[7]
    ensures RowBytes(name, PIECE_SYMBOLS) == expected && |Expand(name)| == 8
    ensures IsWord(name) && WellFormedRank(name, PIECE_SYMBOLS)
  {
    forall i | 0 <= i < 8
      ensures PieceLetter(name[i])
    {
      if i == 0 {} else if i == 1 {} else if i == 2 {} else if i == 3 {}
      else if i == 4 {} else if i == 5 {} else if i == 6 {} else {}
    }
    forall i | 0 <= i < 8
      ensures !IsWhitespace(name[i]) && name[i] != '/' && !IsDigit(name[i])
      ensures ToLower(name[i]) in PIECE_SYMBOLS && Fits(name[i], PIECE_SYMBOLS)
    {
      PieceLetterFacts(name[i]);
    }
    ExpandWithoutDigits(name);
    forall f | 0 <= f < 8
      ensures RowBytes(name, PIECE_SYMBOLS)[f] == expected[f]
    {
      if f == 0 {} else if f == 1 {} else if f == 2 {} else if f == 3 {}
      else if f == 4 {} else if f == 5 {} else if f == 6 {} else {}
    }
  }

  /** The rows the rank descriptions used here stand for. */
  lemma BlackBackRow()
    ensures RowBytes("rnbqkbnr", PIECE_SYMBOLS) == [136, 130, 132, 144, 160, 132, 130, 136]
    ensures IsWord("rnbqkbnr") && WellFormedRank("rnbqkbnr", PIECE_SYMBOLS)
  {
    BlackPieceBytes();
    LetterRow("rnbqkbnr", [136, 130, 132, 144, 160, 132, 130, 136]);
  }

  lemma WhiteBackRow()
    ensures RowBytes("RNBQKBNR", PIECE_SYMBOLS) == [72, 66, 68, 80, 96, 68, 66, 72]
    ensures IsWord("RNBQKBNR") && WellFormedRank("RNBQKBNR", PIECE_SYMBOLS)
  {
    WhitePieceBytes();
    LetterRow("RNBQKBNR", [72, 66, 68, 80, 96, 68, 66, 72]);
  }

  lemma BlackPawnRow()
    ensures RowBytes("pppppppp", PIECE_SYMBOLS) == [129, 129, 129, 129, 129, 129, 129, 129]
    ensures IsWord("pppppppp") && WellFormedRank("pppppppp", PIECE_SYMBOLS)
  {
    BlackPieceBytes();
    LetterRow("pppppppp", [129, 129, 129, 129, 129, 129, 129, 129]);
  }

  lemma WhitePawnRow()
    ensures RowBytes("PPPPPPPP", PIECE_SYMBOLS) == [65, 65, 65, 65, 65, 65, 65, 65]
    ensures IsWord("PPPPPPPP") && WellFormedRank("PPPPPPPP", PIECE_SYMBOLS)
  {
    WhitePieceBytes();
    LetterRow("PPPPPPPP", [65, 65, 65, 65, 65, 65, 65, 65]);
  }

  lemma EmptyRow()
    ensures RowBytes("8", PIECE_SYMBOLS) == [0, 0, 0, 0, 0, 0, 0, 0]
    ensures IsWord("8") && WellFormedRank("8", PIECE_SYMBOLS)
  {
    assert Expand("8") == seq(8, _ => None) + Expand([]);
  }

  lemma WhitePawnOnG()
    ensures RowBytes("6P", PIECE_SYMBOLS) == [0, 0, 0, 0, 0, 0, 65, 0]
    ensures IsWord("6P") && WellFormedRank("6P", PIECE_SYMBOLS)
  {
    WhitePieceBytes();
    PieceLetterFacts('P');
    assert Expand("6P") == seq(6, _ => None) + [Some('P')];
  }

  lemma BlackPawnOnG()
    ensures RowBytes("6p", PIECE_SYMBOLS) == [0, 0, 0, 0, 0, 0, 129, 0]
    ensures IsWord("6p") && WellFormedRank("6p", PIECE_SYMBOLS)
  {
    BlackPieceBytes();
    PieceLetterFacts('p');
    assert Expand("6p") == seq(6, _ => None) + [Some('p')];
  }

  /** Eight rank descriptions the walk can place. */
  predicate Placeable(ranks: seq<string>) {
    |ranks| == 8 && forall k :: 0 <= k < 8 ==> IsWord(ranks[k]) && WellFormedRank(ranks[k], PIECE_SYMBOLS)
  }

  lemma RowsStep(ranks: seq<string>, symbols: map<char, Byte>, n: nat)
    requires 2 <= n <= |ranks|
    ensures Rows(ranks[..n], symbols) == Rows(ranks[..n - 1], symbols) + RowBytes(ranks[n - 1], symbols)
  {
    assert ranks[..n][..n - 1] == ranks[..n - 1];
  }

  /** Eight rows in a row. */
  lemma RowsOfEight(ranks: seq<string>, symbols: map<char, Byte>)
    requires |ranks| == 8
    ensures Rows(ranks, symbols) ==
      RowBytes(ranks[0], symbols) + RowBytes(ranks[1], symbols) + RowBytes(ranks[2], symbols) +
      RowBytes(ranks[3], symbols) + RowBytes(ranks[4], symbols) + RowBytes(ranks[5], symbols) +
      RowBytes(ranks[6], symbols) + RowBytes(ranks[7], symbols)
  {
    assert ranks[..8] == ranks;
    assert Rows(ranks[..1], symbols) == RowBytes(ranks[0], symbols);
    RowsStep(ranks, symbols, 2);
    RowsStep(ranks, symbols, 3);
    RowsStep(ranks, symbols, 4);
    RowsStep(ranks, symbols, 5);
    RowsStep(ranks, symbols, 6);
    RowsStep(ranks, symbols, 7);
    RowsStep(ranks, symbols, 8);
  }

  /** The standard starting position, top rank first. */
  const STANDARD_RANKS: seq<string> :=
    ["rnbqkbnr", "pppppppp", "8", "8", "8", "8", "PPPPPPPP", "RNBQKBNR"]

  /** The FEN of the documentation example of lib.rs:631-647,
      rnbqkbnr/pppppppp/8/8/8/8/PPPPPPPP/RNBQKBNR w KQkq - 0 1, built from its
      ranks and fields. */
  const STANDARD_FEN: string := Join([JoinRanks(STANDARD_RANKS), "w", "KQkq", "-", "0", "1"])

  /** The board the documentation example expects (lib.rs:645), row by row. */
  const STANDARD_BOARD: seq<Byte> :=
    [136, 130, 132, 144, 160, 132, 130, 136] +
    [129, 129, 129, 129, 129, 129, 129, 129] +
    [0, 0, 0, 0, 0, 0, 0, 0] +
    [0, 0, 0, 0, 0, 0, 0, 0] +
    [0, 0, 0, 0, 0, 0, 0, 0] +
    [0, 0, 0, 0, 0, 0, 0, 0] +
    [65, 65, 65, 65, 65, 65, 65, 65] +
    [72, 66, 68, 80, 96, 68, 66, 72]

  /** STARTINGFEN (lib.rs:627), the position init_game loads:
      rnbqkbnr/pppppppp/8/6P/6p/8/PPPPPPPP/RNBQKBNR w KQkq - 0 1, with a
      white pawn on g5 and a black pawn on g4. */
  const STARTING_RANKS: seq<string> :=
    ["rnbqkbnr", "pppppppp", "8", "6P", "6p", "8", "PPPPPPPP", "RNBQKBNR"]

  const STARTING_FEN: string := Join([JoinRanks(STARTING_RANKS), "w", "KQkq", "-", "0", "1"])

  /** The board STARTINGFEN loads onto an empty board. */
  const STARTING_BOARD: seq<Byte> :=
    [136, 130, 132, 144, 160, 132, 130, 136] +
    [129, 129, 129, 129, 129, 129, 129, 129] +
    [0, 0, 0, 0, 0, 0, 0, 0] +
    [0, 0, 0, 0, 0, 0, 65, 0] +
    [0, 0, 0, 0, 0, 0, 129, 0] +
    [0, 0, 0, 0, 0, 0, 0, 0] +
    [65, 65, 65, 65, 65, 65, 65, 65] +
    [72, 66, 68, 80, 96, 68, 66, 72]

  /** The fields after the placement, as both FENs here have them. */
  lemma StartFields(castling: seq<bool>)
    requires castling == [false, false, false, false]
    ensures IsWord("w") && IsWord("KQkq") && IsWord("-") && IsWord("0") && IsWord("1")
    ensures TurnAfter("w", WHITE) == WHITE
    ensures CastlingFrom(castling, "KQkq") == [true, true, true, true]
    ensures EnPassantField("-") == Ok(NO_EN_PASSANT_FIELD)
  {
    assert '-' in "-";
  }

  /** A FEN with eight placeable ranks and the fields "w KQkq - 0 1" loads,
      onto an empty board with init_game's defaults, as its rows, white to
      move, all four castling rights and en-passant square 63. */
  lemma LoadsAsRows(empty: seq<Byte>, ranks: seq<string>)
    requires |empty| == 64 && forall j :: 0 <= j < 64 ==> empty[j] == NONE
    requires Placeable(ranks)
    ensures LoadFen(Join([JoinRanks(ranks), "w", "KQkq", "-", "0", "1"]), empty, WHITE,
                    [false, false, false, false], 100, PIECE_SYMBOLS) ==
      Ok(Loaded(Rows(ranks, PIECE_SYMBOLS), WHITE, [true, true, true, true], NO_EN_PASSANT_FIELD))
  {
    var castling := [false, false, false, false];
    StartFields(castling);
    LoadFenMeaning(empty, WHITE, castling, 100, PIECE_SYMBOLS, ranks, "w", "KQkq", "-", ["0", "1"]);
    assert [JoinRanks(ranks), "w", "KQkq", "-"] + ["0", "1"] == [JoinRanks(ranks), "w", "KQkq", "-", "0", "1"];
    BoardOfRows(empty, ranks, PIECE_SYMBOLS);
  }

  lemma StandardPlaceable()
    ensures Placeable(STANDARD_RANKS)
  {
    forall k | 0 <= k < 8
      ensures IsWord(STANDARD_RANKS[k]) && WellFormedRank(STANDARD_RANKS[k], PIECE_SYMBOLS)
    {
      if k == 0 { BlackBackRow(); } else if k == 1 { BlackPawnRow(); }
      else if k == 6 { WhitePawnRow(); } else if k == 7 { WhiteBackRow(); }
      else { EmptyRow(); }
    }
  }

  lemma StandardRows()
    ensures Rows(STANDARD_RANKS, PIECE_SYMBOLS) == STANDARD_BOARD
  {
    RowsOfEight(STANDARD_RANKS, PIECE_SYMBOLS);
    BlackBackRow();
    BlackPawnRow();
    EmptyRow();
    WhitePawnRow();
    WhiteBackRow();
  }

  lemma StartingPlaceable()
    ensures Placeable(STARTING_RANKS)
  {
    forall k | 0 <= k < 8
      ensures IsWord(STARTING_RANKS[k]) && WellFormedRank(STARTING_RANKS[k], PIECE_SYMBOLS)
    {
      if k == 0 { BlackBackRow(); } else if k == 1 { BlackPawnRow(); }
      else if k == 3 { WhitePawnOnG(); } else if k == 4 { BlackPawnOnG(); }
      else if k == 6 { WhitePawnRow(); } else if k == 7 { WhiteBackRow(); }
      else { EmptyRow(); }
    }
  }

  lemma StartingRows()
    ensures Rows(STARTING_RANKS, PIECE_SYMBOLS) == STARTING_BOARD
  {
    RowsOfEight(STARTING_RANKS, PIECE_SYMBOLS);
    BlackBackRow();
    BlackPawnRow();
    EmptyRow();
    WhitePawnOnG();
    BlackPawnOnG();
    WhitePawnRow();
    WhiteBackRow();
  }

  /** The documentation example: the standard FEN on an empty board gives
      the documented board, white to move, all four castling rights, and 63
      for the "-" en-passant field. */
  lemma StandardFenLoads()
    ensures LoadFen(STANDARD_FEN, seq(64, _ => NONE), WHITE, [false, false, false, false], 100, PIECE_SYMBOLS) ==
      Ok(Loaded(STANDARD_BOARD, WHITE, [true, true, true, true], NO_EN_PASSANT_FIELD))
  {
    StandardPlaceable();
    LoadsAsRows(seq(64, _ => NONE), STANDARD_RANKS);
    StandardRows();
  }

  /** STARTINGFEN on the empty board of init_game gives the standard board
      with the extra pawns on 30 (g5) and 38 (g4). */
  lemma StartingFenLoads()
    ensures LoadFen(STARTING_FEN, seq(64, _ => NONE), WHITE, [false, false, false, false], 100, PIECE_SYMBOLS) ==
      Ok(Loaded(STARTING_BOARD, WHITE, [true, true, true, true], NO_EN_PASSANT_FIELD))
  {
    StartingPlaceable();
    LoadsAsRows(seq(64, _ => NONE), STARTING_RANKS);
    StartingRows();
  }
}
