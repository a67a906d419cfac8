/** Square names (a file letter a-h, then a rank digit 1-8) and their board
    index, `algebraic_notation_to_memory_location`
    (chess_logic/src/lib.rs:188-203).  The function scans every character:
    a letter sets the file, a digit sets the rank, whatever else is ignored, so
    the last letter and the last digit win. */
module Notation {

  import opened Results

  /** usize is 64 bits wide. */
  const USIZE_LIMIT: int := 0x1_0000_0000_0000_0000

  /** `alphabet_to_index` (lib.rs:189). */
  const ALPHABET: seq<char> := ['a', 'b', 'c', 'd', 'e', 'f', 'g', 'h']

  predicate IsAlphabetic(c: char) {
    'a' <= c <= 'z' || 'A' <= c <= 'Z'
  }

  predicate IsDigit(c: char) {
    '0' <= c <= '9'
  }

  function ToLower(c: char): char {
    if 'A' <= c <= 'Z' then (c as int + 32) as char else c
  }

  /** `alphabet_to_index.iter().position(..)`: where c stands in ALPHABET. */
  function FileIndex(c: char): (r: Option<nat>)
    ensures r.Some? ==> r.value < 8 && ALPHABET[r.value] == c
    ensures r.None? ==> c !in ALPHABET
  {
    if 'a' <= c <= 'h' then Some(c as int - 'a' as int) else None
  }

  /** `(8 - digit) as usize`: an i32 subtraction cast to usize, so the digit 9
      gives 2^64 - 1. */
  function RankFromDigit(c: char): nat
    requires IsDigit(c)
  {
    var r := 8 - (c as int - '0' as int);
    if r < 0 then r + USIZE_LIMIT else r
  }

  /** The character loop, as a left-to-right scan carrying (rank, file). */
  function Scan(s: string, rank: nat, file: nat): Result<(nat, nat)>
    decreases |s|
  {
    if s == [] then Ok((rank, file))
    else
      var c := s[0];
      var file' :-
        if IsAlphabetic(c) then
          match FileIndex(ToLower(c))
          case Some(f) => Ok(f)
          case None => Panic(UnwrapOnNone)
        else Ok(file);
      var rank' := if IsDigit(c) then RankFromDigit(c) else rank;
      Scan(s[1..], rank', file')
  }

  /** The result of the whole function: `rank * 8 + file` in usize. */
  function SquareIndex(s: string): Result<nat> {
    var rf :- Scan(s, 0, 0);
    if rf.0 * 8 + rf.1 >= USIZE_LIMIT then Panic(ArithmeticOverflow) else Ok(rf.0 * 8 + rf.1)
  }

  method AlgebraicNotationToMemoryLocation(notation: string) returns (r: Result<nat>)
    ensures r == SquareIndex(notation)
  {
    var rank: nat, file: nat := 0, 0;
    for i := 0 to |notation|
      invariant Scan(notation, 0, 0) == Scan(notation[i..], rank, file)
    {
      var character := notation[i];
      assert notation[i..][1..] == notation[i + 1..];
      if IsAlphabetic(character) {
        var lowercase := ToLower(character);
        match FileIndex(lowercase) {
          case None => return Panic(UnwrapOnNone);
          case Some(f) => file := f;
        }
      }
      if IsDigit(character) {
        rank := RankFromDigit(character);
      }
    }
    if rank * 8 + file >= USIZE_LIMIT {
      return Panic(ArithmeticOverflow);
    }
    r := Ok(rank * 8 + file);
  }

  // ----- The last letter and the last digit win -----

  /** Every letter in s names a file (otherwise the source panics). */
  predicate LettersAreFiles(s: string) {
    forall i :: 0 <= i < |s| && IsAlphabetic(s[i]) ==> FileIndex(ToLower(s[i])).Some?
  }

  /** The file named by the last letter of s, `file` if s has none. */
  function LastFile(s: string, file: nat): nat
    requires LettersAreFiles(s)
  {
    if s == [] then file
    else if IsAlphabetic(s[|s| - 1]) then FileIndex(ToLower(s[|s| - 1])).value
    else LastFile(s[..|s| - 1], file)
  }

  /** The rank given by the last digit of s, `rank` if s has none. */
  function LastRank(s: string, rank: nat): nat {
    if s == [] then rank
    else if IsDigit(s[|s| - 1]) then RankFromDigit(s[|s| - 1])
    else LastRank(s[..|s| - 1], rank)
  }

  lemma {:induction false} LastFileFirstStep(s: string, file: nat)
    requires s != [] && LettersAreFiles(s)
    ensures LettersAreFiles(s[1..])
    ensures LastFile(s, file) ==
      LastFile(s[1..], if IsAlphabetic(s[0]) then FileIndex(ToLower(s[0])).value else file)
    decreases |s|
  {
    assert forall i :: 0 <= i < |s| - 1 ==> s[1..][i] == s[i + 1];
    if |s| > 1 && !IsAlphabetic(s[|s| - 1]) {
      var init := s[..|s| - 1];
      assert LettersAreFiles(init) by {
        assert forall i :: 0 <= i < |init| ==> init[i] == s[i];
      }
      LastFileFirstStep(init, file);
      assert init[1..] == s[1..][..|s[1..]| - 1];
    }
  }

  lemma {:induction false} LastRankFirstStep(s: string, rank: nat)
    requires s != []
    ensures LastRank(s, rank) == LastRank(s[1..], if IsDigit(s[0]) then RankFromDigit(s[0]) else rank)
    decreases |s|
  {
    if |s| > 1 && !IsDigit(s[|s| - 1]) {
      var init := s[..|s| - 1];
      LastRankFirstStep(init, rank);
      assert init[1..] == s[1..][..|s[1..]| - 1];
    }
  }

  /** The scan ends with the last digit's rank and the last letter's file; it
      panics exactly when some letter is not a file letter. */
  lemma {:induction false} ScanKeepsLastLetterAndDigit(s: string, rank: nat, file: nat)
    ensures LettersAreFiles(s) ==> Scan(s, rank, file) == Ok((LastRank(s, rank), LastFile(s, file)))
    ensures !LettersAreFiles(s) ==> Scan(s, rank, file) == Panic(UnwrapOnNone)
    decreases |s|
  {
    if s != [] {
      var c := s[0];
      var file' := if IsAlphabetic(c) && FileIndex(ToLower(c)).Some? then FileIndex(ToLower(c)).value else file;
      var rank' := if IsDigit(c) then RankFromDigit(c) else rank;
      ScanKeepsLastLetterAndDigit(s[1..], rank', file');
      assert forall i :: 0 <= i < |s| - 1 ==> s[1..][i] == s[i + 1];
      if LettersAreFiles(s) {
        LastFileFirstStep(s, file);
        LastRankFirstStep(s, rank);
      } else if IsAlphabetic(c) && FileIndex(ToLower(c)).Some? {
        assert !LettersAreFiles(s[1..]);
      }
    }
  }

  // ----- Square names -----

  /** The name of a square: file letter, then the rank digit 8 - rank. */
  function SquareName(square: int): string
    requires 0 <= square < 64
  {
    [ALPHABET[square % 8], ('8' as int - square / 8) as char]
  }

  /** A well-formed name, letter in either case, maps to (8 - digit) * 8 +
      file, always a board square; and naming that square gives the name back
      in lower case. */
  lemma NameToSquare(f: char, d: char)
    requires 'a' <= ToLower(f) <= 'h' && '1' <= d <= '8'
    ensures var square := (8 - (d as int - '0' as int)) * 8 + (ToLower(f) as int - 'a' as int);
      0 <= square < 64 &&
      SquareIndex([f, d]) == Ok(square) &&
      SquareName(square) == [ToLower(f), d]
  {
    var square := (8 - (d as int - '0' as int)) * 8 + (ToLower(f) as int - 'a' as int);
    var file := ToLower(f) as int - 'a' as int;
    assert [f, d][1..] == [d] && [d][1..] == [];
    assert Scan([d], 0, file) == Scan([], RankFromDigit(d), file);
    assert Scan([f, d], 0, 0) == Scan([d], 0, file);
    assert square / 8 == 8 - (d as int - '0' as int);
    assert square % 8 == ToLower(f) as int - 'a' as int;
  }

  /** Every square's name maps back to it. */
  lemma SquareNameRoundTrip(square: int)
    requires 0 <= square < 64
    ensures SquareIndex(SquareName(square)) == Ok(square)
  {
    var name := SquareName(square);
    NameToSquare(name[0], name[1]);
  }

  /** The corners: a8 is square 0 and h1 is square 63. */
  lemma Corners()
    ensures SquareIndex("a8") == Ok(0) && SquareIndex("h1") == Ok(63)
  {
    NameToSquare('a', '8');
    NameToSquare('h', '1');
  }

  /** Rank digits outside 1-8 are not rejected: 0 yields an index past the
      board (the caller then panics indexing it), 9 overflows usize. */
  lemma OutOfRangeDigits()
    ensures SquareIndex("a0") == Ok(64)
    ensures SquareIndex("a9") == Panic(ArithmeticOverflow)
  {
    assert "a0"[1..] == "0" && "a9"[1..] == "9";
  }
}
