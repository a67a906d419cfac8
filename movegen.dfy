/** Move generators (chess_logic/src/lib.rs:260-580).  Each produces a mask of
    64 booleans, `true` at every square the piece standing on `tile` may move
    to.  The specifications are stated in rank/file geometry; the methods follow
    the source's offset arithmetic bounded by the distance table, and their
    contracts say the two agree. */
module MoveGen {

  import opened Results
  import opened Pieces
  import opened Geometry

  /** Direction of `t` from `tile` as a table index, 8 when `t` is on no line
      through `tile`. */
  function DirIndex(tile: int, t: int): int {
    match DirectionTo(tile, t)
    case Some(d) => d
    case None => 8
  }

  // ----- King (lib.rs:278-300) -----

  /** A king may step to any neighbouring square that holds no piece of its
      own colour. */
  predicate KingTarget(board: seq<Byte>, piece: Byte, tile: int, t: int)
    requires |board| == 64
  {
    0 <= t < 64 && Distance(tile, t) == 1 && board[t] & MoverColour(piece) == 0
  }

  function KingMask(board: seq<Byte>, piece: Byte, tile: int): seq<bool>
    requires |board| == 64
  {
    seq(64, t requires 0 <= t < 64 => KingTarget(board, piece, tile, t))
  }

  /** The only square at direction d and distance k from `tile` is the k-th
      ray step. */
  lemma RayStepUnique(tile: int, d: int, k: int, t: int)
    requires 0 <= tile < 64 && 0 <= t < 64 && 0 <= d < 8
    requires DirIndex(tile, t) == d && Distance(tile, t) == k
    ensures 1 <= k <= Dist(tile, d) && t == tile + k * OFFSETS[d]
  {
    RayOfSquare(tile, t);
  }

  /** Squares at distance 1 lie on one of the eight lines. */
  lemma NeighbourHasDirection(tile: int, t: int)
    requires Distance(tile, t) == 1
    ensures DirIndex(tile, t) < 8
  {
  }

  /** The one king step in direction d: present exactly when the table
      distance is positive, and then the only neighbour in that direction. */
  lemma KingStep(tile: int, d: int)
    requires 0 <= tile < 64 && 0 <= d < 8
    ensures forall t :: 0 <= t < 64 && DirIndex(tile, t) == d && Distance(tile, t) == 1 ==>
      Dist(tile, d) > 0 && t == tile + OFFSETS[d]
    ensures Dist(tile, d) > 0 ==>
      0 <= tile + OFFSETS[d] < 64 && DirIndex(tile, tile + OFFSETS[d]) == d && Distance(tile, tile + OFFSETS[d]) == 1
  {
    forall t | 0 <= t < 64 && DirIndex(tile, t) == d && Distance(tile, t) == 1
      ensures Dist(tile, d) > 0 && t == tile + OFFSETS[d]
    {
      RayStepUnique(tile, d, 1, t);
    }
    if Dist(tile, d) > 0 {
      StepOnRay(tile, d, 1);
      assert 1 * OFFSETS[d] == OFFSETS[d];
    }
  }

  method KingMovementFromTile(board: seq<Byte>, piece: Byte, tile: int, dist: seq<seq<nat>>) returns (mask: seq<bool>)
    requires |board| == 64 && 0 <= tile < 64 && IsEdgeTable(dist)
    ensures |mask| == 64
    ensures forall t :: 0 <= t < 64 ==> (mask[t] <==> KingTarget(board, piece, tile, t))
  {
    mask := seq(64, _ => false);
    var colour := if piece & WHITE > 0 then WHITE else BLACK;
    for d := 0 to 8
      invariant |mask| == 64
      invariant forall t :: 0 <= t < 64 ==> (mask[t] <==> KingTarget(board, piece, tile, t) && DirIndex(tile, t) < d)
    {
      var target := tile + OFFSETS[d];
      var distances := dist[tile];
      KingStep(tile, d);
      if distances[d] > 0 {
        if board[target] & colour > 0 {
          continue;
        } else {
          mask := mask[target := true];
        }
      }
    }
    forall t | 0 <= t < 64 && KingTarget(board, piece, tile, t) ensures DirIndex(tile, t) < 8 {
      NeighbourHasDirection(tile, t);
    }
  }

  // ----- Knight (lib.rs:395-478) -----

  const KNIGHT_OFFSETS: seq<int> := [-15, -6, 10, 17, 15, 6, -10, -17]

  /** The rank and file change of each knight offset. */
  function KnightDRank(i: int): int requires 0 <= i < 8 { [-2, -1, 1, 2, 2, 1, -1, -2][i] }
  function KnightDFile(i: int): int requires 0 <= i < 8 { [1, 2, 2, 1, -1, -2, -2, -1][i] }

  /** A knight may jump two squares one way and one square the other, to any
      square that holds no piece of its own colour. */
  predicate KnightTarget(board: seq<Byte>, piece: Byte, tile: int, t: int)
    requires |board| == 64
  {
    var dr, df := Abs(Rank(t) - Rank(tile)), Abs(File(t) - File(tile));
    0 <= t < 64 && ((dr == 1 && df == 2) || (dr == 2 && df == 1)) && board[t] & MoverColour(piece) == 0
  }

  function KnightMask(board: seq<Byte>, piece: Byte, tile: int): seq<bool>
    requires |board| == 64
  {
    seq(64, t requires 0 <= t < 64 => KnightTarget(board, piece, tile, t))
  }

  /** The threshold test guarding offset i, on the distances [N, E, S, W]
      (lib.rs:404-474). */
  predicate KnightGate(edges: seq<nat>, i: int)
    requires |edges| == 4 && 0 <= i < 8
  {
    if i == 0 then edges[0] > 1 && edges[1] > 0
    else if i == 1 then edges[0] > 0 && edges[1] > 1
    else if i == 2 then edges[1] > 1 && edges[2] > 0
    else if i == 3 then edges[1] > 0 && edges[2] > 1
    else if i == 4 then edges[2] > 1 && edges[3] > 0
    else if i == 5 then edges[2] > 0 && edges[3] > 1
    else if i == 6 then edges[3] > 1 && edges[0] > 0
    else edges[3] > 0 && edges[0] > 1
  }

  /** Which knight offset leads from `tile` to `t`; 8 if none does. */
  function KnightIndex(tile: int, t: int): int {
    var dr, df := Rank(t) - Rank(tile), File(t) - File(tile);
    if dr == -2 && df == 1 then 0
    else if dr == -1 && df == 2 then 1
    else if dr == 1 && df == 2 then 2
    else if dr == 2 && df == 1 then 3
    else if dr == 2 && df == -1 then 4
    else if dr == 1 && df == -2 then 5
    else if dr == -1 && df == -2 then 6
    else if dr == -2 && df == -1 then 7
    else 8
  }

  /** The gate of offset i holds exactly when the jump stays on the board, and
      then the raw index sum is the jump's square: no wrap-around. */
  lemma KnightGateMeansOnBoard(tile: int, i: int)
    requires 0 <= tile < 64 && 0 <= i < 8
    ensures var e := EdgeDistances(Rank(tile), File(tile));
      KnightGate([e[0], e[3], e[1], e[2]], i) <==>
        OnBoard(Rank(tile) + KnightDRank(i), File(tile) + KnightDFile(i))
    ensures OnBoard(Rank(tile) + KnightDRank(i), File(tile) + KnightDFile(i)) ==>
      var t := tile + KNIGHT_OFFSETS[i];
      0 <= t < 64 && Rank(t) == Rank(tile) + KnightDRank(i) && File(t) == File(tile) + KnightDFile(i)
  {
    var r, f := Rank(tile) + KnightDRank(i), File(tile) + KnightDFile(i);
    assert tile == Rank(tile) * 8 + File(tile);
    assert KNIGHT_OFFSETS[i] == KnightDRank(i) * 8 + KnightDFile(i);
    if OnBoard(r, f) {
      assert tile + KNIGHT_OFFSETS[i] == r * 8 + f;
    }
  }

  /** A square reached by knight offset i is that offset's index sum, and the
      L-shaped squares are exactly the ones some offset reaches. */
  lemma KnightJumpUnique(tile: int, i: int, t: int)
    requires 0 <= tile < 64 && 0 <= t < 64 && 0 <= i < 8 && KnightIndex(tile, t) == i
    ensures OnBoard(Rank(tile) + KnightDRank(i), File(tile) + KnightDFile(i))
    ensures t == tile + KNIGHT_OFFSETS[i]
  {
    KnightGateMeansOnBoard(tile, i);
    assert t == Rank(t) * 8 + File(t);
  }

  /** Ghost bookkeeping for one knight offset. */
  lemma KnightStep(board: seq<Byte>, piece: Byte, tile: int, i: int, edges: seq<nat>, before: seq<bool>, mask: seq<bool>)
    requires |board| == 64 && 0 <= tile < 64 && 0 <= i < 8 && |before| == 64
    requires var e := EdgeDistances(Rank(tile), File(tile)); edges == [e[0], e[3], e[1], e[2]]
    requires forall t :: 0 <= t < 64 ==> (before[t] <==> KnightTarget(board, piece, tile, t) && KnightIndex(tile, t) < i)
    requires mask ==
      if KnightGate(edges, i) && board[tile + KNIGHT_OFFSETS[i]] & MoverColour(piece) == 0
      then before[tile + KNIGHT_OFFSETS[i] := true] else before
    ensures |mask| == 64
    ensures forall t :: 0 <= t < 64 ==> (mask[t] <==> KnightTarget(board, piece, tile, t) && KnightIndex(tile, t) < i + 1)
  {
    KnightGateMeansOnBoard(tile, i);
    forall t | 0 <= t < 64 && KnightIndex(tile, t) == i
      ensures KnightGate(edges, i) && t == tile + KNIGHT_OFFSETS[i]
    {
      KnightJumpUnique(tile, i, t);
    }
  }

  lemma KnightShapeHasIndex(tile: int, t: int)
    ensures var dr, df := Abs(Rank(t) - Rank(tile)), Abs(File(t) - File(tile));
      ((dr == 1 && df == 2) || (dr == 2 && df == 1)) <==> KnightIndex(tile, t) < 8
  {
  }

  method KnightMovementFromTile(board: seq<Byte>, piece: Byte, tile: int, dist: seq<seq<nat>>) returns (mask: seq<bool>)
    requires |board| == 64 && 0 <= tile < 64 && IsEdgeTable(dist)
    ensures |mask| == 64
    ensures forall t :: 0 <= t < 64 ==> (mask[t] <==> KnightTarget(board, piece, tile, t))
  {
    mask := seq(64, _ => false);
    var colour := if piece & WHITE > 0 then WHITE else BLACK;
    var edges := [dist[tile][0], dist[tile][3], dist[tile][1], dist[tile][2]];
    for i := 0 to 8
      invariant |mask| == 64
      invariant forall t :: 0 <= t < 64 ==> (mask[t] <==> KnightTarget(board, piece, tile, t) && KnightIndex(tile, t) < i)
    {
      var target := tile + KNIGHT_OFFSETS[i];
      ghost var before := mask;
      KnightGateMeansOnBoard(tile, i);
      if KnightGate(edges, i) {
        if board[target] & colour > 0 {
          KnightStep(board, piece, tile, i, edges, before, mask);
          continue;
        } else {
          mask := mask[target := true];
        }
      }
      KnightStep(board, piece, tile, i, edges, before, mask);
    }
    forall t | 0 <= t < 64 ensures KnightTarget(board, piece, tile, t) ==> KnightIndex(tile, t) < 8 {
      KnightShapeHasIndex(tile, t);
    }
  }

  // ----- Queen, rook and bishop (lib.rs:302-393) -----

  /** A sliding piece using directions lo..hi-1 may move to `t` when `t` lies
      on one of those lines through `tile`, every square strictly between is
      empty (no colour bit), and `t` holds no piece of its own colour. */
  predicate SlideTarget(board: seq<Byte>, piece: Byte, tile: int, lo: int, hi: int, t: int)
    requires |board| == 64
  {
    0 <= t < 64 && lo <= DirIndex(tile, t) < hi && board[t] & MoverColour(piece) == 0 &&
    forall s :: 0 <= s < 64 && DirIndex(tile, s) == DirIndex(tile, t) && Distance(tile, s) < Distance(tile, t) ==>
      Vacant(board[s])
  }

  function QueenMask(board: seq<Byte>, piece: Byte, tile: int): seq<bool>
    requires |board| == 64
  {
    seq(64, t requires 0 <= t < 64 => SlideTarget(board, piece, tile, 0, 8, t))
  }

  function RookMask(board: seq<Byte>, piece: Byte, tile: int): seq<bool>
    requires |board| == 64
  {
    seq(64, t requires 0 <= t < 64 => SlideTarget(board, piece, tile, 0, 4, t))
  }

  function BishopMask(board: seq<Byte>, piece: Byte, tile: int): seq<bool>
    requires |board| == 64
  {
    seq(64, t requires 0 <= t < 64 => SlideTarget(board, piece, tile, 4, 8, t))
  }

  /** The loop shared by the three sliding generators: for each direction d in
      lo..hi-1 walk outward up to the table distance, stop before a friendly
      piece, stop on an enemy piece after marking it. */
  method SlidingMovementFromTile(board: seq<Byte>, piece: Byte, tile: int, dist: seq<seq<nat>>, lo: int, hi: int)
    returns (mask: seq<bool>)
    requires |board| == 64 && 0 <= tile < 64 && IsEdgeTable(dist) && 0 <= lo <= hi <= 8
    ensures |mask| == 64
    ensures forall t :: 0 <= t < 64 ==> (mask[t] <==> SlideTarget(board, piece, tile, lo, hi, t))
  {
    mask := seq(64, _ => false);
    var colour, enemy := MoverColour(piece), EnemyColour(piece);
    for d := lo to hi
      invariant |mask| == 64
      invariant forall t :: 0 <= t < 64 ==> (mask[t] <==> SlideTarget(board, piece, tile, lo, d, t))
    {
      var distances := dist[tile];
      ghost var before := mask;
      for k := 1 to distances[d] + 1
        invariant |mask| == 64
        invariant forall s :: 0 <= s < 64 && DirIndex(tile, s) == d && Distance(tile, s) < k ==> Vacant(board[s])
        invariant forall t :: 0 <= t < 64 ==>
          (mask[t] <==> before[t] || (DirIndex(tile, t) == d && Distance(tile, t) < k))
      {
        StepOnRay(tile, d, k);
        var target := tile + k * OFFSETS[d];
        if board[target] & colour > 0 {
          SlideBlocked(board, piece, tile, lo, d, k, target, mask, before);
          break;
        } else if board[target] & enemy > 0 {
          mask := mask[target := true];
          SlideBlocked(board, piece, tile, lo, d, k, target, mask, before);
          break;
        } else {
          mask := mask[target := true];
          forall t | 0 <= t < 64 && DirIndex(tile, t) == d && Distance(tile, t) == k ensures t == target {
            RayStepUnique(tile, d, k, t);
          }
        }
      }
      SlideDirectionDone(board, piece, tile, lo, d, mask, before);
    }
  }

  /** Ghost bookkeeping for a direction that hit a piece at step k. */
  lemma SlideBlocked(board: seq<Byte>, piece: Byte, tile: int, lo: int, d: int, k: int, target: int,
                     mask: seq<bool>, before: seq<bool>)
    requires |board| == 64 && 0 <= tile < 64 && 0 <= lo <= d < 8 && |mask| == 64 && |before| == 64
    requires 1 <= k <= Dist(tile, d) && target == tile + k * OFFSETS[d]
    requires 0 <= target < 64 && DirIndex(tile, target) == d && Distance(tile, target) == k
    requires !Vacant(board[target])
    requires forall s :: 0 <= s < 64 && DirIndex(tile, s) == d && Distance(tile, s) < k ==> Vacant(board[s])
    requires forall t :: 0 <= t < 64 ==> (before[t] <==> SlideTarget(board, piece, tile, lo, d, t))
    requires forall t :: 0 <= t < 64 ==>
      (mask[t] <==> before[t] || (DirIndex(tile, t) == d && Distance(tile, t) < k) ||
                    (t == target && board[target] & MoverColour(piece) == 0))
    ensures forall t :: 0 <= t < 64 ==> (mask[t] <==> SlideTarget(board, piece, tile, lo, d + 1, t))
  {
    forall t | 0 <= t < 64
      ensures mask[t] <==> SlideTarget(board, piece, tile, lo, d + 1, t)
    {
      if DirIndex(tile, t) == d {
        if Distance(tile, t) == k {
          RayStepUnique(tile, d, k, t);
        } else if Distance(tile, t) > k {
          assert !Vacant(board[target]);
        }
      }
    }
  }

  /** Ghost bookkeeping once the walk in direction d has ended. */
  lemma SlideDirectionDone(board: seq<Byte>, piece: Byte, tile: int, lo: int, d: int,
                           mask: seq<bool>, before: seq<bool>)
    requires |board| == 64 && 0 <= tile < 64 && 0 <= lo <= d < 8 && |mask| == 64 && |before| == 64
    requires forall t :: 0 <= t < 64 ==> (before[t] <==> SlideTarget(board, piece, tile, lo, d, t))
    requires
      (forall t :: 0 <= t < 64 ==> (mask[t] <==> SlideTarget(board, piece, tile, lo, d + 1, t))) ||
      ((forall s :: 0 <= s < 64 && DirIndex(tile, s) == d && Distance(tile, s) < Dist(tile, d) + 1 ==> Vacant(board[s])) &&
       (forall t :: 0 <= t < 64 ==> (mask[t] <==> before[t] || (DirIndex(tile, t) == d && Distance(tile, t) < Dist(tile, d) + 1))))
    ensures forall t :: 0 <= t < 64 ==> (mask[t] <==> SlideTarget(board, piece, tile, lo, d + 1, t))
  {
    if !(forall t :: 0 <= t < 64 ==> (mask[t] <==> SlideTarget(board, piece, tile, lo, d + 1, t))) {
      forall t | 0 <= t < 64
        ensures mask[t] <==> SlideTarget(board, piece, tile, lo, d + 1, t)
      {
        if DirIndex(tile, t) == d {
          RayOfSquare(tile, t);
          assert Vacant(board[t]);
        }
      }
    }
  }

  method QueenMovementFromTile(board: seq<Byte>, piece: Byte, tile: int, dist: seq<seq<nat>>) returns (mask: seq<bool>)
    requires |board| == 64 && 0 <= tile < 64 && IsEdgeTable(dist)
    ensures mask == QueenMask(board, piece, tile)
  {
    mask := SlidingMovementFromTile(board, piece, tile, dist, 0, 8);
  }

  method RookMovementFromTile(board: seq<Byte>, piece: Byte, tile: int, dist: seq<seq<nat>>) returns (mask: seq<bool>)
    requires |board| == 64 && 0 <= tile < 64 && IsEdgeTable(dist)
    ensures mask == RookMask(board, piece, tile)
  {
    mask := SlidingMovementFromTile(board, piece, tile, dist, 0, 4);
  }

  method BishopMovementFromTile(board: seq<Byte>, piece: Byte, tile: int, dist: seq<seq<nat>>) returns (mask: seq<bool>)
    requires |board| == 64 && 0 <= tile < 64 && IsEdgeTable(dist)
    ensures mask == BishopMask(board, piece, tile)
  {
    mask := SlidingMovementFromTile(board, piece, tile, dist, 4, 8);
  }

  /** Queen's reach is the union of rook's and bishop's: the source's queen
      loop runs directions 0-7, rook 0-3 and bishop 4-7. */
  lemma QueenIsRookUnionBishop(board: seq<Byte>, piece: Byte, tile: int, t: int)
    requires |board| == 64 && 0 <= t < 64
    ensures QueenMask(board, piece, tile)[t] <==> RookMask(board, piece, tile)[t] || BishopMask(board, piece, tile)[t]
  {
  }

  /** Rook targets share the rank or the file of the origin, bishop targets a
      diagonal; neither ever includes the origin. */
  lemma SlidingTargetsOnLines(board: seq<Byte>, piece: Byte, tile: int, t: int)
    requires |board| == 64 && 0 <= t < 64
    ensures RookMask(board, piece, tile)[t] ==> t != tile && (Rank(t) == Rank(tile) || File(t) == File(tile))
    ensures BishopMask(board, piece, tile)[t] ==>
      t != tile && Abs(Rank(t) - Rank(tile)) == Abs(File(t) - File(tile))
  {
  }

  /** The set of marked squares of a mask. */
  function Marked(mask: seq<bool>): set<int> {
    set t | 0 <= t < |mask| && mask[t]
  }

  /** A board holding only the piece on `tile`. */
  function LoneBoard(piece: Byte, tile: int): (board: seq<Byte>)
    ensures |board| == 64
  {
    seq(64, i => if i == tile then piece else NONE)
  }

  /** A rook alone on d5 (square 27) reaches the 7 other squares of its file
      and the 7 other squares of its rank: exactly 14. */
  lemma LoneRookOnD5(piece: Byte)
    ensures Marked(RookMask(LoneBoard(piece, 27), piece, 27)) ==
      {3, 11, 19, 35, 43, 51, 59, 24, 25, 26, 28, 29, 30, 31}
    ensures |Marked(RookMask(LoneBoard(piece, 27), piece, 27))| == 14
  {
    var mask := RookMask(LoneBoard(piece, 27), piece, 27);
    var expected: set<int> := {3, 11, 19, 35, 43, 51, 59, 24, 25, 26, 28, 29, 30, 31};
    forall t ensures t in Marked(mask) <==> t in expected {
      if 0 <= t < 64 {
        LoneRookReach(piece, t);
        RankOrFileD5(t);
      }
    }
    assert Marked(mask) == expected;
    FourteenSquares();
  }

  lemma FourteenSquares()
    ensures |{3, 11, 19, 35, 43, 51, 59, 24, 25, 26, 28, 29, 30, 31}| == 14
  {
    var file: set<int> := {3, 11, 19, 35, 43, 51, 59};
    var rank: set<int> := {24, 25, 26, 28, 29, 30, 31};
    assert |file| == 7;
    assert |rank| == 7;
    assert file !! rank;
    assert file + rank == {3, 11, 19, 35, 43, 51, 59, 24, 25, 26, 28, 29, 30, 31};
  }

  lemma LoneRookReach(piece: Byte, t: int)
    requires 0 <= t < 64
    ensures RookMask(LoneBoard(piece, 27), piece, 27)[t] <==> t != 27 && (Rank(t) == 3 || File(t) == 3)
  {
    var board := LoneBoard(piece, 27);
    if t != 27 && DirIndex(27, t) < 4 {
      forall s | 0 <= s < 64 && DirIndex(27, s) == DirIndex(27, t) ensures Vacant(board[s]) {
        assert s != 27;
      }
    }
  }

  lemma RankOrFileD5(t: int)
    requires 0 <= t < 64
    ensures (t != 27 && (Rank(t) == 3 || File(t) == 3)) <==> t in {3, 11, 19, 35, 43, 51, 59, 24, 25, 26, 28, 29, 30, 31}
  {
    assert t == Rank(t) * 8 + File(t);
  }

  /** A knight alone in the a8 corner (square 0) reaches exactly b6 and c7. */
  lemma LoneKnightInCorner(piece: Byte)
    ensures Marked(KnightMask(LoneBoard(piece, 0), piece, 0)) == {10, 17}
  {
    var mask := KnightMask(LoneBoard(piece, 0), piece, 0);
    forall t ensures t in Marked(mask) <==> t in {10, 17} {
      if 0 <= t < 64 {
        assert t == Rank(t) * 8 + File(t);
      }
    }
  }

  // ----- Pawn (lib.rs:480-580) -----

  /** White pawns advance towards rank 0, black pawns towards rank 7. */
  function Forward(piece: Byte): int {
    if piece & WHITE > 0 then -1 else 1
  }

  /** The rank pawns of that colour start from: 6 (squares 48-55) for white,
      1 (squares 8-15) for black. */
  function StartRank(piece: Byte): int {
    if piece & WHITE > 0 then 6 else 1
  }

  /** One square diagonally forward, onto an enemy piece or onto the
      en-passant square `available`. */
  predicate PawnCapture(board: seq<Byte>, piece: Byte, tile: int, available: Byte, t: int)
    requires |board| == 64 && 0 <= t < 64
  {
    Rank(t) - Rank(tile) == Forward(piece) && Abs(File(t) - File(tile)) == 1 &&
    (board[t] & EnemyColour(piece) > 0 || t == available as int)
  }

  /** One square straight forward, onto an empty square. */
  predicate PawnPush(board: seq<Byte>, piece: Byte, tile: int, t: int)
    requires |board| == 64 && 0 <= t < 64
  {
    Rank(t) - Rank(tile) == Forward(piece) && File(t) == File(tile) && board[t] == NONE
  }

  /** Two squares straight forward from the starting rank, both empty. */
  predicate PawnDoublePush(board: seq<Byte>, piece: Byte, tile: int, t: int)
    requires |board| == 64 && 0 <= tile < 64 && 0 <= t < 64
  {
    Rank(t) - Rank(tile) == 2 * Forward(piece) && File(t) == File(tile) && Rank(tile) == StartRank(piece) &&
    board[t] == NONE && board[tile + 8 * Forward(piece)] == NONE
  }

  /** A pawn may step one square forward onto an empty square, two squares
      from its starting rank when both squares are empty, and one square
      diagonally forward onto an enemy piece or onto the en-passant square. */
  predicate PawnTarget(board: seq<Byte>, piece: Byte, tile: int, available: Byte, t: int)
    requires |board| == 64 && 0 <= tile < 64
  {
    0 <= t < 64 &&
    (PawnCapture(board, piece, tile, available, t) || PawnPush(board, piece, tile, t) ||
     PawnDoublePush(board, piece, tile, t))
  }

  function PawnMask(board: seq<Byte>, piece: Byte, tile: int, available: Byte): seq<bool>
    requires |board| == 64 && 0 <= tile < 64
  {
    seq(64, t requires 0 <= t < 64 => PawnTarget(board, piece, tile, available, t))
  }

  /** Whether the pawn on `tile` has its two-square advance open. */
  predicate DoublePushOpen(board: seq<Byte>, piece: Byte, tile: int)
    requires |board| == 64 && 0 <= tile < 64
  {
    Rank(tile) == StartRank(piece) &&
    board[tile + 8 * Forward(piece)] == NONE && board[tile + 16 * Forward(piece)] == NONE
  }

  /** The value the pawn generator leaves in `potential_tile_to_un_passant`:
      the square the pawn would skip, when the double advance is open
      (lib.rs:511, 553); otherwise the old value. */
  function PawnPotential(board: seq<Byte>, piece: Byte, tile: int, potential: Byte): Byte
    requires |board| == 64 && 0 <= tile < 64
  {
    if DoublePushOpen(board, piece, tile) then (tile + 8 * Forward(piece)) as Byte else potential
  }

  // ----- Dispatcher (lib.rs:260-276) -----

  /** The mask `available_moves_for_piece` returns: the generator of the
      highest type bit set, king first; all squares when no type bit is set. */
  function AvailableMoves(board: seq<Byte>, piece: Byte, tile: int, available: Byte): (mask: seq<bool>)
    requires |board| == 64 && 0 <= tile < 64
    ensures |mask| == 64
  {
    if piece & KING > 0 then KingMask(board, piece, tile)
    else if piece & QUEEN > 0 then QueenMask(board, piece, tile)
    else if piece & ROOK > 0 then RookMask(board, piece, tile)
    else if piece & BISHOP > 0 then BishopMask(board, piece, tile)
    else if piece & KNIGHT > 0 then KnightMask(board, piece, tile)
    else if piece & PAWN > 0 then PawnMask(board, piece, tile, available)
    else seq(64, _ => true)
  }

  /** Whether the dispatcher hands the piece to the pawn generator. */
  predicate DispatchesToPawn(piece: Byte) {
    piece & KING == 0 && piece & QUEEN == 0 && piece & ROOK == 0 &&
    piece & BISHOP == 0 && piece & KNIGHT == 0 && piece & PAWN > 0
  }

  /** `potential_tile_to_un_passant` after the dispatcher has run. */
  function PotentialAfter(board: seq<Byte>, piece: Byte, tile: int, potential: Byte): Byte
    requires |board| == 64 && 0 <= tile < 64
  {
    if DispatchesToPawn(piece) then PawnPotential(board, piece, tile, potential) else potential
  }
}
