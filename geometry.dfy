/** Board geometry: square index = rank * 8 + file, rank 0 being the rank
    named "8" and file 0 the a-file, and the precomputed distance-to-edge table
    `tiles_to_the_edge` (chess_logic/src/lib.rs:125-149). */
module Geometry {

  import opened Results

  /** Index steps for the eight directions in table order
      N, S, W, E, NW, SE, NE, SW (lib.rs:286). */
  const OFFSETS: seq<int> := [-8, 8, -1, 1, -9, 9, -7, 7]

  function Rank(square: int): int { square / 8 }
  function File(square: int): int { square % 8 }

  predicate OnBoard(rank: int, file: int) {
    0 <= rank < 8 && 0 <= file < 8
  }

  /** The same eight directions as unit steps in rank and in file. */
  function DRank(d: int): int
    requires 0 <= d < 8
  {
    [-1, 1, 0, 0, -1, 1, -1, 1][d]
  }

  function DFile(d: int): int
    requires 0 <= d < 8
  {
    [0, 0, -1, 1, -1, 1, 1, -1][d]
  }

  function Min(a: int, b: int): int {
    if a < b then a else b
  }

  function Abs(x: int): nat {
    if x < 0 then -x else x
  }

  /** The table row of the square at (rank, file), as lib.rs:131-145 builds it. */
  function EdgeDistances(rank: int, file: int): (r: seq<nat>)
    requires OnBoard(rank, file)
    ensures |r| == 8
  {
    [rank, 7 - rank, file, 7 - file,
     Min(rank, file), Min(7 - rank, 7 - file), Min(rank, 7 - file), Min(7 - rank, file)]
  }

  predicate IsEdgeTable(dist: seq<seq<nat>>) {
    |dist| == 64 &&
    forall square :: 0 <= square < 64 ==> dist[square] == EdgeDistances(Rank(square), File(square))
  }

  /** Distance from `square` to the edge in direction d. */
  function Dist(square: int, d: int): nat
    requires 0 <= square < 64 && 0 <= d < 8
  {
    EdgeDistances(Rank(square), File(square))[d]
  }

  /** tiles_to_the_edge (lib.rs:125-149): two nested loops fill a 64-row table. */
  method TilesToTheEdge() returns (dist: seq<seq<nat>>)
    ensures IsEdgeTable(dist)
  {
    var table := new seq<nat>[64](_ => []);
    for file := 0 to 8
      invariant forall square :: 0 <= square < 64 && File(square) < file ==>
        table[square] == EdgeDistances(Rank(square), File(square))
    {
      for rank := 0 to 8
        invariant forall square :: 0 <= square < 64 && (File(square) < file || (File(square) == file && Rank(square) < rank)) ==>
          table[square] == EdgeDistances(Rank(square), File(square))
      {
        var north, south, west, east := rank, 7 - rank, file, 7 - file;
        var index := rank * 8 + file;
        assert Rank(index) == rank && File(index) == file;
        table[index] := [north, south, west, east,
                         Min(north, west), Min(south, east), Min(north, east), Min(south, west)];
      }
    }
    dist := table[..];
  }

  /** Every table entry is at most 7, and each diagonal distance is the
      smaller of the two orthogonal distances it combines. */
  lemma EdgeTableShape(dist: seq<seq<nat>>, square: int)
    requires IsEdgeTable(dist) && 0 <= square < 64
    ensures |dist[square]| == 8 && forall d :: 0 <= d < 8 ==> dist[square][d] <= 7
    ensures dist[square][0] + dist[square][1] == 7 && dist[square][2] + dist[square][3] == 7
    ensures dist[square][4] == Min(dist[square][0], dist[square][2])
    ensures dist[square][5] == Min(dist[square][1], dist[square][3])
    ensures dist[square][6] == Min(dist[square][0], dist[square][3])
    ensures dist[square][7] == Min(dist[square][1], dist[square][2])
  {
  }

  /** What the table means: walking k >= 0 steps from `square` in direction d
      stays on the board exactly when k is at most the table entry.  This is
      why the generators need no per-step edge test and never wrap around a
      file edge. */
  lemma StepsWithinDistanceStayOnBoard(square: int, d: int, k: int)
    requires 0 <= square < 64 && 0 <= d < 8 && k >= 0
    ensures k <= Dist(square, d) <==> OnBoard(Rank(square) + k * DRank(d), File(square) + k * DFile(d))
  {
    var r, f := Rank(square), File(square);
    if d == 0 { assert k * DRank(d) == -k && k * DFile(d) == 0; }
    else if d == 1 { assert k * DRank(d) == k && k * DFile(d) == 0; }
    else if d == 2 { assert k * DRank(d) == 0 && k * DFile(d) == -k; }
    else if d == 3 { assert k * DRank(d) == 0 && k * DFile(d) == k; }
    else if d == 4 { assert k * DRank(d) == -k && k * DFile(d) == -k; }
    else if d == 5 { assert k * DRank(d) == k && k * DFile(d) == k; }
    else if d == 6 { assert k * DRank(d) == -k && k * DFile(d) == k; }
    else { assert k * DRank(d) == k && k * DFile(d) == -k; }
  }

  /** The index arithmetic `square + k * offset` lands on the square k steps
      away in rank and file, for every k within the table distance. */
  lemma StepIndex(square: int, d: int, k: int)
    requires 0 <= square < 64 && 0 <= d < 8 && 0 <= k <= Dist(square, d)
    ensures 0 <= square + k * OFFSETS[d] < 64
    ensures Rank(square + k * OFFSETS[d]) == Rank(square) + k * DRank(d)
    ensures File(square + k * OFFSETS[d]) == File(square) + k * DFile(d)
  {
    StepsWithinDistanceStayOnBoard(square, d, k);
    var r, f := Rank(square) + k * DRank(d), File(square) + k * DFile(d);
    assert OFFSETS[d] == DRank(d) * 8 + DFile(d);
    assert square + k * OFFSETS[d] == r * 8 + f by {
      assert square == Rank(square) * 8 + File(square);
      assert k * OFFSETS[d] == k * DRank(d) * 8 + k * DFile(d);
    }
  }

  /** The direction in which `to` lies as seen from `from`, when it lies on a
      rank, file or diagonal through `from`. */
  function DirectionTo(from: int, to: int): Option<int> {
    var dr, df := Rank(to) - Rank(from), File(to) - File(from);
    if dr == 0 && df == 0 then None
    else if df == 0 then Some(if dr < 0 then 0 else 1)
    else if dr == 0 then Some(if df < 0 then 2 else 3)
    else if dr == df then Some(if dr < 0 then 4 else 5)
    else if dr == -df then Some(if dr < 0 then 6 else 7)
    else None
  }

  /** King-move (Chebyshev) distance between two squares. */
  function Distance(from: int, to: int): nat {
    var dr, df := Abs(Rank(to) - Rank(from)), Abs(File(to) - File(from));
    if dr < df then df else dr
  }

  /** A ray step k within the table distance has direction d and distance k. */
  lemma StepOnRay(square: int, d: int, k: int)
    requires 0 <= square < 64 && 0 <= d < 8 && 1 <= k <= Dist(square, d)
    ensures 0 <= square + k * OFFSETS[d] < 64
    ensures DirectionTo(square, square + k * OFFSETS[d]) == Some(d)
    ensures Distance(square, square + k * OFFSETS[d]) == k
  {
    StepIndex(square, d, k);
    var t := square + k * OFFSETS[d];
    assert Rank(t) - Rank(square) == k * DRank(d);
    assert File(t) - File(square) == k * DFile(d);
    if d == 0 { assert k * DRank(d) == -k && k * DFile(d) == 0; }
    else if d == 1 { assert k * DRank(d) == k && k * DFile(d) == 0; }
    else if d == 2 { assert k * DRank(d) == 0 && k * DFile(d) == -k; }
    else if d == 3 { assert k * DRank(d) == 0 && k * DFile(d) == k; }
    else if d == 4 { assert k * DRank(d) == -k && k * DFile(d) == -k; }
    else if d == 5 { assert k * DRank(d) == k && k * DFile(d) == k; }
    else if d == 6 { assert k * DRank(d) == -k && k * DFile(d) == k; }
    else { assert k * DRank(d) == k && k * DFile(d) == -k; }
  }

  /** The rank and file change towards a square on a line through `square`
      are its distance times the unit steps of its direction. */
  lemma LineSteps(square: int, t: int)
    requires DirectionTo(square, t).Some?
    ensures var d, k := DirectionTo(square, t).value, Distance(square, t);
      0 <= d < 8 && k >= 1 &&
      Rank(t) - Rank(square) == k * DRank(d) && File(t) - File(square) == k * DFile(d)
  {
    var d := DirectionTo(square, t).value;
    var k := Distance(square, t);
    if d == 0 { assert k * DRank(d) == -k && k * DFile(d) == 0; }
    else if d == 1 { assert k * DRank(d) == k && k * DFile(d) == 0; }
    else if d == 2 { assert k * DRank(d) == 0 && k * DFile(d) == -k; }
    else if d == 3 { assert k * DRank(d) == 0 && k * DFile(d) == k; }
    else if d == 4 { assert k * DRank(d) == -k && k * DFile(d) == -k; }
    else if d == 5 { assert k * DRank(d) == k && k * DFile(d) == k; }
    else if d == 6 { assert k * DRank(d) == -k && k * DFile(d) == k; }
    else { assert k * DRank(d) == k && k * DFile(d) == -k; }
  }

  /** Conversely every square on a line through `square` is such a ray step. */
  lemma RayOfSquare(square: int, t: int)
    requires 0 <= square < 64 && 0 <= t < 64 && DirectionTo(square, t).Some?
    ensures var d := DirectionTo(square, t).value;
      0 <= d < 8 && 1 <= Distance(square, t) <= Dist(square, d) &&
      t == square + Distance(square, t) * OFFSETS[d]
  {
    var d := DirectionTo(square, t).value;
    var k := Distance(square, t);
    LineSteps(square, t);
    StepsWithinDistanceStayOnBoard(square, d, k);
    StepIndex(square, d, k);
    assert square == Rank(square) * 8 + File(square) && t == Rank(t) * 8 + File(t);
    var u := square + k * OFFSETS[d];
    assert u == Rank(u) * 8 + File(u);
  }

  /** The square a rank steps and b file steps away from `square`, when it is
      on the board, is `square + 8a + b`, and no other. */
  lemma Displacement(square: int, t: int, a: int, b: int)
    requires 0 <= square < 64 && 0 <= t < 64
    ensures (Rank(t) == Rank(square) + a && File(t) == File(square) + b) <==>
      (OnBoard(Rank(square) + a, File(square) + b) && t == square + 8 * a + b)
  {
    assert square == Rank(square) * 8 + File(square);
    assert t == Rank(t) * 8 + File(t);
  }
}
