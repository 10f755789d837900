/**
 * Board geometry (Chess/MoveHelper.cs): the eight ray directions, the distance to the
 * board edge along each, knight, king and pawn attack sets, the direction classifier for
 * square offsets, and file masks.
 *
 * The static constructor fills these tables once; `Initialize` is that constructor, and
 * its postcondition says that every table equals the specification function of the same
 * name. The rest of the model reads the tables through those functions.
 */
module MoveHelper {
  import opened Bits
  import opened Pieces

  const N: nat := 0
  const E: nat := 1
  const S: nat := 2
  const W: nat := 3
  const NE: nat := 4
  const SE: nat := 5
  const SW: nat := 6
  const NW: nat := 7

  /** Square offsets of one step in each direction: N, E, S, W, NE, SE, SW, NW. */
  const Directions: seq<int> := [8, 1, -8, -1, 9, -7, -9, 7]

  /** File and rank change of one step in each direction. */
  const FileStep: seq<int> := [0, 1, 0, -1, 1, 1, -1, -1]
  const RankStep: seq<int> := [1, 0, -1, 0, 1, -1, -1, 1]

  predicate OnBoard(s: int)
  {
    0 <= s < 64
  }

  function FileOf(s: int): int
  {
    s % 8
  }

  function RankOf(s: int): int
  {
    s / 8
  }

  function Min(a: int, b: int): int
  {
    if a < b then a else b
  }

  function Abs(a: int): nat
  {
    if a < 0 then -a else a
  }

  function Sign(a: int): int
  {
    if a < 0 then -1 else if a == 0 then 0 else 1
  }

  // ---------------------------------------------------------------------------------
  // Specification of the tables

  /** `NumSquaresToEdge[s]`: how many steps fit in each direction (Chess/MoveHelper.cs:43-53). */
  function EdgeDistances(s: int): seq<int>
  {
    var x, y := s % 8, s / 8;
    var n, south, e, w := 7 - y, y, 7 - x, x;
    [n, e, south, w, Min(n, e), Min(south, e), Min(south, w), Min(n, w)]
  }

  /** The k-th of the source's eight knight candidates, if it is on the board (Chess/MoveHelper.cs:63-70). */
  function KnightCandidate(s: int, k: nat): seq<int>
  {
    var x, y := s % 8, s / 8;
    if k == 0 then (if x > 0 && y > 1 then [x - 1 + 8 * (y - 2)] else [])
    else if k == 1 then (if x > 1 && y > 0 then [x - 2 + 8 * (y - 1)] else [])
    else if k == 2 then (if x > 0 && y < 6 then [x - 1 + 8 * (y + 2)] else [])
    else if k == 3 then (if x > 1 && y < 7 then [x - 2 + 8 * (y + 1)] else [])
    else if k == 4 then (if x < 7 && y > 1 then [x + 1 + 8 * (y - 2)] else [])
    else if k == 5 then (if x < 6 && y > 0 then [x + 2 + 8 * (y - 1)] else [])
    else if k == 6 then (if x < 7 && y < 6 then [x + 1 + 8 * (y + 2)] else [])
    else (if x < 6 && y < 7 then [x + 2 + 8 * (y + 1)] else [])
  }

  /** The knight targets from the first k candidates, in the order the source adds them. */
  function KnightMovesUpTo(s: int, k: nat): seq<int>
    requires k <= 8
  {
    if k == 0 then [] else KnightMovesUpTo(s, k - 1) + KnightCandidate(s, k - 1)
  }

  function KnightMoveList(s: int): seq<int>
  {
    KnightMovesUpTo(s, 8)
  }

  /** The king targets from the first d directions with room to step (Chess/MoveHelper.cs:78-84). */
  function KingMovesUpTo(s: int, d: nat): seq<int>
    requires d <= 8
  {
    if d == 0 then []
    else KingMovesUpTo(s, d - 1) + (if EdgeDistances(s)[d - 1] > 0 then [s + Directions[d - 1]] else [])
  }

  function KingMoveList(s: int): seq<int>
  {
    KingMovesUpTo(s, 8)
  }

  /** The OR of `1ul << t` over a list of squares, folded from the front. */
  function BitsOf(l: seq<int>): bv64
  {
    if |l| == 0 then 0 else Or(BitsOf(l[..|l| - 1]), Bit(l[|l| - 1]))
  }

  function KnightBitboard(s: int): bv64
  {
    BitsOf(KnightMoveList(s))
  }

  function KingAttackBitboard(s: int): bv64
  {
    BitsOf(KingMoveList(s))
  }

  /** `b |= m` when c holds, b otherwise. */
  function OrIf(b: bv64, c: bool, m: bv64): bv64
  {
    if c then Or(b, m) else b
  }

  /**
   * `PawnAttackBitboards[color][s]`: the squares a pawn of that colour on s attacks.
   * Only squares 8..55 are filled; the others stay 0 (Chess/MoveHelper.cs:93-110).
   */
  function PawnAttackBitboard(color: nat, s: int): bv64
    requires IsColor(color)
  {
    if 8 <= s < 56 then
      var east := s + (if color == WHITE then Directions[NE] else Directions[SE]);
      var west := s + (if color == WHITE then Directions[NW] else Directions[SW]);
      OrIf(OrIf(0, EdgeDistances(s)[E] > 0, Bit(east)), EdgeDistances(s)[W] > 0, Bit(west))
    else 0
  }

  /** `DirectionLookup[i]`, the direction guessed for square offset i - 63 (Chess/MoveHelper.cs:113-132). */
  function DirectionLookup(i: int): int
  {
    var offset := i - 63;
    var absOffset := Abs(offset);
    var absDir := if absOffset % 9 == 0 then 9 else if absOffset % 8 == 0 then 8 else if absOffset % 7 == 0 then 7 else 1;
    absDir * Sign(offset)
  }

  /** The first `ranks` squares of file f, as a bitboard (Chess/MoveHelper.cs:134-140). */
  function FileUpTo(f: int, ranks: nat): bv64
  {
    if ranks == 0 then 0 else Or(FileUpTo(f, ranks - 1), Bit((ranks - 1) * 8 + f))
  }

  function FileBitboard(f: int): bv64
  {
    FileUpTo(f, 8)
  }

  /** The neighbouring files of f (Chess/MoveHelper.cs:144-153). */
  function IsolatedPawnBitboard(f: int): bv64
  {
    OrIf(OrIf(0, f >= 1, FileBitboard(f - 1)), f <= 6, FileBitboard(f + 1))
  }

  /** File f and its neighbours (Chess/MoveHelper.cs:144-154). */
  function PassedPawnBitboard(f: int): bv64
  {
    OrIf(Or(OrIf(0, f >= 1, FileBitboard(f - 1)), FileBitboard(f)), f <= 6, FileBitboard(f + 1))
  }

  /**
   * `RankBitboards[r]`, which the move generator reads but Chess/MoveHelper.cs does not
   * define: assumed to be the eight squares of rank r.
   */
  function RankUpTo(r: int, files: nat): bv64
  {
    if files == 0 then 0 else Or(RankUpTo(r, files - 1), Bit(r * 8 + files - 1))
  }

  function RankBitboard(r: int): bv64
  {
    RankUpTo(r, 8)
  }

  // ---------------------------------------------------------------------------------
  // The static constructor

  /** The table `[f(0), ..., f(n - 1)]`, filled front to back as the constructor's loops do. */
  function Tabulate<T>(f: int -> T, n: nat): (t: seq<T>)
    ensures |t| == n
  {
    if n == 0 then [] else Tabulate(f, n - 1) + [f(n - 1)]
  }

  lemma {:induction false} TabulateIndex<T>(f: int -> T, n: nat)
    ensures forall s {:trigger Tabulate(f, n)[s]} :: 0 <= s < n ==> Tabulate(f, n)[s] == f(s)
  {
    if n > 0 {
      TabulateIndex(f, n - 1);
    }
  }

  datatype Tables = Tables(
    numSquaresToEdge: seq<seq<int>>,
    knightMoves: seq<seq<int>>,
    knightBitboards: seq<bv64>,
    kingMoves: seq<seq<int>>,
    kingAttackBitboards: seq<bv64>,
    whitePawnAttacks: seq<bv64>,
    blackPawnAttacks: seq<bv64>,
    directionLookup: seq<int>,
    fileBitboards: seq<bv64>,
    isolatedPawnBitboards: seq<bv64>,
    passedPawnBitboards: seq<bv64>)

  /** The tables the static constructor builds, each entry given by its specification function. */
  predicate IsTables(t: Tables)
  {
    && |t.numSquaresToEdge| == 64 && (forall s {:trigger t.numSquaresToEdge[s]} :: 0 <= s < 64 ==> t.numSquaresToEdge[s] == EdgeDistances(s))
    && |t.knightMoves| == 64 && (forall s {:trigger t.knightMoves[s]} :: 0 <= s < 64 ==> t.knightMoves[s] == KnightMoveList(s))
    && |t.knightBitboards| == 64 && (forall s {:trigger t.knightBitboards[s]} :: 0 <= s < 64 ==> t.knightBitboards[s] == KnightBitboard(s))
    && |t.kingMoves| == 64 && (forall s {:trigger t.kingMoves[s]} :: 0 <= s < 64 ==> t.kingMoves[s] == KingMoveList(s))
    && |t.kingAttackBitboards| == 64 && (forall s {:trigger t.kingAttackBitboards[s]} :: 0 <= s < 64 ==> t.kingAttackBitboards[s] == KingAttackBitboard(s))
    && |t.whitePawnAttacks| == 64 && (forall s {:trigger t.whitePawnAttacks[s]} :: 0 <= s < 64 ==> t.whitePawnAttacks[s] == PawnAttackBitboard(WHITE, s))
    && |t.blackPawnAttacks| == 64 && (forall s {:trigger t.blackPawnAttacks[s]} :: 0 <= s < 64 ==> t.blackPawnAttacks[s] == PawnAttackBitboard(BLACK, s))
    && |t.directionLookup| == 127 && (forall s {:trigger t.directionLookup[s]} :: 0 <= s < 127 ==> t.directionLookup[s] == DirectionLookup(s))
    && |t.fileBitboards| == 8 && (forall s {:trigger t.fileBitboards[s]} :: 0 <= s < 8 ==> t.fileBitboards[s] == FileBitboard(s))
    && |t.isolatedPawnBitboards| == 8 && (forall s {:trigger t.isolatedPawnBitboards[s]} :: 0 <= s < 8 ==> t.isolatedPawnBitboards[s] == IsolatedPawnBitboard(s))
    && |t.passedPawnBitboards| == 8 && (forall s {:trigger t.passedPawnBitboards[s]} :: 0 <= s < 8 ==> t.passedPawnBitboards[s] == PassedPawnBitboard(s))
  }

  method Initialize() returns (t: Tables)
    ensures IsTables(t)
  {
    var edges := BuildEdges();
    var knightMoves, knightBitboards, kingMoves, kingBitboards := BuildKnightsAndKings(edges);
    var white, black := BuildPawnAttacks(edges);
    var lookup := BuildDirectionLookup();
    var files := BuildFiles();
    var isolated, passed := BuildNeighbourFiles(files);
    t := Tables(edges, knightMoves, knightBitboards, kingMoves, kingBitboards, white, black,
                lookup, files, isolated, passed);
  }

  method BuildEdges() returns (edges: seq<seq<int>>)
    ensures |edges| == 64 && forall s {:trigger edges[s]} :: 0 <= s < 64 ==> edges[s] == EdgeDistances(s)
  {
    edges := [];
    for square := 0 to 64
      invariant edges == Tabulate(EdgeDistances, square)
    {
      var x := square % 8;
      var y := square / 8;
      var n, south, e, w := 7 - y, y, 7 - x, x;
      edges := edges + [[n, e, south, w, Min(n, e), Min(south, e), Min(south, w), Min(n, w)]];
    }
    TabulateIndex(EdgeDistances, 64);
  }

  /** `foreach (var target in list) b |= 1ul << target`. */
  method OrAll(list: seq<int>, b0: bv64) returns (b: bv64)
    ensures b == Or(b0, BitsOf(list))
  {
    b := b0;
    OrZero(b0);
    for k := 0 to |list|
      invariant b == Or(b0, BitsOf(list[..k]))
    {
      assert list[..k + 1][..k] == list[..k];
      OrAssociates(b0, BitsOf(list[..k]), Bit(list[k]));
      b := Or(b, Bit(list[k]));
    }
    assert list[..|list|] == list;
  }

  method KnightTargets(square: int) returns (possibleKnightMoves: seq<int>)
    ensures possibleKnightMoves == KnightMoveList(square)
  {
    var x := square % 8;
    var y := square / 8;
    possibleKnightMoves := [];
    if x > 0 && y > 1 { possibleKnightMoves := possibleKnightMoves + [x - 1 + 8 * (y - 2)]; }
    assert possibleKnightMoves == KnightMovesUpTo(square, 1);
    if x > 1 && y > 0 { possibleKnightMoves := possibleKnightMoves + [x - 2 + 8 * (y - 1)]; }
    assert possibleKnightMoves == KnightMovesUpTo(square, 2);
    if x > 0 && y < 6 { possibleKnightMoves := possibleKnightMoves + [x - 1 + 8 * (y + 2)]; }
    assert possibleKnightMoves == KnightMovesUpTo(square, 3);
    if x > 1 && y < 7 { possibleKnightMoves := possibleKnightMoves + [x - 2 + 8 * (y + 1)]; }
    assert possibleKnightMoves == KnightMovesUpTo(square, 4);
    if x < 7 && y > 1 { possibleKnightMoves := possibleKnightMoves + [x + 1 + 8 * (y - 2)]; }
    assert possibleKnightMoves == KnightMovesUpTo(square, 5);
    if x < 6 && y > 0 { possibleKnightMoves := possibleKnightMoves + [x + 2 + 8 * (y - 1)]; }
    assert possibleKnightMoves == KnightMovesUpTo(square, 6);
    if x < 7 && y < 6 { possibleKnightMoves := possibleKnightMoves + [x + 1 + 8 * (y + 2)]; }
    assert possibleKnightMoves == KnightMovesUpTo(square, 7);
    if x < 6 && y < 7 { possibleKnightMoves := possibleKnightMoves + [x + 2 + 8 * (y + 1)]; }
  }

  method KingTargets(square: int, edge: seq<int>) returns (possibleKingMoves: seq<int>)
    requires edge == EdgeDistances(square)
    ensures possibleKingMoves == KingMoveList(square)
  {
    possibleKingMoves := [];
    for dirIndex := 0 to 8
      invariant possibleKingMoves == KingMovesUpTo(square, dirIndex)
    {
      if edge[dirIndex] > 0 {
        possibleKingMoves := possibleKingMoves + [square + Directions[dirIndex]];
      }
    }
  }

  /** One pass of the knight and king loop. */
  method SquareEntries(square: int, edge: seq<int>)
    returns (possibleKnightMoves: seq<int>, knightBitboard: bv64, possibleKingMoves: seq<int>, kingBitboard: bv64)
    requires edge == EdgeDistances(square)
    ensures possibleKnightMoves == KnightMoveList(square) && knightBitboard == KnightBitboard(square)
    ensures possibleKingMoves == KingMoveList(square) && kingBitboard == KingAttackBitboard(square)
  {
    possibleKnightMoves := KnightTargets(square);
    knightBitboard := OrAll(possibleKnightMoves, 0);
    possibleKingMoves := KingTargets(square, edge);
    kingBitboard := OrAll(possibleKingMoves, 0);
    OrZero(BitsOf(possibleKnightMoves));
    OrZero(BitsOf(possibleKingMoves));
  }

  method BuildKnightsAndKings(edges: seq<seq<int>>)
    returns (knightMoves: seq<seq<int>>, knightBitboards: seq<bv64>, kingMoves: seq<seq<int>>, kingBitboards: seq<bv64>)
    requires |edges| == 64 && forall s {:trigger edges[s]} :: 0 <= s < 64 ==> edges[s] == EdgeDistances(s)
    ensures |knightMoves| == 64 && forall s {:trigger knightMoves[s]} :: 0 <= s < 64 ==> knightMoves[s] == KnightMoveList(s)
    ensures |knightBitboards| == 64 && forall s {:trigger knightBitboards[s]} :: 0 <= s < 64 ==> knightBitboards[s] == KnightBitboard(s)
    ensures |kingMoves| == 64 && forall s {:trigger kingMoves[s]} :: 0 <= s < 64 ==> kingMoves[s] == KingMoveList(s)
    ensures |kingBitboards| == 64 && forall s {:trigger kingBitboards[s]} :: 0 <= s < 64 ==> kingBitboards[s] == KingAttackBitboard(s)
  {
    knightMoves, knightBitboards, kingMoves, kingBitboards := [], [], [], [];
    for square := 0 to 64
      invariant knightMoves == Tabulate(KnightMoveList, square)
      invariant knightBitboards == Tabulate(KnightBitboard, square)
      invariant kingMoves == Tabulate(KingMoveList, square)
      invariant kingBitboards == Tabulate(KingAttackBitboard, square)
    {
            var possibleKnightMoves, knightBitboard, possibleKingMoves, kingBitboard := SquareEntries(square, edges[square]);
      knightMoves := knightMoves + [possibleKnightMoves];
      knightBitboards := knightBitboards + [knightBitboard];
      kingMoves := kingMoves + [possibleKingMoves];
      kingBitboards := kingBitboards + [kingBitboard];
    }
    TabulateIndex(KnightMoveList, 64);
    TabulateIndex(KnightBitboard, 64);
    TabulateIndex(KingMoveList, 64);
    TabulateIndex(KingAttackBitboard, 64);
  }

  /** One colour's entry of one pass of the pawn loop. */
  method PawnEntry(color: nat, square: int, edge: seq<int>) returns (attacks: bv64)
    requires IsColor(color) && 8 <= square < 56 && edge == EdgeDistances(square)
    ensures attacks == PawnAttackBitboard(color, square)
  {
    attacks := 0;
    if edge[E] > 0 {
      attacks := Or(attacks, Bit(square + (if color == WHITE then Directions[NE] else Directions[SE])));
    }
    if edge[W] > 0 {
      attacks := Or(attacks, Bit(square + (if color == WHITE then Directions[NW] else Directions[SW])));
    }
  }

  method BuildPawnAttacks(edges: seq<seq<int>>) returns (white: seq<bv64>, black: seq<bv64>)
    requires |edges| == 64 && forall s {:trigger edges[s]} :: 0 <= s < 64 ==> edges[s] == EdgeDistances(s)
    ensures |white| == 64 && forall s {:trigger white[s]} :: 0 <= s < 64 ==> white[s] == PawnAttackBitboard(WHITE, s)
    ensures |black| == 64 && forall s {:trigger black[s]} :: 0 <= s < 64 ==> black[s] == PawnAttackBitboard(BLACK, s)
  {
    white := seq(64, _ => 0);
    black := seq(64, _ => 0);
    for square := 8 to 56
      invariant |white| == 64 && |black| == 64
      invariant forall s {:trigger white[s]} :: 0 <= s < 64 ==> white[s] == (if 8 <= s < square then PawnAttackBitboard(WHITE, s) else 0)
      invariant forall s {:trigger black[s]} :: 0 <= s < 64 ==> black[s] == (if 8 <= s < square then PawnAttackBitboard(BLACK, s) else 0)
    {
      var w := PawnEntry(WHITE, square, edges[square]);
      var b := PawnEntry(BLACK, square, edges[square]);
      white := white[square := w];
      black := black[square := b];
    }
  }

  method BuildDirectionLookup() returns (lookup: seq<int>)
    ensures |lookup| == 127 && forall s {:trigger lookup[s]} :: 0 <= s < 127 ==> lookup[s] == DirectionLookup(s)
  {
    lookup := [];
    for i := 0 to 127
      invariant lookup == Tabulate(DirectionLookup, i)
    {
      var offset := i - 63;
      var absOffset := Abs(offset);
      var absDir := 1;
      if absOffset % 9 == 0 {
        absDir := 9;
      } else if absOffset % 8 == 0 {
        absDir := 8;
      } else if absOffset % 7 == 0 {
        absDir := 7;
      }
      lookup := lookup + [absDir * Sign(offset)];
    }
    TabulateIndex(DirectionLookup, 127);
  }

  method BuildFiles() returns (files: seq<bv64>)
    ensures |files| == 8 && forall s {:trigger files[s]} :: 0 <= s < 8 ==> files[s] == FileBitboard(s)
  {
    files := seq(8, _ => 0);
    for file := 0 to 8
      invariant |files| == 8
      invariant forall f {:trigger files[f]} :: 0 <= f < 8 ==> files[f] == (if f < file then FileBitboard(f) else 0)
    {
      for rank := 0 to 8
        invariant |files| == 8
        invariant forall f {:trigger files[f]} :: 0 <= f < 8 && f != file ==> files[f] == (if f < file then FileBitboard(f) else 0)
        invariant files[file] == FileUpTo(file, rank)
      {
        files := files[file := Or(files[file], Bit(rank * 8 + file))];
      }
    }
  }

  /** One pass of the neighbour loop, given the file masks west of, on and east of `file`. */
  method NeighbourEntries(file: int, west: bv64, own: bv64, east: bv64) returns (isolated: bv64, passed: bv64)
    requires file >= 1 ==> west == FileBitboard(file - 1)
    requires own == FileBitboard(file)
    requires file <= 6 ==> east == FileBitboard(file + 1)
    ensures isolated == IsolatedPawnBitboard(file)
    ensures passed == PassedPawnBitboard(file)
  {
    isolated, passed := 0, 0;
    if file >= 1 {
      isolated := Or(isolated, west);
      passed := Or(passed, west);
    }
    passed := Or(passed, own);
    if file <= 6 {
      isolated := Or(isolated, east);
      passed := Or(passed, east);
    }
  }

  method BuildNeighbourFiles(files: seq<bv64>) returns (isolated: seq<bv64>, passed: seq<bv64>)
    requires |files| == 8 && forall s {:trigger files[s]} :: 0 <= s < 8 ==> files[s] == FileBitboard(s)
    ensures |isolated| == 8 && forall s {:trigger isolated[s]} :: 0 <= s < 8 ==> isolated[s] == IsolatedPawnBitboard(s)
    ensures |passed| == 8 && forall s {:trigger passed[s]} :: 0 <= s < 8 ==> passed[s] == PassedPawnBitboard(s)
  {
    isolated, passed := [], [];
    for file := 0 to 8
      invariant isolated == Tabulate(IsolatedPawnBitboard, file)
      invariant passed == Tabulate(PassedPawnBitboard, file)
    {
      var west := 0;
      if file >= 1 {
        west := files[file - 1];
      }
      var east := 0;
      if file <= 6 {
        east := files[file + 1];
      }
      var i, p := NeighbourEntries(file, west, files[file], east);
      isolated := isolated + [i];
      passed := passed + [p];
    }
    TabulateIndex(IsolatedPawnBitboard, 8);
    TabulateIndex(PassedPawnBitboard, 8);
  }
}
