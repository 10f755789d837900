/**
 * What the tables of Chess/MoveHelper.cs mean on the board: rays stop exactly at the
 * edge, the knight, king and pawn sets are the attack patterns of those pieces, the file
 * masks hold exactly one file, and the direction classifier names the ray between two
 * squares (with one exception, on the rank).
 */
module MoveHelperFacts {
  import opened Bits
  import opened Pieces
  import opened MoveHelper

  lemma DivMod8(q: int, r: int)
    requires 0 <= r < 8
    ensures (8 * q + r) % 8 == r && (8 * q + r) / 8 == q
  {
  }

  // ---------------------------------------------------------------------------------
  // Rays

  lemma EdgeBounds(s: int, d: nat)
    requires OnBoard(s) && d < 8
    ensures 0 <= EdgeDistances(s)[d] <= 7
  {
  }

  /** The first `EdgeDistances(s)[d]` steps from s in direction d stay on the board, without wrapping. */
  lemma RayStep(s: int, d: nat, n: int)
    requires OnBoard(s) && d < 8 && 1 <= n <= EdgeDistances(s)[d]
    ensures var t := s + n * Directions[d];
      OnBoard(t) && FileOf(t) == FileOf(s) + n * FileStep[d] && RankOf(t) == RankOf(s) + n * RankStep[d]
  {
    var x, y := s % 8, s / 8;
    var dx, dy := FileStep[d], RankStep[d];
    RayBounds(s, d, n);
    assert Directions[d] == 8 * dy + dx by {
      if d == N {} else if d == E {} else if d == S {} else if d == W {}
      else if d == NE {} else if d == SE {} else if d == SW {} else {}
    }
    var x', y' := x + n * dx, y + n * dy;
    Distribute(n, dx, dy);
    assert s + n * Directions[d] == 8 * y' + x';
    DivMod8(y', x');
  }

  lemma Distribute(n: int, dx: int, dy: int)
    ensures n * (8 * dy + dx) == 8 * (n * dy) + n * dx
  {
  }

  /** Within the edge distance, file and rank stay between 0 and 7. */
  lemma RayBounds(s: int, d: nat, n: int)
    requires OnBoard(s) && d < 8 && 1 <= n <= EdgeDistances(s)[d]
    ensures 0 <= s % 8 + n * FileStep[d] < 8 && 0 <= s / 8 + n * RankStep[d] < 8
  {
    if d == N {} else if d == E {} else if d == S {} else if d == W {}
    else if d == NE {} else if d == SE {} else if d == SW {} else {}
  }

  /** One more step than `EdgeDistances(s)[d]` leaves the board. */
  lemma RayEnds(s: int, d: nat)
    requires OnBoard(s) && d < 8
    ensures var n := EdgeDistances(s)[d] + 1;
      !(0 <= FileOf(s) + n * FileStep[d] < 8 && 0 <= RankOf(s) + n * RankStep[d] < 8)
  {
  }

  // ---------------------------------------------------------------------------------
  // Bitboards of square lists

  predicate AllOnBoard(l: seq<int>)
  {
    forall k :: 0 <= k < |l| ==> OnBoard(l[k])
  }

  lemma {:induction false} HasBitsOf(l: seq<int>, t: int)
    requires AllOnBoard(l)
    ensures Has(BitsOf(l), t) == (t in l)
  {
    if |l| == 0 {
      HasZero(t);
    } else {
      var front, last := l[..|l| - 1], l[|l| - 1];
      HasBitsOf(front, t);
      HasSet(BitsOf(front), last, t);
      assert l == front + [last];
    }
  }

  // ---------------------------------------------------------------------------------
  // Knights

  const KnightDx: seq<int> := [-1, -2, -1, -2, 1, 2, 1, 2]
  const KnightDy: seq<int> := [-2, -1, 2, 1, -2, -1, 2, 1]

  /** t is a knight's jump from s: one file and two ranks away, or two files and one rank. */
  predicate KnightJump(s: int, t: int)
  {
    var df, dr := Abs(FileOf(t) - FileOf(s)), Abs(RankOf(t) - RankOf(s));
    OnBoard(s) && OnBoard(t) && ((df == 1 && dr == 2) || (df == 2 && dr == 1))
  }

  /** The square a jump by (dx, dy) from s lands on, if it is on the board. */
  predicate Lands(s: int, dx: int, dy: int, t: int)
  {
    OnBoard(t) && FileOf(t) == FileOf(s) + dx && RankOf(t) == RankOf(s) + dy
  }

  lemma KnightCandidateLands(s: int, k: nat, t: int)
    requires OnBoard(s) && k < 8
    ensures (t in KnightCandidate(s, k)) == Lands(s, KnightDx[k], KnightDy[k], t)
  {
    var x', y' := s % 8 + KnightDx[k], s / 8 + KnightDy[k];
    if 0 <= x' < 8 {
      DivMod8(y', x');
    }
  }

  lemma {:induction false} KnightUpToLands(s: int, k: nat, t: int)
    requires OnBoard(s) && k <= 8
    ensures (t in KnightMovesUpTo(s, k)) == (exists j :: 0 <= j < k && Lands(s, KnightDx[j], KnightDy[j], t))
  {
    if k > 0 {
      KnightUpToLands(s, k - 1, t);
      KnightCandidateLands(s, k - 1, t);
    }
  }

  /** The source's eight candidates are exactly the knight's jumps. */
  lemma KnightListIsJumps(s: int, t: int)
    requires OnBoard(s)
    ensures (t in KnightMoveList(s)) == KnightJump(s, t)
  {
    KnightUpToLands(s, 8, t);
    if KnightJump(s, t) {
      var dx, dy := FileOf(t) - FileOf(s), RankOf(t) - RankOf(s);
      var j := if dx == -1 && dy == -2 then 0 else if dx == -2 && dy == -1 then 1
        else if dx == -1 && dy == 2 then 2 else if dx == -2 && dy == 1 then 3
        else if dx == 1 && dy == -2 then 4 else if dx == 2 && dy == -1 then 5
        else if dx == 1 && dy == 2 then 6 else 7;
      assert Lands(s, KnightDx[j], KnightDy[j], t);
    }
  }

  lemma KnightListOnBoard(s: int)
    requires OnBoard(s)
    ensures AllOnBoard(KnightMoveList(s))
  {
    var l := KnightMoveList(s);
    forall k | 0 <= k < |l|
      ensures OnBoard(l[k])
    {
      KnightListIsJumps(s, l[k]);
    }
  }

  /** `KnightBitboards[s]` holds exactly the knight's jumps from s. */
  lemma KnightBitboardIsJumps(s: int, t: int)
    requires OnBoard(s)
    ensures Has(KnightBitboard(s), t) == KnightJump(s, t)
  {
    KnightListOnBoard(s);
    HasBitsOf(KnightMoveList(s), t);
    KnightListIsJumps(s, t);
  }

  /** A knight on s attacks t exactly when a knight on t attacks s. */
  lemma KnightSymmetric(s: int, t: int)
    requires OnBoard(s) && OnBoard(t)
    ensures Has(KnightBitboard(s), t) == Has(KnightBitboard(t), s)
  {
    KnightBitboardIsJumps(s, t);
    KnightBitboardIsJumps(t, s);
  }

  // ---------------------------------------------------------------------------------
  // Kings

  /** t is one king step from s: a different square at most one file and one rank away. */
  predicate KingStep(s: int, t: int)
  {
    OnBoard(s) && OnBoard(t) && t != s
    && Abs(FileOf(t) - FileOf(s)) <= 1 && Abs(RankOf(t) - RankOf(s)) <= 1
  }

  lemma {:induction false} KingUpToSteps(s: int, d: nat, t: int)
    requires OnBoard(s) && d <= 8
    ensures (t in KingMovesUpTo(s, d)) == (exists j :: 0 <= j < d && EdgeDistances(s)[j] > 0 && t == s + Directions[j])
  {
    if d > 0 {
      KingUpToSteps(s, d - 1, t);
    }
  }

  lemma KingDirectionStep(s: int, j: nat)
    requires OnBoard(s) && j < 8 && EdgeDistances(s)[j] > 0
    ensures KingStep(s, s + Directions[j])
  {
    RayStep(s, j, 1);
  }

  /** A king step from s is a step in some direction with room to move. */
  lemma KingStepDirection(s: int, t: int) returns (j: nat)
    requires KingStep(s, t)
    ensures j < 8 && EdgeDistances(s)[j] > 0 && t == s + Directions[j]
  {
    var dx, dy := FileOf(t) - FileOf(s), RankOf(t) - RankOf(s);
    assert t == s + 8 * dy + dx;
    j := if dx == 0 && dy == 1 then N else if dx == 1 && dy == 0 then E
      else if dx == 0 && dy == -1 then S else if dx == -1 && dy == 0 then W
      else if dx == 1 && dy == 1 then NE else if dx == 1 && dy == -1 then SE
      else if dx == -1 && dy == -1 then SW else NW;
    RayEnds(s, j);
  }

  lemma KingListIsSteps(s: int, t: int)
    requires OnBoard(s)
    ensures (t in KingMoveList(s)) == KingStep(s, t)
  {
    KingUpToSteps(s, 8, t);
    if t in KingMoveList(s) {
      var j :| 0 <= j < 8 && EdgeDistances(s)[j] > 0 && t == s + Directions[j];
      KingDirectionStep(s, j);
    }
    if KingStep(s, t) {
      var j := KingStepDirection(s, t);
    }
  }

  lemma KingListOnBoard(s: int)
    requires OnBoard(s)
    ensures AllOnBoard(KingMoveList(s))
  {
    var l := KingMoveList(s);
    forall k | 0 <= k < |l|
      ensures OnBoard(l[k])
    {
      KingListIsSteps(s, l[k]);
    }
  }

  /** `KingAttackBitboards[s]` holds exactly the squares one king step from s. */
  lemma KingBitboardIsSteps(s: int, t: int)
    requires OnBoard(s)
    ensures Has(KingAttackBitboard(s), t) == KingStep(s, t)
  {
    KingListOnBoard(s);
    HasBitsOf(KingMoveList(s), t);
    KingListIsSteps(s, t);
  }

  // ---------------------------------------------------------------------------------
  // Pawns

  /** A pawn of colour c on s attacks t: one file aside and one rank forward, for pawns on ranks 2 to 7. */
  predicate PawnAttack(c: nat, s: int, t: int)
  {
    8 <= s < 56 && OnBoard(t) && Abs(FileOf(t) - FileOf(s)) == 1
    && RankOf(t) == RankOf(s) + (if c == WHITE then 1 else -1)
  }

  lemma PawnSide(s: int, d: nat, t: int)
    requires 8 <= s < 56 && (d == NE || d == SE || d == SW || d == NW)
    ensures var side := if d == NE || d == SE then E else W;
      var target := s + Directions[d];
      (EdgeDistances(s)[side] > 0 ==> (t == target) == Lands(s, FileStep[d], RankStep[d], t))
      && (EdgeDistances(s)[side] == 0 ==> !Lands(s, FileStep[d], RankStep[d], t))
  {
    var side := if d == NE || d == SE then E else W;
    if EdgeDistances(s)[side] > 0 {
      RayStep(s, d, 1);
      var dx, dy := FileOf(t) - FileOf(s), RankOf(t) - RankOf(s);
      assert OnBoard(t) ==> t == s + 8 * dy + dx;
    }
  }

  lemma PawnSideHas(s: int, d: nat, t: int)
    requires 8 <= s < 56 && (d == NE || d == SE || d == SW || d == NW)
    ensures var side := if d == NE || d == SE then E else W;
      (EdgeDistances(s)[side] > 0 && Has(Bit(s + Directions[d]), t)) == Lands(s, FileStep[d], RankStep[d], t)
  {
    var side := if d == NE || d == SE then E else W;
    PawnSide(s, d, t);
    if EdgeDistances(s)[side] > 0 {
      RayStep(s, d, 1);
      HasSquare(s + Directions[d], t);
    }
  }

  lemma HasOrIf(b: bv64, c: bool, m: bv64, t: int)
    ensures Has(OrIf(b, c, m), t) == (Has(b, t) || (c && Has(m, t)))
  {
    if c {
      HasOr(b, m, t);
    }
  }

  /** `PawnAttackBitboards[c][s]` holds exactly the two forward diagonal squares of a pawn on s. */
  lemma PawnBitboardIsAttacks(c: nat, s: int, t: int)
    requires IsColor(c) && OnBoard(s)
    ensures Has(PawnAttackBitboard(c, s), t) == PawnAttack(c, s, t)
  {
    if 8 <= s < 56 {
      var de, dw := if c == WHITE then NE else SE, if c == WHITE then NW else SW;
      var e := OrIf(0, EdgeDistances(s)[E] > 0, Bit(s + Directions[de]));
      HasOrIf(0, EdgeDistances(s)[E] > 0, Bit(s + Directions[de]), t);
      HasOrIf(e, EdgeDistances(s)[W] > 0, Bit(s + Directions[dw]), t);
      HasZero(t);
      PawnSideHas(s, de, t);
      PawnSideHas(s, dw, t);
    } else {
      HasZero(t);
    }
  }

  // ---------------------------------------------------------------------------------
  // Files and ranks

  lemma {:induction false} HasFileUpTo(f: int, r: nat, i: int)
    requires 0 <= f < 8 && r <= 8
    ensures Has(FileUpTo(f, r), i) == (OnBoard(i) && FileOf(i) == f && RankOf(i) < r)
  {
    if r == 0 {
      HasZero(i);
    } else {
      HasFileUpTo(f, r - 1, i);
      HasSet(FileUpTo(f, r - 1), (r - 1) * 8 + f, i);
      DivMod8(r - 1, f);
    }
  }

  /** `FileBitboards[f]` holds exactly the eight squares of file f. */
  lemma FileBitboardIsFile(f: int, i: int)
    requires 0 <= f < 8
    ensures Has(FileBitboard(f), i) == (OnBoard(i) && FileOf(i) == f)
  {
    HasFileUpTo(f, 8, i);
  }

  /** `IsolatedPawnBitboards[f]` holds exactly the squares of the files next to f. */
  lemma IsolatedIsNeighbours(f: int, i: int)
    requires 0 <= f < 8
    ensures Has(IsolatedPawnBitboard(f), i) == (OnBoard(i) && Abs(FileOf(i) - f) == 1)
  {
    if f >= 1 { FileBitboardIsFile(f - 1, i); }
    if f <= 6 { FileBitboardIsFile(f + 1, i); }
    HasTwoFiles(FileBitboard(f - 1), FileBitboard(f + 1), f, i);
  }

  /** The union of the boards of files f - 1 and f + 1, as far as they exist. */
  lemma HasTwoFiles(west: bv64, east: bv64, f: int, i: int)
    requires 0 <= f < 8
    requires f >= 1 ==> Has(west, i) == (OnBoard(i) && FileOf(i) == f - 1)
    requires f <= 6 ==> Has(east, i) == (OnBoard(i) && FileOf(i) == f + 1)
    ensures Has(OrIf(OrIf(0, f >= 1, west), f <= 6, east), i) == (OnBoard(i) && Abs(FileOf(i) - f) == 1)
  {
    HasZero(i);
    HasOrIf(0, f >= 1, west, i);
    HasOrIf(OrIf(0, f >= 1, west), f <= 6, east, i);
  }

  /** `PassedPawnBitboards[f]` holds exactly the squares of file f and the files next to it. */
  lemma PassedIsFileAndNeighbours(f: int, i: int)
    requires 0 <= f < 8
    ensures Has(PassedPawnBitboard(f), i) == (OnBoard(i) && Abs(FileOf(i) - f) <= 1)
  {
    if f >= 1 { FileBitboardIsFile(f - 1, i); }
    FileBitboardIsFile(f, i);
    if f <= 6 { FileBitboardIsFile(f + 1, i); }
    HasThreeFiles(FileBitboard(f - 1), FileBitboard(f), FileBitboard(f + 1), f, i);
  }

  /** The union of the boards of files f - 1, f and f + 1, as far as they exist. */
  lemma HasThreeFiles(west: bv64, centre: bv64, east: bv64, f: int, i: int)
    requires 0 <= f < 8
    requires f >= 1 ==> Has(west, i) == (OnBoard(i) && FileOf(i) == f - 1)
    requires Has(centre, i) == (OnBoard(i) && FileOf(i) == f)
    requires f <= 6 ==> Has(east, i) == (OnBoard(i) && FileOf(i) == f + 1)
    ensures Has(OrIf(Or(OrIf(0, f >= 1, west), centre), f <= 6, east), i) == (OnBoard(i) && Abs(FileOf(i) - f) <= 1)
  {
    HasZero(i);
    HasOrIf(0, f >= 1, west, i);
    HasOr(OrIf(0, f >= 1, west), centre, i);
    HasOrIf(Or(OrIf(0, f >= 1, west), centre), f <= 6, east, i);
  }

  lemma {:induction false} HasRankUpTo(r: int, n: nat, i: int)
    requires 0 <= r < 8 && n <= 8
    ensures Has(RankUpTo(r, n), i) == (OnBoard(i) && RankOf(i) == r && FileOf(i) < n)
  {
    if n == 0 {
      HasZero(i);
    } else {
      HasRankUpTo(r, n - 1, i);
      HasSet(RankUpTo(r, n - 1), r * 8 + n - 1, i);
      DivMod8(r, n - 1);
    }
  }

  /** `RankBitboards[r]` holds exactly the eight squares of rank r. */
  lemma RankBitboardIsRank(r: int, i: int)
    requires 0 <= r < 8
    ensures Has(RankBitboard(r), i) == (OnBoard(i) && RankOf(i) == r)
  {
    HasRankUpTo(r, 8, i);
  }

  // ---------------------------------------------------------------------------------
  // The direction classifier

  /**
   * For two squares on a common ray, `DirectionLookup[target - start + 63]` is that ray's
   * direction, except for the full length of a rank (seven files apart), which it calls a
   * diagonal.
   */
  lemma DirectionOfRay(s: int, d: nat, n: int)
    requires OnBoard(s) && d < 8 && 1 <= n <= EdgeDistances(s)[d]
    requires !((d == E || d == W) && n == 7)
    ensures 0 <= n * Directions[d] + 63 < 127
    ensures DirectionLookup(n * Directions[d] + 63) == Directions[d]
  {
    EdgeBounds(s, d);
    DirectionOfMultiple(Directions[d], n);
  }

  /** The classifier on the first seven multiples of one of the eight steps. */
  lemma DirectionOfMultiple(step: int, n: int)
    requires step in Directions && 1 <= n <= 7 && !((step == 1 || step == -1) && n == 7)
    ensures 0 <= n * step + 63 < 127
    ensures DirectionLookup(n * step + 63) == step
  {
    if step == 8 || step == -8 {
      MultipleOf(8, n);
    } else if step == 1 || step == -1 {
      MultipleOf(1, n);
    } else if step == 9 || step == -9 {
      MultipleOf(9, n);
    } else {
      MultipleOf(7, n);
    }
  }

  /** How the classifier's remainder tests see n times a step length. */
  lemma MultipleOf(len: int, n: int)
    requires (len == 1 || len == 7 || len == 8 || len == 9) && 1 <= n <= 7 && !(len == 1 && n == 7)
    ensures var a := n * len;
      (a % 9 == 0) == (len == 9)
      && (a % 8 == 0) == (len == 8)
      && (len != 8 && len != 9 ==> ((a % 7 == 0) == (len == 7)))
  {
    if n == 1 {} else if n == 2 {} else if n == 3 {} else if n == 4 {}
    else if n == 5 {} else if n == 6 {} else {}
  }

  /** From a1 (square 0) to h1 (square 7) is a ray to the east, but the classifier answers 7, the north-west step. */
  lemma DirectionRankException()
    ensures 7 <= EdgeDistances(0)[E] && 0 + 7 * Directions[E] == 7
    ensures DirectionLookup(7 + 63) == 7 == Directions[NW]
  {
  }
}
