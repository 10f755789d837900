/**
 * Whole-board shifts (Chess/BitboardUtilities.cs). Square i is bit i, so "up" (towards
 * rank 8) is `<< 8` and "left" (towards file a) is one square down in index.
 *
 * `ShiftLeft` and `ShiftRight` as written shift the wrong way and mask the wrong file:
 * `ShiftLeft` moves every piece one square towards file h and lets
 * pieces on file h wrap onto file a of the next rank. The test in
 * ChessTests/BitboardTests.cs:15-45 expects the opposite direction with no wrap. Both
 * versions are here: `ShiftLeftAsWritten`/`ShiftRightAsWritten` model the code, and
 * `ShiftLeft`/`ShiftRight` the intended shifts that the rest of the model uses.
 *
 * `ShiftUpLeft`, `ShiftUpRight`, `ShiftDownLeft` and `ShiftDownRight` are called by the
 * move generator (Chess/MoveGenerator.cs:203-205) but are not defined in the source; they
 * are declared here as the composition of the intended one-rank and one-file shifts.
 */
module BitboardUtilities {
  import opened Bits
  import opened Pieces
  import opened MoveHelper
  import opened MoveHelperFacts

  /** `ShiftUp`: every piece one rank towards rank 8; rank 8 falls off. */
  function ShiftUp(b: bv64): bv64
  {
    Shl(b, 8)
  }

  /** `ShiftDown`: every piece one rank towards rank 1; rank 1 falls off. */
  function ShiftDown(b: bv64): bv64
  {
    Shr(b, 8)
  }

  /** `ShiftLeft` exactly as the source writes it. */
  function ShiftLeftAsWritten(b: bv64): bv64
  {
    And(Shl(b, 1), Not(FileBitboard(7)))
  }

  /** `ShiftRight` exactly as the source writes it. */
  function ShiftRightAsWritten(b: bv64): bv64
  {
    And(Shr(b, 1), Not(FileBitboard(0)))
  }

  /** The intended `ShiftLeft`: every piece one file towards file a; file a falls off. */
  function ShiftLeft(b: bv64): bv64
  {
    And(Shr(b, 1), Not(FileBitboard(7)))
  }

  /** The intended `ShiftRight`: every piece one file towards file h; file h falls off. */
  function ShiftRight(b: bv64): bv64
  {
    And(Shl(b, 1), Not(FileBitboard(0)))
  }

  /** A white pawn's capture towards file a (direction NW, +7). */
  function ShiftUpLeft(b: bv64): bv64
  {
    ShiftLeft(ShiftUp(b))
  }

  /** A white pawn's capture towards file h (direction NE, +9). */
  function ShiftUpRight(b: bv64): bv64
  {
    ShiftRight(ShiftUp(b))
  }

  /** A black pawn's capture towards file a (direction SW, -9). */
  function ShiftDownLeft(b: bv64): bv64
  {
    ShiftLeft(ShiftDown(b))
  }

  /** A black pawn's capture towards file h (direction SE, -7). */
  function ShiftDownRight(b: bv64): bv64
  {
    ShiftRight(ShiftDown(b))
  }

  lemma ShiftUpSquares(b: bv64, i: int)
    ensures Has(ShiftUp(b), i) == (8 <= i < 64 && Has(b, i - 8))
  {
    HasShl(b, 8, i);
  }

  lemma ShiftDownSquares(b: bv64, i: int)
    ensures Has(ShiftDown(b), i) == (0 <= i < 56 && Has(b, i + 8))
  {
    HasShr(b, 8, i);
  }

  /** Whether square i is on file f, read off the file mask. */
  lemma NotOnFile(f: int, i: int)
    requires 0 <= f < 8
    ensures Has(Not(FileBitboard(f)), i) == (OnBoard(i) && FileOf(i) != f)
  {
    HasNot(FileBitboard(f), i);
    FileBitboardIsFile(f, i);
  }

  /** As written, `ShiftLeft` moves towards file h, and a piece on file h wraps to file a. */
  lemma ShiftLeftAsWrittenSquares(b: bv64, i: int)
    ensures Has(ShiftLeftAsWritten(b), i) == (OnBoard(i) && i >= 1 && FileOf(i) != 7 && Has(b, i - 1))
  {
    HasAnd(Shl(b, 1), Not(FileBitboard(7)), i);
    HasShl(b, 1, i);
    NotOnFile(7, i);
  }

  /** As written, `ShiftRight` moves towards file a, and a piece on file a wraps to file h. */
  lemma ShiftRightAsWrittenSquares(b: bv64, i: int)
    ensures Has(ShiftRightAsWritten(b), i) == (OnBoard(i) && i <= 62 && FileOf(i) != 0 && Has(b, i + 1))
  {
    HasAnd(Shr(b, 1), Not(FileBitboard(0)), i);
    HasShr(b, 1, i);
    NotOnFile(0, i);
  }

  lemma ShiftLeftSquares(b: bv64, i: int)
    ensures Has(ShiftLeft(b), i) == (OnBoard(i) && FileOf(i) != 7 && Has(b, i + 1))
  {
    HasAnd(Shr(b, 1), Not(FileBitboard(7)), i);
    HasShr(b, 1, i);
    NotOnFile(7, i);
  }

  lemma ShiftRightSquares(b: bv64, i: int)
    ensures Has(ShiftRight(b), i) == (OnBoard(i) && FileOf(i) != 0 && Has(b, i - 1))
  {
    HasAnd(Shl(b, 1), Not(FileBitboard(0)), i);
    HasShl(b, 1, i);
    NotOnFile(0, i);
  }

  /** The board of ChessTests/BitboardTests.cs:17: pieces on squares 47, 28 and 32 only. */
  ghost predicate IsTestBoard(b: bv64)
  {
    forall i {:trigger Has(b, i)} :: Has(b, i) == (i == 47 || i == 28 || i == 32)
  }

  /** A shift of a union is the union of the shifts, for each of the six whole-board shifts. */
  lemma ShiftsDistribute(a: bv64, b: bv64)
    ensures ShiftUp(Or(a, b)) == Or(ShiftUp(a), ShiftUp(b))
    ensures ShiftDown(Or(a, b)) == Or(ShiftDown(a), ShiftDown(b))
    ensures ShiftLeftAsWritten(Or(a, b)) == Or(ShiftLeftAsWritten(a), ShiftLeftAsWritten(b))
    ensures ShiftRightAsWritten(Or(a, b)) == Or(ShiftRightAsWritten(a), ShiftRightAsWritten(b))
    ensures ShiftLeft(Or(a, b)) == Or(ShiftLeft(a), ShiftLeft(b))
    ensures ShiftRight(Or(a, b)) == Or(ShiftRight(a), ShiftRight(b))
  {
    UpDistributes(a, b);
    DownDistributes(a, b);
    LeftAsWrittenDistributes(a, b);
    RightAsWrittenDistributes(a, b);
    LeftDistributes(a, b);
    RightDistributes(a, b);
  }

  lemma UpDistributes(a: bv64, b: bv64)
    ensures ShiftUp(Or(a, b)) == Or(ShiftUp(a), ShiftUp(b))
  {
    forall i | 0 <= i < 64
      ensures Has(ShiftUp(Or(a, b)), i) == Has(Or(ShiftUp(a), ShiftUp(b)), i)
    {
      ShiftUpSquares(Or(a, b), i); ShiftUpSquares(a, i); ShiftUpSquares(b, i);
      HasOr(ShiftUp(a), ShiftUp(b), i); HasOr(a, b, i - 8);
    }
    Extensionality(ShiftUp(Or(a, b)), Or(ShiftUp(a), ShiftUp(b)));
  }

  lemma DownDistributes(a: bv64, b: bv64)
    ensures ShiftDown(Or(a, b)) == Or(ShiftDown(a), ShiftDown(b))
  {
    forall i | 0 <= i < 64
      ensures Has(ShiftDown(Or(a, b)), i) == Has(Or(ShiftDown(a), ShiftDown(b)), i)
    {
      ShiftDownSquares(Or(a, b), i); ShiftDownSquares(a, i); ShiftDownSquares(b, i);
      HasOr(ShiftDown(a), ShiftDown(b), i); HasOr(a, b, i + 8);
    }
    Extensionality(ShiftDown(Or(a, b)), Or(ShiftDown(a), ShiftDown(b)));
  }

  lemma LeftAsWrittenDistributes(a: bv64, b: bv64)
    ensures ShiftLeftAsWritten(Or(a, b)) == Or(ShiftLeftAsWritten(a), ShiftLeftAsWritten(b))
  {
    forall i | 0 <= i < 64
      ensures Has(ShiftLeftAsWritten(Or(a, b)), i) == Has(Or(ShiftLeftAsWritten(a), ShiftLeftAsWritten(b)), i)
    {
      LeftAsWrittenSquareOfUnion(a, b, i);
    }
    Extensionality(ShiftLeftAsWritten(Or(a, b)), Or(ShiftLeftAsWritten(a), ShiftLeftAsWritten(b)));
  }

  lemma LeftAsWrittenSquareOfUnion(a: bv64, b: bv64, i: int)
    ensures Has(ShiftLeftAsWritten(Or(a, b)), i) == Has(Or(ShiftLeftAsWritten(a), ShiftLeftAsWritten(b)), i)
  {
    ShiftLeftAsWrittenSquares(Or(a, b), i); ShiftLeftAsWrittenSquares(a, i); ShiftLeftAsWrittenSquares(b, i);
    HasOr(ShiftLeftAsWritten(a), ShiftLeftAsWritten(b), i); HasOr(a, b, i - 1);
  }

  lemma RightAsWrittenDistributes(a: bv64, b: bv64)
    ensures ShiftRightAsWritten(Or(a, b)) == Or(ShiftRightAsWritten(a), ShiftRightAsWritten(b))
  {
    forall i | 0 <= i < 64
      ensures Has(ShiftRightAsWritten(Or(a, b)), i) == Has(Or(ShiftRightAsWritten(a), ShiftRightAsWritten(b)), i)
    {
      ShiftRightAsWrittenSquares(Or(a, b), i); ShiftRightAsWrittenSquares(a, i); ShiftRightAsWrittenSquares(b, i);
      HasOr(ShiftRightAsWritten(a), ShiftRightAsWritten(b), i); HasOr(a, b, i + 1);
    }
    Extensionality(ShiftRightAsWritten(Or(a, b)), Or(ShiftRightAsWritten(a), ShiftRightAsWritten(b)));
  }

  lemma LeftDistributes(a: bv64, b: bv64)
    ensures ShiftLeft(Or(a, b)) == Or(ShiftLeft(a), ShiftLeft(b))
  {
    forall i | 0 <= i < 64
      ensures Has(ShiftLeft(Or(a, b)), i) == Has(Or(ShiftLeft(a), ShiftLeft(b)), i)
    {
      ShiftLeftSquares(Or(a, b), i); ShiftLeftSquares(a, i); ShiftLeftSquares(b, i);
      HasOr(ShiftLeft(a), ShiftLeft(b), i); HasOr(a, b, i + 1);
    }
    Extensionality(ShiftLeft(Or(a, b)), Or(ShiftLeft(a), ShiftLeft(b)));
  }

  lemma RightDistributes(a: bv64, b: bv64)
    ensures ShiftRight(Or(a, b)) == Or(ShiftRight(a), ShiftRight(b))
  {
    forall i | 0 <= i < 64
      ensures Has(ShiftRight(Or(a, b)), i) == Has(Or(ShiftRight(a), ShiftRight(b)), i)
    {
      ShiftRightSquares(Or(a, b), i); ShiftRightSquares(a, i); ShiftRightSquares(b, i);
      HasOr(ShiftRight(a), ShiftRight(b), i); HasOr(a, b, i - 1);
    }
    Extensionality(ShiftRight(Or(a, b)), Or(ShiftRight(a), ShiftRight(b)));
  }

  /** Square i after a one-file shift of the test board (source square i + d, file `edge` dropped). */
  lemma TestIndex(x: bool, y: bool, i: int, d: int, edge: int)
    requires (d == 1 && edge == 7) || (d == -1 && edge == 0)
    requires x == (OnBoard(i) && FileOf(i) != edge && y)
    requires y == (i + d == 47 || i + d == 28 || i + d == 32)
    ensures x == if d == 1 then i == 27 || i == 46 else i == 29 || i == 33
  {
  }

  /** Counting a bitboard known to hold exactly squares x < y. */
  lemma {:induction false} CountTwo(b: bv64, x: int, y: int, n: nat)
    requires 0 <= x < y < 64 && n <= 64
    requires forall i {:trigger Has(b, i)} :: Has(b, i) == (i == x || i == y)
    ensures CountBelow(b, n) == (if x < n then 1 else 0) + (if y < n then 1 else 0)
  {
    if n > 0 {
      CountTwo(b, x, y, n - 1);
    }
  }

  /**
   * The shifts as written fail the test: `ShiftLeft` of the test board holds square 48 (47
   * wrapped from file h) and not the expected 27, and `ShiftRight` holds 31 and not 29.
   */
  lemma AsWrittenFailsTest(b: bv64)
    requires IsTestBoard(b)
    ensures Has(ShiftLeftAsWritten(b), 48) && !Has(ShiftLeftAsWritten(b), 27)
    ensures Has(ShiftRightAsWritten(b), 31) && !Has(ShiftRightAsWritten(b), 29)
  {
    ShiftLeftAsWrittenSquares(b, 48);
    ShiftLeftAsWrittenSquares(b, 27);
    ShiftRightAsWrittenSquares(b, 31);
    ShiftRightAsWrittenSquares(b, 29);
  }

  /** The intended `ShiftLeft` meets the test: population count 2, squares 27 and 46. */
  lemma ShiftLeftMeetsTest(b: bv64)
    requires IsTestBoard(b)
    ensures forall i {:trigger Has(ShiftLeft(b), i)} :: Has(ShiftLeft(b), i) == (i == 27 || i == 46)
    ensures PopCount(ShiftLeft(b)) == 2
  {
    forall i
      ensures Has(ShiftLeft(b), i) == (i == 27 || i == 46)
    {
      ShiftLeftSquares(b, i);
      TestIndex(Has(ShiftLeft(b), i), Has(b, i + 1), i, 1, 7);
    }
    CountTwo(ShiftLeft(b), 27, 46, 64);
  }

  /** The intended `ShiftRight` meets the test: population count 2, squares 29 and 33. */
  lemma ShiftRightMeetsTest(b: bv64)
    requires IsTestBoard(b)
    ensures forall i {:trigger Has(ShiftRight(b), i)} :: Has(ShiftRight(b), i) == (i == 29 || i == 33)
    ensures PopCount(ShiftRight(b)) == 2
  {
    forall i
      ensures Has(ShiftRight(b), i) == (i == 29 || i == 33)
    {
      ShiftRightSquares(b, i);
      TestIndex(Has(ShiftRight(b), i), Has(b, i - 1), i, -1, 0);
    }
    CountTwo(ShiftRight(b), 29, 33, 64);
  }

  /*
   * The diagonal shifts combine a one-rank and a one-file shift. The index arithmetic of
   * each combination is done in a lemma about plain truth values, away from the bitboards.
   */

  lemma UpLeftIndex(x: bool, y: bool, z: bool, t: int)
    requires x == (OnBoard(t) && FileOf(t) != 7 && y)
    requires y == (8 <= t + 1 < 64 && z)
    ensures x == (OnBoard(t) && t >= 8 && FileOf(t) != 7 && z)
  {
    if OnBoard(t) && FileOf(t) != 7 {
      assert t != 7 && t != 63;
    }
  }

  lemma UpRightIndex(x: bool, y: bool, z: bool, t: int)
    requires x == (OnBoard(t) && FileOf(t) != 0 && y)
    requires y == (8 <= t - 1 < 64 && z)
    ensures x == (OnBoard(t) && t >= 8 && FileOf(t) != 0 && z)
  {
    if OnBoard(t) && FileOf(t) != 0 {
      assert t != 8;
    }
  }

  lemma DownLeftIndex(x: bool, y: bool, z: bool, t: int)
    requires x == (OnBoard(t) && FileOf(t) != 7 && y)
    requires y == (0 <= t + 1 < 56 && z)
    ensures x == (OnBoard(t) && t < 56 && FileOf(t) != 7 && z)
  {
    if OnBoard(t) && FileOf(t) != 7 {
      assert t != 55;
    }
  }

  lemma DownRightIndex(x: bool, y: bool, z: bool, t: int)
    requires x == (OnBoard(t) && FileOf(t) != 0 && y)
    requires y == (0 <= t - 1 < 56 && z)
    ensures x == (OnBoard(t) && t < 56 && FileOf(t) != 0 && z)
  {
    if OnBoard(t) && FileOf(t) != 0 {
      assert t != 0 && t != 56;
    }
  }

  /** `ShiftUpLeft` moves each piece to the square diagonally up and towards file a. */
  lemma ShiftUpLeftSquares(b: bv64, t: int)
    ensures Has(ShiftUpLeft(b), t) == (OnBoard(t) && t >= 8 && FileOf(t) != 7 && Has(b, t - 7))
  {
    ShiftLeftSquares(ShiftUp(b), t);
    ShiftUpSquares(b, t + 1);
    UpLeftIndex(Has(ShiftUpLeft(b), t), Has(ShiftUp(b), t + 1), Has(b, t - 7), t);
  }

  lemma ShiftUpRightSquares(b: bv64, t: int)
    ensures Has(ShiftUpRight(b), t) == (OnBoard(t) && t >= 8 && FileOf(t) != 0 && Has(b, t - 9))
  {
    ShiftRightSquares(ShiftUp(b), t);
    ShiftUpSquares(b, t - 1);
    UpRightIndex(Has(ShiftUpRight(b), t), Has(ShiftUp(b), t - 1), Has(b, t - 9), t);
  }

  lemma ShiftDownLeftSquares(b: bv64, t: int)
    ensures Has(ShiftDownLeft(b), t) == (OnBoard(t) && t < 56 && FileOf(t) != 7 && Has(b, t + 9))
  {
    ShiftLeftSquares(ShiftDown(b), t);
    ShiftDownSquares(b, t + 1);
    DownLeftIndex(Has(ShiftDownLeft(b), t), Has(ShiftDown(b), t + 1), Has(b, t + 9), t);
  }

  lemma ShiftDownRightSquares(b: bv64, t: int)
    ensures Has(ShiftDownRight(b), t) == (OnBoard(t) && t < 56 && FileOf(t) != 0 && Has(b, t + 7))
  {
    ShiftRightSquares(ShiftDown(b), t);
    ShiftDownSquares(b, t - 1);
    DownRightIndex(Has(ShiftDownRight(b), t), Has(ShiftDown(b), t - 1), Has(b, t + 7), t);
  }

  /** The squares a pawn of colour c on s attacks, as index offsets. */
  lemma PawnStep(c: nat, s: int, t: int)
    requires IsColor(c) && 8 <= s < 56
    ensures PawnAttack(c, s, t) == if c == WHITE then (t == s + 7 && FileOf(t) != 7) || (t == s + 9 && FileOf(t) != 0)
      else (t == s - 9 && FileOf(t) != 7) || (t == s - 7 && FileOf(t) != 0)
  {
    var d := if c == WHITE then 8 else -8;
    assert s == 8 * RankOf(s) + FileOf(s);
    if OnBoard(t) {
      assert t == 8 * RankOf(t) + FileOf(t);
    }
  }

  /** Both capture shifts of colour c; the move generator uses them one at a time. */
  function CaptureShifts(c: nat, b: bv64): bv64
  {
    if c == WHITE then Or(ShiftUpLeft(b), ShiftUpRight(b)) else Or(ShiftDownLeft(b), ShiftDownRight(b))
  }

  /** The squares the two capture shifts of colour c give, in terms of the pawns' squares. */
  lemma CaptureShiftSquares(c: nat, b: bv64, t: int)
    requires IsColor(c)
    ensures Has(CaptureShifts(c, b), t) == if c == WHITE then (OnBoard(t) && t >= 8 && FileOf(t) != 7 && Has(b, t - 7)) || (OnBoard(t) && t >= 8 && FileOf(t) != 0 && Has(b, t - 9))
        else (OnBoard(t) && t < 56 && FileOf(t) != 7 && Has(b, t + 9)) || (OnBoard(t) && t < 56 && FileOf(t) != 0 && Has(b, t + 7))
  {
    if c == WHITE {
      HasOr(ShiftUpLeft(b), ShiftUpRight(b), t);
      ShiftUpLeftSquares(b, t);
      ShiftUpRightSquares(b, t);
    } else {
      HasOr(ShiftDownLeft(b), ShiftDownRight(b), t);
      ShiftDownLeftSquares(b, t);
      ShiftDownRightSquares(b, t);
    }
  }

  /** The attack table entry of a pawn on s, as index offsets. */
  lemma PawnTableStep(c: nat, s: int, t: int)
    requires IsColor(c) && 8 <= s < 56
    ensures Has(PawnAttackBitboard(c, s), t) == if c == WHITE then (s == t - 7 && FileOf(t) != 7) || (s == t - 9 && FileOf(t) != 0)
      else (s == t + 9 && FileOf(t) != 7) || (s == t + 7 && FileOf(t) != 0)
  {
    PawnBitboardIsAttacks(c, s, t);
    PawnStep(c, s, t);
  }

  /** A pawn on s attacking t would be one of the two squares the capture shifts read. */
  lemma NoSourceIndex(c: nat, s: int, t: int, x: bool, hs: bool, hw: bool, he: bool)
    requires IsColor(c) && 8 <= s < 56 && hs
    requires x == if c == WHITE then (s == t - 7 && FileOf(t) != 7) || (s == t - 9 && FileOf(t) != 0)
      else (s == t + 9 && FileOf(t) != 7) || (s == t + 7 && FileOf(t) != 0)
    requires s == (if c == WHITE then t - 7 else t + 9) ==> hw == hs
    requires s == (if c == WHITE then t - 9 else t + 7) ==> he == hs
    requires !if c == WHITE then (OnBoard(t) && t >= 8 && FileOf(t) != 7 && hw) || (OnBoard(t) && t >= 8 && FileOf(t) != 0 && he)
      else (OnBoard(t) && t < 56 && FileOf(t) != 7 && hw) || (OnBoard(t) && t < 56 && FileOf(t) != 0 && he)
    ensures !x
  {
  }

  /**
   * The two capture shifts together give exactly the squares that the per-square pawn
   * attack table (`PawnAttackBitboard`) marks for some pawn of the bitboard, when the
   * bitboard has no pawn on rank 1 or rank 8.
   */
  lemma PawnCaptureShifts(c: nat, b: bv64, t: int)
    requires IsColor(c)
    requires forall s {:trigger Has(b, s)} :: Has(b, s) ==> 8 <= s < 56
    ensures Has(CaptureShifts(c, b), t) <==> exists s {:trigger Has(b, s)} :: Has(b, s) && Has(PawnAttackBitboard(c, s), t)
  {
    CaptureShiftSquares(c, b, t);
    var west, east := if c == WHITE then t - 7 else t + 9, if c == WHITE then t - 9 else t + 7;
    if Has(CaptureShifts(c, b), t) {
      var s := if Has(b, west) && FileOf(t) != 7 then west else east;
      PawnTableStep(c, s, t);
      assert Has(b, s) && Has(PawnAttackBitboard(c, s), t);
    } else {
      forall s | Has(b, s)
        ensures !Has(PawnAttackBitboard(c, s), t)
      {
        PawnTableStep(c, s, t);
        NoSourceIndex(c, s, t, Has(PawnAttackBitboard(c, s), t), Has(b, s), Has(b, west), Has(b, east));
      }
    }
  }
}
