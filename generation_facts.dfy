/**
 * What the move generator's masks and move list mean on the board: the properties of
 * the functions in generation.dfy that Chess/MoveGenerator.cs relies on.
 */
module GenerationFacts {
  import opened Bits
  import opened Pieces
  import opened Moves
  import opened MoveHelper
  import opened MoveHelperFacts
  import opened BitboardUtilities
  import opened Positions
  import opened Generation

  /** The test `(1ul << t & b) != 0` asks whether b holds square t. */
  lemma Hits(t: int, b: bv64)
    requires 0 <= t < 64
    ensures (And(Bit(t), b) != 0) == Has(b, t)
  {
    forall i | 0 <= i < 64
      ensures Has(And(Bit(t), b), i) == (i == t && Has(b, t))
    {
      HasAnd(Bit(t), b, i);
      HasSquare(t, i);
    }
    if Has(b, t) {
      HasZero(t);
    } else {
      Empty(And(Bit(t), b));
    }
  }

  // ---------------------------------------------------------------------------------
  // King moves

  /**
   * The king loop emits one plain move from the king to each square of `targets`, and
   * nothing else.
   */
  lemma {:induction false} KingTargetMovesExact(p: Position, king: int, targets: bv64)
    requires |p.squares| == 64 && OnBoard(king)
    ensures |KingTargetMoves(p, king, targets)| == PopCount(targets)
    ensures forall mv :: mv in KingTargetMoves(p, king, targets) ==>
      OnBoard(mv.target) && Has(targets, mv.target) && mv == NewMove(p, king, mv.target)
    ensures forall t :: OnBoard(t) && Has(targets, t) ==> NewMove(p, king, t) in KingTargetMoves(p, king, targets)
    decreases PopCount(targets)
  {
    if targets == 0 {
      CountEmpty(64);
      forall t | OnBoard(t) ensures !Has(targets, t) { HasZero(t); }
    } else {
      KingTargetStep(p, king, targets);
      var low := TrailingZeroCount(targets);
      var rest := Xor(targets, Bit(low));
      PopCountToggle(targets, low);
      KingTargetMovesExact(p, king, rest);
      forall t | OnBoard(t)
        ensures Has(targets, t) == (t == low || Has(rest, t))
      {
        HasToggle(targets, low, t);
      }
    }
  }

  /**
   * `AddKingMoves` (lines 277-287): the king steps to every square next to it that holds
   * no friendly piece and that the opponent does not attack, and to no other square.
   */
  lemma KingMovesAreSafeSteps(p: Position, m: Masks)
    requires |p.squares| == 64 && OnBoard(m.ourKingSquare)
    ensures forall mv :: mv in KingMoves(p, m) ==>
      KingStep(m.ourKingSquare, mv.target) && mv == NewMove(p, m.ourKingSquare, mv.target)
      && !Has(m.friendlyPieces, mv.target) && !Has(m.opponentAttackMap, mv.target)
    ensures forall t ::
      KingStep(m.ourKingSquare, t) && !Has(m.friendlyPieces, t) && !Has(m.opponentAttackMap, t)
      ==> NewMove(p, m.ourKingSquare, t) in KingMoves(p, m)
  {
    var king := m.ourKingSquare;
    KingTargetMovesExact(p, king, Generation.KingTargets(m));
    forall t
      ensures Has(Generation.KingTargets(m), t) == (KingStep(king, t) && !Has(m.friendlyPieces, t) && !Has(m.opponentAttackMap, t))
    {
      HasAnd(And(KingAttackBitboard(king), Not(m.friendlyPieces)), Not(m.opponentAttackMap), t);
      HasAnd(KingAttackBitboard(king), Not(m.friendlyPieces), t);
      HasNot(m.friendlyPieces, t);
      HasNot(m.opponentAttackMap, t);
      KingBitboardIsSteps(king, t);
    }
  }

  /**
   * In double check only the king moves (lines 72-73), and it has all its safe steps
   * whether or not only captures are asked for.
   */
  lemma DoubleCheckOnlyKingMoves(p: Position, m: Masks, onlyCaptures: bool)
    requires Ready(p) && OnBoard(m.ourKingSquare) && m.inDoubleCheck
    ensures forall mv :: mv in GetMoves(p, m, onlyCaptures) ==>
      mv.start == m.ourKingSquare && !mv.isCastling && KingStep(m.ourKingSquare, mv.target)
  {
    KingMovesAreSafeSteps(p, m);
    assert GetMoves(p, m, onlyCaptures) == KingMoves(p, m) + [];
  }

  /**
   * `onlyCaptures` does not reach the king: asked for captures only, the list still
   * starts with every safe king step, quiet ones included.
   */
  lemma KingStepsIgnoreOnlyCaptures(p: Position, m: Masks, t: int)
    requires Ready(p) && OnBoard(m.ourKingSquare)
    requires KingStep(m.ourKingSquare, t) && !Has(m.friendlyPieces, t) && !Has(m.opponentAttackMap, t)
    ensures NewMove(p, m.ourKingSquare, t) in GetMoves(p, m, true)
    ensures NewMove(p, m.ourKingSquare, t) in GetMoves(p, m, false)
  {
    KingMovesAreSafeSteps(p, m);
  }

  // ---------------------------------------------------------------------------------
  // Castling

  /** The squares of a castling are empty and unattacked, and the right is held (lines 295-337). */
  ghost predicate MayCastle(p: Position, m: Masks, base: int, kingSide: bool, right: nat)
    requires |p.squares| == 64 && (base == 0 || base == 56) && right > 0
  {
    var b := p.squares;
    HasRight(p.castlingRights, right)
    && (if kingSide then b[base + 5] == NONE && b[base + 6] == NONE && !Attacked(m, base + 5) && !Attacked(m, base + 6)
        else b[base + 1] == NONE && b[base + 2] == NONE && b[base + 3] == NONE && !Attacked(m, base + 3) && !Attacked(m, base + 2))
  }

  /**
   * The castlings of the side to move: the king goes from e1 to g1 or c1 (e8 to g8 or c8
   * for black) exactly when the castling's right is held and its squares are empty and
   * unattacked, and no other move is listed.
   */
  lemma CastlingMovesExact(p: Position, m: Masks)
    requires |p.squares| == 64
    ensures var base := if p.us == WHITE then 0 else 56;
      var ks := if p.us == WHITE then WHITE_KINGSIDE_CASTLE else BLACK_KINGSIDE_CASTLE;
      var qs := if p.us == WHITE then WHITE_QUEENSIDE_CASTLE else BLACK_QUEENSIDE_CASTLE;
      && (CastlingMove(p, base + 4, base + 6) in CastlingMoves(p, m) <==> MayCastle(p, m, base, true, ks))
      && (CastlingMove(p, base + 4, base + 2) in CastlingMoves(p, m) <==> MayCastle(p, m, base, false, qs))
      && (forall mv :: mv in CastlingMoves(p, m) ==>
           mv.isCastling && (mv == CastlingMove(p, base + 4, base + 6) || mv == CastlingMove(p, base + 4, base + 2)))
  {
  }

  // ---------------------------------------------------------------------------------
  // Check detection by knights and pawns

  /** The number of knights from index i on whose attack set holds square k. */
  function KnightCheckers(k: int, knights: seq<int>, i: nat): (c: nat)
    requires i <= |knights|
    ensures c <= |knights| - i
    decreases |knights| - i
  {
    if i == |knights| then 0
    else (if Has(KnightBitboard(knights[i]), k) then 1 else 0) + KnightCheckers(k, knights, i + 1)
  }

  /** The number of pawns of colour c from index i on that attack square k. */
  function PawnCheckers(k: int, color: nat, pawns: seq<int>, i: nat): (c: nat)
    requires IsColor(color) && i <= |pawns|
    ensures c <= |pawns| - i
    decreases |pawns| - i
  {
    if i == |pawns| then 0
    else (if Has(PawnAttackBitboard(color, pawns[i]), k) then 1 else 0) + PawnCheckers(k, color, pawns, i + 1)
  }

  /** The double-check flag is only set together with the check flag. */
  predicate CheckFlags(m: Masks)
  {
    m.inDoubleCheck ==> m.inCheck
  }

  /**
   * The knight loop (lines 455-467, with the test on the knight's own attacks): one
   * attacking knight sets the check, a second one the double check.
   */
  lemma {:induction false} KnightChecksCount(m: Masks, knights: seq<int>, i: nat)
    requires i <= |knights| && OnBoard(m.ourKingSquare) && CheckFlags(m)
    ensures var r := KnightChecks(m, knights, i);
      var c := KnightCheckers(m.ourKingSquare, knights, i);
      && r.ourKingSquare == m.ourKingSquare && CheckFlags(r)
      && r.inCheck == (m.inCheck || c > 0)
      && r.inDoubleCheck == (m.inDoubleCheck || (m.inCheck && c > 0) || c >= 2)
    decreases |knights| - i
  {
    if i < |knights| {
      var m' := m.(opponentKnightAttackMap := Or(m.opponentKnightAttackMap, KnightBitboard(knights[i])));
      Hits(m.ourKingSquare, KnightBitboard(knights[i]));
      var checks := Has(KnightBitboard(knights[i]), m.ourKingSquare);
      KnightChecksCount(if checks then Detected(m', knights[i]) else m', knights, i + 1);
    }
  }

  /** One turn of the pawn loop: the masks it passes on. */
  lemma PawnCheckStep(m: Masks, color: nat, pawns: seq<int>, i: nat) returns (next: Masks)
    requires IsColor(color) && i < |pawns| && OnBoard(m.ourKingSquare)
    ensures var checks := Has(PawnAttackBitboard(color, pawns[i]), m.ourKingSquare);
      && PawnChecks(m, color, pawns, i) == PawnChecks(next, color, pawns, i + 1)
      && next.ourKingSquare == m.ourKingSquare
      && next.inCheck == (m.inCheck || checks)
      && next.inDoubleCheck == (if checks then m.inCheck else m.inDoubleCheck)
  {
    var attacks := PawnAttackBitboard(color, pawns[i]);
    Hits(m.ourKingSquare, attacks);
    next := PawnNext(m, attacks, pawns[i]);
  }

  /** The masks after a pawn with these attacks was checked. */
  function PawnNext(m: Masks, attacks: bv64, square: int): (r: Masks)
    requires OnBoard(m.ourKingSquare)
    ensures r.ourKingSquare == m.ourKingSquare
    ensures r.inCheck == (m.inCheck || Has(attacks, m.ourKingSquare))
    ensures r.inDoubleCheck == (if Has(attacks, m.ourKingSquare) then m.inCheck else m.inDoubleCheck)
  {
    Hits(m.ourKingSquare, attacks);
    var m' := m.(opponentPawnAttackMap := Or(m.opponentPawnAttackMap, attacks));
    if And(Bit(m.ourKingSquare), attacks) != 0 then Detected(m', square) else m'
  }

  /** The pawn loop (lines 469-481), counted the same way. */
  lemma {:induction false} PawnChecksCount(m: Masks, color: nat, pawns: seq<int>, i: nat)
    requires IsColor(color) && i <= |pawns| && OnBoard(m.ourKingSquare) && CheckFlags(m)
    ensures var r := PawnChecks(m, color, pawns, i);
      var c := PawnCheckers(m.ourKingSquare, color, pawns, i);
      && r.ourKingSquare == m.ourKingSquare && CheckFlags(r)
      && r.inCheck == (m.inCheck || c > 0)
      && r.inDoubleCheck == (m.inDoubleCheck || (m.inCheck && c > 0) || c >= 2)
    decreases |pawns| - i
  {
    if i < |pawns| {
      var next := PawnCheckStep(m, color, pawns, i);
      PawnChecksCount(next, color, pawns, i + 1);
    }
  }

  /** Both corrected leaper loops together count the knights and pawns that attack our king. */
  lemma LeaperChecksCount(p: Position, m: Masks)
    requires Ready(p) && OnBoard(m.ourKingSquare) && CheckFlags(m)
    ensures var r := LeaperChecksCorrected(p, m);
      var c := KnightCheckers(m.ourKingSquare, EnemyList(p, KNIGHT), 0)
        + PawnCheckers(m.ourKingSquare, p.them, EnemyList(p, PAWN), 0);
      && r.inCheck == (m.inCheck || c > 0)
      && r.inDoubleCheck == (m.inDoubleCheck || (m.inCheck && c > 0) || c >= 2)
  {
    KnightChecksCount(m, EnemyList(p, KNIGHT), 0);
    PawnChecksCount(KnightChecks(m, EnemyList(p, KNIGHT), 0), p.them, EnemyList(p, PAWN), 0);
  }

  /** The index of the first knight from i on that attacks square k, or the length of the list. */
  function FirstKnightChecker(k: int, knights: seq<int>, i: nat): (f: nat)
    requires i <= |knights|
    ensures i <= f <= |knights|
    decreases |knights| - i
  {
    if i == |knights| || Has(KnightBitboard(knights[i]), k) then i
    else FirstKnightChecker(k, knights, i + 1)
  }

  /** No knight before the first checker attacks square k, and the first checker does. */
  lemma {:induction false} FirstKnightCheckerMeaning(k: int, knights: seq<int>, i: nat)
    requires i <= |knights|
    ensures var f := FirstKnightChecker(k, knights, i);
      && (forall j :: i <= j < f ==> !Has(KnightBitboard(knights[j]), k))
      && (f < |knights| ==> Has(KnightBitboard(knights[f]), k))
    decreases |knights| - i
  {
    if i < |knights| && !Has(KnightBitboard(knights[i]), k) {
      FirstKnightCheckerMeaning(k, knights, i + 1);
      var f := FirstKnightChecker(k, knights, i + 1);
      assert FirstKnightChecker(k, knights, i) == f;
      forall j | i <= j < f
        ensures !Has(KnightBitboard(knights[j]), k)
      {
        if j > i {
          assert i + 1 <= j < f;
        }
      }
    }
  }

  /** The index of the first pawn from i on that attacks square k, or the length of the list. */
  function FirstPawnChecker(k: int, color: nat, pawns: seq<int>, i: nat): (f: nat)
    requires IsColor(color) && i <= |pawns|
    ensures i <= f <= |pawns|
    decreases |pawns| - i
  {
    if i == |pawns| || Has(PawnAttackBitboard(color, pawns[i]), k) then i
    else FirstPawnChecker(k, color, pawns, i + 1)
  }

  /** No pawn before the first checker attacks square k, and the first checker does. */
  lemma {:induction false} FirstPawnCheckerMeaning(k: int, color: nat, pawns: seq<int>, i: nat)
    requires IsColor(color) && i <= |pawns|
    ensures var f := FirstPawnChecker(k, color, pawns, i);
      && (forall j :: i <= j < f ==> !Has(PawnAttackBitboard(color, pawns[j]), k))
      && (f < |pawns| ==> Has(PawnAttackBitboard(color, pawns[f]), k))
    decreases |pawns| - i
  {
    if i < |pawns| && !Has(PawnAttackBitboard(color, pawns[i]), k) {
      FirstPawnCheckerMeaning(k, color, pawns, i + 1);
    }
  }

  /** One turn of the knight loop as written: the test reads the map with this knight's attacks added. */
  lemma KnightAsWrittenStep(m: Masks, knights: seq<int>, i: nat) returns (next: Masks, hit: bool)
    requires i < |knights| && OnBoard(m.ourKingSquare)
    ensures hit == Has(KnightBitboard(knights[i]), m.ourKingSquare)
    ensures var checks := Has(m.opponentKnightAttackMap, m.ourKingSquare) || hit;
      && KnightChecksAsWritten(m, knights, i) == KnightChecksAsWritten(next, knights, i + 1)
      && next.ourKingSquare == m.ourKingSquare
      && Has(next.opponentKnightAttackMap, m.ourKingSquare) == checks
      && next.opponentPawnAttackMap == m.opponentPawnAttackMap
      && next.inCheck == (m.inCheck || checks)
      && next.inDoubleCheck == (if checks then m.inCheck else m.inDoubleCheck)
  {
    var attacks := KnightBitboard(knights[i]);
    hit := Has(attacks, m.ourKingSquare);
    var m' := m.(opponentKnightAttackMap := Or(m.opponentKnightAttackMap, attacks));
    HasOr(m.opponentKnightAttackMap, attacks, m.ourKingSquare);
    Hits(m.ourKingSquare, m'.opponentKnightAttackMap);
    next := if And(Bit(m.ourKingSquare), m'.opponentKnightAttackMap) != 0 then Detected(m', knights[i]) else m';
  }

  /** Once the accumulated knight map holds our king, every further knight of the loop as written is recorded as a checker. */
  lemma {:induction false} KnightChecksAsWrittenAfterHit(m: Masks, knights: seq<int>, i: nat)
    requires i <= |knights| && OnBoard(m.ourKingSquare) && CheckFlags(m) && Has(m.opponentKnightAttackMap, m.ourKingSquare)
    ensures var r := KnightChecksAsWritten(m, knights, i);
      && CheckFlags(r)
      && r.inCheck == (m.inCheck || i < |knights|)
      && r.inDoubleCheck == (m.inDoubleCheck || (m.inCheck && i < |knights|) || |knights| - i >= 2)
    decreases |knights| - i
  {
    if i < |knights| {
      var next, _ := KnightAsWrittenStep(m, knights, i);
      assert next.inCheck && next.inDoubleCheck == m.inCheck;
      KnightChecksAsWrittenAfterHit(next, knights, i + 1);
      var r := KnightChecksAsWritten(next, knights, i + 1);
      assert KnightChecksAsWritten(m, knights, i) == r;
      assert r.inCheck && r.inDoubleCheck == (m.inCheck || i + 1 < |knights|);
    }
  }

  /** The first knight that attacks our king, met with our king not yet in the map. */
  lemma KnightChecksAsWrittenHit(m: Masks, knights: seq<int>, i: nat)
    requires i < |knights| && OnBoard(m.ourKingSquare) && CheckFlags(m) && !Has(m.opponentKnightAttackMap, m.ourKingSquare)
    requires Has(KnightBitboard(knights[i]), m.ourKingSquare)
    ensures var r := KnightChecksAsWritten(m, knights, i);
      && r.ourKingSquare == m.ourKingSquare && CheckFlags(r) && r.opponentPawnAttackMap == m.opponentPawnAttackMap
      && r.inCheck && r.inDoubleCheck == (m.inCheck || |knights| - i >= 2)
  {
    var next, _ := KnightAsWrittenStep(m, knights, i);
    KnightChecksAsWrittenAfterHit(next, knights, i + 1);
    KnightChecksKeepKing(m, knights, i);
  }

  /**
   * The knight loop as written (lines 455-467), with our king not yet in the map: the
   * first knight that attacks our king sets the check, and every knight listed after it,
   * attacking or not, is recorded too, so a second knight anywhere after the first
   * checker sets the double check.
   */
  lemma {:induction false} KnightChecksAsWrittenCount(m: Masks, knights: seq<int>, i: nat)
    requires i <= |knights| && OnBoard(m.ourKingSquare) && CheckFlags(m) && !Has(m.opponentKnightAttackMap, m.ourKingSquare)
    ensures var r := KnightChecksAsWritten(m, knights, i);
      var f := FirstKnightChecker(m.ourKingSquare, knights, i);
      && r.ourKingSquare == m.ourKingSquare && CheckFlags(r) && r.opponentPawnAttackMap == m.opponentPawnAttackMap
      && r.inCheck == (m.inCheck || f < |knights|)
      && r.inDoubleCheck == (m.inDoubleCheck || (m.inCheck && f < |knights|) || |knights| - f >= 2)
    decreases |knights| - i
  {
    if i < |knights| {
      if Has(KnightBitboard(knights[i]), m.ourKingSquare) {
        assert FirstKnightChecker(m.ourKingSquare, knights, i) == i;
        KnightChecksAsWrittenHit(m, knights, i);
      } else {
        var next, _ := KnightAsWrittenStep(m, knights, i);
        assert FirstKnightChecker(m.ourKingSquare, knights, i) == FirstKnightChecker(m.ourKingSquare, knights, i + 1);
        KnightChecksAsWrittenCount(next, knights, i + 1);
      }
    }
  }

  /** The same for the pawn loop as written, once the accumulated pawn map holds our king. */
  lemma {:induction false} PawnChecksAsWrittenAfterHit(m: Masks, color: nat, pawns: seq<int>, i: nat)
    requires IsColor(color) && i <= |pawns| && OnBoard(m.ourKingSquare) && CheckFlags(m)
    requires Has(m.opponentPawnAttackMap, m.ourKingSquare)
    ensures var r := PawnChecksAsWritten(m, color, pawns, i);
      && r.ourKingSquare == m.ourKingSquare && CheckFlags(r)
      && r.inCheck == (m.inCheck || i < |pawns|)
      && r.inDoubleCheck == (m.inDoubleCheck || (m.inCheck && i < |pawns|) || |pawns| - i >= 2)
    decreases |pawns| - i
  {
    if i < |pawns| {
      var next := PawnAsWrittenStep(m, color, pawns, i);
      HasOr(m.opponentPawnAttackMap, PawnAttackBitboard(color, pawns[i]), m.ourKingSquare);
      PawnChecksAsWrittenAfterHit(next, color, pawns, i + 1);
    }
  }

  /**
   * The pawn loop as written (lines 469-481), with our king not yet in the map: the first
   * attacking pawn sets the check and every pawn listed after it is recorded as well.
   */
  lemma {:induction false} PawnChecksAsWrittenCount(m: Masks, color: nat, pawns: seq<int>, i: nat)
    requires IsColor(color) && i <= |pawns| && OnBoard(m.ourKingSquare) && CheckFlags(m)
    requires !Has(m.opponentPawnAttackMap, m.ourKingSquare)
    ensures var r := PawnChecksAsWritten(m, color, pawns, i);
      var f := FirstPawnChecker(m.ourKingSquare, color, pawns, i);
      && r.ourKingSquare == m.ourKingSquare && CheckFlags(r)
      && r.inCheck == (m.inCheck || f < |pawns|)
      && r.inDoubleCheck == (m.inDoubleCheck || (m.inCheck && f < |pawns|) || |pawns| - f >= 2)
    decreases |pawns| - i
  {
    if i < |pawns| {
      var next := PawnAsWrittenStep(m, color, pawns, i);
      HasOr(m.opponentPawnAttackMap, PawnAttackBitboard(color, pawns[i]), m.ourKingSquare);
      if Has(PawnAttackBitboard(color, pawns[i]), m.ourKingSquare) {
        PawnChecksAsWrittenAfterHit(next, color, pawns, i + 1);
      } else {
        assert FirstPawnChecker(m.ourKingSquare, color, pawns, i) == FirstPawnChecker(m.ourKingSquare, color, pawns, i + 1);
        PawnChecksAsWrittenCount(next, color, pawns, i + 1);
      }
    }
  }

  /**
   * The two leaper loops of `GenerateBitmasks` as written, starting from maps that do not
   * hold our king: a check exactly when some knight or pawn attacks our king, and a double
   * check also for any knight listed after the first checking knight and any pawn listed
   * after the first checking pawn.
   */
  lemma LeaperChecksAsWrittenCount(p: Position, m: Masks)
    requires Ready(p) && OnBoard(m.ourKingSquare) && CheckFlags(m)
    requires !Has(m.opponentKnightAttackMap, m.ourKingSquare) && !Has(m.opponentPawnAttackMap, m.ourKingSquare)
    ensures var r := LeaperChecks(p, m);
      var knights, pawns := EnemyList(p, KNIGHT), EnemyList(p, PAWN);
      var fk := FirstKnightChecker(m.ourKingSquare, knights, 0);
      var fp := FirstPawnChecker(m.ourKingSquare, p.them, pawns, 0);
      var knightCheck := m.inCheck || fk < |knights|;
      var knightDouble := m.inDoubleCheck || (m.inCheck && fk < |knights|) || |knights| - fk >= 2;
      && r.ourKingSquare == m.ourKingSquare
      && r.inCheck == (knightCheck || fp < |pawns|)
      && r.inDoubleCheck == (knightDouble || (knightCheck && fp < |pawns|) || |pawns| - fp >= 2)
  {
    KnightChecksAsWrittenCount(m, EnemyList(p, KNIGHT), 0);
    PawnChecksAsWrittenCount(KnightChecksAsWritten(m, EnemyList(p, KNIGHT), 0), p.them, EnemyList(p, PAWN), 0);
  }

  /**
   * The knight loop as written reads the attacks of all knights so far: a knight that
   * gives check followed by one that does not (our king on a1, knights on c2 and h8)
   * reports a double check where the corrected loop reports a single one.
   */
  lemma KnightChecksAsWrittenDoubleCounts(m: Masks, a: int, b: int)
    requires OnBoard(m.ourKingSquare) && m.opponentKnightAttackMap == 0 && !m.inCheck && !m.inDoubleCheck
    requires OnBoard(a) && OnBoard(b) && KnightJump(a, m.ourKingSquare) && !KnightJump(b, m.ourKingSquare)
    ensures KnightChecksAsWritten(m, [a, b], 0).inDoubleCheck
    ensures KnightChecks(m, [a, b], 0).inCheck && !KnightChecks(m, [a, b], 0).inDoubleCheck
  {
    var k := m.ourKingSquare;
    KnightBitboardIsJumps(a, k);
    KnightBitboardIsJumps(b, k);
    assert KnightCheckers(k, [a, b], 0) == 1;
    KnightChecksCount(m, [a, b], 0);
    var first := Or(0, KnightBitboard(a));
    HasOr(0, KnightBitboard(a), k);
    HasOr(first, KnightBitboard(b), k);
    Hits(k, first);
    Hits(k, Or(first, KnightBitboard(b)));
    var m1 := Detected(m.(opponentKnightAttackMap := first), a);
    assert KnightChecksAsWritten(m, [a, b], 0) == KnightChecksAsWritten(m1, [a, b], 1);
    var m2 := Detected(m1.(opponentKnightAttackMap := Or(first, KnightBitboard(b))), b);
    assert KnightChecksAsWritten(m1, [a, b], 1) == KnightChecksAsWritten(m2, [a, b], 2);
  }

  /** The squares of the example: a knight on c2 attacks a1, one on h8 does not. */
  lemma KnightExample()
    ensures KnightJump(10, 0) && !KnightJump(63, 0)
  {
  }

  /** One turn of the pawn loop as written: the test reads the map with this pawn's attacks added. */
  lemma PawnAsWrittenStep(m: Masks, color: nat, pawns: seq<int>, i: nat) returns (next: Masks)
    requires IsColor(color) && i < |pawns| && OnBoard(m.ourKingSquare)
    ensures var attacked := Or(m.opponentPawnAttackMap, PawnAttackBitboard(color, pawns[i]));
      var checks := Has(attacked, m.ourKingSquare);
      && PawnChecksAsWritten(m, color, pawns, i) == PawnChecksAsWritten(next, color, pawns, i + 1)
      && next.ourKingSquare == m.ourKingSquare
      && next.opponentPawnAttackMap == attacked
      && next.inCheck == (m.inCheck || checks)
      && next.inDoubleCheck == (if checks then m.inCheck else m.inDoubleCheck)
  {
    next := PawnNextAsWritten(m, PawnAttackBitboard(color, pawns[i]), pawns[i]);
  }

  /** The masks after a pawn with these attacks was checked as written. */
  function PawnNextAsWritten(m: Masks, attacks: bv64, square: int): (r: Masks)
    requires OnBoard(m.ourKingSquare)
    ensures var attacked := Or(m.opponentPawnAttackMap, attacks);
      && r.ourKingSquare == m.ourKingSquare
      && r.opponentPawnAttackMap == attacked
      && r.inCheck == (m.inCheck || Has(attacked, m.ourKingSquare))
      && r.inDoubleCheck == (if Has(attacked, m.ourKingSquare) then m.inCheck else m.inDoubleCheck)
  {
    var m' := m.(opponentPawnAttackMap := Or(m.opponentPawnAttackMap, attacks));
    Hits(m.ourKingSquare, m'.opponentPawnAttackMap);
    if And(Bit(m.ourKingSquare), m'.opponentPawnAttackMap) != 0 then Detected(m', square) else m'
  }

  /**
   * The pawn loop as written, the same way as the knight loop: a pawn that gives check
   * followed by one that does not (our king on a1, black pawns on b2 and h7) reports a
   * double check; `PawnChecksCount` shows the corrected loop counts one checker.
   */
  lemma PawnChecksAsWrittenDoubleCounts(m: Masks, color: nat, a: int, b: int)
    requires OnBoard(m.ourKingSquare) && m.opponentPawnAttackMap == 0 && !m.inCheck && !m.inDoubleCheck
    requires IsColor(color) && OnBoard(a) && OnBoard(b)
    requires PawnAttack(color, a, m.ourKingSquare) && !PawnAttack(color, b, m.ourKingSquare)
    ensures PawnChecksAsWritten(m, color, [a, b], 0).inDoubleCheck
    ensures PawnCheckers(m.ourKingSquare, color, [a, b], 0) == 1
  {
    var k := m.ourKingSquare;
    PawnBitboardIsAttacks(color, a, k);
    PawnBitboardIsAttacks(color, b, k);
    HasOr(0, PawnAttackBitboard(color, a), k);
    var m1 := PawnAsWrittenStep(m, color, [a, b], 0);
    HasOr(m1.opponentPawnAttackMap, PawnAttackBitboard(color, b), k);
    var m2 := PawnAsWrittenStep(m1, color, [a, b], 1);
  }

  /** The squares of the example: a black pawn on b2 attacks a1, one on h7 does not. */
  lemma PawnExample()
    ensures PawnAttack(BLACK, 9, 0) && !PawnAttack(BLACK, 55, 0)
  {
  }

  // ---------------------------------------------------------------------------------
  // Slider moves

  /** Every square of the board is empty or holds one of the twelve pieces. */
  ghost predicate PiecesOnSquares(p: Position)
  {
    |p.squares| == 64 && IsColor(p.us) && IsColor(p.them) && p.us != p.them
    && forall t :: 0 <= t < 64 ==> p.squares[t] == NONE || IsPiece(p.squares[t])
  }

  /** A square that holds neither colour's piece is empty. */
  lemma Uncoloured(p: Position, t: int)
    requires PiecesOnSquares(p) && OnBoard(t)
    requires ColorOf(p.squares[t]) != p.us && ColorOf(p.squares[t]) != p.them
    ensures p.squares[t] == NONE
  {
    var x := p.squares[t];
    if IsPiece(x) {
      var k :| 0 <= k < |PIECE_TYPES| && PIECE_TYPES[k] == x;
      PieceTypesShape(k);
    }
  }

  /** Square t is on the board and holds no piece. */
  predicate Vacant(p: Position, t: int)
  {
    0 <= t < |p.squares| && p.squares[t] == NONE
  }

  /** The squares of ray d from s at steps n up to (not including) k are empty. */
  ghost predicate ClearFrom(p: Position, s: int, d: nat, n: int, k: int)
    requires d < 8
  {
    forall j :: n <= j < k ==> Vacant(p, Target(s, d, j))
  }

  /**
   * A slider on s may stop k steps along ray d when no piece stands on the steps from n
   * before it, the square holds no friendly piece, it is a capture if only captures are
   * asked for, and it answers a check.
   */
  ghost predicate RayEmits(p: Position, m: Masks, s: int, d: nat, n: int, k: int, onlyCaptures: bool)
    requires |p.squares| == 64 && d < 8 && OnBoard(Target(s, d, k))
  {
    var color := ColorOf(p.squares[Target(s, d, k)]);
    ClearFrom(p, s, d, n, k) && color != p.us && (!onlyCaptures || color == p.them)
    && (!m.inCheck || IsRayCheckSquare(m, Target(s, d, k)))
  }

  /** Every step of a ray up to the edge is on the board. */
  lemma RayOnBoard(s: int, d: nat)
    requires OnBoard(s) && d < 8
    ensures forall k :: 1 <= k <= EdgeDistances(s)[d] ==> OnBoard(Target(s, d, k))
  {
    forall k | 1 <= k <= EdgeDistances(s)[d]
      ensures OnBoard(Target(s, d, k))
    {
      RayStep(s, d, k);
    }
  }

  /** The move to the k-th square of ray d from s is listed exactly when `RayEmits` allows it. */
  ghost predicate RayComplete(p: Position, m: Masks, s: int, d: nat, n: int, onlyCaptures: bool, moves: seq<MoveData>)
    requires |p.squares| == 64 && OnBoard(s) && d < 8
  {
    forall k :: n <= k <= EdgeDistances(s)[d] ==>
      OnBoard(Target(s, d, k)) && (NewMove(p, s, Target(s, d, k)) in moves <==> RayEmits(p, m, s, d, n, k, onlyCaptures))
  }

  /** Every listed move goes to a square of ray d from s that `RayEmits` allows. */
  ghost predicate RaySound(p: Position, m: Masks, s: int, d: nat, n: int, onlyCaptures: bool, moves: seq<MoveData>)
    requires |p.squares| == 64 && OnBoard(s) && d < 8
  {
    forall mv :: mv in moves ==>
      exists k :: n <= k <= EdgeDistances(s)[d] && OnBoard(Target(s, d, k))
        && mv == NewMove(p, s, Target(s, d, k)) && RayEmits(p, m, s, d, n, k, onlyCaptures)
  }

  /** The moves along ray d from s listed from step n on are exactly those `RayEmits` allows. */
  ghost predicate RayListed(p: Position, m: Masks, s: int, d: nat, n: int, onlyCaptures: bool, moves: seq<MoveData>)
    requires |p.squares| == 64 && OnBoard(s) && d < 8
  {
    RayComplete(p, m, s, d, n, onlyCaptures, moves) && RaySound(p, m, s, d, n, onlyCaptures, moves)
  }

  /** The move to the n-th square, if the loop emits it (line 126). */
  ghost function RayHere(p: Position, m: Masks, s: int, d: nat, n: int, onlyCaptures: bool): seq<MoveData>
    requires |p.squares| == 64 && OnBoard(s) && d < 8 && 1 <= n <= EdgeDistances(s)[d]
  {
    RayStep(s, d, n);
    if RayEmits(p, m, s, d, n, n, onlyCaptures) then [NewMove(p, s, Target(s, d, n))] else []
  }

  /** Squares further along the ray are other squares. */
  lemma RayDistinct(p: Position, s: int, d: nat, n: int)
    requires |p.squares| == 64 && OnBoard(s) && d < 8 && 1 <= n <= EdgeDistances(s)[d]
    ensures forall k :: n < k <= EdgeDistances(s)[d] ==> OnBoard(Target(s, d, k)) && Target(s, d, k) != Target(s, d, n)
  {
    RayOnBoard(s, d);
    EdgeBounds(s, d);
  }

  /** A friendly piece on the n-th square ends the ray with nothing listed (lines 121-122). */
  lemma RayFriendlyStop(p: Position, m: Masks, s: int, d: nat, n: int, onlyCaptures: bool)
    requires PiecesOnSquares(p) && OnBoard(s) && d < 8 && 1 <= n <= EdgeDistances(s)[d]
    requires OnBoard(Target(s, d, n)) && ColorOf(p.squares[Target(s, d, n)]) == p.us
    ensures RayListed(p, m, s, d, n, onlyCaptures, RayMoveSteps(p, m, s, d, n, onlyCaptures))
  {
    RayUnfold(p, m, s, d, n, onlyCaptures);
    RayDistinct(p, s, d, n);
    assert !Vacant(p, Target(s, d, n));
  }

  /** An enemy piece on the n-th square ends the ray after its capture (lines 124-129). */
  lemma RayEnemyStop(p: Position, m: Masks, s: int, d: nat, n: int, onlyCaptures: bool)
    requires PiecesOnSquares(p) && OnBoard(s) && d < 8 && 1 <= n <= EdgeDistances(s)[d]
    requires OnBoard(Target(s, d, n)) && ColorOf(p.squares[Target(s, d, n)]) == p.them
    ensures RayListed(p, m, s, d, n, onlyCaptures, RayMoveSteps(p, m, s, d, n, onlyCaptures))
  {
    RayUnfold(p, m, s, d, n, onlyCaptures);
    RayDistinct(p, s, d, n);
    assert !Vacant(p, Target(s, d, n));
  }

  /** An empty n-th square is listed if allowed and the ray goes on (lines 124-129). */
  lemma RayPass(p: Position, m: Masks, s: int, d: nat, n: int, onlyCaptures: bool)
    requires PiecesOnSquares(p) && OnBoard(s) && d < 8 && 1 <= n <= EdgeDistances(s)[d]
    requires Vacant(p, Target(s, d, n))
    requires RayListed(p, m, s, d, n + 1, onlyCaptures, RayMoveSteps(p, m, s, d, n + 1, onlyCaptures))
    ensures RayListed(p, m, s, d, n, onlyCaptures, RayMoveSteps(p, m, s, d, n, onlyCaptures))
  {
    RayUnfold(p, m, s, d, n, onlyCaptures);
    RayDistinct(p, s, d, n);
    RayPassShift(p, m, s, d, n, onlyCaptures);
    RayPassComplete(p, m, s, d, n, onlyCaptures, RayMoveSteps(p, m, s, d, n + 1, onlyCaptures));
    RayPassSound(p, m, s, d, n, onlyCaptures, RayMoveSteps(p, m, s, d, n + 1, onlyCaptures));
  }

  /** Past an empty n-th square, what is allowed from step n + 1 is what is allowed from n. */
  lemma RayPassShift(p: Position, m: Masks, s: int, d: nat, n: int, onlyCaptures: bool)
    requires PiecesOnSquares(p) && OnBoard(s) && d < 8 && 1 <= n <= EdgeDistances(s)[d]
    requires Vacant(p, Target(s, d, n))
    ensures forall k :: n < k <= EdgeDistances(s)[d] ==>
      OnBoard(Target(s, d, k)) && RayEmits(p, m, s, d, n, k, onlyCaptures) == RayEmits(p, m, s, d, n + 1, k, onlyCaptures)
  {
    RayOnBoard(s, d);
    forall k | n < k <= EdgeDistances(s)[d]
      ensures RayEmits(p, m, s, d, n, k, onlyCaptures) == RayEmits(p, m, s, d, n + 1, k, onlyCaptures)
    {
      assert ClearFrom(p, s, d, n, k) == ClearFrom(p, s, d, n + 1, k);
    }
  }

  lemma RayPassComplete(p: Position, m: Masks, s: int, d: nat, n: int, onlyCaptures: bool, rest: seq<MoveData>)
    requires PiecesOnSquares(p) && OnBoard(s) && d < 8 && 1 <= n <= EdgeDistances(s)[d]
    requires forall k :: n < k <= EdgeDistances(s)[d] ==>
      OnBoard(Target(s, d, k)) && Target(s, d, k) != Target(s, d, n)
      && RayEmits(p, m, s, d, n, k, onlyCaptures) == RayEmits(p, m, s, d, n + 1, k, onlyCaptures)
    requires RayComplete(p, m, s, d, n + 1, onlyCaptures, rest)
    requires RaySound(p, m, s, d, n + 1, onlyCaptures, rest)
    ensures RayComplete(p, m, s, d, n, onlyCaptures, RayHere(p, m, s, d, n, onlyCaptures) + rest)
  {
    RayStep(s, d, n);
  }

  lemma RayPassSound(p: Position, m: Masks, s: int, d: nat, n: int, onlyCaptures: bool, rest: seq<MoveData>)
    requires PiecesOnSquares(p) && OnBoard(s) && d < 8 && 1 <= n <= EdgeDistances(s)[d]
    requires forall k :: n < k <= EdgeDistances(s)[d] ==>
      OnBoard(Target(s, d, k)) && RayEmits(p, m, s, d, n, k, onlyCaptures) == RayEmits(p, m, s, d, n + 1, k, onlyCaptures)
    requires RaySound(p, m, s, d, n + 1, onlyCaptures, rest)
    ensures RaySound(p, m, s, d, n, onlyCaptures, RayHere(p, m, s, d, n, onlyCaptures) + rest)
  {
    RayStep(s, d, n);
    var edge := EdgeDistances(s)[d];
    var all := RayHere(p, m, s, d, n, onlyCaptures) + rest;
    forall mv | mv in all
      ensures exists k ::
        n <= k <= edge && OnBoard(Target(s, d, k)) && mv == NewMove(p, s, Target(s, d, k))
        && RayEmits(p, m, s, d, n, k, onlyCaptures)
    {
      if mv in rest {
        var k :| n + 1 <= k <= edge && OnBoard(Target(s, d, k))
          && mv == NewMove(p, s, Target(s, d, k)) && RayEmits(p, m, s, d, n + 1, k, onlyCaptures);
        assert RayEmits(p, m, s, d, n, k, onlyCaptures);
      } else {
        assert mv == NewMove(p, s, Target(s, d, n)) && RayEmits(p, m, s, d, n, n, onlyCaptures);
      }
    }
  }

  /**
   * The inner loop of `AddRayMoves` (lines 115-131) lists exactly the moves `RayEmits`
   * allows: it stops at the first occupied square, takes an enemy piece there and never
   * a friendly one.
   */
  lemma {:induction false} RayMoveStepsExact(p: Position, m: Masks, s: int, d: nat, n: int, onlyCaptures: bool)
    requires PiecesOnSquares(p) && OnBoard(s) && d < 8 && n >= 1
    ensures RayListed(p, m, s, d, n, onlyCaptures, RayMoveSteps(p, m, s, d, n, onlyCaptures))
    decreases EdgeDistances(s)[d] + 1 - n
  {
    if n <= EdgeDistances(s)[d] {
      RayStep(s, d, n);
      var color := ColorOf(p.squares[Target(s, d, n)]);
      if color == p.us {
        RayFriendlyStop(p, m, s, d, n, onlyCaptures);
      } else if color == p.them {
        RayEnemyStop(p, m, s, d, n, onlyCaptures);
      } else {
        Uncoloured(p, Target(s, d, n));
        RayMoveStepsExact(p, m, s, d, n + 1, onlyCaptures);
        RayPass(p, m, s, d, n, onlyCaptures);
      }
    }
  }

  /** One turn of the inner loop, by the colour of the piece on the n-th square. */
  lemma RayUnfold(p: Position, m: Masks, s: int, d: nat, n: int, onlyCaptures: bool)
    requires |p.squares| == 64 && OnBoard(s) && d < 8 && 1 <= n <= EdgeDistances(s)[d]
    ensures OnBoard(Target(s, d, n))
    ensures var color := ColorOf(p.squares[Target(s, d, n)]);
      RayMoveSteps(p, m, s, d, n, onlyCaptures)
        == if color == p.us then [] else if color == p.them then RayHere(p, m, s, d, n, onlyCaptures)
           else RayHere(p, m, s, d, n, onlyCaptures) + RayMoveSteps(p, m, s, d, n + 1, onlyCaptures)
  {
    RayMoveStep(p, m, s, d, n, onlyCaptures);
    assert ClearFrom(p, s, d, n, n);
  }

  /**
   * `AddRayMoves(moves, s, lo, hi, onlyCaptures)` (lines 107-133): every move goes along
   * one of the directions to a square `RayEmits` allows, along the pin line when the
   * piece is pinned, and every such square is listed.
   */
  lemma {:induction false} RayMoveDirectionsExact(p: Position, m: Masks, s: int, d: nat, hi: nat, onlyCaptures: bool, isPinned: bool)
    requires PiecesOnSquares(p) && OnBoard(s) && d <= hi <= 8
    ensures forall e, k :: d <= e < hi && 1 <= k <= EdgeDistances(s)[e] ==> OnBoard(Target(s, e, k))
    ensures forall mv :: mv in RayMoveDirections(p, m, s, d, hi, onlyCaptures, isPinned) ==>
      exists e, k :: d <= e < hi && 1 <= k <= EdgeDistances(s)[e] && mv == NewMove(p, s, Target(s, e, k))
        && RayEmits(p, m, s, e, 1, k, onlyCaptures) && (!isPinned || IsMovingAlongRay(Directions[e], s, m.ourKingSquare))
    ensures forall e, k ::
      d <= e < hi && 1 <= k <= EdgeDistances(s)[e] && RayEmits(p, m, s, e, 1, k, onlyCaptures)
      && (!isPinned || IsMovingAlongRay(Directions[e], s, m.ourKingSquare))
      ==> NewMove(p, s, Target(s, e, k)) in RayMoveDirections(p, m, s, d, hi, onlyCaptures, isPinned)
    decreases hi - d
  {
    forall e | d <= e < hi { RayOnBoard(s, e); }
    if d < hi {
      var king := m.ourKingSquare;
      RayMoveStepsExact(p, m, s, d, 1, onlyCaptures);
      RayMoveDirectionsExact(p, m, s, d + 1, hi, onlyCaptures, isPinned);
      var first := if isPinned && !IsMovingAlongRay(Directions[d], s, king) then [] else RayMoveSteps(p, m, s, d, 1, onlyCaptures);
      var rest := RayMoveDirections(p, m, s, d + 1, hi, onlyCaptures, isPinned);
      assert RayMoveDirections(p, m, s, d, hi, onlyCaptures, isPinned) == first + rest;
      forall mv | mv in first + rest
        ensures exists e, k ::
          d <= e < hi && 1 <= k <= EdgeDistances(s)[e] && mv == NewMove(p, s, Target(s, e, k))
          && RayEmits(p, m, s, e, 1, k, onlyCaptures) && (!isPinned || IsMovingAlongRay(Directions[e], s, king))
      {
        if mv in first {
          var k :| 1 <= k <= EdgeDistances(s)[d] && OnBoard(Target(s, d, k))
            && mv == NewMove(p, s, Target(s, d, k)) && RayEmits(p, m, s, d, 1, k, onlyCaptures);
          assert d <= d < hi && (!isPinned || IsMovingAlongRay(Directions[d], s, king));
        } else {
          assert mv in rest;
        }
      }
    }
  }

  /** Every move of a list of moves goes to a square `RayEmits` allows. */
  ghost predicate SliderSound(p: Position, m: Masks, moves: seq<MoveData>, onlyCaptures: bool)
    requires |p.squares| == 64
  {
    forall mv :: mv in moves ==>
      && !mv.isCastling && OnBoard(mv.target)
      && ColorOf(p.squares[mv.target]) != p.us
      && (onlyCaptures ==> ColorOf(p.squares[mv.target]) == p.them)
      && (m.inCheck ==> IsRayCheckSquare(m, mv.target))
  }

  /** The slider loops of `GetMoves` (lines 78-94) list only moves `RayEmits` allows. */
  lemma {:induction false} SliderMovesSound(p: Position, m: Masks, pieces: seq<int>, i: nat, lo: nat, hi: nat, onlyCaptures: bool)
    requires PiecesOnSquares(p) && AllOnBoard(pieces) && i <= |pieces| && lo <= hi <= 8
    ensures SliderSound(p, m, SliderMoves(p, m, pieces, i, lo, hi, onlyCaptures), onlyCaptures)
    decreases |pieces| - i
  {
    if i < |pieces| {
      var s := pieces[i];
      RayMoveDirectionsExact(p, m, s, lo, hi, onlyCaptures, IsPinned(m, s));
      SliderMovesSound(p, m, pieces, i + 1, lo, hi, onlyCaptures);
    }
  }

  // ---------------------------------------------------------------------------------
  // Knight moves

  /** A knight may land on t: no friendly piece there, a capture if only captures are asked for, and it answers a check. */
  ghost predicate KnightEmits(p: Position, m: Masks, t: int, onlyCaptures: bool)
    requires |p.squares| == 64 && OnBoard(t)
  {
    var color := ColorOf(p.squares[t]);
    color != p.us && (!onlyCaptures || color == p.them) && (!m.inCheck || IsRayCheckSquare(m, t))
  }

  lemma {:induction false} KnightTargetMovesExact(p: Position, m: Masks, s: int, i: nat, onlyCaptures: bool)
    requires |p.squares| == 64 && OnBoard(s) && i <= |KnightMoveList(s)|
    ensures forall mv :: mv in KnightTargetMoves(p, m, s, i, onlyCaptures) ==>
      KnightJump(s, mv.target) && mv == NewMove(p, s, mv.target) && KnightEmits(p, m, mv.target, onlyCaptures)
    ensures forall t :: t in KnightMoveList(s)[i..] && OnBoard(t) && KnightEmits(p, m, t, onlyCaptures) ==>
      NewMove(p, s, t) in KnightTargetMoves(p, m, s, i, onlyCaptures)
    decreases |KnightMoveList(s)| - i
  {
    var l := KnightMoveList(s);
    if i < |l| {
      KnightListOnBoard(s);
      KnightListIsJumps(s, l[i]);
      KnightTargetMovesExact(p, m, s, i + 1, onlyCaptures);
      assert l[i..] == [l[i]] + l[i + 1..];
    }
  }

  /**
   * `AddKnightMoves` (lines 258-275): a pinned knight has no moves; any other knight
   * jumps to exactly the squares `KnightEmits` allows.
   */
  lemma KnightMovesExact(p: Position, m: Masks, s: int, onlyCaptures: bool)
    requires |p.squares| == 64 && OnBoard(s)
    ensures IsPinned(m, s) ==> KnightMoves(p, m, s, onlyCaptures) == []
    ensures forall mv :: mv in KnightMoves(p, m, s, onlyCaptures) ==>
      KnightJump(s, mv.target) && mv == NewMove(p, s, mv.target) && KnightEmits(p, m, mv.target, onlyCaptures)
    ensures forall t :: KnightJump(s, t) && !IsPinned(m, s) && KnightEmits(p, m, t, onlyCaptures) ==>
      NewMove(p, s, t) in KnightMoves(p, m, s, onlyCaptures)
  {
    KnightTargetMovesExact(p, m, s, 0, onlyCaptures);
    forall t | KnightJump(s, t)
      ensures t in KnightMoveList(s)[0..]
    {
      KnightListIsJumps(s, t);
      assert KnightMoveList(s)[0..] == KnightMoveList(s);
    }
  }

  /** The knight loop of `GetMoves` (lines 96-100) lists only moves `KnightEmits` allows. */
  lemma {:induction false} KnightsMovesSound(p: Position, m: Masks, knights: seq<int>, i: nat, onlyCaptures: bool)
    requires |p.squares| == 64 && AllOnBoard(knights) && i <= |knights|
    ensures SliderSound(p, m, KnightsMoves(p, m, knights, i, onlyCaptures), onlyCaptures)
    decreases |knights| - i
  {
    if i < |knights| {
      KnightMovesExact(p, m, knights[i], onlyCaptures);
      KnightsMovesSound(p, m, knights, i + 1, onlyCaptures);
    }
  }

  // ---------------------------------------------------------------------------------
  // Pawn moves

  /** A capture loop of `AddPawnMoves`. */
  predicate IsCapture(loop: PawnLoop)
  {
    loop == CaptureWest || loop == CaptureEast
  }

  /**
   * What the bitboard of a pawn loop holds (lines 152-154, 178-179, 202-206): the start
   * square behind each target holds our pawn, the target answers a check, a push goes to
   * a free square (a double push from the pawn's home rank over a free square), and a
   * capture goes to an enemy piece or the en passant square.
   */
  ghost predicate PawnTargetMeaning(p: Position, m: Masks, loop: PawnLoop, t: int)
  {
    var start := t - PawnOffset(p.us, loop);
    && OnBoard(t) && OnBoard(start)
    && Has(OurPawns(p), start) && Has(m.rayCheckBitmask, t)
    && (!IsCapture(loop) ==> Has(m.freeSquares, t))
    && (loop == DoublePush ==> Has(m.freeSquares, start + PawnDirection(p.us)) && RankOf(t) == (if p.us == WHITE then 3 else 4))
    && (IsCapture(loop) ==> Has(EnemyAndEnPassant(p, m), t))
  }

  lemma SinglePushMeaning(p: Position, m: Masks, t: int)
    requires IsColor(p.us) && Has(PawnTargets(p, m, SinglePush), t)
    ensures PawnTargetMeaning(p, m, SinglePush, t)
  {
    var pawns := OurPawns(p);
    HasAnd(SinglePushes(p, m), m.rayCheckBitmask, t);
    HasAnd(Forward(p.us, pawns), m.freeSquares, t);
    if p.us == WHITE { ShiftUpSquares(pawns, t); } else { ShiftDownSquares(pawns, t); }
  }

  lemma DoublePushMeaning(p: Position, m: Masks, t: int)
    requires IsColor(p.us) && Has(PawnTargets(p, m, DoublePush), t)
    ensures PawnTargetMeaning(p, m, DoublePush, t)
  {
    var rank := if p.us == WHITE then 3 else 4;
    var free := And(RankBitboard(rank), m.freeSquares);
    var single := SinglePushes(p, m);
    HasAnd(Forward(p.us, single), And(free, m.rayCheckBitmask), t);
    HasAnd(free, m.rayCheckBitmask, t);
    HasAnd(RankBitboard(rank), m.freeSquares, t);
    RankBitboardIsRank(rank, t);
    PawnOffsetValue(p.us, DoublePush);
    DoublePushMiddle(p, m, t);
  }

  /** The square a double push passes over was a single push's target. */
  lemma DoublePushMiddle(p: Position, m: Masks, t: int)
    requires IsColor(p.us) && Has(Forward(p.us, SinglePushes(p, m)), t)
    ensures var middle := t - PawnDirection(p.us);
      OnBoard(middle) && OnBoard(middle - PawnDirection(p.us))
      && Has(m.freeSquares, middle) && Has(OurPawns(p), middle - PawnDirection(p.us))
  {
    var pawns := OurPawns(p);
    var single := SinglePushes(p, m);
    var middle := t - PawnDirection(p.us);
    if p.us == WHITE { ShiftUpSquares(single, t); } else { ShiftDownSquares(single, t); }
    HasAnd(Forward(p.us, pawns), m.freeSquares, middle);
    if p.us == WHITE { ShiftUpSquares(pawns, middle); } else { ShiftDownSquares(pawns, middle); }
  }

  /** A capture loop's square, given what its shifted pawn bitboard holds at it. */
  lemma CaptureMeaning(p: Position, m: Masks, loop: PawnLoop, shifted: bv64, t: int)
    requires IsColor(p.us) && IsCapture(loop)
    requires PawnTargets(p, m, loop) == And(shifted, And(EnemyAndEnPassant(p, m), m.rayCheckBitmask))
    requires Has(PawnTargets(p, m, loop), t)
    requires Has(shifted, t) ==> OnBoard(t) && OnBoard(t - PawnOffset(p.us, loop)) && Has(OurPawns(p), t - PawnOffset(p.us, loop))
    ensures PawnTargetMeaning(p, m, loop, t)
  {
    HasAnd(shifted, And(EnemyAndEnPassant(p, m), m.rayCheckBitmask), t);
    HasAnd(EnemyAndEnPassant(p, m), m.rayCheckBitmask, t);
  }

  lemma CaptureWestMeaning(p: Position, m: Masks, t: int)
    requires IsColor(p.us) && Has(PawnTargets(p, m, CaptureWest), t)
    ensures PawnTargetMeaning(p, m, CaptureWest, t)
  {
    PawnOffsetValue(p.us, CaptureWest);
    var pawns := OurPawns(p);
    if p.us == WHITE {
      ShiftUpLeftSquares(pawns, t);
      CaptureMeaning(p, m, CaptureWest, ShiftUpLeft(pawns), t);
    } else {
      ShiftDownLeftSquares(pawns, t);
      CaptureMeaning(p, m, CaptureWest, ShiftDownLeft(pawns), t);
    }
  }

  lemma CaptureEastMeaning(p: Position, m: Masks, t: int)
    requires IsColor(p.us) && Has(PawnTargets(p, m, CaptureEast), t)
    ensures PawnTargetMeaning(p, m, CaptureEast, t)
  {
    PawnOffsetValue(p.us, CaptureEast);
    var pawns := OurPawns(p);
    if p.us == WHITE {
      ShiftUpRightSquares(pawns, t);
      CaptureMeaning(p, m, CaptureEast, ShiftUpRight(pawns), t);
    } else {
      ShiftDownRightSquares(pawns, t);
      CaptureMeaning(p, m, CaptureEast, ShiftDownRight(pawns), t);
    }
  }

  /** Every square of a pawn loop's bitboard has the meaning `PawnTargetMeaning` gives. */
  lemma PawnTargetsMeaning(p: Position, m: Masks, loop: PawnLoop, t: int)
    requires IsColor(p.us) && Has(PawnTargets(p, m, loop), t)
    ensures PawnTargetMeaning(p, m, loop, t)
  {
    match loop
    case SinglePush => SinglePushMeaning(p, m, t);
    case DoublePush => DoublePushMeaning(p, m, t);
    case CaptureWest => CaptureWestMeaning(p, m, t);
    case CaptureEast => CaptureEastMeaning(p, m, t);
  }

  /**
   * The moves of one pawn for one target (lines 158-175, 183-195, 210-230, 235-255): none
   * when the pawn is pinned and the move leaves the pin line; otherwise one move from the
   * start square, flagged as a double push or an en passant capture where it is one, or
   * the four promotions (queen, rook, bishop, knight) on the last rank.
   */
  lemma PawnTargetMovesShape(p: Position, m: Masks, loop: PawnLoop, t: int)
    requires |p.squares| == 64 && OnBoard(t) && OnBoard(t - PawnOffset(p.us, loop))
    ensures var start := t - PawnOffset(p.us, loop);
      var moves := PawnTargetMoves(p, m, loop, t);
      var blocked := Has(m.pinBitmask, start) && Has(OurPawns(p), start) && !IsMovingAlongRay(PawnRay(p.us, loop), start, m.ourKingSquare);
      var promotes := loop != DoublePush && t / 8 == PromotionRank(p.us);
      && (moves == [] <==> blocked)
      && (forall mv :: mv in moves ==>
           && mv.start == start && mv.target == t && !mv.isCastling
           && mv.movedPiece == p.squares[start] && mv.capturedPiece == p.squares[t]
           && (mv.promotion != NONE <==> promotes)
           && (mv.isDoublePawnMove <==> loop == DoublePush)
           && (mv.isEnPassant <==> IsCapture(loop) && !promotes && t == p.enPassant))
      && (!blocked && promotes ==>
           && |moves| == 4
           && NewMove(p, start, t).(promotion := QUEEN) in moves && NewMove(p, start, t).(promotion := ROOK) in moves
           && NewMove(p, start, t).(promotion := BISHOP) in moves && NewMove(p, start, t).(promotion := KNIGHT) in moves)
  {
    var start := t - PawnOffset(p.us, loop);
    TestBit(PinnedPawns(p, m), start);
    HasAnd(m.pinBitmask, OurPawns(p), start);
  }

  /**
   * One pawn loop over the squares of `targets` (lowest first) lists, for each square, the
   * moves `PawnTargetMoves` gives, and nothing else.
   */
  lemma {:induction false} PawnTargetLoopMembers(p: Position, m: Masks, loop: PawnLoop, targets: bv64)
    requires |p.squares| == 64 && Sourced(p.us, loop, targets)
    ensures forall mv :: mv in PawnTargetLoop(p, m, loop, targets) ==>
      Has(targets, mv.target) && OnBoard(mv.target - PawnOffset(p.us, loop)) && mv in PawnTargetMoves(p, m, loop, mv.target)
    ensures forall t :: Has(targets, t) ==>
      && OnBoard(t - PawnOffset(p.us, loop))
      && forall mv :: mv in PawnTargetMoves(p, m, loop, t) ==> mv in PawnTargetLoop(p, m, loop, targets)
    decreases PopCount(targets)
  {
    if targets == 0 {
      forall t ensures !Has(targets, t) { HasZero(t); }
    } else {
      PawnTargetStep(p, m, loop, targets);
      var low := TrailingZeroCount(targets);
      var rest := Xor(targets, Bit(low));
      PawnTargetLoopMembers(p, m, loop, rest);
      forall t
        ensures Has(targets, t) == (t == low || Has(rest, t))
      {
        HasToggle(targets, low, t);
      }
      forall mv | mv in PawnTargetMoves(p, m, loop, low)
        ensures mv.target == low
      {
        PawnTargetMovesShape(p, m, loop, low);
      }
    }
  }

  /** Every move of a list of pawn moves answers a check and is no castling. */
  ghost predicate PawnSound(p: Position, m: Masks, moves: seq<MoveData>, onlyCaptures: bool)
  {
    forall mv :: mv in moves ==>
      !mv.isCastling && Has(m.rayCheckBitmask, mv.target) && (onlyCaptures ==> Has(EnemyAndEnPassant(p, m), mv.target))
  }

  /** One pawn loop lists only moves to squares of its bitboard. */
  lemma PawnLoopMovesSound(p: Position, m: Masks, loop: PawnLoop, onlyCaptures: bool)
    requires |p.squares| == 64 && IsColor(p.us) && (onlyCaptures ==> IsCapture(loop))
    ensures PawnSound(p, m, PawnLoopMoves(p, m, loop), onlyCaptures)
  {
    PawnTargetsSourced(p, m, loop);
    var targets := PawnTargets(p, m, loop);
    PawnTargetLoopMembers(p, m, loop, targets);
    forall mv | mv in PawnLoopMoves(p, m, loop)
      ensures !mv.isCastling && Has(m.rayCheckBitmask, mv.target) && (onlyCaptures ==> Has(EnemyAndEnPassant(p, m), mv.target))
    {
      PawnTargetsMeaning(p, m, loop, mv.target);
      PawnTargetMovesShape(p, m, loop, mv.target);
    }
  }

  /** `AddPawnMoves` (lines 140-257) lists only moves that answer a check; asked for captures only, only captures. */
  lemma PawnMovesSound(p: Position, m: Masks, onlyCaptures: bool)
    requires |p.squares| == 64 && IsColor(p.us)
    ensures PawnSound(p, m, PawnMoves(p, m, onlyCaptures), onlyCaptures)
  {
    if !onlyCaptures {
      PawnLoopMovesSound(p, m, SinglePush, false);
      PawnLoopMovesSound(p, m, DoublePush, false);
    }
    PawnLoopMovesSound(p, m, CaptureWest, onlyCaptures);
    PawnLoopMovesSound(p, m, CaptureEast, onlyCaptures);
  }

  // ---------------------------------------------------------------------------------
  // The whole list

  /**
   * `GetMoves` (lines 64-105): castling is only listed out of check; in check every move
   * other than the king's goes to a square that answers it; asked for captures only,
   * every move after the king's is a castling or a capture.
   */
  lemma GetMovesFacts(p: Position, m: Masks, onlyCaptures: bool)
    requires Ready(p) && OnBoard(m.ourKingSquare) && PiecesOnSquares(p)
    ensures forall mv :: mv in GetMoves(p, m, onlyCaptures) && mv.isCastling ==> !m.inCheck && !m.inDoubleCheck
    ensures m.inCheck ==> forall mv :: mv in GetMoves(p, m, onlyCaptures) ==>
      mv.start == m.ourKingSquare || Has(m.rayCheckBitmask, mv.target)
    ensures forall mv :: mv in OtherMoves(p, m, true) ==>
      mv.isCastling || (OnBoard(mv.target) && ColorOf(p.squares[mv.target]) == p.them) || Has(EnemyAndEnPassant(p, m), mv.target)
  {
    KingMovesAreSafeSteps(p, m);
    CastlingMovesExact(p, m);
    PieceMovesSound(p, m, onlyCaptures);
    PieceMovesSound(p, m, true);
    PawnMovesSound(p, m, onlyCaptures);
    PawnMovesSound(p, m, true);
  }

  /** The rook, bishop, queen and knight loops (lines 78-100) list only moves `SliderSound` allows. */
  lemma PieceMovesSound(p: Position, m: Masks, onlyCaptures: bool)
    requires Ready(p) && PiecesOnSquares(p)
    ensures SliderSound(p, m, PieceMoves(p, m, onlyCaptures), onlyCaptures)
    ensures forall mv :: mv in PieceMoves(p, m, onlyCaptures) && m.inCheck ==> Has(m.rayCheckBitmask, mv.target)
  {
    SliderMovesSound(p, m, OwnList(p, ROOK), 0, 0, 4, onlyCaptures);
    SliderMovesSound(p, m, OwnList(p, BISHOP), 0, 4, 8, onlyCaptures);
    SliderMovesSound(p, m, OwnList(p, QUEEN), 0, 0, 8, onlyCaptures);
    KnightsMovesSound(p, m, OwnList(p, KNIGHT), 0, onlyCaptures);
    forall mv | mv in PieceMoves(p, m, onlyCaptures) && m.inCheck
      ensures Has(m.rayCheckBitmask, mv.target)
    {
      TestBit(m.rayCheckBitmask, mv.target);
    }
  }

  // ---------------------------------------------------------------------------------
  // Setup

  /**
   * `Finish` (lines 483-487): out of check every square answers the check, so the check
   * mask filters nothing; the attack map is the union of the four opponent maps.
   */
  lemma FinishMasks(p: Position, m: Masks)
    requires Ready(p) && Finish(p, m).Success?
    ensures var r := Finish(p, m).value;
      && (forall t :: OnBoard(t) && !m.inCheck ==> IsRayCheckSquare(r, t))
      && (forall t :: Has(r.opponentAttackMap, t) <==>
           Has(r.opponentKingAttackMap, t) || Has(m.opponentKnightAttackMap, t)
           || Has(m.opponentRayAttackMap, t) || Has(m.opponentPawnAttackMap, t))
      && r.inCheck == m.inCheck && r.inDoubleCheck == m.inDoubleCheck
  {
    var r := Finish(p, m).value;
    forall t | OnBoard(t) && !m.inCheck
      ensures IsRayCheckSquare(r, t)
    {
      TestBit(Not(0), t);
      HasNot(0, t);
      HasZero(t);
    }
    forall t
      ensures Has(r.opponentAttackMap, t) <==>
        Has(r.opponentKingAttackMap, t) || Has(m.opponentKnightAttackMap, t)
        || Has(m.opponentRayAttackMap, t) || Has(m.opponentPawnAttackMap, t)
    {
      var k := r.opponentKingAttackMap;
      HasOr(Or(Or(k, m.opponentKnightAttackMap), m.opponentRayAttackMap), m.opponentPawnAttackMap, t);
      HasOr(Or(k, m.opponentKnightAttackMap), m.opponentRayAttackMap, t);
      HasOr(k, m.opponentKnightAttackMap, t);
    }
  }

  /** `Setup()` (lines 57-61) overwrites every field: what the generator held before plays no part. */
  lemma SetupForgetsOldMasks(p: Position, m1: Masks, m2: Masks)
    requires Ready(p)
    ensures Setup(p, m1) == Setup(p, m2)
  {
    var kings := OwnList(p, KING);
    if |kings| > 0 {
      assert Sides(p, Reset(m1, kings[0])) == Sides(p, Reset(m2, kings[0]));
    }
  }

  /** Every stage of `GenerateBitmasks` keeps the king square `Reset` stored. */
  lemma {:induction false} ScanDirectionsKeepsKing(p: Position, m: Masks, d: nat, hi: nat)
    requires |p.squares| == 64 && OnBoard(m.ourKingSquare) && d <= hi <= 8
    ensures ScanDirections(p, m, d, hi).ourKingSquare == m.ourKingSquare
    decreases hi - d
  {
    if d < hi {
      var m' := Found(m, ScanRay(p, m.ourKingSquare, d, 1, false, 0));
      if !m'.inDoubleCheck {
        ScanDirectionsKeepsKing(p, m', d + 1, hi);
      }
    }
  }

  lemma {:induction false} KnightChecksKeepKing(m: Masks, knights: seq<int>, i: nat)
    requires i <= |knights|
    ensures KnightChecksAsWritten(m, knights, i).ourKingSquare == m.ourKingSquare
    ensures KnightChecksAsWritten(m, knights, i).opponentPawnAttackMap == m.opponentPawnAttackMap
    decreases |knights| - i
  {
    if i < |knights| {
      var knightSquare := knights[i];
      var m' := m.(opponentKnightAttackMap := Or(m.opponentKnightAttackMap, KnightBitboard(knightSquare)));
      var checks := And(Bit(m.ourKingSquare), m'.opponentKnightAttackMap) != 0;
      KnightChecksKeepKing(if checks then Detected(m', knightSquare) else m', knights, i + 1);
    }
  }

  lemma {:induction false} PawnChecksKeepKing(m: Masks, color: nat, pawns: seq<int>, i: nat)
    requires IsColor(color) && i <= |pawns|
    ensures PawnChecksAsWritten(m, color, pawns, i).ourKingSquare == m.ourKingSquare
    decreases |pawns| - i
  {
    if i < |pawns| {
      var pawnSquare := pawns[i];
      var m' := m.(opponentPawnAttackMap := Or(m.opponentPawnAttackMap, PawnAttackBitboard(color, pawnSquare)));
      var checks := And(Bit(m.ourKingSquare), m'.opponentPawnAttackMap) != 0;
      PawnChecksKeepKing(if checks then Detected(m', pawnSquare) else m', color, pawns, i + 1);
    }
  }

  /**
   * A successful `Setup()` found a king of each side and leaves the first king of the side
   * to move as `ourKingSquare`.
   */
  lemma SetupFindsKings(p: Position, m: Masks)
    requires Ready(p) && Setup(p, m).Success?
    ensures |OwnList(p, KING)| > 0 && |EnemyList(p, KING)| > 0
    ensures Setup(p, m).value.ourKingSquare == OwnList(p, KING)[0]
  {
    var king := OwnList(p, KING)[0];
    var m1 := RayAttacks(p, Sides(p, Reset(m, king)));
    ScanDirectionsKeepsKing(p, m1, ScanRange(p).0, ScanRange(p).1);
    var m2 := ScanKingRays(p, m1);
    KnightChecksKeepKing(m2, EnemyList(p, KNIGHT), 0);
    PawnChecksKeepKing(KnightChecksAsWritten(m2, EnemyList(p, KNIGHT), 0), p.them, EnemyList(p, PAWN), 0);
  }
}
