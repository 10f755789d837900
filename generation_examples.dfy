/**
 * A position in which the generator of Chess/MoveGenerator.cs, as written, lists an
 * en-passant capture that leaves the own king in check: the pawn that moves and the
 * pawn it takes both stand on the king's rank, between the king and an enemy rook.
 * The pawn loops filter a capture only by the pin mask and the check mask (lines
 * 202-255); the king scan stops at the first enemy piece on a ray, here the pawn on c5,
 * so nothing on the pin mask marks the capturing pawn.
 */
module GenerationExamples {
  import opened Bits
  import opened Pieces
  import opened Moves
  import opened MoveHelper
  import opened MoveHelperFacts
  import opened BitboardUtilities
  import opened Positions
  import opened Generation
  import opened GenerationFacts
  import Z = ZobristKey

  /** White king a5, white pawn b5, black pawn c5 just arrived from c7, black rook h5, black king h8. */
  function RankPinSquare(i: int): nat
  {
    if i == 32 then Make(KING, WHITE)
    else if i == 33 then Make(PAWN, WHITE)
    else if i == 34 then Make(PAWN, BLACK)
    else if i == 39 then Make(ROOK, BLACK)
    else if i == 63 then Make(KING, BLACK)
    else NONE
  }

  /** The piece list of each code in that position. */
  function RankPinList(c: int): seq<int>
  {
    if c == Make(KING, WHITE) then [32]
    else if c == Make(PAWN, WHITE) then [33]
    else if c == Make(PAWN, BLACK) then [34]
    else if c == Make(ROOK, BLACK) then [39]
    else if c == Make(KING, BLACK) then [63]
    else []
  }

  /** The position, white to move, with c6 as the en-passant square. */
  const RankPin: Position := Position(
    squares := seq(64, i => RankPinSquare(i)),
    castlingRights := 0,
    states := [],
    pieceLists := seq(32, c => RankPinList(c)),
    positionKey := 0,
    materialKey := 0,
    us := WHITE,
    them := BLACK,
    enPassant := 42,
    ply := 0,
    bitboards := Bitboards(0x2_0000_0000, 0x4_0000_0000, 0x1_0000_0000, 0x8000_0080_0000_0000))

  /**
   * What the lemmas below need of a position: a white king on a5, a white pawn on b5, a
   * black pawn on c5 and an empty c6 that is the en-passant square, a black rook on h5,
   * an empty a-file, and no enemy queen, bishop or knight.
   */
  predicate RankPinShape(p: Position)
  {
    && Ready(p) && WellFormed(p) && p.us == WHITE && p.enPassant == 42
    && OwnList(p, KING) == [32] && |EnemyList(p, KING)| > 0
    && EnemyList(p, QUEEN) == [] && |EnemyList(p, ROOK)| > 0 && EnemyList(p, BISHOP) == []
    && EnemyList(p, KNIGHT) == [] && EnemyList(p, PAWN) == [34]
    && FileClear(p) && p.squares[33] == Make(PAWN, WHITE) && p.squares[34] == Make(PAWN, BLACK)
    && p.squares[32] == Make(KING, WHITE) && p.squares[39] == Make(ROOK, BLACK) && p.squares[42] == NONE
    && (forall i :: 35 <= i < 39 ==> p.squares[i] == NONE)
    && Has(OurPawns(p), 33)
  }

  /** `RankPin` has that shape. */
  lemma RankPinHasShape()
    ensures RankPinShape(RankPin)
  {
    RankPinLists();
    RankPinSquares();
    RankPinPawn();
  }

  /** The white pawn bitboard of `RankPin` holds b5. */
  lemma RankPinPawn()
    ensures Has(OurPawns(RankPin), 33)
  {
    HasDef(0x2_0000_0000, 33);
    SqFacts(33);
  }

  /** The squares of `RankPin`. */
  lemma RankPinSquares()
    ensures |RankPin.squares| == 64 && FileClear(RankPin)
    ensures RankPin.squares[33] == Make(PAWN, WHITE) && RankPin.squares[34] == Make(PAWN, BLACK)
    ensures RankPin.squares[32] == Make(KING, WHITE) && RankPin.squares[39] == Make(ROOK, BLACK) && RankPin.squares[42] == NONE
    ensures forall i :: 35 <= i < 39 ==> RankPin.squares[i] == NONE
  {
  }

  /** The lists of `RankPin`. */
  lemma RankPinLists()
    ensures Ready(RankPin)
    ensures OwnList(RankPin, KING) == [32] && EnemyList(RankPin, KING) == [63]
    ensures EnemyList(RankPin, QUEEN) == [] && EnemyList(RankPin, ROOK) == [39] && EnemyList(RankPin, BISHOP) == []
    ensures EnemyList(RankPin, KNIGHT) == [] && EnemyList(RankPin, PAWN) == [34]
  {
    forall c, k | 0 <= c < 32 && 0 <= k < |RankPin.pieceLists[c]|
      ensures OnBoard(RankPin.pieceLists[c][k])
    {
      assert RankPin.pieceLists[c] == RankPinList(c);
    }
  }

  /** The squares of the a-file above and below a5 are empty. */
  predicate FileClear(p: Position)
    requires |p.squares| == 64
  {
    && p.squares[40] == NONE && p.squares[48] == NONE && p.squares[56] == NONE
    && p.squares[24] == NONE && p.squares[16] == NONE && p.squares[8] == NONE && p.squares[0] == NONE
  }

  /** Along the a-file from a5 the scan finds nothing. */
  lemma FileScanClear(p: Position)
    requires |p.squares| == 64 && FileClear(p)
    ensures ScanRay(p, 32, N, 1, false, 0) == Clear && ScanRay(p, 32, S, 1, false, 0) == Clear
  {
    NorthScanClear(p);
    SouthScanClear(p);
  }

  /** From a5 up to a8. */
  lemma NorthScanClear(p: Position)
    requires |p.squares| == 64 && FileClear(p)
    ensures ScanRay(p, 32, N, 1, false, 0) == Clear
  {
    assert EdgeDistances(32)[N] == 3;
    var n1 := Or(0, Bit(40));
    var n2 := Or(n1, Bit(48));
    var n3 := Or(n2, Bit(56));
    assert ScanRay(p, 32, N, 4, false, n3) == Clear;
    assert Target(32, N, 3) == 56;
    assert ScanRay(p, 32, N, 3, false, n2) == Clear;
    assert Target(32, N, 2) == 48;
    assert ScanRay(p, 32, N, 2, false, n1) == Clear;
    assert Target(32, N, 1) == 40;
  }

  /** From a5 down to a1. */
  lemma SouthScanClear(p: Position)
    requires |p.squares| == 64 && FileClear(p)
    ensures ScanRay(p, 32, S, 1, false, 0) == Clear
  {
    assert EdgeDistances(32)[S] == 4;
    var s1 := Or(0, Bit(24));
    var s2 := Or(s1, Bit(16));
    var s3 := Or(s2, Bit(8));
    var s4 := Or(s3, Bit(0));
    assert ScanRay(p, 32, S, 5, false, s4) == Clear;
    assert Target(32, S, 4) == 0;
    assert ScanRay(p, 32, S, 4, false, s3) == Clear;
    assert Target(32, S, 3) == 8;
    assert ScanRay(p, 32, S, 3, false, s2) == Clear;
    assert Target(32, S, 2) == 16;
    assert ScanRay(p, 32, S, 2, false, s1) == Clear;
    assert Target(32, S, 1) == 24;
  }

  /** Along the rank from a5 the scan meets the white pawn on b5, then the black pawn on c5, which does not slide. */
  lemma RankScanClear(p: Position)
    requires |p.squares| == 64 && p.us == WHITE
    requires p.squares[33] == Make(PAWN, WHITE) && p.squares[34] == Make(PAWN, BLACK)
    ensures ScanRay(p, 32, E, 1, false, 0) == Clear && ScanRay(p, 32, W, 1, false, 0) == Clear
  {
    assert EdgeDistances(32)[E] == 7 && EdgeDistances(32)[W] == 0;
    var r1 := Or(0, Bit(33));
    assert Target(32, E, 2) == 34 && TypeOf(p.squares[34]) == PAWN && ColorOf(p.squares[34]) == BLACK && !Slides(E, PAWN);
    assert ScanRay(p, 32, E, 2, true, r1) == Clear;
    assert Target(32, E, 1) == 33 && ColorOf(p.squares[33]) == WHITE;
  }

  /**
   * `Setup` on such a board, where the enemy has a rook, no queen, bishop or knight, and
   * one pawn on c5: no pin, no check.
   */
  lemma RankScanSetup(p: Position)
    requires Ready(p) && p.us == WHITE && FileClear(p)
    requires p.squares[33] == Make(PAWN, WHITE) && p.squares[34] == Make(PAWN, BLACK)
    requires OwnList(p, KING) == [32] && |EnemyList(p, KING)| > 0
    requires EnemyList(p, QUEEN) == [] && |EnemyList(p, ROOK)| > 0 && EnemyList(p, BISHOP) == []
    requires EnemyList(p, KNIGHT) == [] && EnemyList(p, PAWN) == [34]
    ensures Setup(p, Unset).Success?
    ensures var m := Setup(p, Unset).value;
      && m.ourKingSquare == 32 && m.pinBitmask == 0 && !m.pinsExist
      && !m.inCheck && !m.inDoubleCheck && m.rayCheckBitmask == Not(0)
  {
    var m1 := RayAttacks(p, Sides(p, Reset(Unset, 32)));
    assert ScanRange(p) == (0, 4);
    FileScanClear(p);
    RankScanClear(p);
    assert ScanKingRays(p, m1) == m1 by {
      assert ScanDirections(p, m1, 3, 4) == m1;
      assert ScanDirections(p, m1, 2, 4) == m1;
      assert ScanDirections(p, m1, 1, 4) == m1;
      assert ScanDirections(p, m1, 0, 4) == m1;
    }
    assert KnightChecksAsWritten(m1, [], 0) == m1;
    var pawnMap := Or(m1.opponentPawnAttackMap, PawnAttackBitboard(BLACK, 34));
    assert m1.opponentPawnAttackMap == 0;
    assert And(Bit(32), pawnMap) == 0 by {
      Hits(32, pawnMap);
      HasOr(0, PawnAttackBitboard(BLACK, 34), 32);
      HasZero(32);
      PawnBitboardIsAttacks(BLACK, 34, 32);
    }
    var m2 := m1.(opponentPawnAttackMap := pawnMap);
    assert PawnChecksAsWritten(m1, BLACK, [34], 0) == PawnChecksAsWritten(m2, BLACK, [34], 1);
    assert LeaperChecks(p, m1) == m2;
  }

  /** The en-passant square is a target of the white capture loop towards file h. */
  lemma EnPassantTarget(p: Position, m: Masks)
    requires p.us == WHITE && 0 <= p.enPassant < 64 && p.enPassant >= 8 && FileOf(p.enPassant) != 0
    requires Has(OurPawns(p), p.enPassant - 9) && Has(m.rayCheckBitmask, p.enPassant)
    ensures Has(PawnTargets(p, m, CaptureEast), p.enPassant)
  {
    var e := p.enPassant;
    ShiftUpRightSquares(OurPawns(p), e);
    HasAnd(ShiftUpRight(OurPawns(p)), And(EnemyAndEnPassant(p, m), m.rayCheckBitmask), e);
    HasAnd(EnemyAndEnPassant(p, m), m.rayCheckBitmask, e);
    HasOr(m.enemyPieces, Bit(e), e);
    HasSquare(e, e);
  }

  /** Off the pin mask and off the last rank, that target gives the one en-passant capture. */
  lemma EnPassantTargetMoves(p: Position, m: Masks)
    requires |p.squares| == 64 && p.us == WHITE && 0 <= p.enPassant < 56 && p.enPassant >= 9
    requires !Has(m.pinBitmask, p.enPassant - 9)
    ensures PawnTargetMoves(p, m, CaptureEast, p.enPassant) == [NewMove(p, p.enPassant - 9, p.enPassant).(isEnPassant := true)]
  {
    TestBit(PinnedPawns(p, m), p.enPassant - 9);
    HasAnd(m.pinBitmask, OurPawns(p), p.enPassant - 9);
  }

  /**
   * `GetMoves` lists a white en-passant capture towards file h whenever the capturing pawn
   * is off the pin mask and the capture square answers any check: nothing looks along
   * the rank the two pawns leave.
   */
  lemma EnPassantListedOffPinMask(p: Position, m: Masks)
    requires Ready(p) && OnBoard(m.ourKingSquare) && p.us == WHITE && !m.inDoubleCheck
    requires 0 <= p.enPassant < 56 && p.enPassant >= 8 && FileOf(p.enPassant) != 0
    requires Has(OurPawns(p), p.enPassant - 9) && Has(m.rayCheckBitmask, p.enPassant) && !Has(m.pinBitmask, p.enPassant - 9)
    ensures NewMove(p, p.enPassant - 9, p.enPassant).(isEnPassant := true) in GetMoves(p, m, false)
  {
    var e := p.enPassant;
    var mv := NewMove(p, e - 9, e).(isEnPassant := true);
    var targets := PawnTargets(p, m, CaptureEast);
    EnPassantTarget(p, m);
    EnPassantTargetMoves(p, m);
    PawnTargetsSourced(p, m, CaptureEast);
    PawnTargetLoopMembers(p, m, CaptureEast, targets);
    assert mv in PawnTargetMoves(p, m, CaptureEast, e);
    assert mv in PawnTargetLoop(p, m, CaptureEast, targets);
    assert PawnLoopMoves(p, m, CaptureEast) == PawnTargetLoop(p, m, CaptureEast, targets);
    CaptureEastListed(p, m, mv);
  }

  /** Out of double check, the moves of the capture loop towards file h are in the list. */
  lemma CaptureEastListed(p: Position, m: Masks, mv: MoveData)
    requires Ready(p) && OnBoard(m.ourKingSquare) && !m.inDoubleCheck
    requires mv in PawnLoopMoves(p, m, CaptureEast)
    ensures mv in GetMoves(p, m, false)
  {
    var pawns := PawnMoves(p, m, false);
    assert mv in pawns;
    var others := OtherMoves(p, m, false);
    assert others == (if !m.inCheck then CastlingMoves(p, m) else []) + PieceMoves(p, m, false) + pawns;
    assert mv in others;
  }

  /** With b5 to g5 empty and a black rook on h5, the scan from a white king on a5 finds a check along the rank. */
  lemma RankExposed(q: Position)
    requires |q.squares| == 64 && q.us == WHITE && q.squares[39] == Make(ROOK, BLACK)
    requires forall i :: 33 <= i < 39 ==> q.squares[i] == NONE
    ensures ScanRay(q, 32, E, 1, false, 0).Check?
  {
    assert EdgeDistances(32)[E] == 7;
    var r2 := Or(0, Bit(33));
    var r3 := Or(r2, Bit(34));
    var r4 := Or(r3, Bit(35));
    var r5 := Or(r4, Bit(36));
    var r6 := Or(r5, Bit(37));
    var r7 := Or(r6, Bit(38));
    assert Target(32, E, 7) == 39 && TypeOf(q.squares[39]) == ROOK && ColorOf(q.squares[39]) == BLACK && Slides(E, ROOK);
    assert ScanRay(q, 32, E, 7, false, r7).Check?;
    assert Target(32, E, 6) == 38 && q.squares[38] == NONE;
    assert ScanRay(q, 32, E, 6, false, r6).Check?;
    assert Target(32, E, 5) == 37 && q.squares[37] == NONE;
    assert ScanRay(q, 32, E, 5, false, r5).Check?;
    assert Target(32, E, 4) == 36 && q.squares[36] == NONE;
    assert ScanRay(q, 32, E, 4, false, r4).Check?;
    assert Target(32, E, 3) == 35 && q.squares[35] == NONE;
    assert ScanRay(q, 32, E, 3, false, r3).Check?;
    assert Target(32, E, 2) == 34 && q.squares[34] == NONE;
    assert ScanRay(q, 32, E, 2, false, r2).Check?;
    assert Target(32, E, 1) == 33 && q.squares[33] == NONE;
  }

  /**
   * As written, `GetMoves` lists b5xc6 en passant in a position of that shape, such as
   * `RankPin`, and after it the white king on a5 stands in check from the rook on h5: the
   * squares b5 to g5 are empty and the king scan from a5 along the rank finds the rook.
   */
  lemma EnPassantExposesKingAsWritten(p: Position, t: Z.Table)
    requires RankPinShape(p) && Z.IsTable(t)
    ensures Setup(p, Unset).Success? && Setup(p, Unset).value.ourKingSquare == 32
    ensures var mv := NewMove(p, 33, 42).(isEnPassant := true);
      && mv in GetMoves(p, Setup(p, Unset).value, false)
      && MoveFits(WHITE, mv) && SubmitMoveSpec(p, mv, t).Success?
      && var q := SubmitMoveSpec(p, mv, t).value;
      && q.squares[32] == Make(KING, WHITE) && q.squares[39] == Make(ROOK, BLACK)
      && (forall i :: 33 <= i < 39 ==> q.squares[i] == NONE)
      && ScanRay(q.(us := WHITE), 32, E, 1, false, 0).Check?
  {
    RankPinCaptureListed(p);
    RankPinCaptureMade(p);
    var mv := NewMove(p, 33, 42).(isEnPassant := true);
    var q := SubmitMoveSpec(p, mv, t).value;
    assert q.squares == SubmitSquares(p.squares, mv, WHITE);
    RankExposed(q.(us := WHITE));
  }

  /** The generator's list for such a position holds b5xc6 en passant. */
  lemma RankPinCaptureListed(p: Position)
    requires RankPinShape(p)
    ensures Setup(p, Unset).Success? && Setup(p, Unset).value.ourKingSquare == 32
    ensures NewMove(p, 33, 42).(isEnPassant := true) in GetMoves(p, Setup(p, Unset).value, false)
  {
    RankScanSetup(p);
    var m := Setup(p, Unset).value;
    assert Has(m.rayCheckBitmask, 42) && !Has(m.pinBitmask, 33) by {
      HasNot(0, 42);
      HasZero(42);
      HasZero(33);
    }
    assert FileOf(42) != 0 && p.enPassant - 9 == 33;
    EnPassantListedOffPinMask(p, m);
    assert NewMove(p, p.enPassant - 9, p.enPassant) == NewMove(p, 33, 42);
  }

  /** Making that capture empties b5 and c5 and leaves a5 and h5 as they were. */
  lemma RankPinCaptureMade(p: Position)
    requires RankPinShape(p)
    ensures var mv := NewMove(p, 33, 42).(isEnPassant := true);
      && MoveFits(WHITE, mv) && !IllegalCastling(mv)
      && var squares := SubmitSquares(p.squares, mv, WHITE);
      && squares[32] == Make(KING, WHITE) && squares[39] == Make(ROOK, BLACK)
      && (forall i :: 33 <= i < 39 ==> squares[i] == NONE)
  {
    var mv := NewMove(p, 33, 42).(isEnPassant := true);
    assert mv.movedPiece == Make(PAWN, WHITE) && mv.capturedPiece == NONE && mv.promotion == NONE;
    assert CaptureSquare(WHITE, 42) == 34;
    assert MoveFits(WHITE, mv) && !IllegalCastling(mv);
    var squares := SubmitSquares(p.squares, mv, WHITE);
    assert squares == p.squares[33 := NONE][42 := Make(PAWN, WHITE)][34 := NONE];
  }
}
