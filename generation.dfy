/**
 * What the move generator of Chess/MoveGenerator.cs computes, as functions of the board
 * (a `Position`) and of the generator's own fields (a `Masks` value). The class in
 * move_generator.dfy runs the source's loops and is proved to end in exactly the state
 * and the move list these functions give; generation_facts.dfy proves what the masks and
 * the move list mean on the board.
 *
 * Every loop of the source is a recursive function here that takes the loop's variables
 * as parameters, so that the loop and the function take the same steps in the same order.
 * A loop that peels squares off a bitboard with `TrailingZeroCount` and `^= 1ul << t`
 * is a function that does the same, and ends because each step removes one square.
 */
module Generation {
  import opened Wrappers
  import opened Bits
  import opened Pieces
  import opened Moves
  import opened MoveHelper
  import opened MoveHelperFacts
  import opened BitboardUtilities
  import opened Positions

  /** The message of the exception `List<int>` throws for an index past its end. */
  const INDEX_OUT_OF_RANGE: string := "Index was out of range. Must be non-negative and less than the size of the collection."

  /**
   * What the generator needs of the board it reads: the array and the lists have their
   * sizes, the two colours are set, and every piece list holds squares of the board.
   */
  predicate Ready(p: Position)
  {
    && |p.squares| == 64
    && |p.pieceLists| == 32
    && ((p.us == WHITE && p.them == BLACK) || (p.us == BLACK && p.them == WHITE))
    && forall c, k {:trigger p.pieceLists[c][k]} :: 0 <= c < 32 && 0 <= k < |p.pieceLists[c]| ==> OnBoard(p.pieceLists[c][k])
  }

  /** `board.pieceList[type | board.Us]`. */
  function OwnList(p: Position, t: nat): (l: seq<int>)
    requires Ready(p) && t <= QUEEN
    ensures AllOnBoard(l)
  {
    p.pieceLists[Make(t, p.us)]
  }

  /** `board.pieceList[type | board.Them]`. */
  function EnemyList(p: Position, t: nat): (l: seq<int>)
    requires Ready(p) && t <= QUEEN
    ensures AllOnBoard(l)
  {
    p.pieceLists[Make(t, p.them)]
  }

  /** The fields of a `MoveGenerator` other than its board. */
  datatype Masks = Masks(
    pinBitmask: bv64,
    rayCheckBitmask: bv64,
    opponentKnightAttackMap: bv64,
    opponentPawnAttackMap: bv64,
    opponentRayAttackMap: bv64,
    opponentKingAttackMap: bv64,
    opponentAttackMap: bv64,
    freeSquares: bv64,
    enemyPieces: bv64,
    friendlyPieces: bv64,
    ourKingSquare: int,
    inCheck: bool,
    inDoubleCheck: bool,
    pinsExist: bool)

  /** The fields of a newly constructed generator: C#'s default values. */
  const Unset: Masks := Masks(0, 0, 0, 0, 0, 0, 0, 0, 0, 0, 0, false, false, false)

  // ---------------------------------------------------------------------------------
  // The three tests on single squares

  /** `IsPinned(square)` (lines 490-493). */
  predicate IsPinned(m: Masks, square: int)
  {
    m.pinsExist && And(m.pinBitmask, Bit(square)) != 0
  }

  /** `IsRayCheckSquare(square)` (lines 495-498). */
  predicate IsRayCheckSquare(m: Masks, square: int)
  {
    And(m.rayCheckBitmask, Bit(square)) != 0
  }

  /**
   * `IsMovingAlongRay(rayDir, startSquare, targetSquare)` (lines 134-138): the classifier's
   * direction from start to target is the ray's direction or its opposite.
   */
  predicate IsMovingAlongRay(rayDir: int, startSquare: int, targetSquare: int)
  {
    var moveDir := DirectionLookup(targetSquare - startSquare + 63);
    rayDir == moveDir || -rayDir == moveDir
  }

  /** Whether the opponent attack map holds a square: `(opponentAttackMap & 1ul << s) != 0`. */
  predicate Attacked(m: Masks, square: int)
  {
    And(m.opponentAttackMap, Bit(square)) != 0
  }

  /** The square n steps from s in direction d. */
  function Target(s: int, d: nat, n: int): int
    requires d < 8
  {
    s + n * Directions[d]
  }

  // ---------------------------------------------------------------------------------
  // Reset and GenerateBitmasks (lines 40-61, 341-488)

  /** `Reset()` once the own king's square is known (lines 40-55). */
  function Reset(m: Masks, king: int): Masks
  {
    m.(opponentKnightAttackMap := 0, opponentPawnAttackMap := 0, opponentRayAttackMap := 0,
       opponentKingAttackMap := 0, opponentAttackMap := 0, pinBitmask := 0, rayCheckBitmask := 0,
       inCheck := false, inDoubleCheck := false, pinsExist := false, ourKingSquare := king)
  }

  /** The pawns and pieces of the side not to move (line 385). */
  function EnemyPieces(p: Position): bv64
  {
    if p.us == WHITE then Or(p.bitboards.blackPawns, p.bitboards.blackPieces)
    else Or(p.bitboards.whitePawns, p.bitboards.whitePieces)
  }

  /** The pawns and pieces of the side to move (line 386). */
  function FriendlyPieces(p: Position): bv64
  {
    if p.us == WHITE then Or(p.bitboards.whitePawns, p.bitboards.whitePieces)
    else Or(p.bitboards.blackPawns, p.bitboards.blackPieces)
  }

  /** Lines 385-387. */
  function Sides(p: Position, m: Masks): Masks
  {
    m.(enemyPieces := EnemyPieces(p), friendlyPieces := FriendlyPieces(p),
       freeSquares := Not(Or(EnemyPieces(p), FriendlyPieces(p))))
  }

  /**
   * The inner loop of `GenRayAttackMapForPiece` (lines 368-379) from step n on, with the
   * map so far in acc: every square is added, and an occupied square other than our
   * king ends the ray.
   */
  function RayAttackSteps(p: Position, king: int, s: int, d: nat, n: int, acc: bv64): bv64
    requires |p.squares| == 64 && OnBoard(s) && d < 8 && n >= 1
    decreases EdgeDistances(s)[d] + 1 - n
  {
    if n > EdgeDistances(s)[d] then acc
    else
      RayStep(s, d, n);
      var target := Target(s, d, n);
      var acc' := Or(acc, Bit(target));
      if target != king && p.squares[target] != NONE then acc'
      else RayAttackSteps(p, king, s, d, n + 1, acc')
  }

  /** `GenRayAttackMapForPiece(s, d, hi)` (lines 362-381). */
  function RayAttackDirections(p: Position, king: int, s: int, d: nat, hi: nat, acc: bv64): bv64
    requires |p.squares| == 64 && OnBoard(s) && d <= hi <= 8
    decreases hi - d
  {
    if d == hi then acc
    else RayAttackDirections(p, king, s, d + 1, hi, RayAttackSteps(p, king, s, d, 1, acc))
  }

  /** One loop of `GenerateRayAttackMap`, over the pieces of a list from index i on. */
  function RayAttackPieces(p: Position, king: int, pieces: seq<int>, i: nat, lo: nat, hi: nat, acc: bv64): bv64
    requires |p.squares| == 64 && AllOnBoard(pieces) && i <= |pieces| && lo <= hi <= 8
    decreases |pieces| - i
  {
    if i == |pieces| then acc
    else RayAttackPieces(p, king, pieces, i + 1, lo, hi, RayAttackDirections(p, king, pieces[i], lo, hi, acc))
  }

  /** `GenerateRayAttackMap()` (lines 341-360): enemy rooks, then queens, then bishops. */
  function RayAttackMap(p: Position, king: int, acc: bv64): bv64
    requires Ready(p)
  {
    var afterRooks := RayAttackPieces(p, king, EnemyList(p, ROOK), 0, 0, 4, acc);
    var afterQueens := RayAttackPieces(p, king, EnemyList(p, QUEEN), 0, 0, 8, afterRooks);
    RayAttackPieces(p, king, EnemyList(p, BISHOP), 0, 4, 8, afterQueens)
  }

  /** Line 389. */
  function RayAttacks(p: Position, m: Masks): Masks
    requires Ready(p)
  {
    m.(opponentRayAttackMap := RayAttackMap(p, m.ourKingSquare, m.opponentRayAttackMap))
  }

  /** An enemy piece of this type on the ray in direction d can give check or pin along it (line 428). */
  predicate Slides(d: nat, t: nat)
  {
    var isDiagonal := d > 3;
    (isDiagonal && (t == QUEEN || t == BISHOP)) || (!isDiagonal && (t == QUEEN || t == ROOK))
  }

  /** The directions the king scan looks along (lines 391-396). */
  function ScanRange(p: Position): (r: (nat, nat))
    requires Ready(p)
    ensures r.0 <= r.1 <= 8
  {
    if |EnemyList(p, QUEEN)| == 0 then
      (if |EnemyList(p, ROOK)| > 0 then 0 else 4, if |EnemyList(p, BISHOP)| > 0 then 8 else 4)
    else (0, 8)
  }

  /** What one ray of the king scan finds: nothing, a pin or a check, with the squares from the king to the enemy piece. */
  datatype RayFinding = Clear | Pin(ray: bv64) | Check(ray: bv64)

  /**
   * The inner loop of the king scan (lines 406-448) from step n on, where `friendly`
   * says whether a friendly piece was met and `ray` holds the squares passed so far: an
   * enemy piece that slides along the ray pins the friendly piece met before it, or
   * gives check if there was none; a second friendly piece or any other enemy piece ends
   * the ray with no finding.
   */
  function ScanRay(p: Position, king: int, d: nat, n: int, friendly: bool, ray: bv64): RayFinding
    requires |p.squares| == 64 && OnBoard(king) && d < 8 && n >= 1
    decreases EdgeDistances(king)[d] + 1 - n
  {
    if n > EdgeDistances(king)[d] then Clear
    else
      RayStep(king, d, n);
      var target := Target(king, d, n);
      var ray' := Or(ray, Bit(target));
      var piece := p.squares[target];
      if piece == NONE then ScanRay(p, king, d, n + 1, friendly, ray')
      else if ColorOf(piece) == p.us then
        if !friendly then ScanRay(p, king, d, n + 1, true, ray') else Clear
      else if !Slides(d, TypeOf(piece)) then Clear
      else if friendly then Pin(ray')
      else Check(ray')
  }

  /** What a finding does to the masks (lines 434-435, 440-442). */
  function Found(m: Masks, f: RayFinding): (r: Masks)
    ensures r.ourKingSquare == m.ourKingSquare
  {
    match f
    case Clear => m
    case Pin(ray) => m.(pinBitmask := Or(m.pinBitmask, ray), pinsExist := true)
    case Check(ray) => m.(rayCheckBitmask := Or(m.rayCheckBitmask, ray), inDoubleCheck := m.inCheck, inCheck := true)
  }

  /** The outer loop of the king scan (lines 398-452), from direction d on; double check stops it. */
  function ScanDirections(p: Position, m: Masks, d: nat, hi: nat): Masks
    requires |p.squares| == 64 && OnBoard(m.ourKingSquare) && d <= hi <= 8
    decreases hi - d
  {
    if d == hi then m
    else
      var m' := Found(m, ScanRay(p, m.ourKingSquare, d, 1, false, 0));
      if m'.inDoubleCheck then m' else ScanDirections(p, m', d + 1, hi)
  }

  /** One step of the king scan, as the class takes it. */
  lemma ScanDirectionsStep(p: Position, m: Masks, d: nat, hi: nat, m': Masks)
    requires |p.squares| == 64 && OnBoard(m.ourKingSquare) && d < hi <= 8
    requires m' == Found(m, ScanRay(p, m.ourKingSquare, d, 1, false, 0))
    ensures m'.ourKingSquare == m.ourKingSquare
    ensures ScanDirections(p, m, d, hi) == if m'.inDoubleCheck then m' else ScanDirections(p, m', d + 1, hi)
  {
  }

  /** Lines 391-452. */
  function ScanKingRays(p: Position, m: Masks): Masks
    requires Ready(p) && OnBoard(m.ourKingSquare)
  {
    ScanDirections(p, m, ScanRange(p).0, ScanRange(p).1)
  }

  /** What a detected checker on `square` does to the masks (lines 463-465, 477-479). */
  function Detected(m: Masks, square: int): Masks
  {
    m.(rayCheckBitmask := Or(m.rayCheckBitmask, Bit(square)), inDoubleCheck := m.inCheck, inCheck := true)
  }

  /**
   * The knight loop (lines 455-467) from index i on, corrected: each knight is checked
   * against its own attack set. The source reads the accumulated map instead, which is
   * `KnightChecksAsWritten`, the loop the generator runs (see README, Findings).
   */
  function KnightChecks(m: Masks, knights: seq<int>, i: nat): Masks
    requires i <= |knights|
    decreases |knights| - i
  {
    if i == |knights| then m
    else
      var knightSquare := knights[i];
      var m' := m.(opponentKnightAttackMap := Or(m.opponentKnightAttackMap, KnightBitboard(knightSquare)));
      var checks := And(Bit(m.ourKingSquare), KnightBitboard(knightSquare)) != 0;
      KnightChecks(if checks then Detected(m', knightSquare) else m', knights, i + 1)
  }

  /** The knight loop exactly as written: the test reads the map accumulated so far. */
  function KnightChecksAsWritten(m: Masks, knights: seq<int>, i: nat): Masks
    requires i <= |knights|
    decreases |knights| - i
  {
    if i == |knights| then m
    else
      var knightSquare := knights[i];
      var m' := m.(opponentKnightAttackMap := Or(m.opponentKnightAttackMap, KnightBitboard(knightSquare)));
      var checks := And(Bit(m.ourKingSquare), m'.opponentKnightAttackMap) != 0;
      KnightChecksAsWritten(if checks then Detected(m', knightSquare) else m', knights, i + 1)
  }

  /** The pawn loop (lines 469-481), corrected as for knights: each pawn checked against its own attack set. */
  function PawnChecks(m: Masks, color: nat, pawns: seq<int>, i: nat): Masks
    requires IsColor(color) && i <= |pawns|
    decreases |pawns| - i
  {
    if i == |pawns| then m
    else
      var pawnSquare := pawns[i];
      var m' := m.(opponentPawnAttackMap := Or(m.opponentPawnAttackMap, PawnAttackBitboard(color, pawnSquare)));
      var checks := And(Bit(m.ourKingSquare), PawnAttackBitboard(color, pawnSquare)) != 0;
      PawnChecks(if checks then Detected(m', pawnSquare) else m', color, pawns, i + 1)
  }

  /** The pawn loop exactly as written. */
  function PawnChecksAsWritten(m: Masks, color: nat, pawns: seq<int>, i: nat): Masks
    requires IsColor(color) && i <= |pawns|
    decreases |pawns| - i
  {
    if i == |pawns| then m
    else
      var pawnSquare := pawns[i];
      var m' := m.(opponentPawnAttackMap := Or(m.opponentPawnAttackMap, PawnAttackBitboard(color, pawnSquare)));
      var checks := And(Bit(m.ourKingSquare), m'.opponentPawnAttackMap) != 0;
      PawnChecksAsWritten(if checks then Detected(m', pawnSquare) else m', color, pawns, i + 1)
  }

  /** Lines 454-481, as written: each knight and pawn test reads the map accumulated so far. */
  function LeaperChecks(p: Position, m: Masks): Masks
    requires Ready(p)
  {
    PawnChecksAsWritten(KnightChecksAsWritten(m, EnemyList(p, KNIGHT), 0), p.them, EnemyList(p, PAWN), 0)
  }

  /** The two loops with each piece tested against its own attacks (see README, Findings). */
  function LeaperChecksCorrected(p: Position, m: Masks): Masks
    requires Ready(p)
  {
    PawnChecks(KnightChecks(m, EnemyList(p, KNIGHT), 0), p.them, EnemyList(p, PAWN), 0)
  }

  /**
   * Lines 483-487: with no check every square answers a check; then the enemy king's
   * attacks and the union of the four maps. A missing enemy king throws.
   */
  function Finish(p: Position, m: Masks): Result<Masks>
    requires Ready(p)
  {
    var m' := if !m.inCheck then m.(rayCheckBitmask := Not(0)) else m;
    var kings := EnemyList(p, KING);
    if |kings| == 0 then Failure(INDEX_OUT_OF_RANGE)
    else
      var kingAttacks := KingAttackBitboard(kings[0]);
      Success(m'.(opponentKingAttackMap := kingAttacks,
        opponentAttackMap := Or(Or(Or(kingAttacks, m'.opponentKnightAttackMap), m'.opponentRayAttackMap), m'.opponentPawnAttackMap)))
  }

  /** `GenerateBitmasks()` (lines 383-488). */
  function GenerateBitmasks(p: Position, m: Masks): Result<Masks>
    requires Ready(p) && OnBoard(m.ourKingSquare)
  {
    var m1 := RayAttacks(p, Sides(p, m));
    Finish(p, LeaperChecks(p, ScanKingRays(p, m1)))
  }

  /** `Setup()` (lines 57-61): `Reset()` throws when we have no king. */
  function Setup(p: Position, m: Masks): Result<Masks>
    requires Ready(p)
  {
    var kings := OwnList(p, KING);
    if |kings| == 0 then Failure(INDEX_OUT_OF_RANGE)
    else GenerateBitmasks(p, Reset(m, kings[0]))
  }

  // ---------------------------------------------------------------------------------
  // The moves (lines 64-339)

  /** `new Move(start, target, board)`. */
  function NewMove(p: Position, start: int, target: int): MoveData
    requires |p.squares| == 64 && OnBoard(start) && OnBoard(target)
  {
    MoveData(start, target, p.squares[start], p.squares[target], NONE, false, false, false)
  }

  /** The four promotions of a pawn move, queen first (lines 167-170). */
  function Promotions(move: MoveData): seq<MoveData>
  {
    [move.(promotion := QUEEN), move.(promotion := ROOK), move.(promotion := BISHOP), move.(promotion := KNIGHT)]
  }

  /** Appending to a move list one piece at a time builds the same list. */
  lemma AppendAssociates(a: seq<MoveData>, b: seq<MoveData>, c: seq<MoveData>)
    ensures (a + b) + c == a + (b + c)
  {
  }

  /** `KingAttackBitboards[ourKingSquare] & ~friendlyPieces & ~opponentAttackMap` (line 280). */
  function KingTargets(m: Masks): bv64
  {
    And(And(KingAttackBitboard(m.ourKingSquare), Not(m.friendlyPieces)), Not(m.opponentAttackMap))
  }

  /** The loop of `AddKingMoves` (lines 281-286) over the squares left in `targets`, lowest first. */
  function KingTargetMoves(p: Position, king: int, targets: bv64): seq<MoveData>
    requires |p.squares| == 64 && OnBoard(king)
    decreases PopCount(targets)
  {
    if targets == 0 then []
    else
      NonEmpty(targets);
      var target := TrailingZeroCount(targets);
      PopCountToggle(targets, target);
      [NewMove(p, king, target)] + KingTargetMoves(p, king, Xor(targets, Bit(target)))
  }

  /** One turn of the loop of `AddKingMoves`: the lowest square first. */
  lemma KingTargetStep(p: Position, king: int, targets: bv64)
    requires |p.squares| == 64 && OnBoard(king) && targets != 0
    ensures TrailingZeroCount(targets) < 64
    ensures KingTargetMoves(p, king, targets)
      == [NewMove(p, king, TrailingZeroCount(targets))] + KingTargetMoves(p, king, Xor(targets, Bit(TrailingZeroCount(targets))))
  {
    NonEmpty(targets);
  }

  /** `AddKingMoves` (lines 277-287); `onlyCaptures` plays no part. */
  function KingMoves(p: Position, m: Masks): seq<MoveData>
    requires |p.squares| == 64 && OnBoard(m.ourKingSquare)
  {
    KingTargetMoves(p, m.ourKingSquare, KingTargets(m))
  }

  /** A castling move from the king's home square (lines 311, 318, 328, 335). */
  function CastlingMove(p: Position, start: int, target: int): MoveData
    requires |p.squares| == 64 && OnBoard(start) && OnBoard(target)
  {
    NewMove(p, start, target).(isCastling := true)
  }

  /**
   * The king-side castling of the side whose back rank starts at square `base` (0 for
   * white, 56 for black): f and g must be empty and unattacked (lines 295-312, 322-329).
   */
  function KingSideCastling(p: Position, m: Masks, base: int, right: nat): seq<MoveData>
    requires |p.squares| == 64 && (base == 0 || base == 56) && right > 0
  {
    var b := p.squares;
    if HasRight(p.castlingRights, right)
      && b[base + 5] == NONE && b[base + 6] == NONE && !Attacked(m, base + 5) && !Attacked(m, base + 6)
    then [CastlingMove(p, base + 4, base + 6)] else []
  }

  /** The queen-side castling: d, c and b must be empty, d and c unattacked (lines 313-319, 330-337). */
  function QueenSideCastling(p: Position, m: Masks, base: int, right: nat): seq<MoveData>
    requires |p.squares| == 64 && (base == 0 || base == 56) && right > 0
  {
    var b := p.squares;
    if HasRight(p.castlingRights, right)
      && b[base + 3] == NONE && b[base + 2] == NONE && b[base + 1] == NONE && !Attacked(m, base + 3) && !Attacked(m, base + 2)
    then [CastlingMove(p, base + 4, base + 2)] else []
  }

  /** The two castlings of one side. */
  function CastlingsOn(p: Position, m: Masks, base: int, kingSide: nat, queenSide: nat): seq<MoveData>
    requires |p.squares| == 64 && (base == 0 || base == 56) && kingSide > 0 && queenSide > 0
  {
    KingSideCastling(p, m, base, kingSide) + QueenSideCastling(p, m, base, queenSide)
  }

  /** `AddCastelingMoves` (lines 289-339). */
  function CastlingMoves(p: Position, m: Masks): seq<MoveData>
    requires |p.squares| == 64
  {
    if p.us == WHITE then CastlingsOn(p, m, 0, WHITE_KINGSIDE_CASTLE, WHITE_QUEENSIDE_CASTLE)
    else CastlingsOn(p, m, 56, BLACK_KINGSIDE_CASTLE, BLACK_QUEENSIDE_CASTLE)
  }

  /**
   * The inner loop of `AddRayMoves` (lines 115-131) from step n on: a friendly piece ends
   * the ray before its square, an enemy piece after it; a square is emitted unless only
   * captures are asked for and it is empty, or we are in check and it does not answer it.
   */
  function RayMoveSteps(p: Position, m: Masks, s: int, d: nat, n: int, onlyCaptures: bool): seq<MoveData>
    requires |p.squares| == 64 && OnBoard(s) && d < 8 && n >= 1
    decreases EdgeDistances(s)[d] + 1 - n
  {
    if n > EdgeDistances(s)[d] then []
    else
      RayStep(s, d, n);
      var target := Target(s, d, n);
      var color := ColorOf(p.squares[target]);
      if color == p.us then []
      else
        var isCapture := color == p.them;
        var here := if (!onlyCaptures || isCapture) && (!m.inCheck || IsRayCheckSquare(m, target))
          then [NewMove(p, s, target)] else [];
        if isCapture then here else here + RayMoveSteps(p, m, s, d, n + 1, onlyCaptures)
  }

  /** One turn of the inner loop of `AddRayMoves`, at a square on the board. */
  lemma RayMoveStep(p: Position, m: Masks, s: int, d: nat, n: int, onlyCaptures: bool)
    requires |p.squares| == 64 && OnBoard(s) && d < 8 && 1 <= n <= EdgeDistances(s)[d]
    ensures OnBoard(Target(s, d, n))
    ensures var target := Target(s, d, n);
      var color := ColorOf(p.squares[target]);
      var here := if (!onlyCaptures || color == p.them) && (!m.inCheck || IsRayCheckSquare(m, target))
        then [NewMove(p, s, target)] else [];
      RayMoveSteps(p, m, s, d, n, onlyCaptures)
        == if color == p.us then [] else if color == p.them then here else here + RayMoveSteps(p, m, s, d, n + 1, onlyCaptures)
  {
    RayStep(s, d, n);
  }

  /** The outer loop of `AddRayMoves` (lines 110-132) from direction d on; a pinned piece skips the directions off its pin line. */
  function RayMoveDirections(p: Position, m: Masks, s: int, d: nat, hi: nat, onlyCaptures: bool, isPinned: bool): seq<MoveData>
    requires |p.squares| == 64 && OnBoard(s) && d <= hi <= 8
    decreases hi - d
  {
    if d == hi then []
    else
      (if isPinned && !IsMovingAlongRay(Directions[d], s, m.ourKingSquare) then []
       else RayMoveSteps(p, m, s, d, 1, onlyCaptures))
      + RayMoveDirections(p, m, s, d + 1, hi, onlyCaptures, isPinned)
  }

  /** `AddRayMoves(moves, s, lo, hi, onlyCaptures)` (lines 107-133). */
  function RayMoves(p: Position, m: Masks, s: int, lo: nat, hi: nat, onlyCaptures: bool): seq<MoveData>
    requires |p.squares| == 64 && OnBoard(s) && lo <= hi <= 8
  {
    RayMoveDirections(p, m, s, lo, hi, onlyCaptures, IsPinned(m, s))
  }

  /** One slider loop of `GetMoves` (lines 78-94), from index i of the list on. */
  function SliderMoves(p: Position, m: Masks, pieces: seq<int>, i: nat, lo: nat, hi: nat, onlyCaptures: bool): seq<MoveData>
    requires |p.squares| == 64 && AllOnBoard(pieces) && i <= |pieces| && lo <= hi <= 8
    decreases |pieces| - i
  {
    if i == |pieces| then []
    else RayMoves(p, m, pieces[i], lo, hi, onlyCaptures) + SliderMoves(p, m, pieces, i + 1, lo, hi, onlyCaptures)
  }

  /** The loop of `AddKnightMoves` (lines 263-274) from index i of `KnightMoves[s]` on. */
  function KnightTargetMoves(p: Position, m: Masks, s: int, i: nat, onlyCaptures: bool): seq<MoveData>
    requires |p.squares| == 64 && OnBoard(s) && i <= |KnightMoveList(s)|
    decreases |KnightMoveList(s)| - i
  {
    var targets := KnightMoveList(s);
    if i == |targets| then []
    else
      KnightListOnBoard(s);
      var target := targets[i];
      var color := ColorOf(p.squares[target]);
      (if (!m.inCheck || IsRayCheckSquare(m, target)) && color != p.us && (!onlyCaptures || color == p.them)
       then [NewMove(p, s, target)] else [])
      + KnightTargetMoves(p, m, s, i + 1, onlyCaptures)
  }

  /** `AddKnightMoves(moves, s, onlyCaptures)` (lines 258-275): a pinned knight has no moves. */
  function KnightMoves(p: Position, m: Masks, s: int, onlyCaptures: bool): seq<MoveData>
    requires |p.squares| == 64 && OnBoard(s)
  {
    if IsPinned(m, s) then [] else KnightTargetMoves(p, m, s, 0, onlyCaptures)
  }

  /** The knight loop of `GetMoves` (lines 96-100), from index i on. */
  function KnightsMoves(p: Position, m: Masks, knights: seq<int>, i: nat, onlyCaptures: bool): seq<MoveData>
    requires |p.squares| == 64 && AllOnBoard(knights) && i <= |knights|
    decreases |knights| - i
  {
    if i == |knights| then []
    else KnightMoves(p, m, knights[i], onlyCaptures) + KnightsMoves(p, m, knights, i + 1, onlyCaptures)
  }

  /** The four bitboard loops of `AddPawnMoves`. */
  datatype PawnLoop = SinglePush | DoublePush | CaptureWest | CaptureEast

  /** `pawnDirection` (line 142). */
  function PawnDirection(us: nat): int
  {
    if us == WHITE then Directions[N] else Directions[S]
  }

  /** `promotionRank` (line 143). */
  function PromotionRank(us: nat): int
  {
    if us == WHITE then 7 else 0
  }

  /** The direction of the move, which a pinned pawn must share with its pin line (lines 161, 190, 213, 238). */
  function PawnRay(us: nat, loop: PawnLoop): int
  {
    match loop
    case SinglePush => PawnDirection(us)
    case DoublePush => PawnDirection(us)
    case CaptureWest => Directions[if us == WHITE then NW else SW]
    case CaptureEast => Directions[if us == WHITE then NE else SE]
  }

  /** How far the target is from the start (lines 159, 184, 211, 236). */
  function PawnOffset(us: nat, loop: PawnLoop): int
  {
    if loop == DoublePush then 2 * PawnDirection(us) else PawnRay(us, loop)
  }

  /** The pawn offsets as numbers. */
  lemma PawnOffsetValue(us: nat, loop: PawnLoop)
    ensures PawnOffset(us, loop) == match loop
      case SinglePush => if us == WHITE then 8 else -8
      case DoublePush => if us == WHITE then 16 else -16
      case CaptureWest => if us == WHITE then 7 else -9
      case CaptureEast => if us == WHITE then 9 else -7
  {
  }

  /** `ourPawnsBitboard` (line 146). */
  function OurPawns(p: Position): bv64
  {
    if p.us == WHITE then p.bitboards.whitePawns else p.bitboards.blackPawns
  }

  /** `pinnedPawns` (line 148). */
  function PinnedPawns(p: Position, m: Masks): bv64
  {
    And(m.pinBitmask, OurPawns(p))
  }

  /** One rank forward for the side to move. */
  function Forward(us: nat, b: bv64): bv64
  {
    if us == WHITE then ShiftUp(b) else ShiftDown(b)
  }

  /** `pseudoLegalSinglePawnMoveTargets` (lines 152-153). */
  function SinglePushes(p: Position, m: Masks): bv64
  {
    And(Forward(p.us, OurPawns(p)), m.freeSquares)
  }

  /** `enemyPiecesAndEnPassent` (line 202). */
  function EnemyAndEnPassant(p: Position, m: Masks): bv64
  {
    if p.enPassant >= 0 then Or(m.enemyPieces, Bit(p.enPassant)) else m.enemyPieces
  }

  /** The bitboard each loop of `AddPawnMoves` peels (lines 152-154, 178-179, 203-206). */
  function PawnTargets(p: Position, m: Masks, loop: PawnLoop): bv64
  {
    match loop
    case SinglePush => And(SinglePushes(p, m), m.rayCheckBitmask)
    case DoublePush =>
      And(Forward(p.us, SinglePushes(p, m)), And(And(RankBitboard(if p.us == WHITE then 3 else 4), m.freeSquares), m.rayCheckBitmask))
    case CaptureWest =>
      And(if p.us == WHITE then ShiftUpLeft(OurPawns(p)) else ShiftDownLeft(OurPawns(p)), And(EnemyAndEnPassant(p, m), m.rayCheckBitmask))
    case CaptureEast =>
      And(if p.us == WHITE then ShiftUpRight(OurPawns(p)) else ShiftDownRight(OurPawns(p)), And(EnemyAndEnPassant(p, m), m.rayCheckBitmask))
  }

  /** Every square of b has its start square on the board. */
  ghost predicate Sourced(us: nat, loop: PawnLoop, b: bv64)
  {
    forall t {:trigger Has(b, t)} :: Has(b, t) ==> OnBoard(t - PawnOffset(us, loop))
  }

  /** The moves of one pawn loop for one target square (lines 158-175, 183-195, 210-230, 235-255). */
  function PawnTargetMoves(p: Position, m: Masks, loop: PawnLoop, target: int): seq<MoveData>
    requires |p.squares| == 64 && OnBoard(target) && OnBoard(target - PawnOffset(p.us, loop))
  {
    var start := target - PawnOffset(p.us, loop);
    var move := NewMove(p, start, target);
    if And(PinnedPawns(p, m), Bit(start)) != 0 && !IsMovingAlongRay(PawnRay(p.us, loop), start, m.ourKingSquare) then []
    else if loop == DoublePush then [move.(isDoublePawnMove := true)]
    else if target / 8 == PromotionRank(p.us) then Promotions(move)
    else if loop == SinglePush then [move]
    else [move.(isEnPassant := target == p.enPassant)]
  }

  /** One pawn loop over the squares left in `targets`, lowest first. */
  function PawnTargetLoop(p: Position, m: Masks, loop: PawnLoop, targets: bv64): seq<MoveData>
    requires |p.squares| == 64 && Sourced(p.us, loop, targets)
    decreases PopCount(targets)
  {
    if targets == 0 then []
    else
      NonEmpty(targets);
      var target := TrailingZeroCount(targets);
      PopCountToggle(targets, target);
      SourcedToggle(p.us, loop, targets, target);
      PawnTargetMoves(p, m, loop, target) + PawnTargetLoop(p, m, loop, Xor(targets, Bit(target)))
  }

  /** One turn of a pawn loop: the lowest target square first. */
  lemma PawnTargetStep(p: Position, m: Masks, loop: PawnLoop, targets: bv64)
    requires |p.squares| == 64 && Sourced(p.us, loop, targets) && targets != 0
    ensures TrailingZeroCount(targets) < 64
    ensures OnBoard(TrailingZeroCount(targets) - PawnOffset(p.us, loop))
    ensures Sourced(p.us, loop, Xor(targets, Bit(TrailingZeroCount(targets))))
    ensures PopCount(Xor(targets, Bit(TrailingZeroCount(targets)))) < PopCount(targets)
    ensures PawnTargetLoop(p, m, loop, targets)
      == PawnTargetMoves(p, m, loop, TrailingZeroCount(targets)) + PawnTargetLoop(p, m, loop, Xor(targets, Bit(TrailingZeroCount(targets))))
  {
    NonEmpty(targets);
    var target := TrailingZeroCount(targets);
    PopCountToggle(targets, target);
    SourcedToggle(p.us, loop, targets, target);
  }

  /** Removing a square keeps the start squares on the board. */
  lemma SourcedToggle(us: nat, loop: PawnLoop, b: bv64, t: int)
    requires Sourced(us, loop, b) && Has(b, t)
    ensures Sourced(us, loop, Xor(b, Bit(t)))
  {
    forall i | Has(Xor(b, Bit(t)), i)
      ensures OnBoard(i - PawnOffset(us, loop))
    {
      HasToggle(b, t, i);
    }
  }

  /** The targets of each pawn loop have their start squares on the board. */
  lemma PawnTargetsSourced(p: Position, m: Masks, loop: PawnLoop)
    requires IsColor(p.us)
    ensures Sourced(p.us, loop, PawnTargets(p, m, loop))
  {
    forall t | Has(PawnTargets(p, m, loop), t)
      ensures OnBoard(t - PawnOffset(p.us, loop))
    {
      match loop
      case SinglePush => SinglePushSourced(p, m, t);
      case DoublePush => DoublePushSourced(p, m, t);
      case CaptureWest => CaptureWestSourced(p, m, t);
      case CaptureEast => CaptureEastSourced(p, m, t);
    }
  }

  lemma SinglePushSourced(p: Position, m: Masks, t: int)
    requires IsColor(p.us) && Has(PawnTargets(p, m, SinglePush), t)
    ensures OnBoard(t - PawnOffset(p.us, SinglePush))
  {
    var pawns := OurPawns(p);
    HasAnd(SinglePushes(p, m), m.rayCheckBitmask, t);
    HasAnd(Forward(p.us, pawns), m.freeSquares, t);
    if p.us == WHITE { ShiftUpSquares(pawns, t); } else { ShiftDownSquares(pawns, t); }
  }

  lemma DoublePushSourced(p: Position, m: Masks, t: int)
    requires IsColor(p.us) && Has(PawnTargets(p, m, DoublePush), t)
    ensures OnBoard(t - PawnOffset(p.us, DoublePush))
  {
    var rank := if p.us == WHITE then 3 else 4;
    var free := And(RankBitboard(rank), m.freeSquares);
    HasAnd(Forward(p.us, SinglePushes(p, m)), And(free, m.rayCheckBitmask), t);
    HasAnd(free, m.rayCheckBitmask, t);
    HasAnd(RankBitboard(rank), m.freeSquares, t);
    RankBitboardIsRank(rank, t);
    PawnOffsetValue(p.us, DoublePush);
  }

  lemma CaptureWestSourced(p: Position, m: Masks, t: int)
    requires IsColor(p.us) && Has(PawnTargets(p, m, CaptureWest), t)
    ensures OnBoard(t - PawnOffset(p.us, CaptureWest))
  {
    PawnOffsetValue(p.us, CaptureWest);
    var pawns, enemies := OurPawns(p), And(EnemyAndEnPassant(p, m), m.rayCheckBitmask);
    if p.us == WHITE {
      HasAnd(ShiftUpLeft(pawns), enemies, t);
      ShiftUpLeftSquares(pawns, t);
    } else {
      HasAnd(ShiftDownLeft(pawns), enemies, t);
      ShiftDownLeftSquares(pawns, t);
    }
  }

  lemma CaptureEastSourced(p: Position, m: Masks, t: int)
    requires IsColor(p.us) && Has(PawnTargets(p, m, CaptureEast), t)
    ensures OnBoard(t - PawnOffset(p.us, CaptureEast))
  {
    PawnOffsetValue(p.us, CaptureEast);
    var pawns, enemies := OurPawns(p), And(EnemyAndEnPassant(p, m), m.rayCheckBitmask);
    if p.us == WHITE {
      HasAnd(ShiftUpRight(pawns), enemies, t);
      ShiftUpRightSquares(pawns, t);
    } else {
      HasAnd(ShiftDownRight(pawns), enemies, t);
      ShiftDownRightSquares(pawns, t);
    }
  }

  /** One pawn loop of `AddPawnMoves`, over its whole bitboard. */
  function PawnLoopMoves(p: Position, m: Masks, loop: PawnLoop): seq<MoveData>
    requires |p.squares| == 64 && IsColor(p.us)
  {
    PawnTargetsSourced(p, m, loop);
    PawnTargetLoop(p, m, loop, PawnTargets(p, m, loop))
  }

  /** `AddPawnMoves` (lines 140-257): pushes unless only captures are asked for, then captures. */
  function PawnMoves(p: Position, m: Masks, onlyCaptures: bool): seq<MoveData>
    requires |p.squares| == 64 && IsColor(p.us)
  {
    (if !onlyCaptures then PawnLoopMoves(p, m, SinglePush) + PawnLoopMoves(p, m, DoublePush) else [])
    + PawnLoopMoves(p, m, CaptureWest) + PawnLoopMoves(p, m, CaptureEast)
  }

  /** What `GetMoves` adds after the king moves when not in double check (lines 75-102). */
  function OtherMoves(p: Position, m: Masks, onlyCaptures: bool): seq<MoveData>
    requires Ready(p)
  {
    (if !m.inCheck then CastlingMoves(p, m) else []) + PieceMoves(p, m, onlyCaptures) + PawnMoves(p, m, onlyCaptures)
  }

  /** The rook, bishop, queen and knight loops of `GetMoves` (lines 78-100). */
  function PieceMoves(p: Position, m: Masks, onlyCaptures: bool): seq<MoveData>
    requires Ready(p)
  {
    SliderMoves(p, m, OwnList(p, ROOK), 0, 0, 4, onlyCaptures)
    + SliderMoves(p, m, OwnList(p, BISHOP), 0, 4, 8, onlyCaptures)
    + SliderMoves(p, m, OwnList(p, QUEEN), 0, 0, 8, onlyCaptures)
    + KnightsMoves(p, m, OwnList(p, KNIGHT), 0, onlyCaptures)
  }

  /** `GetMoves(onlyCaptures)` (lines 64-105). */
  function GetMoves(p: Position, m: Masks, onlyCaptures: bool): seq<MoveData>
    requires Ready(p) && OnBoard(m.ourKingSquare)
  {
    KingMoves(p, m) + (if m.inDoubleCheck then [] else OtherMoves(p, m, onlyCaptures))
  }
}
