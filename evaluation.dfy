/**
 * The static evaluator (Chess/Evaluation.cs): material by piece values, memoised by the
 * material key, piece-square tables mirrored for black, and terms for isolated and
 * passed pawns, rooks on open files and the pawn shield of a king on the wing.
 *
 * The static constructor and the `MaterialDatabase` dictionary become the class
 * `Evaluation`: its constructor builds the tables, and the dictionary is a `map` field
 * that `ProbeMaterial` extends. Each loop of the source is a method proved equal to a
 * function of the board; the lemmas say what those functions mean.
 */
module Evaluations {
  import opened Bits
  import opened Pieces
  import opened MoveHelper
  import opened MoveHelperFacts
  import opened Positions
  import MK = MaterialKey
  import Boards

  // ---------------------------------------------------------------------------------
  // Constants (lines 10-14, 16-86, 92-103)

  const PAWN_VALUE: int := 100
  const KNIGHT_VALUE: int := 325
  const BISHOP_VALUE: int := 325
  const ROOK_VALUE: int := 550
  const QUEEN_VALUE: int := 1000

  const PAWN_TABLE: seq<int> :=
    [  0,   0,   0,   0,   0,   0,   0,   0] +
    [ 10,  10, -10, -30, -30, -10,  10,  10] +
    [  0,  10,  10,  20,  20,  10,  10,   0] +
    [  0,   0,  20,  30,  30,  20,   0,   0] +
    [  5,   5,   5,  10,  10,   5,   5,   5] +
    [ 10,  10,  10,  10,  10,  10,  10,  10] +
    [ 30,  30,  30,  30,  30,  30,  30,  30] +
    [  0,   0,   0,   0,   0,   0,   0,   0]

  const ROOK_TABLE: seq<int> :=
    [  0,   0,   0,  20,  20,   0,   0,   0] +
    [  0,   0,   0,  20,  20,   0,   0,   0] +
    [  0,   0,   0,  20,  20,   0,   0,   0] +
    [  0,   0,   0,  20,  20,   0,   0,   0] +
    [  0,   0,   0,  20,  20,   0,   0,   0] +
    [  0,   0,   0,  20,  20,   0,   0,   0] +
    [ 25,  25,  25,  25,  25,  25,  25,  25] +
    [  0,   0,   0,  20,  20,   0,   0,   0]

  const KNIGHT_TABLE: seq<int> :=
    [-20, -20, -10, -10, -10, -10, -20, -20] +
    [-10,  -5,   0,   0,   0,   0,  -5, -10] +
    [-10,   0,  20,  10,  10,  20,   0, -10] +
    [-10,   0,  10,  10,  10,  10,   0, -10] +
    [-10,   0,  10,  10,  10,  10,   0, -10] +
    [-10,   0,  20,  10,  10,  20,   0, -10] +
    [-10,  -5,   0,   0,   0,   0,  -5, -10] +
    [-20, -10, -10, -10, -10, -10, -10, -20]

  const BISHOP_TABLE: seq<int> :=
    [-20, -20, -20,   0,   0, -20, -20, -20] +
    [-10,   5,   0,   5,   5,   0,   5, -10] +
    [ -5,   0,   5,  10,  10,   5,   0,  -5] +
    [  0,   5,  10,  20,  20,  10,   5,   0] +
    [  0,   5,  10,  20,  20,  10,   5,   0] +
    [ -5,   0,   5,  10,  10,   5,   0,  -5] +
    [-10,  -5,   0,   5,   5,   0,  -5, -10] +
    [-20, -10,  -5,   0,   0,  -5, -10, -20]

  /** King safety: a bonus on the home squares of the wings, a penalty elsewhere. */
  const KING_TABLE: seq<int> :=
    [ 30,  20, -10, -30, -30,   0,  20,  30] +
    [ 10,  10, -80, -80, -80, -80,  10,  10] +
    [-80, -80, -80, -80, -80, -80, -80, -80] +
    [-80, -80, -80, -80, -80, -80, -80, -80] +
    [-80, -80, -80, -80, -80, -80, -80, -80] +
    [-80, -80, -80, -80, -80, -80, -80, -80] +
    [-80, -80, -80, -80, -80, -80, -80, -80] +
    [-80, -80, -80, -80, -80, -80, -80, -80]

  const MIRROR: seq<int> :=
    [ 56,  57,  58,  59,  60,  61,  62,  63] +
    [ 48,  49,  50,  51,  52,  53,  54,  55] +
    [ 40,  41,  42,  43,  44,  45,  46,  47] +
    [ 32,  33,  34,  35,  36,  37,  38,  39] +
    [ 24,  25,  26,  27,  28,  29,  30,  31] +
    [ 16,  17,  18,  19,  20,  21,  22,  23] +
    [  8,   9,  10,  11,  12,  13,  14,  15] +
    [  0,   1,   2,   3,   4,   5,   6,   7]

  const BISHOP_PAIR_SCORE: int := 35
  /** `RookFileScores[isOpenSelf ? 0 : 1][isOpenOpponent ? 0 : 1]`. */
  const ROOK_FILE_SCORES: seq<seq<int>> := [[25, 15], [5, -10]]
  const DOUBLED_ROOK_BONUS: int := 30
  const ISOLATED_PAWN_BONUS: int := -20
  /** Indexed by the rank a pawn has reached, counted from its own side. */
  const PASSED_PAWN_BONUS: seq<int> := [0, 22, 33, 44, 55, 77, 88, 0]
  const BISHOP_CLOSEDNESS_PENALTY: int := -1
  const PAWN_SHIELD_BONUS: int := 40

  // ---------------------------------------------------------------------------------
  // The tables of the static constructor (lines 107-156)

  /** `PieceValues[p]`: the ten entries the constructor writes; every other code stays 0. */
  function PieceValue(p: nat): int
  {
    if p == Make(QUEEN, WHITE) then QUEEN_VALUE
    else if p == Make(ROOK, WHITE) then ROOK_VALUE
    else if p == Make(KNIGHT, WHITE) then KNIGHT_VALUE
    else if p == Make(BISHOP, WHITE) then BISHOP_VALUE
    else if p == Make(PAWN, WHITE) then PAWN_VALUE
    else if p == Make(QUEEN, BLACK) then -QUEEN_VALUE
    else if p == Make(ROOK, BLACK) then -ROOK_VALUE
    else if p == Make(KNIGHT, BLACK) then -KNIGHT_VALUE
    else if p == Make(BISHOP, BLACK) then -BISHOP_VALUE
    else if p == Make(PAWN, BLACK) then -PAWN_VALUE
    else 0
  }

  /**
   * `PieceValues_ColorIndependent[p]`: the absolute value under a piece code and under its
   * colourless type code; 0 for every other code.
   */
  function ColorIndependentValue(p: nat): int
  {
    if IsPiece(p) then Abs(PieceValue(p))
    else if IsType(p) then Abs(PieceValue(Make(p, BLACK)))
    else 0
  }

  /** Entry `square` of the table of type t; the queen (and any other code) has none, its row is zeros. */
  function TableValue(t: nat, square: int): int
    requires 0 <= square < 64
  {
    if t == PAWN then PAWN_TABLE[square]
    else if t == ROOK then ROOK_TABLE[square]
    else if t == KNIGHT then KNIGHT_TABLE[square]
    else if t == BISHOP then BISHOP_TABLE[square]
    else if t == KING then KING_TABLE[square]
    else 0
  }

  /** `PositionTables[p][i]` for a piece code p: the type's table, read through `Mirror` for black. */
  function PositionValue(p: nat, i: int): int
    requires 0 <= i < 64
  {
    MirrorFlipsRank(i);
    TableValue(TypeOf(p), if ColorOf(p) == WHITE then i else MIRROR[i])
  }

  /** A row of `PositionTables` as the constructor leaves it for piece code p. */
  ghost predicate IsRow(row: seq<int>, p: nat)
  {
    |row| == 64 && forall i {:trigger row[i]} :: 0 <= i < 64 ==> row[i] == PositionValue(p, i)
  }

  /** The evaluator's tables: `PieceValues`, `PieceValues_ColorIndependent` and `PositionTables` (null rows are empty). */
  datatype EvalTables = EvalTables(pieceValues: seq<int>, colorIndependent: seq<int>, positionTables: seq<seq<int>>)

  ghost predicate IsEvalTables(t: EvalTables)
  {
    && |t.pieceValues| == 32 && (forall p {:trigger t.pieceValues[p]} :: 0 <= p < 32 ==> t.pieceValues[p] == PieceValue(p))
    && |t.colorIndependent| == 32
    && (forall p {:trigger t.colorIndependent[p]} :: 0 <= p < 32 ==> t.colorIndependent[p] == ColorIndependentValue(p))
    && |t.positionTables| == 32
    && (forall p {:trigger t.positionTables[p]} :: 0 <= p < 32 && !IsPiece(p) ==> t.positionTables[p] == [])
    && (forall p {:trigger t.positionTables[p]} :: 0 <= p < 32 && IsPiece(p) ==> IsRow(t.positionTables[p], p))
  }

  /** The ten writes of lines 110-119 into a table of zeros. */
  method BuildPieceValues() returns (values: seq<int>)
    ensures |values| == 32 && forall p {:trigger values[p]} :: 0 <= p < 32 ==> values[p] == PieceValue(p)
  {
    values := seq(32, _ => 0);
    values := values[Make(QUEEN, WHITE) := QUEEN_VALUE];
    values := values[Make(ROOK, WHITE) := ROOK_VALUE];
    values := values[Make(KNIGHT, WHITE) := KNIGHT_VALUE];
    values := values[Make(BISHOP, WHITE) := BISHOP_VALUE];
    values := values[Make(PAWN, WHITE) := PAWN_VALUE];
    values := values[Make(QUEEN, BLACK) := -QUEEN_VALUE];
    values := values[Make(ROOK, BLACK) := -ROOK_VALUE];
    values := values[Make(KNIGHT, BLACK) := -KNIGHT_VALUE];
    values := values[Make(BISHOP, BLACK) := -BISHOP_VALUE];
    values := values[Make(PAWN, BLACK) := -PAWN_VALUE];
  }

  /** Code c has been written by the first k rounds of the loop of lines 121-125. */
  predicate Touched(c: nat, k: nat)
    requires k <= |PIECE_TYPES|
  {
    k > 0 && (PIECE_TYPES[k - 1] == c || TypeOf(PIECE_TYPES[k - 1]) == c || Touched(c, k - 1))
  }

  /** After the whole loop the written codes are the pieces and the types. */
  lemma {:induction false} TouchedAll(c: nat, k: nat)
    requires k <= |PIECE_TYPES|
    ensures Touched(c, k) <==> exists j :: 0 <= j < k && (PIECE_TYPES[j] == c || TypeOf(PIECE_TYPES[j]) == c)
  {
    if k > 0 {
      TouchedAll(c, k - 1);
      if Touched(c, k) && !Touched(c, k - 1) {
        assert PIECE_TYPES[k - 1] == c || TypeOf(PIECE_TYPES[k - 1]) == c;
      }
    }
  }

  /** A code is written (as a piece or as the type of one) exactly when it is a piece or a type. */
  lemma TouchedIsPieceOrType(c: nat)
    ensures Touched(c, 12) <==> IsPiece(c) || IsType(c)
  {
    TouchedAll(c, 12);
    if IsPiece(c) {
      var j :| 0 <= j < 12 && PIECE_TYPES[j] == c;
    } else if IsType(c) {
      assert PIECE_TYPES[6 + (if c == KING then 0 else if c == QUEEN then 1 else if c == ROOK then 2
                              else if c == BISHOP then 3 else if c == KNIGHT then 4 else 5)] == Make(c, BLACK);
    }
    if Touched(c, 12) {
      var j :| 0 <= j < 12 && (PIECE_TYPES[j] == c || TypeOf(PIECE_TYPES[j]) == c);
      PieceTypesShape(j);
    }
  }

  /** The value the loop writes under a piece's type code is the one it writes under the piece. */
  lemma TypeValueOfPiece(j: nat)
    requires j < 12
    ensures ColorIndependentValue(TypeOf(PIECE_TYPES[j])) == Abs(PieceValue(PIECE_TYPES[j]))
    ensures ColorIndependentValue(PIECE_TYPES[j]) == Abs(PieceValue(PIECE_TYPES[j]))
  {
    PieceTypesShape(j);
  }

  /** The loop of lines 121-125. */
  method BuildColorIndependent(values: seq<int>) returns (abs: seq<int>)
    requires |values| == 32 && forall p {:trigger values[p]} :: 0 <= p < 32 ==> values[p] == PieceValue(p)
    ensures |abs| == 32 && forall p {:trigger abs[p]} :: 0 <= p < 32 ==> abs[p] == ColorIndependentValue(p)
  {
    abs := seq(32, _ => 0);
    for k := 0 to 12
      invariant |abs| == 32
      invariant forall c {:trigger abs[c]} :: 0 <= c < 32 ==> abs[c] == if Touched(c, k) then ColorIndependentValue(c) else 0
    {
      var pieceType := PIECE_TYPES[k];
      PieceTypesShape(k);
      TypeValueOfPiece(k);
      abs := abs[pieceType := Abs(values[pieceType])];
      abs := abs[TypeOf(pieceType) := abs[pieceType]];
    }
    forall c | 0 <= c < 32
      ensures abs[c] == ColorIndependentValue(c)
    {
      TouchedIsPieceOrType(c);
    }
  }

  /** The inner loop of lines 129-154: one piece code's row. */
  method BuildRow(pieceType: nat) returns (row: seq<int>)
    ensures IsRow(row, pieceType)
  {
    row := seq(64, _ => 0);
    var color := ColorOf(pieceType);
    for i := 0 to 64
      invariant |row| == 64
      invariant forall j {:trigger row[j]} :: 0 <= j < 64 ==> row[j] == if j < i then PositionValue(pieceType, j) else 0
    {
      MirrorFlipsRank(i);
      var square := if color == WHITE then i else MIRROR[i];
      var t := TypeOf(pieceType);
      if t == PAWN {
        row := row[i := PAWN_TABLE[square]];
      } else if t == ROOK {
        row := row[i := ROOK_TABLE[square]];
      } else if t == KNIGHT {
        row := row[i := KNIGHT_TABLE[square]];
      } else if t == BISHOP {
        row := row[i := BISHOP_TABLE[square]];
      } else if t == KING {
        row := row[i := KING_TABLE[square]];
      }
    }
  }

  /** The rows of the first k codes of `PIECE_TYPES` are built; the other rows are still empty. */
  ghost predicate BuiltUpTo(tables: seq<seq<int>>, k: nat)
    requires k <= 12
  {
    && |PIECE_TYPES| == 12
    && |tables| == 32
    && (forall p {:trigger tables[p]} :: 0 <= p < 32 && p !in PIECE_TYPES[..k] ==> tables[p] == [])
    && (forall p {:trigger tables[p]} :: 0 <= p < 32 && p in PIECE_TYPES[..k] ==> IsRow(tables[p], p))
  }

  lemma BuiltStep(tables: seq<seq<int>>, k: nat, row: seq<int>)
    requires k < 12 && BuiltUpTo(tables, k) && PIECE_TYPES[k] < 32 && IsRow(row, PIECE_TYPES[k])
    ensures BuiltUpTo(tables[PIECE_TYPES[k] := row], k + 1)
  {
    assert PIECE_TYPES[..k + 1] == PIECE_TYPES[..k] + [PIECE_TYPES[k]];
  }

  /** The outer loop of lines 127-155: a fresh row for each piece code. */
  method BuildPositionTables() returns (tables: seq<seq<int>>)
    ensures |tables| == 32
    ensures forall p {:trigger tables[p]} :: 0 <= p < 32 && !IsPiece(p) ==> tables[p] == []
    ensures forall p {:trigger tables[p]} :: 0 <= p < 32 && IsPiece(p) ==> IsRow(tables[p], p)
  {
    tables := seq(32, _ => []);
    PieceTypesShape(0);
    for k := 0 to 12
      invariant BuiltUpTo(tables, k)
    {
      var pieceType := PIECE_TYPES[k];
      PieceTypesShape(k);
      var row := BuildRow(pieceType);
      BuiltStep(tables, k, row);
      tables := tables[pieceType := row];
    }
    assert PIECE_TYPES[..12] == PIECE_TYPES;
  }

  /** The whole static constructor. */
  method BuildTables() returns (t: EvalTables)
    ensures IsEvalTables(t)
  {
    var values := BuildPieceValues();
    var abs := BuildColorIndependent(values);
    var positions := BuildPositionTables();
    t := EvalTables(values, abs, positions);
  }

  // ---------------------------------------------------------------------------------
  // What the tables mean

  /** Black's piece values are the negated white ones: 100, 325, 325, 550, 1000, and 0 for the king. */
  lemma PieceValuesOpposite(t: nat)
    requires IsType(t)
    ensures PieceValue(Make(t, BLACK)) == -PieceValue(Make(t, WHITE))
    ensures PieceValue(Make(t, WHITE)) == if t == PAWN then 100 else if t == KNIGHT || t == BISHOP then 325
      else if t == ROOK then 550 else if t == QUEEN then 1000 else 0
  {
  }

  /** The colour-independent value is the same under both colours and the colourless code. */
  lemma ColorIndependentBothIndices(t: nat)
    requires IsType(t)
    ensures ColorIndependentValue(t) == ColorIndependentValue(Make(t, WHITE)) == ColorIndependentValue(Make(t, BLACK))
    ensures ColorIndependentValue(Make(t, WHITE)) == Abs(PieceValue(Make(t, WHITE)))
  {
    assert IsPiece(Make(t, WHITE)) && IsPiece(Make(t, BLACK));
    assert !IsPiece(t);
  }

  /** `Mirror` keeps the file and flips the rank. */
  lemma MirrorFlipsRank(i: int)
    requires 0 <= i < 64
    ensures OnBoard(MIRROR[i]) && FileOf(MIRROR[i]) == FileOf(i) && RankOf(MIRROR[i]) == 7 - RankOf(i)
  {
    var r, f := i / 8, i % 8;
    assert i == 8 * r + f;
    MirrorRow(r, f);
    DivMod8(7 - r, f);
  }

  /** Rank r of `Mirror` lists rank 7 - r. */
  lemma MirrorRow(r: int, f: int)
    requires 0 <= r < 8 && 0 <= f < 8
    ensures MIRROR[8 * r + f] == 8 * (7 - r) + f
  {
    if r == 0 { MirrorRank0(f); }
    else if r == 1 { MirrorRank1(f); }
    else if r == 2 { MirrorRank2(f); }
    else if r == 3 { MirrorRank3(f); }
    else if r == 4 { MirrorRank4(f); }
    else if r == 5 { MirrorRank5(f); }
    else if r == 6 { MirrorRank6(f); }
    else { MirrorRank7(f); }
  }

  lemma MirrorRank0(f: int)
    requires 0 <= f < 8
    ensures MIRROR[0 + f] == 56 + f
  {
  }

  lemma MirrorRank1(f: int)
    requires 0 <= f < 8
    ensures MIRROR[8 + f] == 48 + f
  {
  }

  lemma MirrorRank2(f: int)
    requires 0 <= f < 8
    ensures MIRROR[16 + f] == 40 + f
  {
  }

  lemma MirrorRank3(f: int)
    requires 0 <= f < 8
    ensures MIRROR[24 + f] == 32 + f
  {
  }

  lemma MirrorRank4(f: int)
    requires 0 <= f < 8
    ensures MIRROR[32 + f] == 24 + f
  {
  }

  lemma MirrorRank5(f: int)
    requires 0 <= f < 8
    ensures MIRROR[40 + f] == 16 + f
  {
  }

  lemma MirrorRank6(f: int)
    requires 0 <= f < 8
    ensures MIRROR[48 + f] == 8 + f
  {
  }

  lemma MirrorRank7(f: int)
    requires 0 <= f < 8
    ensures MIRROR[56 + f] == 0 + f
  {
  }

  /** `Mirror` is its own inverse. */
  lemma MirrorInvolution(i: int)
    requires 0 <= i < 64
    ensures 0 <= MIRROR[i] < 64 && MIRROR[MIRROR[i]] == i
  {
    var r, f := i / 8, i % 8;
    assert i == 8 * r + f;
    MirrorRow(r, f);
    MirrorRow(7 - r, f);
  }

  /**
   * Black's table for a type is white's read upside down: `PositionTables[BLACK|t][i] ==
   * PositionTables[WHITE|t][Mirror[i]]` and the other way round; the queen's rows are zero.
   */
  lemma PositionTablesMirrored(t: nat, i: int)
    requires IsType(t) && 0 <= i < 64
    ensures 0 <= MIRROR[i] < 64
    ensures PositionValue(Make(t, BLACK), i) == PositionValue(Make(t, WHITE), MIRROR[i])
    ensures PositionValue(Make(t, WHITE), i) == PositionValue(Make(t, BLACK), MIRROR[i])
    ensures t == QUEEN ==> PositionValue(Make(t, WHITE), i) == 0 && PositionValue(Make(t, BLACK), i) == 0
  {
    MakeFields(t, WHITE);
    MakeFields(t, BLACK);
    MirrorInvolution(i);
    MirrorFlipsRank(MIRROR[i]);
    assert PositionValue(Make(t, BLACK), i) == TableValue(t, MIRROR[i]);
    assert PositionValue(Make(t, WHITE), MIRROR[i]) == TableValue(t, MIRROR[i]);
    assert PositionValue(Make(t, WHITE), i) == TableValue(t, i);
    assert PositionValue(Make(t, BLACK), MIRROR[i]) == TableValue(t, i);
  }

  /** The type and colour of `type | color`. */
  lemma MakeFields(t: nat, c: nat)
    requires IsType(t) && IsColor(c)
    ensures TypeOf(Make(t, c)) == t && ColorOf(Make(t, c)) == c
  {
  }

  // ---------------------------------------------------------------------------------
  // Material (lines 158-181, 290-299)

  /** Positions in `PIECE_TYPES` of the counts the bishop terms read. */
  const WHITE_BISHOPS: nat := 3
  const WHITE_PAWNS: nat := 5
  const BLACK_BISHOPS: nat := 9
  const BLACK_PAWNS: nat := 11

  /** `pieceList[PIECE_TYPES[k]].Count` for the twelve piece codes, in the order of `PIECE_TYPES`. */
  function Tally(lists: seq<seq<int>>): (n: seq<nat>)
    requires |lists| == 32
    ensures |n| == 12
  {
    seq(12, k requires 0 <= k < 12 => PieceTypesShape(k); |lists[PIECE_TYPES[k]]|)
  }

  /** The twelve counts a material key records, in the same order. */
  function KeyTally(key: nat): (n: seq<nat>)
    ensures |n| == 12
  {
    seq(12, k requires 0 <= k < 12 => MK.Count(PIECE_TYPES[k], key))
  }

  /** A key that records exactly the lengths of the piece lists. */
  predicate KeyMatches(lists: seq<seq<int>>, key: nat)
  {
    |lists| == 32 && Tally(lists) == KeyTally(key)
  }

  /** The sum `CountMaterial` builds over the first k piece codes. */
  function Material(n: seq<nat>, k: nat): int
    requires k <= |n| && k <= 12
  {
    if k == 0 then 0 else Material(n, k - 1) + PieceValue(PIECE_TYPES[k - 1]) * n[k - 1]
  }

  /**
   * The score `ProbeMaterial` computes from the counts: the material, 35 for each side's
   * bishop pair, and a penalty of one per bishop and per own pawn (twice) and enemy pawn.
   */
  function MaterialScore(n: seq<nat>): int
    requires |n| == 12
  {
    Material(n, 12)
    + (if n[WHITE_BISHOPS] >= 2 then BISHOP_PAIR_SCORE else 0)
    - (if n[BLACK_BISHOPS] >= 2 then BISHOP_PAIR_SCORE else 0)
    + n[WHITE_BISHOPS] * (n[WHITE_PAWNS] * 2 + n[BLACK_PAWNS]) * BISHOP_CLOSEDNESS_PENALTY
    - n[BLACK_BISHOPS] * (n[BLACK_PAWNS] * 2 + n[WHITE_PAWNS]) * BISHOP_CLOSEDNESS_PENALTY
  }

  /** The material is the value-weighted difference of the white and black counts. */
  lemma MaterialBalance(n: seq<nat>)
    requires |n| == 12
    ensures Material(n, 12) == QUEEN_VALUE * (n[1] as int - n[7]) + ROOK_VALUE * (n[2] as int - n[8])
      + BISHOP_VALUE * (n[3] as int - n[9]) + KNIGHT_VALUE * (n[4] as int - n[10]) + PAWN_VALUE * (n[5] as int - n[11])
  {
    assert Material(n, 1) == Material(n, 0);
    assert Material(n, 2) == Material(n, 1) + QUEEN_VALUE * n[1];
    assert Material(n, 3) == Material(n, 2) + ROOK_VALUE * n[2];
    assert Material(n, 4) == Material(n, 3) + BISHOP_VALUE * n[3];
    assert Material(n, 5) == Material(n, 4) + KNIGHT_VALUE * n[4];
    assert Material(n, 6) == Material(n, 5) + PAWN_VALUE * n[5];
    assert Material(n, 7) == Material(n, 6);
    assert Material(n, 8) == Material(n, 7) - QUEEN_VALUE * n[7];
    assert Material(n, 9) == Material(n, 8) - ROOK_VALUE * n[8];
    assert Material(n, 10) == Material(n, 9) - BISHOP_VALUE * n[9];
    assert Material(n, 11) == Material(n, 10) - KNIGHT_VALUE * n[10];
    assert Material(n, 12) == Material(n, 11) - PAWN_VALUE * n[11];
  }

  /** The counts with the colours exchanged. */
  function Swapped(n: seq<nat>): (r: seq<nat>)
    requires |n| == 12
    ensures |r| == 12
  {
    n[6..] + n[..6]
  }

  /** Exchanging the colours negates the material score. */
  lemma MaterialScoreSwapped(n: seq<nat>)
    requires |n| == 12
    ensures MaterialScore(Swapped(n)) == -MaterialScore(n)
  {
    var m := Swapped(n);
    assert m[1] == n[7] && m[2] == n[8] && m[3] == n[9] && m[4] == n[10] && m[5] == n[11];
    assert m[7] == n[1] && m[8] == n[2] && m[9] == n[3] && m[10] == n[4] && m[11] == n[5];
    MaterialBalance(n);
    MaterialBalance(m);
  }

  /** `ProbeMaterial`'s value for a board, given the dictionary it finds. */
  function Probed(database: map<nat, int>, lists: seq<seq<int>>, key: nat): int
    requires |lists| == 32
  {
    if key in database then database[key] else MaterialScore(Tally(lists))
  }

  // ---------------------------------------------------------------------------------
  // The positional terms (lines 192-285)

  /** What `Evaluate` reads without checking: 32 piece lists of squares, and a king of each colour. */
  predicate Evaluable(lists: seq<seq<int>>)
  {
    && |lists| == 32
    && (forall c, k {:trigger lists[c][k]} :: 0 <= c < 32 && 0 <= k < |lists[c]| ==> OnBoard(lists[c][k]))
    && |lists[Make(KING, WHITE)]| > 0 && |lists[Make(KING, BLACK)]| > 0
  }

  /** The table values of the first n squares of a list of pieces with code p. */
  function SquareValues(p: nat, squares: seq<int>, n: nat): int
    requires n <= |squares| && forall i {:trigger squares[i]} :: 0 <= i < |squares| ==> OnBoard(squares[i])
  {
    if n == 0 then 0 else SquareValues(p, squares, n - 1) + PositionValue(p, squares[n - 1])
  }

  /** The table values of the pieces of colour c among the first k piece codes. */
  function SideValues(lists: seq<seq<int>>, c: nat, k: nat): int
    requires |lists| == 32 && k <= 12
    requires forall d, j {:trigger lists[d][j]} :: 0 <= d < 32 && 0 <= j < |lists[d]| ==> OnBoard(lists[d][j])
  {
    if k == 0 then 0
    else
      PieceTypesShape(k - 1);
      var pieceType := PIECE_TYPES[k - 1];
      SideValues(lists, c, k - 1) + (if ColorOf(pieceType) == c then SquareValues(pieceType, lists[pieceType], |lists[pieceType]|) else 0)
  }

  /** One more piece code adds its list's values to the side of its colour only. */
  lemma SideValuesStep(lists: seq<seq<int>>, k: nat)
    requires |lists| == 32 && k < 12
    requires forall d, j {:trigger lists[d][j]} :: 0 <= d < 32 && 0 <= j < |lists[d]| ==> OnBoard(lists[d][j])
    ensures |PIECE_TYPES| == 12 && IsType(TypeOf(PIECE_TYPES[k]))
    ensures ColorOf(PIECE_TYPES[k]) == (if k < 6 then WHITE else BLACK)
    ensures PIECE_TYPES[k] == Make(TypeOf(PIECE_TYPES[k]), ColorOf(PIECE_TYPES[k]))
    ensures var pieceType := PIECE_TYPES[k];
      var s := SquareValues(pieceType, lists[pieceType], |lists[pieceType]|);
      && SideValues(lists, WHITE, k + 1) == SideValues(lists, WHITE, k) + (if k < 6 then s else 0)
      && SideValues(lists, BLACK, k + 1) == SideValues(lists, BLACK, k) + (if k < 6 then 0 else s)
  {
    PieceTypesShape(k);
  }

  /** The contribution of one pawn on `square` (lines 213-221, 225-233). */
  function PawnTerm(own: bv64, enemy: bv64, square: int, white: bool): int
    requires OnBoard(square)
  {
    var file := FileOf(square);
    (if And(IsolatedPawnBitboard(file), own) == 0 then ISOLATED_PAWN_BONUS else 0)
    + (if And(PassedPawnBitboard(file), enemy) == 0 then PASSED_PAWN_BONUS[if white then RankOf(square) else 7 - RankOf(square)] else 0)
  }

  /** The pawn terms of the first n pawns of a list. */
  function PawnTerms(own: bv64, enemy: bv64, pawns: seq<int>, white: bool, n: nat): int
    requires n <= |pawns| && forall i {:trigger pawns[i]} :: 0 <= i < |pawns| ==> OnBoard(pawns[i])
  {
    if n == 0 then 0 else PawnTerms(own, enemy, pawns, white, n - 1) + PawnTerm(own, enemy, pawns[n - 1], white)
  }

  /** No pawn of b on file f. */
  predicate OpenFile(b: bv64, f: int)
    requires 0 <= f < 8
  {
    And(FileBitboard(f), b) == 0
  }

  /**
   * The contribution of rook i of a list (lines 243-254, 259-271): 30 when the rook before
   * it in the list stands on the same file, plus the file score.
   */
  function RookTerm(own: bv64, enemy: bv64, rooks: seq<int>, i: nat): int
    requires i < |rooks| && forall j {:trigger rooks[j]} :: 0 <= j < |rooks| ==> OnBoard(rooks[j])
  {
    var file := FileOf(rooks[i]);
    (if i > 0 && FileOf(rooks[i - 1]) == file then DOUBLED_ROOK_BONUS else 0)
    + ROOK_FILE_SCORES[if OpenFile(own, file) then 0 else 1][if OpenFile(enemy, file) then 0 else 1]
  }

  /** The rook terms of the first n rooks of a list. */
  function RookTerms(own: bv64, enemy: bv64, rooks: seq<int>, n: nat): int
    requires n <= |rooks| && forall j {:trigger rooks[j]} :: 0 <= j < |rooks| ==> OnBoard(rooks[j])
  {
    if n == 0 then 0 else RookTerms(own, enemy, rooks, n - 1) + RookTerm(own, enemy, rooks, n - 1)
  }

  /** The own pawns around a king on the a, b, c, g or h file (lines 279-283). */
  function PawnShield(pawns: bv64, king: int): nat
    requires OnBoard(king)
  {
    if FileOf(king) <= 2 || FileOf(king) >= 6 then PopCount(And(pawns, KingAttackBitboard(king))) else 0
  }

  /** Everything `Evaluate` adds to the material, from white's point of view, for these piece lists and pawn bitboards. */
  function PositionalTerms(lists: seq<seq<int>>, b: Bitboards): int
    requires Evaluable(lists)
  {
    var wp, bp := lists[Make(PAWN, WHITE)], lists[Make(PAWN, BLACK)];
    var wr, br := lists[Make(ROOK, WHITE)], lists[Make(ROOK, BLACK)];
    (SideValues(lists, WHITE, 12) - SideValues(lists, BLACK, 12))
    + (PawnTerms(b.whitePawns, b.blackPawns, wp, true, |wp|) - PawnTerms(b.blackPawns, b.whitePawns, bp, false, |bp|))
    + (RookTerms(b.whitePawns, b.blackPawns, wr, |wr|) - RookTerms(b.blackPawns, b.whitePawns, br, |br|))
    + (PawnShield(b.whitePawns, lists[Make(KING, WHITE)][0]) - PawnShield(b.blackPawns, lists[Make(KING, BLACK)][0])) * PAWN_SHIELD_BONUS
  }

  /** `preference`: the score is returned from the point of view of the side to move. */
  function Preference(us: nat): int
  {
    if us == WHITE then 1 else -1
  }

  /** The evaluation the database serves when it is consistent: material and positional terms. */
  function StaticScore(p: Position): int
    requires Evaluable(p.pieceLists)
  {
    Preference(p.us) * (MaterialScore(Tally(p.pieceLists)) + PositionalTerms(p.pieceLists, p.bitboards))
  }

  /** `StaticScore` from its two parts. */
  lemma StaticScoreParts(p: Position, material: int, positional: int)
    requires Evaluable(p.pieceLists)
    requires material == MaterialScore(Tally(p.pieceLists)) && positional == PositionalTerms(p.pieceLists, p.bitboards)
    ensures StaticScore(p) == Preference(p.us) * (material + positional)
  {
  }

  // ---------------------------------------------------------------------------------
  // What the positional terms mean

  /** Two bitboards have an empty intersection exactly when they share no square. */
  lemma DisjointSquares(a: bv64, b: bv64)
    ensures (And(a, b) == 0) <==> forall s {:trigger Has(a, s)} :: 0 <= s < 64 ==> !(Has(a, s) && Has(b, s))
  {
    forall s | 0 <= s < 64
      ensures Has(And(a, b), s) == (Has(a, s) && Has(b, s))
    {
      HasAnd(a, b, s);
    }
    if forall s {:trigger Has(a, s)} :: 0 <= s < 64 ==> !(Has(a, s) && Has(b, s)) {
      Empty(And(a, b));
    } else {
      var s :| 0 <= s < 64 && Has(a, s) && Has(b, s);
      HasZero(s);
    }
  }

  /** A pawn counts as isolated exactly when no pawn of its side stands on a neighbouring file. */
  lemma IsolatedPawnMeaning(own: bv64, f: int)
    requires 0 <= f < 8
    ensures (And(IsolatedPawnBitboard(f), own) == 0) <==> forall s {:trigger Has(own, s)} :: Has(own, s) ==> Abs(FileOf(s) - f) != 1
  {
    DisjointSquares(IsolatedPawnBitboard(f), own);
    forall s | 0 <= s < 64
      ensures Has(IsolatedPawnBitboard(f), s) == (Abs(FileOf(s) - f) == 1)
    {
      IsolatedIsNeighbours(f, s);
    }
  }

  /** A pawn counts as passed exactly when no enemy pawn stands on its file or a neighbouring one. */
  lemma PassedPawnMeaning(enemy: bv64, f: int)
    requires 0 <= f < 8
    ensures (And(PassedPawnBitboard(f), enemy) == 0) <==> forall s {:trigger Has(enemy, s)} :: Has(enemy, s) ==> Abs(FileOf(s) - f) > 1
  {
    DisjointSquares(PassedPawnBitboard(f), enemy);
    forall s | 0 <= s < 64
      ensures Has(PassedPawnBitboard(f), s) == (Abs(FileOf(s) - f) <= 1)
    {
      PassedIsFileAndNeighbours(f, s);
    }
  }

  /** A file is open for a side exactly when none of its pawns stands on it. */
  lemma OpenFileMeaning(b: bv64, f: int)
    requires 0 <= f < 8
    ensures OpenFile(b, f) <==> forall s {:trigger Has(b, s)} :: Has(b, s) ==> FileOf(s) != f
  {
    DisjointSquares(FileBitboard(f), b);
    forall s | 0 <= s < 64
      ensures Has(FileBitboard(f), s) == (FileOf(s) == f)
    {
      FileBitboardIsFile(f, s);
    }
  }

  /**
   * The file score of a rook: 25 on a file without pawns, 15 when only enemy pawns stand
   * on it, 5 when only own pawns do, and -10 when pawns of both sides do.
   */
  lemma RookFileScoreValues(own: bv64, enemy: bv64, rooks: seq<int>, i: nat)
    requires i < |rooks| && forall j {:trigger rooks[j]} :: 0 <= j < |rooks| ==> OnBoard(rooks[j])
    ensures var file := FileOf(rooks[i]);
      RookTerm(own, enemy, rooks, i) - (if i > 0 && FileOf(rooks[i - 1]) == file then DOUBLED_ROOK_BONUS else 0)
      == if OpenFile(own, file) then (if OpenFile(enemy, file) then 25 else 15)
         else (if OpenFile(enemy, file) then 5 else -10)
  {
  }

  /** The pawn shield counts the own pawns one king step from the king. */
  lemma PawnShieldMeaning(pawns: bv64, king: int)
    requires OnBoard(king)
    ensures PopCount(And(pawns, KingAttackBitboard(king))) == |set s | 0 <= s < 64 && Has(pawns, s) && KingStep(king, s)|
  {
    var b := And(pawns, KingAttackBitboard(king));
    CountIsSize(b, 64);
    forall s | 0 <= s < 64
      ensures Has(b, s) == (Has(pawns, s) && KingStep(king, s))
    {
      HasAnd(pawns, KingAttackBitboard(king), s);
      KingBitboardIsSteps(king, s);
    }
    assert (set s | 0 <= s < 64 && Has(b, s)) == (set s | 0 <= s < 64 && Has(pawns, s) && KingStep(king, s));
  }

  // ---------------------------------------------------------------------------------
  // The evaluator

  /**
   * The static class: the tables its constructor builds and the `MaterialDatabase`, which
   * maps a material key to the material score cached under it.
   */
  class Evaluation {
    const tables: EvalTables
    var materialDatabase: map<nat, int>

    ghost predicate Valid()
      reads this
    {
      IsEvalTables(tables)
    }

    /** Every cached score is the score of the counts its key records. */
    ghost predicate Cached()
      reads this
    {
      forall key {:trigger materialDatabase[key]} :: key in materialDatabase ==> materialDatabase[key] == MaterialScore(KeyTally(key))
    }

    /** The static constructor (lines 107-156), with an empty database (line 105). */
    constructor ()
      ensures Valid() && Cached() && materialDatabase == map[]
    {
      var t := BuildTables();
      tables := t;
      materialDatabase := map[];
    }

    /** `CountMaterial` (lines 290-299). */
    method CountMaterial(board: Boards.Board) returns (count: int)
      requires Valid() && |board.pieceLists| == 32
      ensures count == Material(Tally(board.pieceLists), 12)
    {
      count := 0;
      for k := 0 to 12
        invariant count == Material(Tally(board.pieceLists), k)
      {
        var pieceType := PIECE_TYPES[k];
        PieceTypesShape(k);
        count := count + tables.pieceValues[pieceType] * |board.pieceLists[pieceType]|;
      }
    }

    /**
     * `ProbeMaterial` (lines 158-181): the cached score of the board's material key, or
     * the score of its piece counts, which is then cached. A consistent database stays
     * consistent and serves the score of the counts, as long as the key records them.
     */
    method ProbeMaterial(board: Boards.Board) returns (score: int)
      requires Valid() && |board.pieceLists| == 32
      modifies this
      ensures Valid()
      ensures score == Probed(old(materialDatabase), board.pieceLists, board.materialKey)
      ensures materialDatabase == old(materialDatabase)[board.materialKey := score]
      ensures old(Cached()) && KeyMatches(board.pieceLists, board.materialKey) ==>
        Cached() && score == MaterialScore(Tally(board.pieceLists))
    {
      var key := board.materialKey;
      if key in materialDatabase {
        score := materialDatabase[key];
        return;
      }
      score := CountMaterial(board);
      var n := Tally(board.pieceLists);
      var whitePawnsCount := |board.pieceLists[Make(PAWN, WHITE)]|;
      var blackPawnsCount := |board.pieceLists[Make(PAWN, BLACK)]|;
      var whiteBishops := |board.pieceLists[Make(BISHOP, WHITE)]|;
      var blackBishops := |board.pieceLists[Make(BISHOP, BLACK)]|;
      assert whitePawnsCount == n[WHITE_PAWNS] && blackPawnsCount == n[BLACK_PAWNS];
      assert whiteBishops == n[WHITE_BISHOPS] && blackBishops == n[BLACK_BISHOPS];
      if whiteBishops >= 2 {
        score := score + BISHOP_PAIR_SCORE;
      }
      if blackBishops >= 2 {
        score := score - BISHOP_PAIR_SCORE;
      }
      score := score + whiteBishops * (whitePawnsCount * 2 + blackPawnsCount) * BISHOP_CLOSEDNESS_PENALTY;
      score := score - blackBishops * (blackPawnsCount * 2 + whitePawnsCount) * BISHOP_CLOSEDNESS_PENALTY;
      materialDatabase := materialDatabase[key := score];
    }

    /**
     * `Evaluate` (lines 183-288): the probed material plus the positional terms, from the
     * side to move's point of view. With a consistent database and a key that records the
     * piece counts this is `StaticScore`.
     */
    method Evaluate(board: Boards.Board) returns (r: int)
      requires Valid() && Evaluable(board.pieceLists)
      modifies this
      ensures Valid()
      ensures materialDatabase == old(materialDatabase)[board.materialKey := Probed(old(materialDatabase), board.pieceLists, board.materialKey)]
      ensures r == Preference(board.us) * (Probed(old(materialDatabase), board.pieceLists, board.materialKey) + PositionalTerms(board.pieceLists, board.bitboards))
      ensures old(Cached()) && KeyMatches(board.pieceLists, board.materialKey) ==> Cached() && r == StaticScore(board.View())
    {
      var preference := if board.us == WHITE then 1 else -1;
      var score := ProbeMaterial(board);
      var positional := PositionalScore(tables, board.pieceLists, board.bitboards);
      r := preference * (score + positional);
      ghost var p := board.View();
      if old(Cached()) && KeyMatches(board.pieceLists, board.materialKey) {
        StaticScoreParts(p, score, positional);
      }
    }
  }

  /** Lines 192-285 of `Evaluate`: everything it adds to the probed material. */
  method PositionalScore(t: EvalTables, lists: seq<seq<int>>, b: Bitboards) returns (score: int)
    requires IsEvalTables(t) && Evaluable(lists)
    ensures score == PositionalTerms(lists, b)
  {
    var white, black := PositionValues(t, lists);
    score := white - black;
    var whitePawnScore, blackPawnScore := PawnScores(lists, b);
    score := score + (whitePawnScore - blackPawnScore);
    var whiteRookPawnScore, blackRookPawnScore := RookScores(lists, b);
    score := score + (whiteRookPawnScore - blackRookPawnScore);
    var whiteKingPawnShield, blackKingPawnShield := PawnShields(lists, b);
    score := score + (whiteKingPawnShield - blackKingPawnShield) * PAWN_SHIELD_BONUS;
  }

  /** The loop of lines 192-204 over every piece: the table values of each side. */
  method PositionValues(t: EvalTables, lists: seq<seq<int>>) returns (white: int, black: int)
    requires IsEvalTables(t) && |lists| == 32
    requires forall c, k {:trigger lists[c][k]} :: 0 <= c < 32 && 0 <= k < |lists[c]| ==> OnBoard(lists[c][k])
    ensures white == SideValues(lists, WHITE, 12) && black == SideValues(lists, BLACK, 12)
  {
    var positionValues := new int[2](_ => 0);
    for pieceTypeIndex := 0 to 12
      invariant positionValues[0] == SideValues(lists, WHITE, pieceTypeIndex)
      invariant positionValues[1] == SideValues(lists, BLACK, pieceTypeIndex)
    {
      var pieceType := PIECE_TYPES[pieceTypeIndex];
      SideValuesStep(lists, pieceTypeIndex);
      var color := ColorOf(pieceType);
      var colorBit := if color == WHITE then 0 else 1;
      var sum := ListValues(t.positionTables[pieceType], pieceType, lists[pieceType]);
      positionValues[colorBit] := positionValues[colorBit] + sum;
    }
    white, black := positionValues[0], positionValues[1];
  }

  /** The inner loop of lines 198-201: the table values of the pieces in one list. */
  method ListValues(row: seq<int>, p: nat, squares: seq<int>) returns (sum: int)
    requires IsRow(row, p)
    requires forall i {:trigger squares[i]} :: 0 <= i < |squares| ==> OnBoard(squares[i])
    ensures sum == SquareValues(p, squares, |squares|)
  {
    sum := 0;
    for pieceIndex := 0 to |squares|
      invariant sum == SquareValues(p, squares, pieceIndex)
    {
      sum := sum + row[squares[pieceIndex]];
    }
  }

  /** The two pawn loops of lines 209-234. */
  method PawnScores(lists: seq<seq<int>>, b: Bitboards) returns (white: int, black: int)
    requires |lists| == 32
    requires forall c, k {:trigger lists[c][k]} :: 0 <= c < 32 && 0 <= k < |lists[c]| ==> OnBoard(lists[c][k])
    ensures var wp, bp := lists[Make(PAWN, WHITE)], lists[Make(PAWN, BLACK)];
      white == PawnTerms(b.whitePawns, b.blackPawns, wp, true, |wp|)
      && black == PawnTerms(b.blackPawns, b.whitePawns, bp, false, |bp|)
  {
    white := PawnScore(b.whitePawns, b.blackPawns, lists[Make(PAWN, WHITE)], true);
    black := PawnScore(b.blackPawns, b.whitePawns, lists[Make(PAWN, BLACK)], false);
  }

  /** One pawn loop: the isolated and passed pawn terms of every pawn in the list. */
  method PawnScore(own: bv64, enemy: bv64, pawns: seq<int>, white: bool) returns (score: int)
    requires forall i {:trigger pawns[i]} :: 0 <= i < |pawns| ==> OnBoard(pawns[i])
    ensures score == PawnTerms(own, enemy, pawns, white, |pawns|)
  {
    score := 0;
    for i := 0 to |pawns|
      invariant score == PawnTerms(own, enemy, pawns, white, i)
    {
      var term := PawnSquareScore(own, enemy, pawns[i], white);
      score := score + term;
    }
  }

  /** The body of a pawn loop: the two tests on the pawn's file. */
  method PawnSquareScore(own: bv64, enemy: bv64, pawnSquare: int, white: bool) returns (score: int)
    requires OnBoard(pawnSquare)
    ensures score == PawnTerm(own, enemy, pawnSquare, white)
  {
    var pawnFile := pawnSquare % 8;
    var isolated := And(IsolatedPawnBitboard(pawnFile), own) == 0;
    var passed := And(PassedPawnBitboard(pawnFile), enemy) == 0;
    PawnTermParts(own, enemy, pawnSquare, white, isolated, passed);
    score := 0;
    if isolated {
      score := score + ISOLATED_PAWN_BONUS;
    }
    if passed {
      score := score + PASSED_PAWN_BONUS[if white then pawnSquare / 8 else 7 - pawnSquare / 8];
    }
  }

  /** `PawnTerm` in terms of the two tests it makes. */
  lemma PawnTermParts(own: bv64, enemy: bv64, square: int, white: bool, isolated: bool, passed: bool)
    requires OnBoard(square)
    requires isolated == (And(IsolatedPawnBitboard(FileOf(square)), own) == 0)
    requires passed == (And(PassedPawnBitboard(FileOf(square)), enemy) == 0)
    ensures 0 <= square / 8 < 8
    ensures PawnTerm(own, enemy, square, white) == (if isolated then ISOLATED_PAWN_BONUS else 0)
      + (if passed then PASSED_PAWN_BONUS[if white then square / 8 else 7 - square / 8] else 0)
  {
  }

  /** The two rook loops of lines 237-273. */
  method RookScores(lists: seq<seq<int>>, b: Bitboards) returns (white: int, black: int)
    requires |lists| == 32
    requires forall c, k {:trigger lists[c][k]} :: 0 <= c < 32 && 0 <= k < |lists[c]| ==> OnBoard(lists[c][k])
    ensures var wr, br := lists[Make(ROOK, WHITE)], lists[Make(ROOK, BLACK)];
      white == RookTerms(b.whitePawns, b.blackPawns, wr, |wr|)
      && black == RookTerms(b.blackPawns, b.whitePawns, br, |br|)
  {
    white := RookScore(b.whitePawns, b.blackPawns, lists[Make(ROOK, WHITE)]);
    black := RookScore(b.blackPawns, b.whitePawns, lists[Make(ROOK, BLACK)]);
  }

  /** One rook loop; `f0` is the file of the rook before, -1 before the first. */
  method RookScore(own: bv64, enemy: bv64, rooks: seq<int>) returns (score: int)
    requires forall j {:trigger rooks[j]} :: 0 <= j < |rooks| ==> OnBoard(rooks[j])
    ensures score == RookTerms(own, enemy, rooks, |rooks|)
  {
    score := 0;
    var f0 := -1;
    for i := 0 to |rooks|
      invariant score == RookTerms(own, enemy, rooks, i)
      invariant f0 == if i == 0 then -1 else FileOf(rooks[i - 1])
    {
      var rookSquare := rooks[i];
      var rookFile := rookSquare % 8;
      if rookFile == f0 {
        score := score + DOUBLED_ROOK_BONUS;
      }
      f0 := rookFile;
      var isOpenOwn := And(FileBitboard(rookFile), own) == 0;
      var isOpenEnemy := And(FileBitboard(rookFile), enemy) == 0;
      score := score + ROOK_FILE_SCORES[if isOpenOwn then 0 else 1][if isOpenEnemy then 0 else 1];
    }
  }

  /** The pawn shields of the two kings (lines 275-283). */
  method PawnShields(lists: seq<seq<int>>, b: Bitboards) returns (white: int, black: int)
    requires |lists| == 32
    requires forall c, k {:trigger lists[c][k]} :: 0 <= c < 32 && 0 <= k < |lists[c]| ==> OnBoard(lists[c][k])
    requires |lists[Make(KING, WHITE)]| > 0 && |lists[Make(KING, BLACK)]| > 0
    ensures white == PawnShield(b.whitePawns, lists[Make(KING, WHITE)][0])
    ensures black == PawnShield(b.blackPawns, lists[Make(KING, BLACK)][0])
  {
    var whiteKingSquare := lists[Make(KING, WHITE)][0];
    var blackKingSquare := lists[Make(KING, BLACK)][0];
    var whiteKingOnFlank := whiteKingSquare % 8 <= 2 || whiteKingSquare % 8 >= 6;
    var blackKingOnFlank := blackKingSquare % 8 <= 2 || blackKingSquare % 8 >= 6;
    white := if whiteKingOnFlank then PopCount(And(b.whitePawns, KingAttackBitboard(whiteKingSquare))) else 0;
    black := if blackKingOnFlank then PopCount(And(b.blackPawns, KingAttackBitboard(blackKingSquare))) else 0;
  }
}
