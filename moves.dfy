/**
 * The move record (Chess/Move.cs). A `Move` object is created from a start square, a
 * target square and the board array it reads the two pieces from, and then decorated by
 * the builders, each of which sets one field and returns the same object. The board,
 * the move generator and the search only ever read a move after it is built, so they work
 * on `MoveData`, the value of its fields.
 */
module Moves {
  import opened Wrappers
  import opened Pieces
  import opened MoveHelper

  /** The fields of a `Move`. */
  datatype MoveData = MoveData(
    start: int,
    target: int,
    movedPiece: nat,
    capturedPiece: nat,
    promotion: nat,
    isCastling: bool,
    isEnPassant: bool,
    isDoublePawnMove: bool)

  class Move {
    var start: int
    var target: int
    var movedPiece: nat
    var capturedPiece: nat
    var promotion: nat
    var isCastling: bool
    var isEnPassant: bool
    var isDoublePawnMove: bool

    function Value(): MoveData
      reads this
    {
      MoveData(start, target, movedPiece, capturedPiece, promotion, isCastling, isEnPassant, isDoublePawnMove)
    }

    /** `new Move(start, target, b)`: the pieces come from `b.board`; no promotion, no flag. */
    constructor(start: int, target: int, board: array<nat>)
      requires 0 <= start < board.Length && 0 <= target < board.Length
      ensures Value() == MoveData(start, target, board[start], board[target], NONE, false, false, false)
    {
      this.start := start;
      this.target := target;
      this.movedPiece := board[start];
      this.capturedPiece := board[target];
      this.promotion := NONE;
      this.isCastling := false;
      this.isEnPassant := false;
      this.isDoublePawnMove := false;
    }

    method PromoteTo(promotion: nat) returns (r: Move)
      modifies this
      ensures r == this && Value() == old(Value()).(promotion := promotion)
    {
      this.promotion := promotion;
      r := this;
    }

    method EnPassant() returns (r: Move)
      modifies this
      ensures r == this && Value() == old(Value()).(isEnPassant := true)
    {
      isEnPassant := true;
      r := this;
    }

    method DoublePawnMove() returns (r: Move)
      modifies this
      ensures r == this && Value() == old(Value()).(isDoublePawnMove := true)
    {
      isDoublePawnMove := true;
      r := this;
    }

    method Castling() returns (r: Move)
      modifies this
      ensures r == this && Value() == old(Value()).(isCastling := true)
    {
      isCastling := true;
      r := this;
    }
  }

  /** `Equals(obj)`: `obj` is a move (not null) with the same start and target square. */
  predicate Equals(m: MoveData, obj: Option<MoveData>)
  {
    obj.Some? && obj.value.start == m.start && obj.value.target == m.target
  }

  /** `GetHashCode`. */
  function HashCode(m: MoveData): int
  {
    m.start * 64 + m.target
  }

  /** `Equals` is an equivalence on moves and false for null. */
  lemma EqualsIsEquivalence(a: MoveData, b: MoveData, c: MoveData)
    ensures Equals(a, Some(a))
    ensures !Equals(a, None)
    ensures Equals(a, Some(b)) == Equals(b, Some(a))
    ensures Equals(a, Some(b)) && Equals(b, Some(c)) ==> Equals(a, Some(c))
  {
  }

  /** Promotion, the pieces and the flags play no part in `Equals`. */
  lemma EqualsIgnoresDetails(a: MoveData, b: MoveData)
    ensures Equals(a, Some(b)) <==>
      (a.(movedPiece := 0, capturedPiece := 0, promotion := 0, isCastling := false, isEnPassant := false, isDoublePawnMove := false)
       == b.(movedPiece := 0, capturedPiece := 0, promotion := 0, isCastling := false, isEnPassant := false, isDoublePawnMove := false))
  {
  }

  /**
   * `GetHashCode` agrees with `Equals`: equal moves have equal hash codes, and for moves
   * between squares of the board the converse holds as well.
   */
  lemma HashCodeMatchesEquals(a: MoveData, b: MoveData)
    ensures Equals(a, Some(b)) ==> HashCode(a) == HashCode(b)
    ensures OnBoard(a.start) && OnBoard(a.target) && OnBoard(b.start) && OnBoard(b.target) ==>
      (HashCode(a) == HashCode(b) <==> Equals(a, Some(b)))
  {
  }

  const FILES: string := "abcdefgh"
  const RANKS: string := "12345678"

  /** `SquareToAlgebraicNotation`: the file letter, then the rank digit. */
  function SquareToAlgebraicNotation(square: int): (r: string)
    requires OnBoard(square)
    ensures |r| == 2
  {
    [FILES[square % 8], RANKS[square / 8]]
  }

  /** The square named by a file letter and a rank digit, the inverse of the above. */
  function ParseSquare(name: string): Option<int>
  {
    if |name| == 2 && 'a' <= name[0] <= 'h' && '1' <= name[1] <= '8'
    then Some((name[1] as int - '1' as int) * 8 + (name[0] as int - 'a' as int))
    else None
  }

  /** The i-th letter and digit are 'a' + i and '1' + i. */
  lemma Letters(i: int)
    requires 0 <= i < 8
    ensures FILES[i] as int == 'a' as int + i && RANKS[i] as int == '1' as int + i
  {
    if i == 0 {} else if i == 1 {} else if i == 2 {} else if i == 3 {}
    else if i == 4 {} else if i == 5 {} else if i == 6 {} else {}
  }

  /** Reading the name of a square gives the square back. */
  lemma SquareRoundTrip(square: int)
    requires OnBoard(square)
    ensures ParseSquare(SquareToAlgebraicNotation(square)) == Some(square)
  {
    Letters(square % 8);
    Letters(square / 8);
  }

  /** Distinct squares have distinct names. */
  lemma SquareNamesDistinct(s: int, t: int)
    requires OnBoard(s) && OnBoard(t) && s != t
    ensures SquareToAlgebraicNotation(s) != SquareToAlgebraicNotation(t)
  {
    SquareRoundTrip(s);
    SquareRoundTrip(t);
  }

  /** The promotion suffix: empty for NONE, else the lower-cased FEN letter of the code. */
  function PromotionSuffix(promotion: nat): Result<string>
  {
    if promotion == NONE then Success("")
    else match ToFenString(promotion)
      case Failure(e) => Failure(e)
      case Success(letter) => Success([ToLower(letter)])
  }

  /** `ToAlgebraicNotation`, e.g. "e2e4" or "e7e8q". The unassigned type code throws. */
  function ToAlgebraicNotation(m: MoveData): Result<string>
    requires OnBoard(m.start) && OnBoard(m.target)
  {
    match PromotionSuffix(m.promotion)
    case Failure(e) => Failure(e)
    case Success(suffix) => Success(SquareToAlgebraicNotation(m.start) + SquareToAlgebraicNotation(m.target) + suffix)
  }

  /**
   * The notation is the two square names, followed by the lower-case letter of the
   * promotion type when there is one; it fails only for the unassigned type code.
   */
  lemma NotationShape(m: MoveData)
    requires OnBoard(m.start) && OnBoard(m.target)
    ensures ToAlgebraicNotation(m).Failure? <==> m.promotion != NONE && TypeOf(m.promotion) == PIECE_MASK
    ensures ToAlgebraicNotation(m).Success? ==>
      var r := ToAlgebraicNotation(m).value;
      && |r| == (if m.promotion == NONE then 4 else 5)
      && r[..2] == SquareToAlgebraicNotation(m.start)
      && r[2..4] == SquareToAlgebraicNotation(m.target)
      && (m.promotion != NONE ==> r[4] == TypeLetter(TypeOf(m.promotion)).value)
  {
    ToFenCases(m.promotion);
    if m.promotion != NONE && TypeOf(m.promotion) != PIECE_MASK {
      LowerOfLetter(m.promotion);
    }
  }

  /** Lower-casing the FEN letter of a code gives the type's own letter. */
  lemma LowerOfLetter(p: nat)
    requires TypeOf(p) != PIECE_MASK
    ensures ToFenString(p).Success? && ToLower(ToFenString(p).value) == TypeLetter(TypeOf(p)).value
  {
    var t := TypeOf(p);
    assert t == NONE || t == PAWN || t == BISHOP || t == KNIGHT || t == ROOK || t == QUEEN || t == KING;
  }

  /** Reading the two squares and the promotion type back out of a move's notation. */
  function ParseNotation(name: string): Option<(int, int, nat)>
  {
    if |name| != 4 && |name| != 5 then None
    else match (ParseSquare(name[..2]), ParseSquare(name[2..4]))
      case (Some(s), Some(t)) =>
        if |name| == 4 then Some((s, t, NONE))
        else if name[4] in "pbnrqk" then Some((s, t, LetterType(name[4])))
        else None
      case _ => None
  }

  /** The notation of a move to a piece type names its squares and promotion type exactly. */
  lemma NotationRoundTrip(m: MoveData)
    requires OnBoard(m.start) && OnBoard(m.target)
    requires m.promotion == NONE || IsType(TypeOf(m.promotion))
    ensures ToAlgebraicNotation(m).Success?
    ensures ParseNotation(ToAlgebraicNotation(m).value) == Some((m.start, m.target, TypeOf(m.promotion)))
  {
    NotationShape(m);
    var r := ToAlgebraicNotation(m).value;
    SquareRoundTrip(m.start);
    SquareRoundTrip(m.target);
    assert r[..2] == SquareToAlgebraicNotation(m.start);
  }
}
