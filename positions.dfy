/**
 * The state of a `Board` (Chess/Board.cs) as a value, and the effect of each of its
 * operations on that value. The `Board` class in board.dfy changes its fields in place and
 * proves that it does exactly what these functions say; the properties of the operations
 * are proved about the functions in position_facts.dfy.
 *
 * An exception thrown by the source is a `Failure`; the state the source leaves behind
 * after an exception is not described.
 */
module Positions {
  import opened Wrappers
  import opened Bits
  import opened Pieces
  import opened Moves
  import opened MoveHelper
  import MK = MaterialKey
  import Z = ZobristKey

  /** The bits of `CastelingRights`: white queen side, white king side, black queen side, black king side. */
  const WHITE_QUEENSIDE_CASTLE: nat := 8
  const WHITE_KINGSIDE_CASTLE: nat := 4
  const BLACK_QUEENSIDE_CASTLE: nat := 2
  const BLACK_KINGSIDE_CASTLE: nat := 1

  /** `WhitePawnBitboard`, `BlackPawnBitboard`, `WhitePiecesBitboard`, `BlackPiecesBitboard`. */
  datatype Bitboards = Bitboards(whitePawns: bv64, blackPawns: bv64, whitePieces: bv64, blackPieces: bv64)

  /** `BoardState`, one entry of the history stack; `lastMove` is `None` for a null move. */
  datatype BoardState = BoardState(
    positionKey: bv64,
    materialKey: nat,
    enPassant: int,
    castlingRights: nat,
    lastMove: Option<MoveData>,
    bitboards: Bitboards)

  /** The fields of a `Board`; the stack `states` has its top at the end. */
  datatype Position = Position(
    squares: seq<nat>,
    castlingRights: nat,
    states: seq<BoardState>,
    pieceLists: seq<seq<int>>,
    positionKey: bv64,
    materialKey: nat,
    us: nat,
    them: nat,
    enPassant: int,
    ply: int,
    bitboards: Bitboards)

  /**
   * What every `Board` keeps: the array sizes, a material key that fits a `ulong` (here
   * and in every saved state) and the two colours.
   */
  predicate WellFormed(p: Position)
  {
    && |p.squares| == 64
    && |p.pieceLists| == 32
    && MK.IsKey(p.materialKey)
    && (forall k {:trigger p.states[k]} :: 0 <= k < |p.states| ==> MK.IsKey(p.states[k].materialKey))
    && ((p.us == WHITE && p.them == BLACK) || (p.us == BLACK && p.them == WHITE))
  }

  // ---------------------------------------------------------------------------------
  // Small helpers: `List<int>.Remove`, castling bits, the promoted code

  /** `List<int>.Remove(x)`: drop the first occurrence of x, if any. */
  function ListRemove(l: seq<int>, x: int): (r: seq<int>)
    ensures |r| == if x in l then |l| - 1 else |l|
  {
    if |l| == 0 then []
    else if l[0] == x then l[1..]
    else [l[0]] + ListRemove(l[1..], x)
  }

  /** `pieceList[code].Remove(square)`. */
  function RemoveFrom(l: seq<seq<int>>, code: nat, square: int): (r: seq<seq<int>>)
    requires code < |l|
    ensures |r| == |l|
  {
    l[code := ListRemove(l[code], square)]
  }

  /** `pieceList[code].Add(square)`. */
  function AddTo(l: seq<seq<int>>, code: nat, square: int): (r: seq<seq<int>>)
    requires code < |l|
    ensures |r| == |l|
  {
    l[code := l[code] + [square]]
  }

  /** `rights & ~bit` for one of the four single-bit masks. */
  function ClearRight(rights: nat, bit: nat): nat
    requires bit > 0
  {
    if rights / bit % 2 == 1 then rights - bit else rights
  }

  /** Whether the castling mask holds a bit. */
  predicate HasRight(rights: nat, bit: nat)
    requires bit > 0
  {
    rights / bit % 2 == 1
  }

  /** `a | b` on two-bit values. */
  function Or2(a: nat, b: nat): nat
    requires a < 4 && b < 4
  {
    if a == b || b == 0 then a else if a == 0 then b else 3
  }

  /** `(COLOR_MASK & moved) | promotion`, the code a promotion puts on the target square. */
  function PromotedPiece(moved: nat, promotion: nat): nat
  {
    promotion / 4 * 4 + Or2(moved % 4, promotion % 4)
  }

  /** The square of the pawn an en-passant capture takes: behind the target. */
  function CaptureSquare(us: nat, target: int): int
  {
    if us == WHITE then target - 8 else target + 8
  }

  /** A code whose `pieceList` entry exists; the others are null in the source. */
  predicate HasList(code: nat)
  {
    code < 32 && IsPiece(code)
  }

  /** Each type in each colour has a piece list. */
  lemma ColouredHasList(t: nat, c: nat)
    requires IsType(t) && IsColor(c)
    ensures HasList(Make(t, c))
  {
    assert Make(t, c) in PIECE_TYPES;
  }

  /**
   * What applying or undoing m for the side `us` needs to touch only existing squares and
   * piece lists (the source would otherwise throw an index or null-reference exception).
   */
  predicate MoveFits(us: nat, m: MoveData)
  {
    && OnBoard(m.start) && OnBoard(m.target)
    && HasList(m.movedPiece)
    && (m.capturedPiece == NONE || HasList(m.capturedPiece))
    && (m.promotion == NONE || HasList(PromotedPiece(m.movedPiece, m.promotion)))
    && (m.isEnPassant ==> OnBoard(CaptureSquare(us, m.target)))
  }

  /** The piece a move leaves on its target square. */
  function Placed(m: MoveData): nat
  {
    if m.promotion != NONE then PromotedPiece(m.movedPiece, m.promotion) else m.movedPiece
  }

  lemma PlacedHasList(us: nat, m: MoveData)
    requires MoveFits(us, m)
    ensures HasList(Placed(m))
  {
  }

  /** Lines 329-349 and 417-449: the rook a castling to a target square moves, from where to where. */
  function RookSquares(target: int): Option<(int, int)>
  {
    if target == 2 then Some((0, 3))
    else if target == 6 then Some((7, 5))
    else if target == 58 then Some((56, 59))
    else if target == 62 then Some((63, 61))
    else None
  }

  /** The rook a move displaces: none unless it is a castling to c1, g1, c8 or g8. */
  function CastlingRook(m: MoveData): (r: Option<(int, int)>)
    ensures r.Some? ==> OnBoard(r.value.0) && OnBoard(r.value.1) && r.value.0 != r.value.1
  {
    if m.isCastling then RookSquares(m.target) else None
  }

  /** A castling move to any other square is illegal and throws, on submit and on undo. */
  predicate IllegalCastling(m: MoveData)
  {
    m.isCastling && RookSquares(m.target).None?
  }

  function Snapshot(p: Position, last: Option<MoveData>): BoardState
  {
    BoardState(p.positionKey, p.materialKey, p.enPassant, p.castlingRights, last, p.bitboards)
  }

  // ---------------------------------------------------------------------------------
  // SubmitMove (Chess/Board.cs:161-372). Each step of the source changes one field and
  // reads only that field, the move and the colours, which change last; so the new
  // value of each field is a function of its old value, given here in the source's order.

  /** Lines 176, 181, 206, 279, 351-352: the squares a move empties and fills. */
  function SubmitSquares(b: seq<nat>, m: MoveData, us: nat): (r: seq<nat>)
    requires |b| == 64 && MoveFits(us, m)
    ensures |r| == 64
  {
    var b := b[m.start := NONE][m.target := Placed(m)];
    var b := if m.isEnPassant then b[CaptureSquare(us, m.target) := NONE] else b;
    SubmitCastledSquares(b, m, us)
  }

  /** Lines 351-352: a castling empties the rook's corner and puts the rook next to the king. */
  function SubmitCastledSquares(b: seq<nat>, m: MoveData, us: nat): (r: seq<nat>)
    requires |b| == 64
    ensures |r| == 64
  {
    match CastlingRook(m)
    case None => b
    case Some((rookStart, rookEnd)) => b[rookStart := NONE][rookEnd := Make(ROOK, us)]
  }

  /** Lines 177, 182, 207, 239, 278: the lists of the moved, promoted and captured pieces. */
  function MovedLists(l: seq<seq<int>>, m: MoveData, us: nat): (r: seq<seq<int>>)
    requires |l| == 32 && MoveFits(us, m) && IsColor(us)
    ensures |r| == 32
  {
    var l := AddTo(RemoveFrom(l, m.movedPiece, m.start), Placed(m), m.target);
    var l := if m.capturedPiece != NONE then RemoveFrom(l, m.capturedPiece, m.target) else l;
    if m.isEnPassant then
      var pawn := Make(PAWN, OtherColor(us));
      ColouredHasList(PAWN, OtherColor(us));
      RemoveFrom(l, pawn, CaptureSquare(us, m.target))
    else l
  }

  /**
   * Lines 353-354 as written: the list of the castling side's rooks loses square 0 and
   * gains square 3, whichever rook moved.
   */
  function CastledListsAsWritten(l: seq<seq<int>>, m: MoveData, us: nat): (r: seq<seq<int>>)
    requires |l| == 32 && IsColor(us)
    ensures |r| == 32
  {
    match CastlingRook(m)
    case None => l
    case Some(_) =>
      var rook := Make(ROOK, us);
      ColouredHasList(ROOK, us);
      AddTo(RemoveFrom(l, rook, 0), rook, 3)
  }

  /** The rook list follows the rook that moved: it loses the rook's corner and gains its new square. */
  function CastledLists(l: seq<seq<int>>, m: MoveData, us: nat): (r: seq<seq<int>>)
    requires |l| == 32 && IsColor(us)
    ensures |r| == 32
  {
    match CastlingRook(m)
    case None => l
    case Some((rookStart, rookEnd)) =>
      var rook := Make(ROOK, us);
      ColouredHasList(ROOK, us);
      AddTo(RemoveFrom(l, rook, rookStart), rook, rookEnd)
  }

  function SubmitListsAsWritten(l: seq<seq<int>>, m: MoveData, us: nat): (r: seq<seq<int>>)
    requires |l| == 32 && MoveFits(us, m) && IsColor(us)
    ensures |r| == 32
  {
    CastledListsAsWritten(MovedLists(l, m, us), m, us)
  }

  function SubmitLists(l: seq<seq<int>>, m: MoveData, us: nat): (r: seq<seq<int>>)
    requires |l| == 32 && MoveFits(us, m) && IsColor(us)
    ensures |r| == 32
  {
    CastledLists(MovedLists(l, m, us), m, us)
  }

  /** Lines 186-187, 241, 282: a promotion swaps the pawn for the new piece, a capture takes one away. */
  function SubmitMaterial(key: nat, m: MoveData, us: nat): (r: nat)
    requires MK.IsKey(key) && MoveFits(us, m) && IsColor(us)
    ensures MK.IsKey(r)
  {
    var k := if m.promotion != NONE then MK.AddPiece(Placed(m), MK.RemovePiece(m.movedPiece, key)) else key;
    var k := if m.capturedPiece != NONE then MK.RemovePiece(m.capturedPiece, k) else k;
    if m.isEnPassant then
      ColouredHasList(PAWN, OtherColor(us));
      MK.RemovePiece(Make(PAWN, OtherColor(us)), k)
    else k
  }

  /** Lines 189-190, 212, 243, 285, 355, 371: the Zobrist updates of each piece that moves or leaves. */
  function SubmitKey(key: bv64, m: MoveData, us: nat, t: Z.Table): bv64
    requires Z.IsTable(t) && MoveFits(us, m) && IsColor(us)
  {
    var k :=
      if m.promotion != NONE then Z.PieceMoved(Placed(m), m.target, -1, Z.PieceMoved(m.movedPiece, m.start, -1, key, t), t)
      else Z.PieceMoved(m.movedPiece, m.start, m.target, key, t);
    var k := if m.capturedPiece != NONE then Z.PieceMoved(m.capturedPiece, m.target, -1, k, t) else k;
    var k :=
      if m.isEnPassant then
        ColouredHasList(PAWN, OtherColor(us));
        Z.PieceMoved(Make(PAWN, OtherColor(us)), CaptureSquare(us, m.target), -1, k, t)
      else k;
    Z.ColorChanged(CastledKey(k, m, us, t))
  }

  /** Line 355: the Zobrist update of the rook a castling moves. */
  function CastledKey(key: bv64, m: MoveData, us: nat, t: Z.Table): bv64
    requires Z.IsTable(t) && IsColor(us)
  {
    match CastlingRook(m)
    case None => key
    case Some((rookStart, rookEnd)) =>
      ColouredHasList(ROOK, us);
      Z.PieceMoved(Make(ROOK, us), rookStart, rookEnd, key, t)
  }

  /** `b &= ~(1ul << s)`. */
  function ClearSquare(b: bv64, s: int): bv64
  {
    And(b, Not(Bit(s)))
  }

  /** `b |= 1ul << s`. */
  function SetSquare(b: bv64, s: int): bv64
  {
    Or(b, Bit(s))
  }

  /** The bitboard updates of a non-promoting piece moving from one square to another (lines 214-233, 357-366). */
  function MovedOnBitboards(b: Bitboards, piece: nat, us: nat, from: int, to: int): Bitboards
  {
    if piece == Make(PAWN, WHITE) then b.(whitePawns := SetSquare(ClearSquare(b.whitePawns, from), to))
    else if piece == Make(PAWN, BLACK) then b.(blackPawns := SetSquare(ClearSquare(b.blackPawns, from), to))
    else if us == WHITE then b.(whitePieces := SetSquare(ClearSquare(b.whitePieces, from), to))
    else b.(blackPieces := SetSquare(ClearSquare(b.blackPieces, from), to))
  }

  /** The bitboard updates of a promotion (lines 193-202): the pawn leaves, the piece arrives. */
  function PromotedOnBitboards(b: Bitboards, us: nat, from: int, to: int): Bitboards
  {
    if us == WHITE then b.(whitePawns := ClearSquare(b.whitePawns, from), whitePieces := SetSquare(b.whitePieces, to))
    else b.(blackPawns := ClearSquare(b.blackPawns, from), blackPieces := SetSquare(b.blackPieces, to))
  }

  /** The bitboard updates of a capture on a square (lines 245-260). */
  function CapturedOnBitboards(b: Bitboards, piece: nat, us: nat, square: int): Bitboards
  {
    if piece == Make(PAWN, BLACK) then b.(blackPawns := ClearSquare(b.blackPawns, square))
    else if piece == Make(PAWN, WHITE) then b.(whitePawns := ClearSquare(b.whitePawns, square))
    else if us == WHITE then b.(blackPieces := ClearSquare(b.blackPieces, square))
    else b.(whitePieces := ClearSquare(b.whitePieces, square))
  }

  /** The bitboard update of an en-passant capture (lines 288-296): the opponent's pawn leaves. */
  function EnPassantOnBitboards(b: Bitboards, us: nat, square: int): Bitboards
  {
    if us == WHITE then b.(blackPawns := ClearSquare(b.blackPawns, square))
    else b.(whitePawns := ClearSquare(b.whitePawns, square))
  }

  /** Lines 193-202, 214-233, 245-260, 288-296, 357-366: the four bitboards. */
  function SubmitBitboards(b: Bitboards, m: MoveData, us: nat): Bitboards
  {
    var b :=
      if m.promotion != NONE then PromotedOnBitboards(b, us, m.start, m.target)
      else MovedOnBitboards(b, m.movedPiece, us, m.start, m.target);
    var b := if m.capturedPiece != NONE then CapturedOnBitboards(b, m.capturedPiece, us, m.target) else b;
    var b := if m.isEnPassant then EnPassantOnBitboards(b, us, CaptureSquare(us, m.target)) else b;
    CastledOnBitboards(b, m, us)
  }

  /** Lines 357-366: the castled rook moves on its side's piece bitboard. */
  function CastledOnBitboards(b: Bitboards, m: MoveData, us: nat): Bitboards
  {
    match CastlingRook(m)
    case None => b
    case Some((rookStart, rookEnd)) => MovedOnBitboards(b, Make(ROOK, us), us, rookStart, rookEnd)
  }

  /** Lines 265-274: the en-passant square is behind a double push and none otherwise. */
  function SubmitEnPassant(m: MoveData, us: nat): int
  {
    if m.isDoublePawnMove then CaptureSquare(us, m.target) else -1
  }

  /** Lines 313-322: a move from or to a corner clears the right of that corner's rook. */
  function CornerRevoked(rights: nat, m: MoveData): nat
  {
    var r := if m.start == 0 || m.target == 0 then ClearRight(rights, WHITE_QUEENSIDE_CASTLE) else rights;
    var r := if m.start == 7 || m.target == 7 then ClearRight(r, WHITE_KINGSIDE_CASTLE) else r;
    var r := if m.start == 56 || m.target == 56 then ClearRight(r, BLACK_QUEENSIDE_CASTLE) else r;
    if m.start == 63 || m.target == 63 then ClearRight(r, BLACK_KINGSIDE_CASTLE) else r
  }

  /** `rights & (KINGSIDE | QUEENSIDE)` of one colour: keep only that colour's two bits. */
  function KeepColorRights(rights: nat, color: nat): nat
  {
    if color == WHITE then rights / 4 % 4 * 4 else rights % 4
  }

  /**
   * Lines 300-322 as written: a king move revokes its own side's rights and skips the
   * corner checks, so a king capturing a rook on its corner leaves that rook's right.
   */
  function RevokedRightsAsWritten(rights: nat, m: MoveData): nat
  {
    if m.movedPiece == Make(KING, WHITE) then KeepColorRights(rights, BLACK)
    else if m.movedPiece == Make(KING, BLACK) then KeepColorRights(rights, WHITE)
    else CornerRevoked(rights, m)
  }

  /** The rights a move revokes: a king move revokes its side's rights, and corners always count. */
  function RevokedRights(rights: nat, m: MoveData): nat
  {
    var r :=
      if m.movedPiece == Make(KING, WHITE) then KeepColorRights(rights, BLACK)
      else if m.movedPiece == Make(KING, BLACK) then KeepColorRights(rights, WHITE)
      else rights;
    CornerRevoked(r, m)
  }

  /**
   * `SubmitMove(move)`: push the current state, apply the move to every field and hand
   * the move to the other side. It fails only on a castling move to a square other than
   * c1, g1, c8 and g8.
   */
  function SubmitMoveSpec(p: Position, m: MoveData, t: Z.Table): (r: Result<Position>)
    requires WellFormed(p) && MoveFits(p.us, m) && Z.IsTable(t)
    ensures r.Success? ==> WellFormed(r.value) && r.value.us == p.them && r.value.them == p.us
  {
    if IllegalCastling(m) then Failure("Illegal casteling move")
    else
      Success(Position(
        squares := SubmitSquares(p.squares, m, p.us),
        castlingRights := RevokedRightsAsWritten(p.castlingRights, m),
        states := p.states + [Snapshot(p, Some(m))],
        pieceLists := SubmitListsAsWritten(p.pieceLists, m, p.us),
        positionKey := SubmitKey(p.positionKey, m, p.us, t),
        materialKey := SubmitMaterial(p.materialKey, m, p.us),
        us := p.them,
        them := OtherColor(p.them),
        enPassant := SubmitEnPassant(m, p.us),
        ply := p.ply + 1,
        bitboards := SubmitBitboards(p.bitboards, m, p.us)))
  }

  // ---------------------------------------------------------------------------------
  // UndoMove (Chess/Board.cs:374-461). The saved state gives back the keys, the
  // bitboards, the en-passant square and the rights; the squares and the lists are
  // rebuilt from the move. Here `us` is the side that made the move.

  /** The colour whose rook a castling to a target square moves back (lines 419-446). */
  function UncastlingColor(target: int): nat
  {
    if target < 8 then WHITE else BLACK
  }

  /** Lines 390-391, 410, 420-445: the squares the move emptied and filled are put back. */
  function UndoSquares(b: seq<nat>, m: MoveData, us: nat): (r: seq<nat>)
    requires |b| == 64 && MoveFits(us, m)
    ensures |r| == 64
  {
    var b := b[m.start := m.movedPiece][m.target := m.capturedPiece];
    var b := if m.isEnPassant then b[CaptureSquare(us, m.target) := Make(PAWN, OtherColor(us))] else b;
    match CastlingRook(m)
    case None => b
    case Some((rookStart, rookEnd)) => b[rookStart := Make(ROOK, UncastlingColor(m.target))][rookEnd := NONE]
  }

  /** Lines 393-405, 411, 422-447: the piece lists are put back. */
  function UnmovedLists(l: seq<seq<int>>, m: MoveData, us: nat): (r: seq<seq<int>>)
    requires |l| == 32 && MoveFits(us, m) && IsColor(us)
    ensures |r| == 32
  {
    var l := AddTo(RemoveFrom(l, Placed(m), m.target), m.movedPiece, m.start);
    var l := if m.capturedPiece != NONE then AddTo(l, m.capturedPiece, m.target) else l;
    if m.isEnPassant then
      var pawn := Make(PAWN, OtherColor(us));
      ColouredHasList(PAWN, OtherColor(us));
      AddTo(l, pawn, CaptureSquare(us, m.target))
    else l
  }

  function UncastledLists(l: seq<seq<int>>, m: MoveData): (r: seq<seq<int>>)
    requires |l| == 32
    ensures |r| == 32
  {
    match CastlingRook(m)
    case None => l
    case Some((rookStart, rookEnd)) =>
      var rook := Make(ROOK, UncastlingColor(m.target));
      ColouredHasList(ROOK, UncastlingColor(m.target));
      AddTo(RemoveFrom(l, rook, rookEnd), rook, rookStart)
  }

  function UndoLists(l: seq<seq<int>>, m: MoveData, us: nat): (r: seq<seq<int>>)
    requires |l| == 32 && MoveFits(us, m) && IsColor(us)
    ensures |r| == 32
  {
    UncastledLists(UnmovedLists(l, m, us), m)
  }

  /** Lines 454-460: some piece list holds more than ten squares. */
  predicate TooMany(l: seq<seq<int>>)
    requires |l| == 32
  {
    exists k {:trigger PIECE_TYPES[k]} :: 0 <= k < |PIECE_TYPES| && PIECE_TYPES[k] < 32 && |l[PIECE_TYPES[k]]| > 10
  }

  /**
   * `UndoMove()`. It fails on an empty stack, on a null move's state, on a move whose
   * squares or codes do not exist, on an illegal castling target and when a piece list
   * ends up longer than ten.
   */
  function UndoMoveSpec(p: Position): (r: Result<Position>)
    requires WellFormed(p)
    ensures r.Success? ==> WellFormed(r.value) && r.value.us == p.them && r.value.them == p.us
  {
    if |p.states| == 0 then Failure("Stack empty")
    else
      var state := p.states[|p.states| - 1];
      var us := p.them;
      if state.lastMove.None? then Failure("Null reference")
      else if !MoveFits(us, state.lastMove.value) then Failure("Index out of range")
      else if IllegalCastling(state.lastMove.value) then Failure("Illegal casteling move")
      else
        var m := state.lastMove.value;
        var lists := UndoLists(p.pieceLists, m, us);
        if TooMany(lists) then Failure("Too much of type")
        else
          Success(Position(
            squares := UndoSquares(p.squares, m, us),
            castlingRights := state.castlingRights,
            states := p.states[..|p.states| - 1],
            pieceLists := lists,
            positionKey := state.positionKey,
            materialKey := state.materialKey,
            us := us,
            them := OtherColor(us),
            enPassant := state.enPassant,
            ply := p.ply - 1,
            bitboards := state.bitboards))
  }

  // ---------------------------------------------------------------------------------
  // The null move (Chess/Board.cs:124-158)

  /** `SubmitNullMove()`: the other side moves next, with no en-passant square. */
  function SubmitNullMoveSpec(p: Position): (r: Position)
    requires WellFormed(p)
    ensures WellFormed(r)
  {
    p.(states := p.states + [Snapshot(p, None)],
       enPassant := -1,
       ply := p.ply + 1,
       us := p.them,
       them := OtherColor(p.them),
       positionKey := Z.ColorChanged(p.positionKey))
  }

  /** `UndoNullMove()`: restores the key, the en-passant square and the castling rights only. */
  function UndoNullMoveSpec(p: Position): (r: Result<Position>)
    requires WellFormed(p)
    ensures r.Success? ==> WellFormed(r.value)
  {
    if |p.states| == 0 then Failure("Stack empty")
    else
      var state := p.states[|p.states| - 1];
      Success(p.(states := p.states[..|p.states| - 1],
                 positionKey := state.positionKey,
                 ply := p.ply - 1,
                 us := p.them,
                 them := OtherColor(p.them),
                 enPassant := state.enPassant,
                 castlingRights := state.castlingRights))
  }
}
