/**
 * Properties of the board operations (Chess/Board.cs), proved about the functions of
 * module Positions: what `List.Remove` does, the null move and its undo, the castling
 * rights a move revokes, and that `UndoMove` takes back what `SubmitMove` did.
 */
module PositionFacts {
  import opened Wrappers
  import opened Pieces
  import opened Moves
  import opened MoveHelper
  import opened Positions
  import opened Bits
  import Z = ZobristKey

  // ---------------------------------------------------------------------------------
  // List.Remove

  /** `Remove` of an absent value changes nothing. */
  lemma {:induction false} ListRemoveAbsent(l: seq<int>, x: int)
    requires x !in l
    ensures ListRemove(l, x) == l
  {
    if |l| > 0 {
      assert l == [l[0]] + l[1..];
      ListRemoveAbsent(l[1..], x);
    }
  }

  /** `Remove` cuts out the first occurrence and keeps the rest in order. */
  lemma {:induction false} ListRemoveFirst(l: seq<int>, x: int, i: int)
    requires 0 <= i < |l| && l[i] == x && x !in l[..i]
    ensures ListRemove(l, x) == l[..i] + l[i + 1..]
  {
    if i > 0 {
      assert l[0] in l[..i];
      assert l[1..][..i - 1] == l[..i][1..];
      ListRemoveFirst(l[1..], x, i - 1);
      assert l[..i] == [l[0]] + l[1..][..i - 1];
    }
  }

  /** As multisets, `Remove(x)` takes away one x if there is one. */
  lemma {:induction false} ListRemoveMultiset(l: seq<int>, x: int)
    ensures multiset(ListRemove(l, x)) == multiset(l) - multiset{x}
  {
    if |l| == 0 {
    } else {
      assert l == [l[0]] + l[1..];
      ListRemoveMultiset(l[1..], x);
    }
  }

  // ---------------------------------------------------------------------------------
  // The null move

  /** `UndoNullMove` after `SubmitNullMove` gives back the position exactly. */
  lemma UndoNullAfterSubmitNull(p: Position)
    requires WellFormed(p)
    ensures UndoNullMoveSpec(SubmitNullMoveSpec(p)) == Success(p)
  {
    var q := SubmitNullMoveSpec(p);
    assert q.states[..|q.states| - 1] == p.states;
  }

  /** A null move hands the move to the other side, with no en-passant square, and pushes one state. */
  lemma SubmitNullEffect(p: Position)
    requires WellFormed(p)
    ensures var q := SubmitNullMoveSpec(p);
      && WellFormed(q) && q.us == p.them && q.them == p.us && q.enPassant == -1
      && q.states == p.states + [Snapshot(p, None)] && q.ply == p.ply + 1
      && q.squares == p.squares && q.pieceLists == p.pieceLists && q.materialKey == p.materialKey
      && q.bitboards == p.bitboards && q.castlingRights == p.castlingRights
      && q.positionKey == Z.ColorChanged(p.positionKey)
  {
  }

  // ---------------------------------------------------------------------------------
  // Castling rights

  predicate IsRight(bit: nat)
  {
    bit == WHITE_QUEENSIDE_CASTLE || bit == WHITE_KINGSIDE_CASTLE || bit == BLACK_QUEENSIDE_CASTLE || bit == BLACK_KINGSIDE_CASTLE
  }

  /** The corner of the rook a right belongs to: a1, h1, a8, h8. */
  function RightCorner(bit: nat): int
  {
    if bit == WHITE_QUEENSIDE_CASTLE then 0 else if bit == WHITE_KINGSIDE_CASTLE then 7
    else if bit == BLACK_QUEENSIDE_CASTLE then 56 else 63
  }

  function RightColor(bit: nat): nat
  {
    if bit == WHITE_QUEENSIDE_CASTLE || bit == WHITE_KINGSIDE_CASTLE then WHITE else BLACK
  }

  /** A mask below 16 is one of sixteen values. */
  lemma RightsCases(rights: nat)
    requires rights < 16
    ensures rights == 0 || rights == 1 || rights == 2 || rights == 3 || rights == 4 || rights == 5 || rights == 6 || rights == 7
      || rights == 8 || rights == 9 || rights == 10 || rights == 11 || rights == 12 || rights == 13 || rights == 14 || rights == 15
  {
  }

  /** Clearing one right keeps every other right. */
  lemma ClearRightBits(rights: nat, bit: nat, other: nat)
    requires rights < 16 && IsRight(bit) && IsRight(other)
    ensures ClearRight(rights, bit) < 16
    ensures HasRight(ClearRight(rights, bit), other) == (other != bit && HasRight(rights, other))
  {
    RightsCases(rights);
  }

  /** Keeping one colour's rights drops exactly the other colour's. */
  lemma KeepColorBits(rights: nat, color: nat, other: nat)
    requires rights < 16 && IsColor(color) && IsRight(other)
    ensures KeepColorRights(rights, color) < 16
    ensures HasRight(KeepColorRights(rights, color), other) == (RightColor(other) == color && HasRight(rights, other))
  {
    RightsCases(rights);
  }

  /** The corner checks clear exactly the rights of the corners the move touches. */
  lemma CornerRevokedExact(rights: nat, m: MoveData, bit: nat)
    requires rights < 16 && IsRight(bit)
    ensures CornerRevoked(rights, m) < 16
    ensures HasRight(CornerRevoked(rights, m), bit) <==>
      HasRight(rights, bit) && m.start != RightCorner(bit) && m.target != RightCorner(bit)
  {
    var r1 := if m.start == 0 || m.target == 0 then ClearRight(rights, WHITE_QUEENSIDE_CASTLE) else rights;
    ClearRightBits(rights, WHITE_QUEENSIDE_CASTLE, bit);
    var r2 := if m.start == 7 || m.target == 7 then ClearRight(r1, WHITE_KINGSIDE_CASTLE) else r1;
    ClearRightBits(r1, WHITE_KINGSIDE_CASTLE, bit);
    var r3 := if m.start == 56 || m.target == 56 then ClearRight(r2, BLACK_QUEENSIDE_CASTLE) else r2;
    ClearRightBits(r2, BLACK_QUEENSIDE_CASTLE, bit);
    ClearRightBits(r3, BLACK_KINGSIDE_CASTLE, bit);
  }

  /** A move keeps the right of a corner exactly when the king of that colour stays and the corner is not touched. */
  lemma RevokedRightsExact(rights: nat, m: MoveData, bit: nat)
    requires rights < 16 && IsRight(bit)
    ensures RevokedRights(rights, m) < 16
    ensures HasRight(RevokedRights(rights, m), bit) <==>
      && HasRight(rights, bit)
      && m.movedPiece != Make(KING, RightColor(bit))
      && m.start != RightCorner(bit) && m.target != RightCorner(bit)
  {
    var r :=
      if m.movedPiece == Make(KING, WHITE) then KeepColorRights(rights, BLACK)
      else if m.movedPiece == Make(KING, BLACK) then KeepColorRights(rights, WHITE)
      else rights;
    KeepColorBits(rights, BLACK, bit);
    KeepColorBits(rights, WHITE, bit);
    CornerRevokedExact(r, m, bit);
  }

  /** Rights are only ever taken away. */
  lemma RevokedRightsShrink(rights: nat, m: MoveData, bit: nat)
    requires rights < 16 && IsRight(bit)
    ensures HasRight(RevokedRights(rights, m), bit) ==> HasRight(rights, bit)
  {
    RevokedRightsExact(rights, m, bit);
  }

  /**
   * As written, a white king that captures the rook on h8 leaves black its king-side
   * right, which the corrected rule revokes.
   */
  lemma KingCaptureKeepsRightAsWritten(rights: nat, m: MoveData)
    requires rights < 16 && HasRight(rights, BLACK_KINGSIDE_CASTLE)
    requires m.movedPiece == Make(KING, WHITE) && m.target == 63
    ensures HasRight(RevokedRightsAsWritten(rights, m), BLACK_KINGSIDE_CASTLE)
    ensures !HasRight(RevokedRights(rights, m), BLACK_KINGSIDE_CASTLE)
  {
    RevokedRightsExact(rights, m, BLACK_KINGSIDE_CASTLE);
  }

  /**
   * The rights a move leaves, as written: a king move keeps exactly the other colour's
   * rights, and any other move keeps a right exactly when it does not touch that right's
   * corner.
   */
  lemma RevokedRightsAsWrittenExact(rights: nat, m: MoveData, bit: nat)
    requires rights < 16 && IsRight(bit)
    ensures RevokedRightsAsWritten(rights, m) < 16
    ensures m.movedPiece == Make(KING, WHITE) ==>
      (HasRight(RevokedRightsAsWritten(rights, m), bit) <==> HasRight(rights, bit) && RightColor(bit) == BLACK)
    ensures m.movedPiece == Make(KING, BLACK) ==>
      (HasRight(RevokedRightsAsWritten(rights, m), bit) <==> HasRight(rights, bit) && RightColor(bit) == WHITE)
    ensures m.movedPiece != Make(KING, WHITE) && m.movedPiece != Make(KING, BLACK) ==>
      (HasRight(RevokedRightsAsWritten(rights, m), bit) <==>
        HasRight(rights, bit) && m.start != RightCorner(bit) && m.target != RightCorner(bit))
  {
    KeepColorBits(rights, BLACK, bit);
    KeepColorBits(rights, WHITE, bit);
    CornerRevokedExact(rights, m, bit);
  }

  // ---------------------------------------------------------------------------------
  // UndoMove takes back SubmitMove

  /**
   * What the board promises of a move it is given: the pieces are where the move says,
   * the piece lists hold the squares the move takes pieces from, an en-passant capture
   * takes the enemy pawn behind the target, and a castling moves the king of the side to
   * move to c1, g1, c8 or g8 with the rook in its corner and the rook's target square
   * empty.
   */
  predicate Applicable(p: Position, m: MoveData)
    requires WellFormed(p)
  {
    && MoveFits(p.us, m) && !IllegalCastling(m)
    && m.start != m.target
    && ColorOf(m.movedPiece) == p.us
    && p.squares[m.start] == m.movedPiece && m.start in p.pieceLists[m.movedPiece]
    && p.squares[m.target] == m.capturedPiece
    && (m.capturedPiece != NONE ==> ColorOf(m.capturedPiece) == p.them && m.target in p.pieceLists[m.capturedPiece])
    && (m.promotion == NONE || IsType(m.promotion))
    && (m.isEnPassant ==>
          var s := CaptureSquare(p.us, m.target);
          && m.capturedPiece == NONE && !m.isCastling
          && s != m.start && s != m.target
          && p.squares[s] == Make(PAWN, p.them) && s in p.pieceLists[Make(PAWN, p.them)])
    && (m.isCastling ==>
          && m.movedPiece == Make(KING, p.us) && m.capturedPiece == NONE && m.promotion == NONE
          && UncastlingColor(m.target) == p.us
          && var rookStart := CastlingRook(m).value.0;
          && var rookEnd := CastlingRook(m).value.1;
          && rookStart != m.start && rookEnd != m.start && rookStart != m.target && rookEnd != m.target
          && p.squares[rookStart] == Make(ROOK, p.us) && p.squares[rookEnd] == NONE
          && rookStart in p.pieceLists[Make(ROOK, p.us)])
  }

  /** The squares after `SubmitMove` and `UndoMove` are the squares before. */
  lemma SquaresRoundTrip(p: Position, m: MoveData)
    requires WellFormed(p) && Applicable(p, m)
    ensures UndoSquares(SubmitSquares(p.squares, m, p.us), m, p.us) == p.squares
  {
    var b := UndoSquares(SubmitSquares(p.squares, m, p.us), m, p.us);
    forall i | 0 <= i < 64
      ensures b[i] == p.squares[i]
    {
    }
  }

  /** Removing a square from list a, seen from list c. */
  lemma RemoveFromSteps(l: seq<seq<int>>, a: nat, x: int, c: nat)
    requires a < |l| && c < |l|
    ensures multiset(RemoveFrom(l, a, x)[c]) == Step(multiset(l[c]), c == a, x, false)
  {
    ListRemoveMultiset(l[a], x);
  }

  /** Appending a square to list a, seen from list c. */
  lemma AddToSteps(l: seq<seq<int>>, a: nat, x: int, c: nat)
    requires a < |l| && c < |l|
    ensures multiset(AddTo(l, a, x)[c]) == Step(multiset(l[c]), c == a, x, true)
  {
  }

  /** One list operation, applied when the list plays the role: add or remove one square. */
  function Step(x: multiset<int>, applies: bool, square: int, add: bool): multiset<int>
  {
    if !applies then x else if add then x + multiset{square} else x - multiset{square}
  }

  /**
   * The twelve list operations of a move and its undo, as seen from one list, cancel out
   * when the list plays at most one role among captured piece, captured pawn and castled
   * rook, and never one of these together with the moved or the placed piece, and each
   * removal by the move finds its square.
   */
  lemma RoleAlgebra(x: multiset<int>, isMoved: bool, isPlaced: bool, isCaptured: bool, isPawn: bool, isRook: bool,
                    start: int, target: int, pawnSquare: int, rookStart: int, rookEnd: int)
    requires isMoved ==> start in x
    requires isCaptured ==> target in x && !isMoved && !isPlaced && !isPawn && !isRook
    requires isPawn ==> pawnSquare in x && !isMoved && !isPlaced && !isRook
    requires isRook ==> rookStart in x && !isMoved && !isPlaced
    ensures
      var y := Step(Step(Step(Step(Step(Step(x, isMoved, start, false), isPlaced, target, true), isCaptured, target, false),
                   isPawn, pawnSquare, false), isRook, rookStart, false), isRook, rookEnd, true);
      Step(Step(Step(Step(Step(Step(y, isPlaced, target, false), isMoved, start, true), isCaptured, target, true),
           isPawn, pawnSquare, true), isRook, rookEnd, false), isRook, rookStart, true) == x
  {
  }

  /** The rook squares of a move, or 0 when it is not a castling. */
  function RookFrom(m: MoveData): int
  {
    if CastlingRook(m).Some? then CastlingRook(m).value.0 else 0
  }

  function RookTo(m: MoveData): int
  {
    if CastlingRook(m).Some? then CastlingRook(m).value.1 else 0
  }

  /** `SubmitMove`'s list operations (before the rook), seen from list c. */
  lemma MovedListsSteps(l: seq<seq<int>>, m: MoveData, us: nat, c: nat)
    requires |l| == 32 && MoveFits(us, m) && IsColor(us) && c < 32
    ensures multiset(MovedLists(l, m, us)[c]) ==
      Step(Step(Step(Step(multiset(l[c]), c == m.movedPiece, m.start, false), c == Placed(m), m.target, true),
        m.capturedPiece != NONE && c == m.capturedPiece, m.target, false),
        m.isEnPassant && c == Make(PAWN, OtherColor(us)), CaptureSquare(us, m.target), false)
  {
    var pawn := Make(PAWN, OtherColor(us));
    ColouredHasList(PAWN, OtherColor(us));
    var l1 := RemoveFrom(l, m.movedPiece, m.start);
    RemoveFromSteps(l, m.movedPiece, m.start, c);
    var l2 := AddTo(l1, Placed(m), m.target);
    AddToSteps(l1, Placed(m), m.target, c);
    RemoveFromSteps(l2, m.capturedPiece, m.target, c);
    var l3 := if m.capturedPiece != NONE then RemoveFrom(l2, m.capturedPiece, m.target) else l2;
    RemoveFromSteps(l3, pawn, CaptureSquare(us, m.target), c);
  }

  /** The rook's list operations of `SubmitMove`, seen from list c. */
  lemma CastledListsSteps(l: seq<seq<int>>, m: MoveData, us: nat, c: nat)
    requires |l| == 32 && IsColor(us) && c < 32
    ensures multiset(CastledLists(l, m, us)[c]) ==
      var isRook := CastlingRook(m).Some? && c == Make(ROOK, us);
      Step(Step(multiset(l[c]), isRook, RookFrom(m), false), isRook, RookTo(m), true)
  {
    ColouredHasList(ROOK, us);
    var rook := Make(ROOK, us);
    RemoveFromSteps(l, rook, RookFrom(m), c);
    AddToSteps(RemoveFrom(l, rook, RookFrom(m)), rook, RookTo(m), c);
  }

  /** `UndoMove`'s list operations (before the rook), seen from list c. */
  lemma UnmovedListsSteps(l: seq<seq<int>>, m: MoveData, us: nat, c: nat)
    requires |l| == 32 && MoveFits(us, m) && IsColor(us) && c < 32
    ensures multiset(UnmovedLists(l, m, us)[c]) ==
      Step(Step(Step(Step(multiset(l[c]), c == Placed(m), m.target, false), c == m.movedPiece, m.start, true),
        m.capturedPiece != NONE && c == m.capturedPiece, m.target, true),
        m.isEnPassant && c == Make(PAWN, OtherColor(us)), CaptureSquare(us, m.target), true)
  {
    var pawn := Make(PAWN, OtherColor(us));
    ColouredHasList(PAWN, OtherColor(us));
    var u1 := RemoveFrom(l, Placed(m), m.target);
    RemoveFromSteps(l, Placed(m), m.target, c);
    var u2 := AddTo(u1, m.movedPiece, m.start);
    AddToSteps(u1, m.movedPiece, m.start, c);
    var u3 := if m.capturedPiece != NONE then AddTo(u2, m.capturedPiece, m.target) else u2;
    AddToSteps(u2, m.capturedPiece, m.target, c);
    AddToSteps(u3, pawn, CaptureSquare(us, m.target), c);
  }

  /** The rook's list operations of `UndoMove`, seen from list c. */
  lemma UncastledListsSteps(l: seq<seq<int>>, m: MoveData, c: nat)
    requires |l| == 32 && c < 32
    ensures multiset(UncastledLists(l, m)[c]) ==
      var isRook := CastlingRook(m).Some? && c == Make(ROOK, UncastlingColor(m.target));
      Step(Step(multiset(l[c]), isRook, RookTo(m), false), isRook, RookFrom(m), true)
  {
    var rook := Make(ROOK, UncastlingColor(m.target));
    ColouredHasList(ROOK, UncastlingColor(m.target));
    RemoveFromSteps(l, rook, RookTo(m), c);
    AddToSteps(RemoveFrom(l, rook, RookTo(m)), rook, RookFrom(m), c);
  }

  /** A promotion to a piece type keeps the colour of the moved piece. */
  lemma PlacedColor(m: MoveData)
    requires m.promotion == NONE || IsType(m.promotion)
    ensures ColorOf(Placed(m)) == ColorOf(m.movedPiece)
  {
    if m.promotion != NONE {
      assert m.promotion % 4 == 0 && m.promotion / 4 * 4 == m.promotion;
      assert Placed(m) == m.promotion + m.movedPiece % 4;
    }
  }

  /**
   * The lists a move touches play distinct roles: the captured piece and the captured
   * pawn are the opponent's, and the castled rook is not the king, and each square the
   * move takes out of a list is in it.
   */
  predicate ListRoles(l: seq<seq<int>>, m: MoveData, us: nat)
    requires |l| == 32 && MoveFits(us, m) && IsColor(us)
  {
    var pawn := Make(PAWN, OtherColor(us));
    && m.start in l[m.movedPiece]
    && (m.capturedPiece != NONE ==>
          m.capturedPiece != m.movedPiece && m.capturedPiece != Placed(m) && m.target in l[m.capturedPiece])
    && (m.isEnPassant ==>
          && m.capturedPiece == NONE && !m.isCastling && pawn != m.movedPiece && pawn != Placed(m)
          && CaptureSquare(us, m.target) in l[pawn])
    && (CastlingRook(m).Some? ==>
          && m.capturedPiece == NONE && UncastlingColor(m.target) == us
          && Make(ROOK, us) != m.movedPiece && Make(ROOK, us) != Placed(m)
          && RookFrom(m) in l[Make(ROOK, us)])
  }

  lemma ApplicableListRoles(p: Position, m: MoveData)
    requires WellFormed(p) && Applicable(p, m)
    ensures ListRoles(p.pieceLists, m, p.us)
  {
    PlacedColor(m);
    var pawn := Make(PAWN, OtherColor(p.us));
    if m.capturedPiece != NONE {
      assert ColorOf(m.capturedPiece) != ColorOf(m.movedPiece);
    }
    if m.isEnPassant {
      assert ColorOf(pawn) == p.them != p.us;
    }
    if CastlingRook(m).Some? {
      assert Placed(m) == m.movedPiece == Make(KING, p.us) != Make(ROOK, p.us);
    }
  }

  /**
   * With the rook list following the rook that moved (the corrected castling update),
   * each piece list after the move and `UndoMove` holds the squares it held before, for
   * every move.
   */
  lemma CorrectedListsRoundTrip(l: seq<seq<int>>, m: MoveData, us: nat, c: nat)
    requires |l| == 32 && MoveFits(us, m) && IsColor(us) && c < 32
    requires ListRoles(l, m, us)
    ensures multiset(UndoLists(SubmitLists(l, m, us), m, us)[c]) == multiset(l[c])
  {
    var l4 := MovedLists(l, m, us);
    MovedListsSteps(l, m, us, c);
    CastledListsSteps(l4, m, us, c);
    var l5 := SubmitLists(l, m, us);
    UnmovedListsSteps(l5, m, us, c);
    UncastledListsSteps(UnmovedLists(l5, m, us), m, c);
    RoleAlgebra(multiset(l[c]), c == m.movedPiece, c == Placed(m), m.capturedPiece != NONE && c == m.capturedPiece,
      m.isEnPassant && c == Make(PAWN, OtherColor(us)), CastlingRook(m).Some? && c == Make(ROOK, us),
      m.start, m.target, CaptureSquare(us, m.target), RookFrom(m), RookTo(m));
  }

  /**
   * A move that is no castling, or a castling to c1, gets the same lists from the
   * as-written update as from the corrected one: only the rook of a1 goes to d1.
   */
  predicate ListsAsIntended(m: MoveData)
  {
    !m.isCastling || m.target == 2
  }

  lemma AsWrittenListsAgree(l: seq<seq<int>>, m: MoveData, us: nat)
    requires |l| == 32 && MoveFits(us, m) && IsColor(us) && ListsAsIntended(m)
    ensures SubmitListsAsWritten(l, m, us) == SubmitLists(l, m, us)
  {
  }

  /**
   * Each piece list after `SubmitMove` (as written) and `UndoMove` holds the squares it
   * held before, for every move but a castling to g1, c8 or g8.
   */
  lemma ListsRoundTrip(l: seq<seq<int>>, m: MoveData, us: nat, c: nat)
    requires |l| == 32 && MoveFits(us, m) && IsColor(us) && c < 32
    requires ListRoles(l, m, us) && ListsAsIntended(m)
    ensures multiset(UndoLists(SubmitListsAsWritten(l, m, us), m, us)[c]) == multiset(l[c])
  {
    AsWrittenListsAgree(l, m, us);
    CorrectedListsRoundTrip(l, m, us, c);
  }

  lemma ListsRoundTripAll(l: seq<seq<int>>, m: MoveData, us: nat)
    requires |l| == 32 && MoveFits(us, m) && IsColor(us) && ListRoles(l, m, us) && ListsAsIntended(m)
    ensures forall c {:trigger l[c]} :: 0 <= c < 32 ==>
      multiset(UndoLists(SubmitListsAsWritten(l, m, us), m, us)[c]) == multiset(l[c])
  {
    forall c | 0 <= c < 32
      ensures multiset(UndoLists(SubmitListsAsWritten(l, m, us), m, us)[c]) == multiset(l[c])
    {
      ListsRoundTrip(l, m, us, c);
    }
  }

  /** The size check of `UndoMove` only looks at the number of squares in each list. */
  lemma SameSquaresNotTooMany(a: seq<seq<int>>, b: seq<seq<int>>)
    requires |a| == 32 && |b| == 32 && !TooMany(b)
    requires forall c {:trigger b[c]} :: 0 <= c < 32 ==> multiset(a[c]) == multiset(b[c])
    ensures !TooMany(a)
  {
    forall k | 0 <= k < |PIECE_TYPES| && PIECE_TYPES[k] < 32
      ensures |a[PIECE_TYPES[k]]| <= 10
    {
      assert |a[PIECE_TYPES[k]]| == |multiset(a[PIECE_TYPES[k]])|;
      assert |b[PIECE_TYPES[k]]| == |multiset(b[PIECE_TYPES[k]])|;
    }
  }

  /** Two positions that differ at most in the order of the squares in their piece lists. */
  predicate SameUpToListOrder(a: Position, b: Position)
  {
    && a.(pieceLists := b.pieceLists) == b
    && |a.pieceLists| == |b.pieceLists|
    && forall c {:trigger b.pieceLists[c]} :: 0 <= c < |b.pieceLists| ==> multiset(a.pieceLists[c]) == multiset(b.pieceLists[c])
  }

  /**
   * `UndoMove` after `SubmitMove` of an applicable move restores the position: every
   * field is as before, and every piece list holds the same squares, possibly in another
   * order. Castlings to g1, c8 and g8 are excluded: as written they leave the rook lists
   * wrong (`CastledListsAsWrittenKingside`).
   */
  lemma UndoAfterSubmit(p: Position, m: MoveData, t: Z.Table)
    requires WellFormed(p) && Z.IsTable(t) && Applicable(p, m) && !TooMany(p.pieceLists) && ListsAsIntended(m)
    ensures SubmitMoveSpec(p, m, t).Success?
    ensures UndoMoveSpec(SubmitMoveSpec(p, m, t).value).Success?
    ensures SameUpToListOrder(UndoMoveSpec(SubmitMoveSpec(p, m, t).value).value, p)
  {
    var q := SubmitMoveSpec(p, m, t).value;
    assert q.states[|q.states| - 1] == Snapshot(p, Some(m));
    assert q.states[..|q.states| - 1] == p.states;
    ApplicableListRoles(p, m);
    ListsRoundTripAll(p.pieceLists, m, p.us);
    SameSquaresNotTooMany(UndoLists(q.pieceLists, m, p.us), p.pieceLists);
    SquaresRoundTrip(p, m);
  }

  /** White's kingside castling, from e1 to g1. */
  function WhiteKingside(): MoveData
  {
    MoveData(4, 6, Make(KING, WHITE), NONE, NONE, true, false, false)
  }

  /**
   * Lines 353-354 as written: after white castles kingside with rooks on a1 and h1, the
   * rook list loses a1 and gains d1 although the rook went from h1 to f1, and `UndoMove`
   * then leaves h1 in the list twice and a1 not at all.
   */
  lemma CastledListsAsWrittenKingside(l: seq<seq<int>>)
    requires |l| == 32 && l[Make(ROOK, WHITE)] == [0, 7]
    ensures SubmitListsAsWritten(l, WhiteKingside(), WHITE)[Make(ROOK, WHITE)] == [7, 3]
    ensures UndoLists(SubmitListsAsWritten(l, WhiteKingside(), WHITE), WhiteKingside(), WHITE)[Make(ROOK, WHITE)] == [7, 3, 7]
    ensures multiset(UndoLists(SubmitListsAsWritten(l, WhiteKingside(), WHITE), WhiteKingside(), WHITE)[Make(ROOK, WHITE)])
      != multiset(l[Make(ROOK, WHITE)])
  {
    var m, rook := WhiteKingside(), Make(ROOK, WHITE);
    var l4 := MovedLists(l, m, WHITE);
    assert l4[rook] == [0, 7];
    assert ListRemove([0, 7], 0) == [7];
    var l5 := SubmitListsAsWritten(l, m, WHITE);
    assert l5[rook] == [7, 3];
    assert UnmovedLists(l5, m, WHITE)[rook] == [7, 3];
    assert ListRemove([7, 3], 5) == [7, 3];
  }

  /** Black's kingside castling, from e8 to g8. */
  function BlackKingside(): MoveData
  {
    MoveData(60, 62, Make(KING, BLACK), NONE, NONE, true, false, false)
  }

  /**
   * As written, black castling kingside with rooks on a8 and h8 keeps both squares in
   * black's rook list and adds d1, a square no black rook stands on.
   */
  lemma CastledListsAsWrittenBlack(l: seq<seq<int>>)
    requires |l| == 32 && l[Make(ROOK, BLACK)] == [56, 63]
    ensures SubmitListsAsWritten(l, BlackKingside(), BLACK)[Make(ROOK, BLACK)] == [56, 63, 3]
  {
    var m, rook := BlackKingside(), Make(ROOK, BLACK);
    var l4 := MovedLists(l, m, BLACK);
    assert l4[rook] == [56, 63];
    assert ListRemove([56, 63], 0) == [56, 63];
  }

  /** The corrected update moves h1 to f1 in the list, and `UndoMove` restores it exactly. */
  lemma CastledListsKingside(l: seq<seq<int>>)
    requires |l| == 32 && l[Make(ROOK, WHITE)] == [0, 7]
    ensures SubmitLists(l, WhiteKingside(), WHITE)[Make(ROOK, WHITE)] == [0, 5]
    ensures UndoLists(SubmitLists(l, WhiteKingside(), WHITE), WhiteKingside(), WHITE)[Make(ROOK, WHITE)] == [0, 7]
  {
    var m, rook := WhiteKingside(), Make(ROOK, WHITE);
    var l4 := MovedLists(l, m, WHITE);
    assert l4[rook] == [0, 7];
    assert ListRemove([0, 7], 7) == [0];
    var l5 := SubmitLists(l, m, WHITE);
    assert l5[rook] == [0, 5];
    assert UnmovedLists(l5, m, WHITE)[rook] == [0, 5];
    assert ListRemove([0, 5], 5) == [0];
  }

  // ---------------------------------------------------------------------------------
  // What a move leaves alone

  /** The squares a move may change: its start and target, the pawn taken en passant and the castled rook's two squares. */
  predicate Touched(m: MoveData, us: nat, i: int)
  {
    || i == m.start || i == m.target
    || (m.isEnPassant && i == CaptureSquare(us, m.target))
    || (CastlingRook(m).Some? && (i == RookFrom(m) || i == RookTo(m)))
  }

  /**
   * The piece lists a move may change: the moved and the placed piece, the captured
   * piece, the pawn taken en passant, and the castling side's rooks.
   */
  predicate ListTouched(m: MoveData, us: nat, c: nat)
  {
    || c == m.movedPiece || c == Placed(m)
    || (m.capturedPiece != NONE && c == m.capturedPiece)
    || (m.isEnPassant && c == Make(PAWN, OtherColor(us)))
    || (CastlingRook(m).Some? && c == Make(ROOK, us))
  }

  /** Two sets of bitboards agree on square i. */
  predicate SameAt(a: Bitboards, b: Bitboards, i: int)
  {
    && Has(a.whitePawns, i) == Has(b.whitePawns, i)
    && Has(a.blackPawns, i) == Has(b.blackPawns, i)
    && Has(a.whitePieces, i) == Has(b.whitePieces, i)
    && Has(a.blackPieces, i) == Has(b.blackPieces, i)
  }

  /** Clearing `from` and setting `to` on one bitboard keeps every other square. */
  lemma ClearSetKeeps(b: bv64, from: int, to: int, i: int)
    requires OnBoard(from) && OnBoard(to) && i != from && i != to
    ensures Has(SetSquare(ClearSquare(b, from), to), i) == Has(b, i)
    ensures Has(ClearSquare(b, from), i) == Has(b, i)
    ensures Has(SetSquare(b, to), i) == Has(b, i)
  {
    HasClear(b, from, i);
    HasSet(ClearSquare(b, from), to, i);
    HasSet(b, to, i);
  }

  lemma MovedOnBitboardsKeeps(b: Bitboards, piece: nat, us: nat, from: int, to: int, i: int)
    requires OnBoard(from) && OnBoard(to) && i != from && i != to
    ensures SameAt(MovedOnBitboards(b, piece, us, from, to), b, i)
  {
    if piece == Make(PAWN, WHITE) {
      ClearSetKeeps(b.whitePawns, from, to, i);
    } else if piece == Make(PAWN, BLACK) {
      ClearSetKeeps(b.blackPawns, from, to, i);
    } else if us == WHITE {
      ClearSetKeeps(b.whitePieces, from, to, i);
    } else {
      ClearSetKeeps(b.blackPieces, from, to, i);
    }
  }

  lemma PromotedOnBitboardsKeeps(b: Bitboards, us: nat, from: int, to: int, i: int)
    requires OnBoard(from) && OnBoard(to) && i != from && i != to
    ensures SameAt(PromotedOnBitboards(b, us, from, to), b, i)
  {
    if us == WHITE {
      ClearSetKeeps(b.whitePawns, from, to, i);
      ClearSetKeeps(b.whitePieces, from, to, i);
    } else {
      ClearSetKeeps(b.blackPawns, from, to, i);
      ClearSetKeeps(b.blackPieces, from, to, i);
    }
  }

  lemma CapturedOnBitboardsKeeps(b: Bitboards, piece: nat, us: nat, square: int, i: int)
    requires OnBoard(square) && i != square
    ensures SameAt(CapturedOnBitboards(b, piece, us, square), b, i)
  {
    if piece == Make(PAWN, BLACK) {
      HasClear(b.blackPawns, square, i);
    } else if piece == Make(PAWN, WHITE) {
      HasClear(b.whitePawns, square, i);
    } else if us == WHITE {
      HasClear(b.blackPieces, square, i);
    } else {
      HasClear(b.whitePieces, square, i);
    }
  }

  lemma EnPassantOnBitboardsKeeps(b: Bitboards, us: nat, square: int, i: int)
    requires OnBoard(square) && i != square
    ensures SameAt(EnPassantOnBitboards(b, us, square), b, i)
  {
    if us == WHITE {
      HasClear(b.blackPawns, square, i);
    } else {
      HasClear(b.whitePawns, square, i);
    }
  }

  /** The four bitboards after a move agree with the old ones on every square the move does not touch. */
  lemma BitboardsFrame(b: Bitboards, m: MoveData, us: nat, i: int)
    requires MoveFits(us, m) && !Touched(m, us, i)
    ensures SameAt(SubmitBitboards(b, m, us), b, i)
  {
    var b1 :=
      if m.promotion != NONE then PromotedOnBitboards(b, us, m.start, m.target)
      else MovedOnBitboards(b, m.movedPiece, us, m.start, m.target);
    PromotedOnBitboardsKeeps(b, us, m.start, m.target, i);
    MovedOnBitboardsKeeps(b, m.movedPiece, us, m.start, m.target, i);
    var b2 := if m.capturedPiece != NONE then CapturedOnBitboards(b1, m.capturedPiece, us, m.target) else b1;
    CapturedOnBitboardsKeeps(b1, m.capturedPiece, us, m.target, i);
    var b3 := if m.isEnPassant then EnPassantOnBitboards(b2, us, CaptureSquare(us, m.target)) else b2;
    if m.isEnPassant {
      EnPassantOnBitboardsKeeps(b2, us, CaptureSquare(us, m.target), i);
    }
    if CastlingRook(m).Some? {
      MovedOnBitboardsKeeps(b3, Make(ROOK, us), us, RookFrom(m), RookTo(m), i);
    }
  }

  /** The squares after a move are the old ones except for the squares it touches. */
  lemma SquaresFrame(b: seq<nat>, m: MoveData, us: nat, i: int)
    requires |b| == 64 && MoveFits(us, m) && 0 <= i < 64 && !Touched(m, us, i)
    ensures SubmitSquares(b, m, us)[i] == b[i]
  {
  }

  /** The piece lists after a move, as written, are the old ones except for the lists it touches. */
  lemma ListsFrame(l: seq<seq<int>>, m: MoveData, us: nat, c: nat)
    requires |l| == 32 && MoveFits(us, m) && IsColor(us) && c < 32 && !ListTouched(m, us, c)
    ensures SubmitListsAsWritten(l, m, us)[c] == l[c]
  {
  }

  /**
   * `SubmitMove` changes nothing outside the move's squares: every other square holds
   * the same piece and has the same bit in each of the four bitboards, and every piece
   * list the move does not touch is unchanged.
   */
  lemma SubmitFrame(p: Position, m: MoveData, t: Z.Table)
    requires WellFormed(p) && MoveFits(p.us, m) && Z.IsTable(t) && !IllegalCastling(m)
    ensures SubmitMoveSpec(p, m, t).Success?
    ensures forall i :: 0 <= i < 64 && !Touched(m, p.us, i) ==>
      SubmitMoveSpec(p, m, t).value.squares[i] == p.squares[i]
    ensures forall i :: 0 <= i < 64 && !Touched(m, p.us, i) ==>
      SameAt(SubmitMoveSpec(p, m, t).value.bitboards, p.bitboards, i)
    ensures forall c :: 0 <= c < 32 && !ListTouched(m, p.us, c) ==>
      SubmitMoveSpec(p, m, t).value.pieceLists[c] == p.pieceLists[c]
  {
    var r := SubmitMoveSpec(p, m, t).value;
    assert r.squares == SubmitSquares(p.squares, m, p.us);
    assert r.bitboards == SubmitBitboards(p.bitboards, m, p.us);
    assert r.pieceLists == SubmitListsAsWritten(p.pieceLists, m, p.us);
    forall i | 0 <= i < 64 && !Touched(m, p.us, i)
      ensures r.squares[i] == p.squares[i] && SameAt(r.bitboards, p.bitboards, i)
    {
      SquaresFrame(p.squares, m, p.us, i);
      BitboardsFrame(p.bitboards, m, p.us, i);
    }
    forall c | 0 <= c < 32 && !ListTouched(m, p.us, c)
      ensures r.pieceLists[c] == p.pieceLists[c]
    {
      ListsFrame(p.pieceLists, m, p.us, c);
    }
  }

  // ---------------------------------------------------------------------------------
  // The state stack under a make and its unmake

  /** A successful `UndoMove` pops one state and lowers the ply counter. */
  lemma UndoPops(q: Position)
    requires WellFormed(q) && UndoMoveSpec(q).Success?
    ensures |q.states| > 0
    ensures UndoMoveSpec(q).value.states == q.states[..|q.states| - 1] && UndoMoveSpec(q).value.ply == q.ply - 1
  {
  }

  /**
   * A successful `SubmitMove` followed, on any position with the same stack and ply, by a
   * successful `UndoMove` leaves the stack and the ply counter as they were.
   */
  lemma MakeUnmakeKeepsStack(p: Position, m: MoveData, t: Z.Table, q: Position)
    requires WellFormed(p) && MoveFits(p.us, m) && Z.IsTable(t) && SubmitMoveSpec(p, m, t).Success?
    requires WellFormed(q) && q.states == SubmitMoveSpec(p, m, t).value.states && q.ply == SubmitMoveSpec(p, m, t).value.ply
    requires UndoMoveSpec(q).Success?
    ensures UndoMoveSpec(q).value.states == p.states && UndoMoveSpec(q).value.ply == p.ply
  {
    UndoPops(q);
    assert q.states == p.states + [Snapshot(p, Some(m))];
    assert q.states[..|q.states| - 1] == p.states;
  }

  /** The same for `SubmitNullMove` and `UndoNullMove`. */
  lemma NullMakeUnmakeKeepsStack(p: Position, q: Position)
    requires WellFormed(p) && WellFormed(q)
    requires q.states == SubmitNullMoveSpec(p).states && q.ply == SubmitNullMoveSpec(p).ply
    ensures UndoNullMoveSpec(q).Success?
    ensures UndoNullMoveSpec(q).value.states == p.states && UndoNullMoveSpec(q).value.ply == p.ply
  {
    assert q.states == p.states + [Snapshot(p, None)];
    assert q.states[..|q.states| - 1] == p.states;
  }
}
