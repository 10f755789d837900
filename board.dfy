/**
 * The `Board` class (Chess/Board.cs): the 64-square array, the piece lists, the
 * bitboards, the two keys, the castling mask, the en-passant square, the ply counter and
 * the stack of saved states, changed in place by the four move operations. Each method is
 * proved to leave exactly the `Position` that the functions of positions.dfy compute from
 * the old one, so the round-trip lemmas of position_facts.dfy hold of the class too.
 *
 * The four bitboard fields are kept together in one `Bitboards` field, and each of the
 * source's branches over them is the function of positions.dfy that makes it. An
 * exception of the source is a `false` result; what the fields hold after it is not
 * described.
 */
module Boards {
  import opened Wrappers
  import opened Pieces
  import opened Moves
  import opened MoveHelper
  import opened Positions
  import MK = MaterialKey
  import Z = ZobristKey
  import Fen

  class Board {
    const board: array<nat>
    var castlingRights: nat
    var states: seq<BoardState>
    var pieceLists: seq<seq<int>>
    var positionKey: bv64
    var materialKey: nat
    var us: nat
    var them: nat
    var enPassant: int
    var ply: int
    var bitboards: Bitboards

    /** The fields as a value. */
    function View(): Position
      reads this, board
    {
      Position(board[..], castlingRights, states, pieceLists, positionKey, materialKey, us, them, enPassant, ply, bitboards)
    }

    ghost predicate Valid()
      reads this, board
    {
      WellFormed(View())
    }

    /** The saved state `SubmitMove` and `SubmitNullMove` push (lines 126-137, 163-174). */
    function Saved(last: Option<MoveData>): (r: BoardState)
      reads this
      ensures r == Snapshot(View(), last)
    {
      BoardState(positionKey, materialKey, enPassant, castlingRights, last, bitboards)
    }

    /** The fields before the body of `new Board(fen)` runs (lines 33-57, 62-65). */
    constructor Empty()
      ensures View() == Fen.Initial() && fresh(board)
    {
      board := new nat[64](_ => NONE);
      castlingRights := 0;
      states := [];
      pieceLists := seq(32, _ => []);
      positionKey := 0;
      materialKey := 0;
      us := 0;
      them := 0;
      enPassant := -1;
      ply := 0;
      bitboards := Bitboards(0, 0, 0, 0);
      new;
      assert board[..] == seq(64, _ => NONE);
    }

    /**
     * `new Board(fen)` (lines 60-122): a board is built, or the constructor throws. A FEN
     * string is read as the position `ParseFen` gives.
     */
    static method FromFen(fen: string) returns (r: Result<Board>)
      ensures r.Success? <==> Fen.ParseFen(fen).Success?
      ensures r.Success? ==> fresh(r.value) && r.value.View() == Fen.ParseFen(fen).value
    {
      var b := new Board.Empty();
      var fields := Fen.Split(fen, ' ');
      var ranks := Fen.Split(fields[0], '/');
      if |ranks| < 8 {
        return Failure("Index was outside the bounds of the array.");
      }
      var ok := b.PlaceRanks(ranks);
      if !ok {
        return Failure("Index was outside the bounds of the array.");
      }
      if |fields| < 3 {
        return Failure("Index was outside the bounds of the array.");
      }
      b.ReadTurnAndRights(fields[1], fields[2]);
      r := Success(b);
    }

    /** Lines 110-121: the side to move, and one castling bit for each letter present. */
    method ReadTurnAndRights(side: string, castling: string)
      modifies this
      ensures View() == old(View()).(us := Fen.SideOf(side), them := OtherColor(Fen.SideOf(side)),
                                     castlingRights := Fen.CastlingRightsOf(castling))
    {
      us := if side == "w" then WHITE else BLACK;
      them := OtherColor(us);
      var rights := 0;
      if 'Q' in castling {
        rights := Fen.AddRight(rights, WHITE_QUEENSIDE_CASTLE);
      }
      if 'K' in castling {
        rights := Fen.AddRight(rights, WHITE_KINGSIDE_CASTLE);
      }
      if 'q' in castling {
        rights := Fen.AddRight(rights, BLACK_QUEENSIDE_CASTLE);
      }
      if 'k' in castling {
        rights := Fen.AddRight(rights, BLACK_KINGSIDE_CASTLE);
      }
      castlingRights := rights;
    }

    /** Lines 67-107: the eight ranks, rank r from the placement field's piece `7 - r`. */
    method PlaceRanks(ranks: seq<string>) returns (ok: bool)
      requires |ranks| >= 8 && Fen.Fillable(View())
      modifies this, board
      ensures ok == Fen.RanksPlacements(ranks, 0).Success?
      ensures ok ==> View() == Fen.After(old(View()), Fen.RanksPlacements(ranks, 0).value)
    {
      ghost var base := View();
      ghost var done: seq<Fen.Placement> := [];
      Fen.ThenNone(Fen.RanksPlacements(ranks, 0));
      for rank := 0 to 8
        invariant Fen.Fits(done) && View() == Fen.After(base, done)
        invariant Fen.RanksPlacements(ranks, 0) == Fen.Then(Success(done), Fen.RanksPlacements(ranks, rank))
      {
        Fen.RanksUnfold(ranks, rank);
        ok := PlaceRank(rank, ranks[7 - rank]);
        if !ok {
          return;
        }
        ghost var here := Fen.RankPlacements(rank, ranks[7 - rank], 0).value;
        Fen.AfterAppend(base, done, here);
        Fen.ThenAppend(done, here, Fen.RanksPlacements(ranks, rank + 1));
        done := done + here;
      }
      assert done + [] == done;
      ok := true;
    }

    /** Lines 73-106 for one rank: digits skip files, letters place pieces from file 0 on. */
    method PlaceRank(rank: nat, data: string) returns (ok: bool)
      requires Fen.Fillable(View())
      modifies this, board
      ensures ok == Fen.RankPlacements(rank, data, 0).Success?
      ensures ok ==> View() == Fen.After(old(View()), Fen.RankPlacements(rank, data, 0).value)
    {
      ghost var base := View();
      ghost var done: seq<Fen.Placement> := [];
      var file: nat := 0;
      var j := 0;
      assert data[0..] == data;
      Fen.ThenNone(Fen.RankPlacements(rank, data, 0));
      while j < |data|
        invariant 0 <= j <= |data| && Fen.Fits(done) && View() == Fen.After(base, done)
        invariant Fen.RankPlacements(rank, data, 0) == Fen.Then(Success(done), Fen.RankPlacements(rank, data[j..], file))
      {
        Fen.RankStep(rank, data, j, file);
        ghost var step := Fen.CharPlacement(rank, file, data[j]);
        ok, file := ReadChar(rank, file, data[j]);
        if !ok {
          return;
        }
        Fen.AfterAppend(base, done, step.value.0);
        Fen.ThenAppend(done, step.value.0, Fen.RankPlacements(rank, data[j + 1..], file));
        done := done + step.value.0;
        j := j + 1;
      }
      assert data[j..] == [];
      assert done + [] == done;
      ok := true;
    }

    /** Lines 77-105 for one character: a digit moves the file on, a letter places its piece. */
    method ReadChar(rank: nat, file: nat, c: char) returns (ok: bool, next: nat)
      requires Fen.Fillable(View())
      modifies this, board
      ensures ok == Fen.CharPlacement(rank, file, c).Success?
      ensures ok ==> next == Fen.CharPlacement(rank, file, c).value.1
      ensures ok ==> View() == Fen.After(old(View()), Fen.CharPlacement(rank, file, c).value.0)
    {
      if Fen.IsDigit(c) {
        assert Fen.After(View(), []) == View();
        return true, file + Fen.Digit(c);
      }
      var piece := FromFenString(c);
      if piece.Failure? {
        return false, file;
      }
      var pos := rank * 8 + file;
      if pos >= 64 {
        return false, file;
      }
      Fen.FenLetterCode(c);
      PutPieceOn(piece.value, pos);
      Fen.AfterSnoc(old(View()), [], Fen.Placement(piece.value, pos));
      assert [] + [Fen.Placement(piece.value, pos)] == [Fen.Placement(piece.value, pos)];
      return true, file + 1;
    }

    /** Lines 84-104: the square, and for a piece its material count, its list and its bitboard. */
    method PutPieceOn(piece: nat, pos: int)
      requires Fen.Fillable(View()) && 0 <= pos < 64 && piece < 32
      modifies this, board
      ensures View() == Fen.Put(old(View()), Fen.Placement(piece, pos))
    {
      board[pos] := piece;
      if piece != NONE {
        materialKey := MK.AddPiece(piece, materialKey);
        pieceLists := AddTo(pieceLists, piece, pos);
        if piece == Make(PAWN, WHITE) {
          bitboards := bitboards.(whitePawns := SetSquare(bitboards.whitePawns, pos));
        } else if piece == Make(PAWN, BLACK) {
          bitboards := bitboards.(blackPawns := SetSquare(bitboards.blackPawns, pos));
        } else if ColorOf(piece) == WHITE {
          bitboards := bitboards.(whitePieces := SetSquare(bitboards.whitePieces, pos));
        } else {
          bitboards := bitboards.(blackPieces := SetSquare(bitboards.blackPieces, pos));
        }
      }
    }

    /**
     * `SubmitMove(move)` (lines 161-372), as written: the castling side's rook list loses
     * square 0 and gains square 3 whichever rook moved, and a king move skips the corner
     * checks (see README, Findings). Each step of the source changes one field and reads only that field, the move and
     * the colours, so the steps are grouped here field by field, each in the source's
     * order. The source throws on an illegal castling target after it has changed the
     * other fields; here that check comes first.
     */
    method SubmitMove(m: MoveData, t: Z.Table) returns (ok: bool)
      requires Valid() && MoveFits(us, m) && Z.IsTable(t)
      modifies this, board
      ensures ok == SubmitMoveSpec(old(View()), m, t).Success?
      ensures ok ==> SubmitMoveSpec(old(View()), m, t) == Success(View())
      ensures ok ==> Valid()
    {
      if IllegalCastling(m) {
        return false;
      }
      ApplyMove(m, t);
      ok := true;
    }

    /** The rest of `SubmitMove(move)`, once the move is known not to be an illegal castling. */
    method ApplyMove(m: MoveData, t: Z.Table)
      requires Valid() && MoveFits(us, m) && Z.IsTable(t) && !IllegalCastling(m)
      modifies this, board
      ensures SubmitMoveSpec(old(View()), m, t) == Success(View())
      ensures Valid()
    {
      SubmitMoveStages(View(), m, t);
      var side := us;
      PushState(Some(m));
      FinishMove(m, side);
      MovePieces(m, side, t);
    }

    /** Lines 126-137, 141 and 163-175: the current state goes on the stack and the ply counter goes up. */
    method PushState(last: Option<MoveData>)
      modifies this`states, this`ply
      ensures View() == Pushed(old(View()), last)
    {
      states := states + [Saved(last)];
      ply := ply + 1;
    }

    /** The squares, the piece lists, the two keys and the bitboards. */
    method MovePieces(m: MoveData, side: nat, t: Z.Table)
      requires board.Length == 64 && |pieceLists| == 32 && MK.IsKey(materialKey)
      requires MoveFits(side, m) && IsColor(side) && Z.IsTable(t) && !IllegalCastling(m)
      modifies board, this`pieceLists, this`materialKey, this`positionKey, this`bitboards
      ensures View() == Moved(old(View()), m, side, t)
    {
      MoveKeys(m, side, t);
      MoveOnBoard(m, side);
    }

    /** The squares, the piece lists and the bitboards. */
    method MoveOnBoard(m: MoveData, side: nat)
      requires board.Length == 64 && |pieceLists| == 32
      requires MoveFits(side, m) && IsColor(side) && !IllegalCastling(m)
      modifies board, this`pieceLists, this`bitboards
      ensures View() == old(View()).(squares := SubmitSquares(old(board[..]), m, side),
                                     pieceLists := SubmitListsAsWritten(old(pieceLists), m, side),
                                     bitboards := SubmitBitboards(old(bitboards), m, side))
    {
      MoveOnBitboards(m, side);
      MoveOnLists(m, side);
      MoveOnSquares(m, side);
    }

    /** The material key and the position key. */
    method MoveKeys(m: MoveData, side: nat, t: Z.Table)
      requires MK.IsKey(materialKey) && MoveFits(side, m) && IsColor(side) && Z.IsTable(t)
      requires !IllegalCastling(m)
      modifies this`materialKey, this`positionKey
      ensures View() == old(View()).(materialKey := SubmitMaterial(old(materialKey), m, side),
                                     positionKey := SubmitKey(old(positionKey), m, side, t))
    {
      MoveOnMaterial(m, side);
      MoveOnKey(m, side, t);
    }

    /** Lines 265-274, 300-322 and 368-370: the en-passant square, the rights, and the side to move. */
    method FinishMove(m: MoveData, side: nat)
      modifies this`enPassant, this`castlingRights, this`us, this`them
      ensures View() == Passed(old(View()), m, side)
    {
      enPassant := if m.isDoublePawnMove then CaptureSquare(side, m.target) else -1;
      RevokeRights(m);
      us := them;
      them := OtherColor(us);
    }

    /** Lines 176, 181, 206, 279, 351-352: the squares the move empties and fills. */
    method MoveOnSquares(m: MoveData, side: nat)
      requires board.Length == 64 && MoveFits(side, m) && !IllegalCastling(m)
      modifies board
      ensures board[..] == SubmitSquares(old(board[..]), m, side)
    {
      board[m.start] := NONE;
      if m.promotion != NONE {
        board[m.target] := PromotedPiece(m.movedPiece, m.promotion);
      } else {
        board[m.target] := m.movedPiece;
      }
      if m.isEnPassant {
        board[CaptureSquare(side, m.target)] := NONE;
      }
      match CastlingRook(m)
      case None =>
      case Some((rookStart, rookEnd)) =>
        board[rookStart] := NONE;
        board[rookEnd] := Make(ROOK, side);
    }

    /** Lines 177, 182, 207, 239, 278, 353-354: the piece lists. */
    method MoveOnLists(m: MoveData, side: nat)
      requires |pieceLists| == 32 && MoveFits(side, m) && IsColor(side)
      modifies this`pieceLists
      ensures pieceLists == SubmitListsAsWritten(old(pieceLists), m, side)
    {
      pieceLists := RemoveFrom(pieceLists, m.movedPiece, m.start);
      if m.promotion != NONE {
        pieceLists := AddTo(pieceLists, PromotedPiece(m.movedPiece, m.promotion), m.target);
      } else {
        pieceLists := AddTo(pieceLists, m.movedPiece, m.target);
      }
      if m.capturedPiece != NONE {
        pieceLists := RemoveFrom(pieceLists, m.capturedPiece, m.target);
      }
      if m.isEnPassant {
        ColouredHasList(PAWN, OtherColor(side));
        pieceLists := RemoveFrom(pieceLists, Make(PAWN, OtherColor(side)), CaptureSquare(side, m.target));
      }
      match CastlingRook(m)
      case None =>
      case Some(_) =>
        var rook := Make(ROOK, side);
        ColouredHasList(ROOK, side);
        pieceLists := RemoveFrom(pieceLists, rook, 0);
        pieceLists := AddTo(pieceLists, rook, 3);
    }

    /** Lines 186-187, 241, 282: the material key. */
    method MoveOnMaterial(m: MoveData, side: nat)
      requires MK.IsKey(materialKey) && MoveFits(side, m) && IsColor(side)
      modifies this`materialKey
      ensures materialKey == SubmitMaterial(old(materialKey), m, side)
    {
      if m.promotion != NONE {
        materialKey := MK.RemovePiece(m.movedPiece, materialKey);
        materialKey := MK.AddPiece(PromotedPiece(m.movedPiece, m.promotion), materialKey);
      }
      if m.capturedPiece != NONE {
        materialKey := MK.RemovePiece(m.capturedPiece, materialKey);
      }
      if m.isEnPassant {
        ColouredHasList(PAWN, OtherColor(side));
        materialKey := MK.RemovePiece(Make(PAWN, OtherColor(side)), materialKey);
      }
    }

    /** Lines 189-190, 212, 243, 285, 355, 371: the position key. */
    method MoveOnKey(m: MoveData, side: nat, t: Z.Table)
      requires Z.IsTable(t) && MoveFits(side, m) && IsColor(side)
      modifies this`positionKey
      ensures positionKey == SubmitKey(old(positionKey), m, side, t)
    {
      if m.promotion != NONE {
        positionKey := Z.PieceMoved(m.movedPiece, m.start, -1, positionKey, t);
        positionKey := Z.PieceMoved(PromotedPiece(m.movedPiece, m.promotion), m.target, -1, positionKey, t);
      } else {
        positionKey := Z.PieceMoved(m.movedPiece, m.start, m.target, positionKey, t);
      }
      if m.capturedPiece != NONE {
        positionKey := Z.PieceMoved(m.capturedPiece, m.target, -1, positionKey, t);
      }
      if m.isEnPassant {
        ColouredHasList(PAWN, OtherColor(side));
        positionKey := Z.PieceMoved(Make(PAWN, OtherColor(side)), CaptureSquare(side, m.target), -1, positionKey, t);
      }
      match CastlingRook(m) {
        case None =>
        case Some((rookStart, rookEnd)) =>
          ColouredHasList(ROOK, side);
          positionKey := Z.PieceMoved(Make(ROOK, side), rookStart, rookEnd, positionKey, t);
      }
      positionKey := Z.ColorChanged(positionKey);
    }

    /** Lines 193-202, 214-233, 245-260, 288-296, 357-366: the four bitboards. */
    method MoveOnBitboards(m: MoveData, side: nat)
      modifies this`bitboards
      ensures bitboards == SubmitBitboards(old(bitboards), m, side)
    {
      if m.promotion != NONE {
        bitboards := PromotedOnBitboards(bitboards, side, m.start, m.target);
      } else {
        bitboards := MovedOnBitboards(bitboards, m.movedPiece, side, m.start, m.target);
      }
      if m.capturedPiece != NONE {
        bitboards := CapturedOnBitboards(bitboards, m.capturedPiece, side, m.target);
      }
      if m.isEnPassant {
        bitboards := EnPassantOnBitboards(bitboards, side, CaptureSquare(side, m.target));
      }
      match CastlingRook(m)
      case None =>
      case Some((rookStart, rookEnd)) =>
        bitboards := MovedOnBitboards(bitboards, Make(ROOK, side), side, rookStart, rookEnd);
    }

    /** Lines 300-322: a king move keeps only the other side's rights, any other move checks the four corners. */
    method RevokeRights(m: MoveData)
      modifies this`castlingRights
      ensures castlingRights == RevokedRightsAsWritten(old(castlingRights), m)
    {
      if m.movedPiece == Make(KING, WHITE) {
        castlingRights := KeepColorRights(castlingRights, BLACK);
      } else if m.movedPiece == Make(KING, BLACK) {
        castlingRights := KeepColorRights(castlingRights, WHITE);
      } else {
        if m.start == 0 || m.target == 0 {
          castlingRights := ClearRight(castlingRights, WHITE_QUEENSIDE_CASTLE);
        }
        if m.start == 7 || m.target == 7 {
          castlingRights := ClearRight(castlingRights, WHITE_KINGSIDE_CASTLE);
        }
        if m.start == 56 || m.target == 56 {
          castlingRights := ClearRight(castlingRights, BLACK_QUEENSIDE_CASTLE);
        }
        if m.start == 63 || m.target == 63 {
          castlingRights := ClearRight(castlingRights, BLACK_KINGSIDE_CASTLE);
        }
      }
    }

    /**
     * `UndoMove()` (lines 374-461). The source pops the state and restores the fields
     * before it reads the move; a null move, a move off the board or an illegal castling
     * target then throws. Here those checks come first.
     */
    method UndoMove() returns (ok: bool)
      requires Valid()
      modifies this, board
      ensures ok == UndoMoveSpec(old(View())).Success?
      ensures ok ==> UndoMoveSpec(old(View())) == Success(View())
      ensures ok ==> Valid()
    {
      if |states| == 0 {
        return false;
      }
      var last := states[|states| - 1].lastMove;
      var side := them;
      if last.None? || !MoveFits(side, last.value) || IllegalCastling(last.value) {
        return false;
      }
      ok := UndoLastMove(last.value, side);
    }

    /** The rest of `UndoMove()`, once the saved move is known to fit the board. */
    method UndoLastMove(m: MoveData, side: nat) returns (ok: bool)
      requires Valid() && |states| > 0 && states[|states| - 1].lastMove == Some(m) && side == them
      requires MoveFits(side, m) && !IllegalCastling(m)
      modifies this, board
      ensures ok == UndoMoveSpec(old(View())).Success?
      ensures ok ==> UndoMoveSpec(old(View())) == Success(View())
      ensures ok ==> Valid()
    {
      RestoreState();
      var tooMany := UnmovePieces(m, side);
      ok := !tooMany;
    }

    /** `states.Pop()`. */
    method PopState() returns (state: BoardState)
      requires |states| > 0
      modifies this`states
      ensures state == old(states)[|old(states)| - 1] && states == old(states)[..|old(states)| - 1]
    {
      state := states[|states| - 1];
      states := states[..|states| - 1];
    }

    /**
     * Lines 376-388: the saved state comes off the stack and gives back the keys, the
     * bitboards, the en-passant square and the rights; the other side moves.
     */
    method RestoreState()
      requires |states| > 0
      modifies this`states, this`positionKey, this`materialKey, this`bitboards, this`ply, this`us, this`them, this`enPassant, this`castlingRights
      ensures var state := old(states)[|old(states)| - 1];
        && states == old(states)[..|old(states)| - 1]
        && positionKey == state.positionKey && materialKey == state.materialKey && bitboards == state.bitboards
        && ply == old(ply) - 1 && us == old(them) && them == OtherColor(old(them))
        && enPassant == state.enPassant && castlingRights == state.castlingRights
    {
      var state := PopState();
      positionKey := state.positionKey;
      materialKey := state.materialKey;
      bitboards := state.bitboards;
      ply := ply - 1;
      us := them;
      them := OtherColor(us);
      enPassant := state.enPassant;
      castlingRights := state.castlingRights;
    }

    /** The squares and the piece lists of an undone move, and whether a list ends up too long. */
    method UnmovePieces(m: MoveData, side: nat) returns (tooMany: bool)
      requires board.Length == 64 && |pieceLists| == 32 && MoveFits(side, m) && IsColor(side) && !IllegalCastling(m)
      modifies board, this`pieceLists
      ensures board[..] == UndoSquares(old(board[..]), m, side)
      ensures pieceLists == UndoLists(old(pieceLists), m, side)
      ensures tooMany == TooMany(pieceLists)
    {
      UnmoveOnSquares(m, side);
      UnmoveOnLists(m, side);
      tooMany := TooManyOfType();
    }

    /** Lines 390-391, 410, 420-445: the squares the move emptied and filled are put back. */
    method UnmoveOnSquares(m: MoveData, side: nat)
      requires board.Length == 64 && MoveFits(side, m) && !IllegalCastling(m)
      modifies board
      ensures board[..] == UndoSquares(old(board[..]), m, side)
    {
      board[m.start] := m.movedPiece;
      board[m.target] := m.capturedPiece;
      if m.isEnPassant {
        board[CaptureSquare(side, m.target)] := Make(PAWN, OtherColor(side));
      }
      match CastlingRook(m)
      case None =>
      case Some((rookStart, rookEnd)) =>
        board[rookStart] := Make(ROOK, UncastlingColor(m.target));
        board[rookEnd] := NONE;
    }

    /** Lines 393-405, 411, 422-447: the piece lists are put back. */
    method UnmoveOnLists(m: MoveData, side: nat)
      requires |pieceLists| == 32 && MoveFits(side, m) && IsColor(side)
      modifies this`pieceLists
      ensures pieceLists == UndoLists(old(pieceLists), m, side)
    {
      if m.promotion != NONE {
        pieceLists := RemoveFrom(pieceLists, PromotedPiece(m.movedPiece, m.promotion), m.target);
      } else {
        pieceLists := RemoveFrom(pieceLists, m.movedPiece, m.target);
      }
      pieceLists := AddTo(pieceLists, m.movedPiece, m.start);
      if m.capturedPiece != NONE {
        pieceLists := AddTo(pieceLists, m.capturedPiece, m.target);
      }
      if m.isEnPassant {
        ColouredHasList(PAWN, OtherColor(side));
        pieceLists := AddTo(pieceLists, Make(PAWN, OtherColor(side)), CaptureSquare(side, m.target));
      }
      match CastlingRook(m)
      case None =>
      case Some((rookStart, rookEnd)) =>
        var rook := Make(ROOK, UncastlingColor(m.target));
        ColouredHasList(ROOK, UncastlingColor(m.target));
        pieceLists := RemoveFrom(pieceLists, rook, rookEnd);
        pieceLists := AddTo(pieceLists, rook, rookStart);
    }

    /** Lines 454-460: whether some piece list holds more than ten squares. */
    method TooManyOfType() returns (r: bool)
      requires |pieceLists| == 32
      ensures r == TooMany(pieceLists)
    {
      for k := 0 to |PIECE_TYPES|
        invariant forall j {:trigger PIECE_TYPES[j]} :: 0 <= j < k ==> !(PIECE_TYPES[j] < 32 && |pieceLists[PIECE_TYPES[j]]| > 10)
      {
        var pieceType := PIECE_TYPES[k];
        if pieceType < 32 && |pieceLists[pieceType]| > 10 {
          return true;
        }
      }
      return false;
    }

    /** `SubmitNullMove()` (lines 124-145): the other side moves, with no en-passant square. */
    method SubmitNullMove()
      requires Valid()
      modifies this
      ensures View() == SubmitNullMoveSpec(old(View()))
      ensures Valid()
    {
      PushState(None);
      enPassant := -1;
      us := them;
      them := OtherColor(us);
      positionKey := Z.ColorChanged(positionKey);
    }

    /** `UndoNullMove()` (lines 147-158); popping an empty stack throws. */
    method UndoNullMove() returns (ok: bool)
      requires Valid()
      modifies this
      ensures ok == UndoNullMoveSpec(old(View())).Success?
      ensures ok ==> UndoNullMoveSpec(old(View())) == Success(View())
      ensures ok ==> Valid()
    {
      if |states| == 0 {
        return false;
      }
      var state := PopState();
      positionKey := state.positionKey;
      ply := ply - 1;
      us := them;
      them := OtherColor(us);
      enPassant := state.enPassant;
      castlingRights := state.castlingRights;
      ok := true;
    }
  }

  // The three stages of `SubmitMove`, each the effect of one method of `Board` above.

  /** The state is saved and the ply counter goes up. */
  function Pushed(p: Position, last: Option<MoveData>): Position
  {
    p.(states := p.states + [Snapshot(p, last)], ply := p.ply + 1)
  }

  /** The en-passant square and the rights are set, and the other side moves. */
  function Passed(p: Position, m: MoveData, side: nat): Position
  {
    p.(enPassant := SubmitEnPassant(m, side), castlingRights := RevokedRightsAsWritten(p.castlingRights, m),
       us := p.them, them := OtherColor(p.them))
  }

  /** The pieces move on the squares, the lists, the keys and the bitboards. */
  function Moved(p: Position, m: MoveData, side: nat, t: Z.Table): Position
    requires |p.squares| == 64 && |p.pieceLists| == 32 && MK.IsKey(p.materialKey)
    requires MoveFits(side, m) && IsColor(side) && Z.IsTable(t)
  {
    p.(squares := SubmitSquares(p.squares, m, side),
       pieceLists := SubmitListsAsWritten(p.pieceLists, m, side),
       materialKey := SubmitMaterial(p.materialKey, m, side),
       positionKey := SubmitKey(p.positionKey, m, side, t),
       bitboards := SubmitBitboards(p.bitboards, m, side))
  }

  lemma SubmitMoveStages(p: Position, m: MoveData, t: Z.Table)
    requires WellFormed(p) && MoveFits(p.us, m) && Z.IsTable(t) && !IllegalCastling(m)
    ensures SubmitMoveSpec(p, m, t) == Success(Moved(Passed(Pushed(p, Some(m)), m, p.us), m, p.us, t))
  {
  }
}
