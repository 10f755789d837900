/**
 * The class `MoveGenerator` of Chess/MoveGenerator.cs: the generator keeps the masks of
 * the last `Setup()` in its fields and reads the board it was built for. Every method
 * runs the loops of the source and is proved to end in the state, or to return the
 * moves, that the functions of module `Generation` give.
 */
module MoveGenerators {
  import opened Bits
  import opened Pieces
  import opened Moves
  import opened MoveHelper
  import opened MoveHelperFacts
  import opened BitboardUtilities
  import opened Positions
  import opened Boards
  import G = Generation

  class MoveGenerator {
    const board: Board

    /**
     * The fields `pinBitmask` to `PinsExist` of the source, as the components of one
     * record; a method that sets a field of the source sets that component.
     */
    var masks: G.Masks

    /** `new MoveGenerator(board)` (lines 35-38): every mask starts at zero. */
    constructor (board: Board)
      ensures this.board == board && masks == G.Unset
    {
      this.board := board;
      masks := G.Unset;
    }

    // -------------------------------------------------------------------------------
    // Setup

    /**
     * `Reset()` (lines 40-55). The source throws when the side to move has no king; then
     * `ok` is false and the masks are not described.
     */
    method Reset() returns (ok: bool)
      requires G.Ready(board.View())
      modifies this
      ensures ok == (|G.OwnList(board.View(), KING)| > 0)
      ensures ok ==> masks == G.Reset(old(masks), G.OwnList(board.View(), KING)[0])
    {
      masks := masks.(opponentKnightAttackMap := 0, opponentPawnAttackMap := 0, opponentRayAttackMap := 0,
        opponentKingAttackMap := 0, opponentAttackMap := 0);
      masks := masks.(pinBitmask := 0, rayCheckBitmask := 0);
      masks := masks.(inCheck := false, inDoubleCheck := false, pinsExist := false);
      var kings := board.pieceLists[Make(KING, board.us)];
      if |kings| == 0 {
        return false;
      }
      masks := masks.(ourKingSquare := kings[0]);
      ok := true;
    }

    /** `Setup()` (lines 57-61); `ok` is false where the source throws. */
    method Setup() returns (ok: bool)
      requires G.Ready(board.View())
      modifies this
      ensures ok == G.Setup(board.View(), old(masks)).Success?
      ensures ok ==> masks == G.Setup(board.View(), old(masks)).value
    {
      ok := Reset();
      if !ok {
        return;
      }
      ok := GenerateBitmasks();
    }

    /** `GenerateBitmasks()` (lines 383-488); `ok` is false where the source throws. */
    method GenerateBitmasks() returns (ok: bool)
      requires G.Ready(board.View()) && OnBoard(masks.ourKingSquare)
      modifies this
      ensures ok == G.GenerateBitmasks(board.View(), old(masks)).Success?
      ensures ok ==> masks == G.GenerateBitmasks(board.View(), old(masks)).value
    {
      ReadSides();
      GenerateRayAttackMap();
      ScanKingRays();
      DetectLeaperChecks();
      ok := Finish();
    }

    /** Lines 385-387: the pieces of either side and the free squares. */
    method ReadSides()
      requires G.Ready(board.View())
      modifies this
      ensures masks == G.Sides(board.View(), old(masks))
    {
      var b := board.bitboards;
      var enemyPieces := if board.us == WHITE then Or(b.blackPawns, b.blackPieces) else Or(b.whitePawns, b.whitePieces);
      var friendlyPieces := if board.us == WHITE then Or(b.whitePawns, b.whitePieces) else Or(b.blackPawns, b.blackPieces);
      masks := masks.(enemyPieces := enemyPieces, friendlyPieces := friendlyPieces,
        freeSquares := Not(Or(enemyPieces, friendlyPieces)));
    }

    /**
     * `GenerateRayAttackMap()` (lines 341-360): enemy rooks, then queens, then bishops.
     * The map is built in a local variable and stored at the end.
     */
    method GenerateRayAttackMap()
      requires G.Ready(board.View())
      modifies this
      ensures masks == G.RayAttacks(board.View(), old(masks))
    {
      var p := board.View();
      var king := masks.ourKingSquare;
      var attacks := GenRayAttackMapForList(G.EnemyList(p, ROOK), 0, 4, king, masks.opponentRayAttackMap);
      attacks := GenRayAttackMapForList(G.EnemyList(p, QUEEN), 0, 8, king, attacks);
      attacks := GenRayAttackMapForList(G.EnemyList(p, BISHOP), 4, 8, king, attacks);
      assert attacks == G.RayAttackMap(p, king, masks.opponentRayAttackMap);
      masks := masks.(opponentRayAttackMap := attacks);
    }

    /** One loop of `GenerateRayAttackMap` over a list of enemy pieces (lines 344-347, 350-353, 356-359). */
    method GenRayAttackMapForList(pieces: seq<int>, lo: nat, hi: nat, king: int, attacks0: bv64) returns (attacks: bv64)
      requires board.board.Length == 64 && AllOnBoard(pieces) && lo <= hi <= 8
      ensures attacks == G.RayAttackPieces(board.View(), king, pieces, 0, lo, hi, attacks0)
    {
      var p := board.View();
      attacks := attacks0;
      for i := 0 to |pieces|
        invariant G.RayAttackPieces(p, king, pieces, 0, lo, hi, attacks0) == G.RayAttackPieces(p, king, pieces, i, lo, hi, attacks)
      {
        attacks := GenRayAttackMapForPiece(pieces[i], lo, hi, king, attacks);
      }
    }

    /**
     * `GenRayAttackMapForPiece(start, lo, hi)` (lines 362-381): every square each ray
     * reaches is added to the map, and the ray may pass through our king.
     */
    method GenRayAttackMapForPiece(start: int, lo: nat, hi: nat, king: int, attacks0: bv64) returns (attacks: bv64)
      requires board.board.Length == 64 && OnBoard(start) && lo <= hi <= 8
      ensures attacks == G.RayAttackDirections(board.View(), king, start, lo, hi, attacks0)
    {
      var p := board.View();
      attacks := attacks0;
      for d := lo to hi
        invariant G.RayAttackDirections(p, king, start, lo, hi, attacks0) == G.RayAttackDirections(p, king, start, d, hi, attacks)
      {
        var before := attacks;
        var n := 1;
        while n <= EdgeDistances(start)[d]
          invariant n >= 1
          invariant G.RayAttackSteps(p, king, start, d, 1, before) == G.RayAttackSteps(p, king, start, d, n, attacks)
          decreases EdgeDistances(start)[d] + 1 - n
        {
          RayStep(start, d, n);
          var target := start + n * Directions[d];
          attacks := Or(attacks, Bit(target));
          if target != king && p.squares[target] != NONE {
            break;
          }
          n := n + 1;
        }
        assert attacks == G.RayAttackSteps(p, king, start, d, 1, before);
      }
    }

    /**
     * The king scan of `GenerateBitmasks` (lines 391-452): only the directions an enemy
     * slider could use, and none after double check is found.
     */
    method ScanKingRays()
      requires G.Ready(board.View()) && OnBoard(masks.ourKingSquare)
      modifies this
      ensures masks == G.ScanKingRays(board.View(), old(masks))
    {
      var p := board.View();
      var lo, hi := ScanRange(p);
      masks := ScanDirections(p, masks, lo, hi);
    }

    /**
     * The outer loop of the king scan (lines 398-452) on the generator's fields, held in
     * `m`: each ray's finding is recorded, and a double check stops the scan.
     */
    static method ScanDirections(p: Position, m0: G.Masks, lo: nat, hi: nat) returns (m: G.Masks)
      requires |p.squares| == 64 && OnBoard(m0.ourKingSquare) && lo <= hi <= 8
      ensures m == G.ScanDirections(p, m0, lo, hi)
    {
      m := m0;
      var d := lo;
      while d < hi
        invariant lo <= d <= hi && m.ourKingSquare == m0.ourKingSquare
        invariant G.ScanDirections(p, m0, lo, hi) == G.ScanDirections(p, m, d, hi)
        decreases hi - d
      {
        var finding := FindAlongRay(p, m.ourKingSquare, d);
        ghost var before := m;
        m := Record(m, finding);
        G.ScanDirectionsStep(p, before, d, hi, m);
        if m.inDoubleCheck {
          break;
        }
        d := d + 1;
      }
    }

    /** What the king scan does to the fields on a pin (lines 432-436) or a check (lines 438-443). */
    static method Record(m: G.Masks, finding: G.RayFinding) returns (r: G.Masks)
      ensures r == G.Found(m, finding)
    {
      r := m;
      match finding {
        case Clear =>
        case Pin(rayBitmask) =>
          r := r.(pinBitmask := Or(r.pinBitmask, rayBitmask), pinsExist := true);
        case Check(rayBitmask) =>
          r := r.(rayCheckBitmask := Or(r.rayCheckBitmask, rayBitmask), inDoubleCheck := r.inCheck, inCheck := true);
      }
    }

    /** The directions worth scanning (lines 389-396): none of a kind of slider, none of its rays. */
    static method ScanRange(p: Position) returns (startDirIndex: nat, endDirIndex: nat)
      requires G.Ready(p)
      ensures startDirIndex <= endDirIndex <= 8
      ensures (startDirIndex, endDirIndex) == G.ScanRange(p)
    {
      startDirIndex, endDirIndex := 0, 8;
      if |p.pieceLists[Make(QUEEN, p.them)]| == 0 {
        startDirIndex := if |p.pieceLists[Make(ROOK, p.them)]| > 0 then 0 else 4;
        endDirIndex := if |p.pieceLists[Make(BISHOP, p.them)]| > 0 then 8 else 4;
      }
    }

    /** The inner loop of the king scan (lines 406-447) along direction d from the king. */
    static method FindAlongRay(p: Position, king: int, d: nat) returns (finding: G.RayFinding)
      requires |p.squares| == 64 && OnBoard(king) && d < 8
      ensures finding == G.ScanRay(p, king, d, 1, false, 0)
    {
      var isFriendlyPieceAlongRay := false;
      var rayBitmask: bv64 := 0;
      var n := 1;
      while n <= EdgeDistances(king)[d]
        invariant n >= 1
        invariant G.ScanRay(p, king, d, 1, false, 0) == G.ScanRay(p, king, d, n, isFriendlyPieceAlongRay, rayBitmask)
        decreases EdgeDistances(king)[d] + 1 - n
      {
        RayStep(king, d, n);
        var target := king + n * Directions[d];
        rayBitmask := Or(rayBitmask, Bit(target));
        var piece := p.squares[target];
        if piece != NONE {
          if ColorOf(piece) == p.us {
            if !isFriendlyPieceAlongRay {
              isFriendlyPieceAlongRay := true;
            } else {
              return G.Clear;
            }
          } else {
            if !G.Slides(d, TypeOf(piece)) {
              return G.Clear;
            } else if isFriendlyPieceAlongRay {
              return G.Pin(rayBitmask);
            } else {
              return G.Check(rayBitmask);
            }
          }
        }
        n := n + 1;
      }
      return G.Clear;
    }

    /** The knight and pawn loops of `GenerateBitmasks` (lines 454-481). */
    method DetectLeaperChecks()
      requires G.Ready(board.View())
      modifies this
      ensures masks == G.LeaperChecks(board.View(), old(masks))
    {
      DetectKnightChecks();
      DetectPawnChecks();
    }

    /**
     * The knight loop (lines 455-467): each enemy knight adds its attacks to the map, and
     * the knight is recorded as a checker when the map accumulated so far holds our king
     * (see README, Findings).
     */
    method DetectKnightChecks()
      requires G.Ready(board.View())
      modifies this
      ensures masks == G.KnightChecksAsWritten(old(masks), G.EnemyList(board.View(), KNIGHT), 0)
    {
      var knights := board.pieceLists[Make(KNIGHT, board.them)];
      for i := 0 to |knights|
        invariant G.KnightChecksAsWritten(old(masks), knights, 0) == G.KnightChecksAsWritten(masks, knights, i)
      {
        var knightSquare := knights[i];
        masks := masks.(opponentKnightAttackMap := Or(masks.opponentKnightAttackMap, KnightBitboard(knightSquare)));
        if And(Bit(masks.ourKingSquare), masks.opponentKnightAttackMap) != 0 {
          masks := masks.(rayCheckBitmask := Or(masks.rayCheckBitmask, Bit(knightSquare)),
            inDoubleCheck := masks.inCheck, inCheck := true);
        }
      }
    }

    /** The pawn loop (lines 469-481), with the same test on the accumulated pawn map. */
    method DetectPawnChecks()
      requires G.Ready(board.View())
      modifies this
      ensures masks == G.PawnChecksAsWritten(old(masks), board.them, G.EnemyList(board.View(), PAWN), 0)
    {
      var pawns := board.pieceLists[Make(PAWN, board.them)];
      for i := 0 to |pawns|
        invariant G.PawnChecksAsWritten(old(masks), board.them, pawns, 0) == G.PawnChecksAsWritten(masks, board.them, pawns, i)
      {
        var pawnSquare := pawns[i];
        masks := masks.(opponentPawnAttackMap := Or(masks.opponentPawnAttackMap, PawnAttackBitboard(board.them, pawnSquare)));
        if And(Bit(masks.ourKingSquare), masks.opponentPawnAttackMap) != 0 {
          masks := masks.(rayCheckBitmask := Or(masks.rayCheckBitmask, Bit(pawnSquare)),
            inDoubleCheck := masks.inCheck, inCheck := true);
        }
      }
    }

    /** Lines 483-487; `ok` is false where the source throws (no enemy king). */
    method Finish() returns (ok: bool)
      requires G.Ready(board.View())
      modifies this
      ensures ok == G.Finish(board.View(), old(masks)).Success?
      ensures ok ==> masks == G.Finish(board.View(), old(masks)).value
    {
      if !masks.inCheck {
        masks := masks.(rayCheckBitmask := Not(0));
      }
      var kings := board.pieceLists[Make(KING, board.them)];
      if |kings| == 0 {
        return false;
      }
      var kingAttacks := KingAttackBitboard(kings[0]);
      masks := masks.(opponentKingAttackMap := kingAttacks,
        opponentAttackMap := Or(Or(Or(kingAttacks, masks.opponentKnightAttackMap), masks.opponentRayAttackMap), masks.opponentPawnAttackMap));
      ok := true;
    }

    // -------------------------------------------------------------------------------
    // The three tests on single squares (lines 134-138, 490-498)

    /** `IsPinned(square)`: pins exist and the square lies on a pin line. */
    method IsPinned(square: int) returns (r: bool)
      ensures r == G.IsPinned(masks, square)
      ensures OnBoard(square) ==> (r <==> masks.pinsExist && Has(masks.pinBitmask, square))
    {
      r := masks.pinsExist && And(masks.pinBitmask, Bit(square)) != 0;
      if OnBoard(square) {
        TestBit(masks.pinBitmask, square);
      }
    }

    /** `IsRayCheckSquare(square)`: the square answers every check (it is in the check mask). */
    method IsRayCheckSquare(square: int) returns (r: bool)
      ensures r == G.IsRayCheckSquare(masks, square)
      ensures OnBoard(square) ==> (r <==> Has(masks.rayCheckBitmask, square))
    {
      r := And(masks.rayCheckBitmask, Bit(square)) != 0;
      if OnBoard(square) {
        TestBit(masks.rayCheckBitmask, square);
      }
    }

    /** `IsMovingAlongRay(rayDir, startSquare, targetSquare)`. */
    method IsMovingAlongRay(rayDir: int, startSquare: int, targetSquare: int) returns (r: bool)
      ensures r == G.IsMovingAlongRay(rayDir, startSquare, targetSquare)
    {
      var moveDir := DirectionLookup(targetSquare - startSquare + 63);
      r := rayDir == moveDir || -rayDir == moveDir;
    }

    // -------------------------------------------------------------------------------
    // The moves (lines 64-339). A move list the source appends to is passed in and
    // handed back longer.

    /** `GetMoves(onlyCaptures)` (lines 64-105). */
    method GetMoves(onlyCaptures: bool) returns (moves: seq<MoveData>)
      requires G.Ready(board.View()) && OnBoard(masks.ourKingSquare)
      ensures moves == G.GetMoves(board.View(), masks, onlyCaptures)
    {
      ghost var p, m := board.View(), masks;
      moves := AddKingMoves([], onlyCaptures);
      assert moves == G.KingMoves(p, m);
      if masks.inDoubleCheck {
        assert moves == moves + [];
        return;
      }
      moves := AddOtherMoves(moves, onlyCaptures);
      assert moves == G.KingMoves(p, m) + G.OtherMoves(p, m, onlyCaptures);
    }

    /** What `GetMoves` adds after the king moves when not in double check (lines 75-102). */
    method AddOtherMoves(moves: seq<MoveData>, onlyCaptures: bool) returns (out: seq<MoveData>)
      requires G.Ready(board.View())
      ensures out == moves + G.OtherMoves(board.View(), masks, onlyCaptures)
    {
      var p := board.View();
      var m := masks;
      out := moves;
      ghost var castlings: seq<MoveData> := [];
      if !m.inCheck {
        out := AddCastelingMoves(out, m.ourKingSquare);
        castlings := G.CastlingMoves(p, m);
      }
      assert out == moves + castlings;
      ghost var pieces, pawns := G.PieceMoves(p, m, onlyCaptures), G.PawnMoves(p, m, onlyCaptures);
      out := AddPieceMoves(out, onlyCaptures);
      assert out == moves + castlings + pieces;
      out := AddPawnMoves(out, onlyCaptures);
      assert out == moves + castlings + pieces + pawns;
      G.AppendAssociates(moves, castlings, pieces);
      G.AppendAssociates(moves, castlings + pieces, pawns);
    }

    /** The rook, bishop, queen and knight loops of `GetMoves` (lines 78-100). */
    method AddPieceMoves(moves: seq<MoveData>, onlyCaptures: bool) returns (out: seq<MoveData>)
      requires G.Ready(board.View())
      ensures out == moves + G.PieceMoves(board.View(), masks, onlyCaptures)
    {
      var p := board.View();
      var m := masks;
      ghost var rooks := G.SliderMoves(p, m, G.OwnList(p, ROOK), 0, 0, 4, onlyCaptures);
      ghost var bishops := G.SliderMoves(p, m, G.OwnList(p, BISHOP), 0, 4, 8, onlyCaptures);
      ghost var queens := G.SliderMoves(p, m, G.OwnList(p, QUEEN), 0, 0, 8, onlyCaptures);
      ghost var knights := G.KnightsMoves(p, m, G.OwnList(p, KNIGHT), 0, onlyCaptures);
      out := AddSlidersMoves(moves, G.OwnList(p, ROOK), 0, 4, onlyCaptures);
      out := AddSlidersMoves(out, G.OwnList(p, BISHOP), 4, 8, onlyCaptures);
      out := AddSlidersMoves(out, G.OwnList(p, QUEEN), 0, 8, onlyCaptures);
      out := AddKnightsMoves(out, G.OwnList(p, KNIGHT), onlyCaptures);
      G.AppendAssociates(moves, rooks, bishops);
      G.AppendAssociates(moves, rooks + bishops, queens);
      G.AppendAssociates(moves, rooks + bishops + queens, knights);
    }

    /** One slider loop of `GetMoves` (lines 78-94). */
    method AddSlidersMoves(moves: seq<MoveData>, pieces: seq<int>, lo: nat, hi: nat, onlyCaptures: bool) returns (out: seq<MoveData>)
      requires board.board.Length == 64 && AllOnBoard(pieces) && lo <= hi <= 8
      ensures out == moves + G.SliderMoves(board.View(), masks, pieces, 0, lo, hi, onlyCaptures)
    {
      var p := board.View();
      var m := masks;
      out := moves;
      for i := 0 to |pieces|
        invariant moves + G.SliderMoves(p, m, pieces, 0, lo, hi, onlyCaptures) == out + G.SliderMoves(p, m, pieces, i, lo, hi, onlyCaptures)
      {
        ghost var before := out;
        out := AddRayMoves(out, pieces[i], lo, hi, onlyCaptures);
        G.AppendAssociates(before, G.RayMoves(p, m, pieces[i], lo, hi, onlyCaptures), G.SliderMoves(p, m, pieces, i + 1, lo, hi, onlyCaptures));
      }
    }

    /** The knight loop of `GetMoves` (lines 96-100). */
    method AddKnightsMoves(moves: seq<MoveData>, knights: seq<int>, onlyCaptures: bool) returns (out: seq<MoveData>)
      requires board.board.Length == 64 && AllOnBoard(knights)
      ensures out == moves + G.KnightsMoves(board.View(), masks, knights, 0, onlyCaptures)
    {
      var p := board.View();
      var m := masks;
      out := moves;
      for i := 0 to |knights|
        invariant moves + G.KnightsMoves(p, m, knights, 0, onlyCaptures) == out + G.KnightsMoves(p, m, knights, i, onlyCaptures)
      {
        ghost var before := out;
        out := AddKnightMoves(out, knights[i], onlyCaptures);
        G.AppendAssociates(before, G.KnightMoves(p, m, knights[i], onlyCaptures), G.KnightsMoves(p, m, knights, i + 1, onlyCaptures));
      }
    }

    /**
     * `AddRayMoves(moves, start, lo, hi, onlyCaptures)` (lines 107-133): the slides of
     * one piece along the directions lo to hi - 1.
     */
    method AddRayMoves(moves: seq<MoveData>, start: int, lo: nat, hi: nat, onlyCaptures: bool) returns (out: seq<MoveData>)
      requires board.board.Length == 64 && OnBoard(start) && lo <= hi <= 8
      ensures out == moves + G.RayMoves(board.View(), masks, start, lo, hi, onlyCaptures)
    {
      var p := board.View();
      var m := masks;
      var isPinned := IsPinned(start);
      out := moves;
      for d := lo to hi
        invariant moves + G.RayMoveDirections(p, m, start, lo, hi, onlyCaptures, isPinned)
          == out + G.RayMoveDirections(p, m, start, d, hi, onlyCaptures, isPinned)
      {
        ghost var rest := G.RayMoveDirections(p, m, start, d + 1, hi, onlyCaptures, isPinned);
        var along := IsMovingAlongRay(Directions[d], start, m.ourKingSquare);
        if isPinned && !along {
          assert [] + rest == rest;
          continue;
        }
        ghost var before := out;
        out := AddRaySlide(out, start, d, onlyCaptures);
        G.AppendAssociates(before, G.RayMoveSteps(p, m, start, d, 1, onlyCaptures), rest);
      }
    }

    /** The inner loop of `AddRayMoves` (lines 115-131) along direction d. */
    method AddRaySlide(moves: seq<MoveData>, start: int, d: nat, onlyCaptures: bool) returns (out: seq<MoveData>)
      requires board.board.Length == 64 && OnBoard(start) && d < 8
      ensures out == moves + G.RayMoveSteps(board.View(), masks, start, d, 1, onlyCaptures)
    {
      var p := board.View();
      var m := masks;
      out := moves;
      var n := 1;
      while n <= EdgeDistances(start)[d]
        invariant n >= 1
        invariant moves + G.RayMoveSteps(p, m, start, d, 1, onlyCaptures) == out + G.RayMoveSteps(p, m, start, d, n, onlyCaptures)
        decreases EdgeDistances(start)[d] + 1 - n
      {
        G.RayMoveStep(p, m, start, d, n, onlyCaptures);
        var target := start + n * Directions[d];
        var color := ColorOf(p.squares[target]);
        if color == p.us {
          break;
        }
        var isCapture := color == p.them;
        var here := [];
        if !onlyCaptures || isCapture {
          var answers := IsRayCheckSquare(target);
          if !m.inCheck || answers {
            here := [G.NewMove(p, start, target)];
          }
        }
        if isCapture {
          out := out + here;
          break;
        }
        G.AppendAssociates(out, here, G.RayMoveSteps(p, m, start, d, n + 1, onlyCaptures));
        out := out + here;
        n := n + 1;
      }
    }

    /** `AddKnightMoves(moves, start, onlyCaptures)` (lines 258-275): a pinned knight cannot move. */
    method AddKnightMoves(moves: seq<MoveData>, start: int, onlyCaptures: bool) returns (out: seq<MoveData>)
      requires board.board.Length == 64 && OnBoard(start)
      ensures out == moves + G.KnightMoves(board.View(), masks, start, onlyCaptures)
    {
      var p := board.View();
      var m := masks;
      var pinned := IsPinned(start);
      if pinned {
        return moves;
      }
      var targets := KnightMoveList(start);
      KnightListOnBoard(start);
      out := moves;
      for i := 0 to |targets|
        invariant moves + G.KnightTargetMoves(p, m, start, 0, onlyCaptures) == out + G.KnightTargetMoves(p, m, start, i, onlyCaptures)
      {
        var target := targets[i];
        var here := [];
        var answers := IsRayCheckSquare(target);
        if !m.inCheck || answers {
          var color := ColorOf(p.squares[target]);
          if color != p.us {
            if !onlyCaptures || color == p.them {
              here := [G.NewMove(p, start, target)];
            }
          }
        }
        G.AppendAssociates(out, here, G.KnightTargetMoves(p, m, start, i + 1, onlyCaptures));
        out := out + here;
      }
    }

    /**
     * `AddKingMoves(moves, onlyCaptures)` (lines 277-287): one move to each square the
     * king attacks that holds no friendly piece and that the opponent does not attack.
     */
    method AddKingMoves(moves: seq<MoveData>, onlyCaptures: bool) returns (out: seq<MoveData>)
      requires board.board.Length == 64 && OnBoard(masks.ourKingSquare)
      ensures out == moves + G.KingMoves(board.View(), masks)
    {
      var p := board.View();
      var m := masks;
      var king := m.ourKingSquare;
      var targets := And(And(KingAttackBitboard(king), Not(m.friendlyPieces)), Not(m.opponentAttackMap));
      out := moves;
      while targets != 0
        invariant moves + G.KingMoves(p, m) == out + G.KingTargetMoves(p, king, targets)
        decreases PopCount(targets)
      {
        G.KingTargetStep(p, king, targets);
        var target := TrailingZeroCount(targets);
        NonEmpty(targets);
        PopCountToggle(targets, target);
        G.AppendAssociates(out, [G.NewMove(p, king, target)], G.KingTargetMoves(p, king, Xor(targets, Bit(target))));
        out := out + [G.NewMove(p, king, target)];
        targets := Xor(targets, Bit(target));
      }
    }

    /**
     * `AddCastelingMoves(moves, start)` (lines 289-339): each castling the rights allow,
     * when the squares between king and rook are empty and those the king crosses are
     * not attacked.
     */
    method AddCastelingMoves(moves: seq<MoveData>, start: int) returns (out: seq<MoveData>)
      requires board.board.Length == 64
      ensures out == moves + G.CastlingMoves(board.View(), masks)
    {
      var p := board.View();
      out := moves;
      if p.us == WHITE {
        out := AddCastelings(out, 0, WHITE_KINGSIDE_CASTLE, WHITE_QUEENSIDE_CASTLE);
      } else {
        out := AddCastelings(out, 56, BLACK_KINGSIDE_CASTLE, BLACK_QUEENSIDE_CASTLE);
      }
    }

    /** The two castlings of one side (lines 293-319 for white, 322-338 for black). */
    method AddCastelings(moves: seq<MoveData>, base: int, kingSide: nat, queenSide: nat) returns (out: seq<MoveData>)
      requires board.board.Length == 64 && (base == 0 || base == 56) && kingSide > 0 && queenSide > 0
      ensures out == moves + G.CastlingsOn(board.View(), masks, base, kingSide, queenSide)
    {
      ghost var p, m := board.View(), masks;
      out := AddKingSideCasteling(moves, base, kingSide);
      assert out == moves + G.KingSideCastling(p, m, base, kingSide);
      out := AddQueenSideCasteling(out, base, queenSide);
      assert out == moves + G.KingSideCastling(p, m, base, kingSide) + G.QueenSideCastling(p, m, base, queenSide);
      G.AppendAssociates(moves, G.KingSideCastling(p, m, base, kingSide), G.QueenSideCastling(p, m, base, queenSide));
    }

    /** King-side castling (lines 295-312, 322-329). */
    method AddKingSideCasteling(moves: seq<MoveData>, base: int, right: nat) returns (out: seq<MoveData>)
      requires board.board.Length == 64 && (base == 0 || base == 56) && right > 0
      ensures out == moves + G.KingSideCastling(board.View(), masks, base, right)
    {
      var p := board.View();
      var b := p.squares;
      var attacked := masks.opponentAttackMap;
      out := moves;
      if HasRight(p.castlingRights, right) {
        if b[base + 5] == NONE && b[base + 6] == NONE && And(attacked, Bit(base + 5)) == 0 && And(attacked, Bit(base + 6)) == 0 {
          out := out + [G.CastlingMove(p, base + 4, base + 6)];
        }
      }
    }

    /** Queen-side castling (lines 313-319, 330-337). */
    method AddQueenSideCasteling(moves: seq<MoveData>, base: int, right: nat) returns (out: seq<MoveData>)
      requires board.board.Length == 64 && (base == 0 || base == 56) && right > 0
      ensures out == moves + G.QueenSideCastling(board.View(), masks, base, right)
    {
      var p := board.View();
      var b := p.squares;
      var attacked := masks.opponentAttackMap;
      out := moves;
      if HasRight(p.castlingRights, right) {
        if b[base + 3] == NONE && b[base + 2] == NONE && b[base + 1] == NONE && And(attacked, Bit(base + 3)) == 0 && And(attacked, Bit(base + 2)) == 0 {
          out := out + [G.CastlingMove(p, base + 4, base + 2)];
        }
      }
    }

    /** `AddPawnMoves(moves, onlyCaptures)` (lines 140-257): pushes unless only captures are asked for, then captures. */
    method AddPawnMoves(moves: seq<MoveData>, onlyCaptures: bool) returns (out: seq<MoveData>)
      requires board.board.Length == 64 && IsColor(board.us)
      ensures out == moves + G.PawnMoves(board.View(), masks, onlyCaptures)
    {
      var p := board.View();
      var m := masks;
      out := moves;
      ghost var pushes: seq<MoveData> := [];
      if !onlyCaptures {
        out := AddPawnPushes(out);
        pushes := G.PawnLoopMoves(p, m, G.SinglePush) + G.PawnLoopMoves(p, m, G.DoublePush);
      }
      assert out == moves + pushes;
      ghost var west, east := G.PawnLoopMoves(p, m, G.CaptureWest), G.PawnLoopMoves(p, m, G.CaptureEast);
      out := AddPawnCaptures(out);
      calc {
        out;
        moves + pushes + (west + east);
        { G.AppendAssociates(moves + pushes, west, east); }
        moves + pushes + west + east;
        { G.AppendAssociates(moves, pushes, west); }
        moves + (pushes + west) + east;
        { G.AppendAssociates(moves, pushes + west, east); }
        moves + (pushes + west + east);
      }
    }

    /** The single and double pushes of `AddPawnMoves` (lines 150-197). */
    method AddPawnPushes(moves: seq<MoveData>) returns (out: seq<MoveData>)
      requires board.board.Length == 64 && IsColor(board.us)
      ensures out == moves + (G.PawnLoopMoves(board.View(), masks, G.SinglePush) + G.PawnLoopMoves(board.View(), masks, G.DoublePush))
    {
      var p := board.View();
      var m := masks;
      var pseudoLegalSinglePawnMoveTargets := G.Forward(p.us, G.OurPawns(p));
      pseudoLegalSinglePawnMoveTargets := And(pseudoLegalSinglePawnMoveTargets, m.freeSquares);
      var legalSinglePawnMoveTarget := And(pseudoLegalSinglePawnMoveTargets, m.rayCheckBitmask);
      assert legalSinglePawnMoveTarget == G.PawnTargets(p, m, G.SinglePush);
      G.PawnTargetsSourced(p, m, G.SinglePush);
      out := AddPawnTargets(moves, G.SinglePush, legalSinglePawnMoveTarget);
      var doublePawnMoveTarget := G.Forward(p.us, pseudoLegalSinglePawnMoveTargets);
      doublePawnMoveTarget := And(doublePawnMoveTarget, And(And(RankBitboard(if p.us == WHITE then 3 else 4), m.freeSquares), m.rayCheckBitmask));
      assert doublePawnMoveTarget == G.PawnTargets(p, m, G.DoublePush);
      G.PawnTargetsSourced(p, m, G.DoublePush);
      out := AddPawnTargets(out, G.DoublePush, doublePawnMoveTarget);
      G.AppendAssociates(moves, G.PawnLoopMoves(p, m, G.SinglePush), G.PawnLoopMoves(p, m, G.DoublePush));
    }

    /** The captures towards file a and towards file h of `AddPawnMoves` (lines 199-256), en passant included. */
    method AddPawnCaptures(moves: seq<MoveData>) returns (out: seq<MoveData>)
      requires board.board.Length == 64 && IsColor(board.us)
      ensures out == moves + (G.PawnLoopMoves(board.View(), masks, G.CaptureWest) + G.PawnLoopMoves(board.View(), masks, G.CaptureEast))
    {
      var p := board.View();
      var m := masks;
      var captureUpWestTargets, captureUpEastTargets := CaptureTargets(p, m);
      G.PawnTargetsSourced(p, m, G.CaptureWest);
      out := AddPawnTargets(moves, G.CaptureWest, captureUpWestTargets);
      G.PawnTargetsSourced(p, m, G.CaptureEast);
      out := AddPawnTargets(out, G.CaptureEast, captureUpEastTargets);
      G.AppendAssociates(moves, G.PawnLoopMoves(p, m, G.CaptureWest), G.PawnLoopMoves(p, m, G.CaptureEast));
    }

    /** The squares our pawns capture on, en passant square included (lines 199-206). */
    static method CaptureTargets(p: Position, m: G.Masks) returns (captureUpWestTargets: bv64, captureUpEastTargets: bv64)
      ensures captureUpWestTargets == G.PawnTargets(p, m, G.CaptureWest)
      ensures captureUpEastTargets == G.PawnTargets(p, m, G.CaptureEast)
    {
      var ourPawnsBitboard := G.OurPawns(p);
      var enemyPiecesAndEnPassent := if p.enPassant >= 0 then Or(m.enemyPieces, Bit(p.enPassant)) else m.enemyPieces;
      captureUpWestTargets := if p.us == WHITE then ShiftUpLeft(ourPawnsBitboard) else ShiftDownLeft(ourPawnsBitboard);
      captureUpWestTargets := And(captureUpWestTargets, And(enemyPiecesAndEnPassent, m.rayCheckBitmask));
      captureUpEastTargets := if p.us == WHITE then ShiftUpRight(ourPawnsBitboard) else ShiftDownRight(ourPawnsBitboard);
      captureUpEastTargets := And(captureUpEastTargets, And(enemyPiecesAndEnPassent, m.rayCheckBitmask));
    }

    /**
     * One of the four bitboard loops of `AddPawnMoves` (lines 156-176, 181-196, 208-231,
     * 233-256): the target squares are taken lowest first, a pinned pawn moves only
     * along its pin line, and a move to the last rank is one move per promotion.
     */
    method AddPawnTargets(moves: seq<MoveData>, loop: G.PawnLoop, targets: bv64) returns (out: seq<MoveData>)
      requires board.board.Length == 64 && G.Sourced(board.us, loop, targets)
      ensures out == moves + G.PawnTargetLoop(board.View(), masks, loop, targets)
    {
      var p := board.View();
      var m := masks;
      var rest := targets;
      out := moves;
      while rest != 0
        invariant G.Sourced(p.us, loop, rest)
        invariant moves + G.PawnTargetLoop(p, m, loop, targets) == out + G.PawnTargetLoop(p, m, loop, rest)
        decreases PopCount(rest)
      {
        G.PawnTargetStep(p, m, loop, rest);
        var targetSquare := TrailingZeroCount(rest);
        G.AppendAssociates(out, G.PawnTargetMoves(p, m, loop, targetSquare), G.PawnTargetLoop(p, m, loop, Xor(rest, Bit(targetSquare))));
        out := AddPawnTarget(out, loop, targetSquare);
        rest := Xor(rest, Bit(targetSquare));
      }
    }

    /** The body of a pawn loop for one target square (lines 158-175, 183-195, 210-230, 235-255). */
    method AddPawnTarget(moves: seq<MoveData>, loop: G.PawnLoop, targetSquare: int) returns (out: seq<MoveData>)
      requires board.board.Length == 64 && OnBoard(targetSquare) && OnBoard(targetSquare - G.PawnOffset(board.us, loop))
      ensures out == moves + G.PawnTargetMoves(board.View(), masks, loop, targetSquare)
    {
      var p := board.View();
      var m := masks;
      var startSquare := targetSquare - G.PawnOffset(p.us, loop);
      var along := IsMovingAlongRay(G.PawnRay(p.us, loop), startSquare, m.ourKingSquare);
      if And(G.PinnedPawns(p, m), Bit(startSquare)) != 0 && !along {
        return moves;
      }
      var move := G.NewMove(p, startSquare, targetSquare);
      if loop == G.DoublePush {
        out := moves + [move.(isDoublePawnMove := true)];
      } else if targetSquare / 8 == G.PromotionRank(p.us) {
        out := moves + [move.(promotion := QUEEN)];
        out := out + [move.(promotion := ROOK)];
        out := out + [move.(promotion := BISHOP)];
        out := out + [move.(promotion := KNIGHT)];
        assert out == moves + G.Promotions(move);
      } else if loop == G.SinglePush {
        out := moves + [move];
      } else {
        if targetSquare == p.enPassant {
          move := move.(isEnPassant := true);
        }
        assert move == G.NewMove(p, startSquare, targetSquare).(isEnPassant := targetSquare == p.enPassant);
        out := moves + [move];
      }
    }
  }
}
