/**
 * The search (Chess/AI.cs): negamax alpha-beta over the board, with a quiescence search
 * of captures, futility pruning one ply above the horizon, null-move pruning, and move
 * ordering by killer moves, the principal variation of the previous iteration and the
 * values of the pieces involved.
 *
 * `AI` is a class over the board it searches, the generator of that board and the
 * evaluator. Where the source would throw (a failed `SubmitMove`/`UndoMove`, a generator
 * that finds no king, an index outside the killer table or the piece tables), the search
 * returns `Aborted`; every statement about a finished search is made for `Score`.
 */
module Search {
  import opened Wrappers
  import opened Bits
  import opened Pieces
  import opened Moves
  import opened MoveHelper
  import opened Positions
  import PF = PositionFacts
  import Boards
  import MoveGenerators
  import G = Generation
  import GF = GenerationFacts
  import Ev = Evaluations
  import Z = ZobristKey

  const INFINITY: int := 1000000
  const CHECKMATE: int := 100000
  const CHECKMATE_TRESHOLD: int := CHECKMATE - 1000
  const DRAW: int := 0
  /** The depth reduction of the null-move search. */
  const R: int := 2
  /** The rows of `KillerMoves`, one per ply, and the slots of each row. */
  const KILLER_PLIES: int := 1024
  const KILLER_SLOTS: int := 3
  const KILLER_UNIT: int := 1000000
  const PV_VALUE: int := 10000000

  /** What a search returns: a score, or `Aborted` where the source throws. */
  datatype Outcome = Score(value: int) | Aborted

  // ---------------------------------------------------------------------------------
  // Move ordering (lines 121-147)

  /** The two moves go between the same squares: what the ordering compares. */
  predicate SameSquares(a: MoveData, b: MoveData)
  {
    a.start == b.start && a.target == b.target
  }

  /**
   * The loop of `GetKillerMoveValue` from slot i on: the first slot that holds the move
   * scores `(3 - i) * 1000000`; an empty slot before it ends the search with 0.
   */
  function KillerValue(slots: seq<Option<MoveData>>, m: MoveData, i: nat): int
    requires |slots| == KILLER_SLOTS && i <= KILLER_SLOTS
    decreases KILLER_SLOTS - i
  {
    if i == KILLER_SLOTS then 0
    else if slots[i].None? then 0
    else if SameSquares(slots[i].value, m) then (KILLER_SLOTS - i) * KILLER_UNIT
    else KillerValue(slots, m, i + 1)
  }

  /** Slot i is the first to hold the move, and no empty slot comes before it. */
  ghost predicate FirstKiller(slots: seq<Option<MoveData>>, m: MoveData, i: int)
    requires |slots| == KILLER_SLOTS
  {
    && 0 <= i < KILLER_SLOTS
    && (forall j {:trigger slots[j]} :: 0 <= j < i ==> slots[j].Some? && !SameSquares(slots[j].value, m))
    && slots[i].Some? && SameSquares(slots[i].value, m)
  }

  /** The slots from j up to i are full and hold other moves: the loop passes over them. */
  lemma {:induction false} KillerValueSkips(slots: seq<Option<MoveData>>, m: MoveData, j: nat, i: nat)
    requires |slots| == KILLER_SLOTS && j <= i <= KILLER_SLOTS
    requires forall k {:trigger slots[k]} :: j <= k < i ==> slots[k].Some? && !SameSquares(slots[k].value, m)
    ensures KillerValue(slots, m, j) == KillerValue(slots, m, i)
    decreases i - j
  {
    if j < i {
      KillerValueSkips(slots, m, j + 1, i);
    }
  }

  /** The killer value is `(3 - i) * 1000000` for the first slot i holding the move, and 0 when there is none. */
  lemma KillerValueMeaning(slots: seq<Option<MoveData>>, m: MoveData)
    requires |slots| == KILLER_SLOTS
    ensures forall i {:trigger FirstKiller(slots, m, i)} :: FirstKiller(slots, m, i) ==> KillerValue(slots, m, 0) == (KILLER_SLOTS - i) * KILLER_UNIT
    ensures (forall i {:trigger FirstKiller(slots, m, i)} :: !FirstKiller(slots, m, i)) ==> KillerValue(slots, m, 0) == 0
  {
    forall i | FirstKiller(slots, m, i)
      ensures KillerValue(slots, m, 0) == (KILLER_SLOTS - i) * KILLER_UNIT
    {
      KillerValueSkips(slots, m, 0, i);
    }
    if forall i {:trigger FirstKiller(slots, m, i)} :: !FirstKiller(slots, m, i) {
      var i: nat := 0;
      while i < KILLER_SLOTS && slots[i].Some? && !SameSquares(slots[i].value, m)
        invariant i <= KILLER_SLOTS
        invariant forall k {:trigger slots[k]} :: 0 <= k < i ==> slots[k].Some? && !SameSquares(slots[k].value, m)
        decreases KILLER_SLOTS - i
      {
        i := i + 1;
      }
      KillerValueSkips(slots, m, 0, i);
      assert !FirstKiller(slots, m, i);
    }
  }

  /** The killer row after a cutoff by m: m in front, the first two killers behind it. */
  function Rotated(slots: seq<Option<MoveData>>, m: MoveData): (r: seq<Option<MoveData>>)
    requires |slots| == KILLER_SLOTS
    ensures |r| == KILLER_SLOTS
  {
    [Some(m), slots[0], slots[1]]
  }

  /** After the rotation the move is the first killer and scores 3000000 at that ply. */
  lemma RotatedKillerFirst(slots: seq<Option<MoveData>>, m: MoveData)
    requires |slots| == KILLER_SLOTS
    ensures FirstKiller(Rotated(slots, m), m, 0)
    ensures KillerValue(Rotated(slots, m), m, 0) == KILLER_SLOTS * KILLER_UNIT
  {
    KillerValueMeaning(Rotated(slots, m), m);
  }

  /** A killer value is one of 0, 1000000, 2000000 and 3000000. */
  lemma {:induction false} KillerValueRange(slots: seq<Option<MoveData>>, m: MoveData, i: nat)
    requires |slots| == KILLER_SLOTS && i <= KILLER_SLOTS
    ensures 0 <= KillerValue(slots, m, i) <= (KILLER_SLOTS - i) * KILLER_UNIT
    ensures KillerValue(slots, m, i) % KILLER_UNIT == 0
    decreases KILLER_SLOTS - i
  {
    if i < KILLER_SLOTS && slots[i].Some? && !SameSquares(slots[i].value, m) {
      KillerValueRange(slots, m, i + 1);
    }
  }

  /** What `MoveImportance` reads besides the move: the killer row at the current ply, the old PV and the generator's pawn map. */
  datatype Ordering = Ordering(slots: seq<Option<MoveData>>, lastpv: Option<seq<Option<MoveData>>>, searchDepth: int,
                               opponentPawnAttackMap: bv64)

  predicate IsOrdering(o: Ordering)
  {
    |o.slots| == KILLER_SLOTS
  }

  /** Line 136: the PV move for this depth, if the old PV has one there. */
  function PvMove(lastpv: Option<seq<Option<MoveData>>>, searchDepth: int, depth: int): Option<MoveData>
    requires depth < 0 || depth <= searchDepth
  {
    if lastpv.None? then None
    else if searchDepth - depth >= |lastpv.value| then None
    else if depth < 0 then None
    else lastpv.value[searchDepth - depth]
  }

  /** The move is the PV move at this depth. */
  predicate IsPvMove(o: Ordering, m: MoveData, depth: int)
    requires depth < 0 || depth <= o.searchDepth
  {
    var pvMove := PvMove(o.lastpv, o.searchDepth, depth);
    pvMove.Some? && SameSquares(pvMove.value, m)
  }

  /** The codes `MoveImportance` looks up in `PieceValues_ColorIndependent`. */
  predicate Indexable(m: MoveData)
  {
    m.movedPiece < 32 && m.capturedPiece < 32 && m.promotion < 32
  }

  /** The value of the capture: ten times the victim's value against the attacker's, scaled by 100. */
  function CaptureValue(m: MoveData): int
  {
    -Ev.ColorIndependentValue(m.movedPiece) * 100 + 1000 * Ev.ColorIndependentValue(m.capturedPiece)
  }

  /** `MoveImportance(move, depth)` (lines 134-147). */
  function Importance(o: Ordering, m: MoveData, depth: int): int
    requires IsOrdering(o) && (depth < 0 || depth <= o.searchDepth)
  {
    KillerValue(o.slots, m, 0)
    + (if IsPvMove(o, m, depth) then PV_VALUE else 0)
    + CaptureValue(m)
    + Ev.ColorIndependentValue(m.promotion)
    + (if And(o.opponentPawnAttackMap, Bit(m.target)) != 0 then -10 else 0)
  }

  /** Every colour-independent value lies between 0 and the queen's 1000. */
  lemma ColorIndependentRange(p: nat)
    ensures 0 <= Ev.ColorIndependentValue(p) <= Ev.QUEEN_VALUE
  {
    if IsType(p) {
      Ev.MakeFields(p, BLACK);
    }
  }

  /** What the move's pieces add to its importance lies within these bounds. */
  lemma PieceTermsRange(m: MoveData)
    ensures -100 * Ev.QUEEN_VALUE <= CaptureValue(m) + Ev.ColorIndependentValue(m.promotion) <= 1001 * Ev.QUEEN_VALUE
  {
    ColorIndependentRange(m.movedPiece);
    ColorIndependentRange(m.capturedPiece);
    ColorIndependentRange(m.promotion);
  }

  /** The PV move is ordered before every other move, whatever their killers and pieces. */
  lemma PvMoveFirst(o: Ordering, pv: MoveData, other: MoveData, depth: int)
    requires IsOrdering(o) && (depth < 0 || depth <= o.searchDepth)
    requires IsPvMove(o, pv, depth) && !IsPvMove(o, other, depth)
    ensures Importance(o, pv, depth) > Importance(o, other, depth)
  {
    KillerValueRange(o.slots, pv, 0);
    KillerValueRange(o.slots, other, 0);
    PieceTermsRange(pv);
    PieceTermsRange(other);
  }

  /** Below the horizon (`depth < 0`, the quiescence search) no move is the PV move. */
  lemma NoPvInQuiescence(o: Ordering, m: MoveData)
    ensures !IsPvMove(o, m, -1)
  {
  }

  // ---------------------------------------------------------------------------------
  // `OrderByDescending`: a stable sort of (importance, move) pairs

  function Keys(pairs: seq<(int, MoveData)>): (r: seq<MoveData>)
    ensures |r| == |pairs|
    ensures forall k {:trigger r[k]} :: 0 <= k < |r| ==> r[k] == pairs[k].1
  {
    if pairs == [] then [] else Keys(pairs[..|pairs| - 1]) + [pairs[|pairs| - 1].1]
  }

  /** Insert x behind every pair whose importance is at least its own. */
  function Insert(x: (int, MoveData), sorted: seq<(int, MoveData)>): (r: seq<(int, MoveData)>)
    ensures |r| == |sorted| + 1
  {
    if sorted == [] then [x]
    else if sorted[0].0 >= x.0 then [sorted[0]] + Insert(x, sorted[1..])
    else [x] + sorted
  }

  /** Insertion sort, descending by importance; pairs of equal importance keep their order. */
  function SortDescending(pairs: seq<(int, MoveData)>): (r: seq<(int, MoveData)>)
    ensures |r| == |pairs|
  {
    if pairs == [] then [] else Insert(pairs[|pairs| - 1], SortDescending(pairs[..|pairs| - 1]))
  }

  ghost predicate Descending(s: seq<(int, MoveData)>)
  {
    forall i, j {:trigger s[i], s[j]} :: 0 <= i < j < |s| ==> s[i].0 >= s[j].0
  }

  lemma {:induction false} InsertMultiset(x: (int, MoveData), sorted: seq<(int, MoveData)>)
    ensures multiset(Insert(x, sorted)) == multiset(sorted) + multiset{x}
  {
    if sorted != [] && sorted[0].0 >= x.0 {
      InsertMultiset(x, sorted[1..]);
      assert sorted == [sorted[0]] + sorted[1..];
    }
  }

  lemma DescendingTail(s: seq<(int, MoveData)>)
    requires s != [] && Descending(s)
    ensures Descending(s[1..])
  {
    var t := s[1..];
    forall i, j | 0 <= i < j < |t|
      ensures t[i].0 >= t[j].0
    {
      assert t[i] == s[i + 1] && t[j] == s[j + 1];
    }
  }

  lemma DescendingCons(e: (int, MoveData), t: seq<(int, MoveData)>)
    requires Descending(t) && forall k {:trigger t[k]} :: 0 <= k < |t| ==> t[k].0 <= e.0
    ensures Descending([e] + t)
  {
    var r := [e] + t;
    forall i, j | 0 <= i < j < |r|
      ensures r[i].0 >= r[j].0
    {
      assert r[j] == t[j - 1];
      if i > 0 {
        assert r[i] == t[i - 1];
      }
    }
  }

  lemma {:induction false} InsertDescending(x: (int, MoveData), sorted: seq<(int, MoveData)>)
    requires Descending(sorted)
    ensures Descending(Insert(x, sorted))
  {
    if sorted != [] && sorted[0].0 >= x.0 {
      var rest := sorted[1..];
      DescendingTail(sorted);
      InsertDescending(x, rest);
      InsertMultiset(x, rest);
      var t := Insert(x, rest);
      forall k | 0 <= k < |t|
        ensures t[k].0 <= sorted[0].0
      {
        assert t[k] in multiset(t);
        if t[k] != x {
          var q :| 0 <= q < |rest| && rest[q] == t[k];
          assert sorted[q + 1] == t[k];
        }
      }
      DescendingCons(sorted[0], t);
    } else if sorted != [] {
      forall k | 0 <= k < |sorted|
        ensures sorted[k].0 <= x.0
      {
        if k > 0 {
          assert sorted[0].0 >= sorted[k].0;
        }
      }
      DescendingCons(x, sorted);
    }
  }

  /** The sort yields a permutation of its input, ordered by descending importance. */
  lemma {:induction false} SortDescendingCorrect(pairs: seq<(int, MoveData)>)
    ensures multiset(SortDescending(pairs)) == multiset(pairs)
    ensures Descending(SortDescending(pairs))
  {
    if pairs != [] {
      var front := pairs[..|pairs| - 1];
      SortDescendingCorrect(front);
      InsertMultiset(pairs[|pairs| - 1], SortDescending(front));
      InsertDescending(pairs[|pairs| - 1], SortDescending(front));
      assert pairs == front + [pairs[|pairs| - 1]];
    }
  }

  lemma KeysCons(e: (int, MoveData), t: seq<(int, MoveData)>)
    ensures Keys([e] + t) == [e.1] + Keys(t)
  {
    var l, r := Keys([e] + t), [e.1] + Keys(t);
    forall k | 0 <= k < |l|
      ensures l[k] == r[k]
    {
      if k > 0 {
        assert r[k] == Keys(t)[k - 1];
      }
    }
  }

  /** Inserting a pair adds its move to the moves of the list. */
  lemma {:induction false} KeysInsert(x: (int, MoveData), sorted: seq<(int, MoveData)>)
    ensures multiset(Keys(Insert(x, sorted))) == multiset(Keys(sorted)) + multiset{x.1}
  {
    if sorted == [] {
      assert Keys([x]) == [x.1];
    } else if sorted[0].0 >= x.0 {
      KeysInsert(x, sorted[1..]);
      KeysCons(sorted[0], Insert(x, sorted[1..]));
      KeysCons(sorted[0], sorted[1..]);
      assert sorted == [sorted[0]] + sorted[1..];
    } else {
      KeysCons(x, sorted);
    }
  }

  /** The sorted list holds the same moves as the input, as often. */
  lemma {:induction false} KeysSort(pairs: seq<(int, MoveData)>)
    ensures multiset(Keys(SortDescending(pairs))) == multiset(Keys(pairs))
  {
    if pairs != [] {
      var front, last := pairs[..|pairs| - 1], pairs[|pairs| - 1];
      KeysSort(front);
      KeysInsert(last, SortDescending(front));
      assert Keys(pairs) == Keys(front) + [last.1];
    }
  }

  /** Pairs whose first component is the importance of their move. */
  ghost predicate Keyed(o: Ordering, depth: int, pairs: seq<(int, MoveData)>)
    requires IsOrdering(o) && (depth < 0 || depth <= o.searchDepth)
  {
    forall k {:trigger pairs[k]} :: 0 <= k < |pairs| ==> pairs[k].0 == Importance(o, pairs[k].1, depth)
  }

  lemma KeyedAppend(o: Ordering, depth: int, pairs: seq<(int, MoveData)>, e: (int, MoveData))
    requires IsOrdering(o) && (depth < 0 || depth <= o.searchDepth)
    requires Keyed(o, depth, pairs) && e.0 == Importance(o, e.1, depth)
    ensures Keyed(o, depth, pairs + [e])
  {
    var r := pairs + [e];
    forall k | 0 <= k < |r|
      ensures r[k].0 == Importance(o, r[k].1, depth)
    {
      if k < |pairs| {
        assert r[k] == pairs[k];
      }
    }
  }

  /**
   * A sorted permutation of keyed pairs lists the moves in descending importance: a move
   * comes before every move of lower importance.
   */
  lemma OrderedByImportance(o: Ordering, depth: int, pairs: seq<(int, MoveData)>)
    requires IsOrdering(o) && (depth < 0 || depth <= o.searchDepth) && Keyed(o, depth, pairs)
    ensures var ordered := Keys(SortDescending(pairs));
      && multiset(ordered) == multiset(Keys(pairs))
      && forall i, j {:trigger ordered[i], ordered[j]} :: 0 <= i < j < |ordered| ==>
           Importance(o, ordered[i], depth) >= Importance(o, ordered[j], depth)
  {
    var sorted := SortDescending(pairs);
    SortDescendingCorrect(pairs);
    KeysSort(pairs);
    forall k | 0 <= k < |sorted|
      ensures sorted[k].0 == Importance(o, sorted[k].1, depth)
    {
      assert sorted[k] in multiset(pairs);
      var q :| 0 <= q < |pairs| && pairs[q] == sorted[k];
    }
    var ordered := Keys(sorted);
    forall i, j | 0 <= i < j < |ordered|
      ensures Importance(o, ordered[i], depth) >= Importance(o, ordered[j], depth)
    {
      assert sorted[i].0 >= sorted[j].0;
    }
  }

  // ---------------------------------------------------------------------------------
  // Search results

  /** Line 186: the current position key is already on the state stack. */
  predicate Repeated(states: seq<BoardState>, key: bv64)
  {
    exists k {:trigger states[k]} :: 0 <= k < |states| && states[k].positionKey == key
  }

  /**
   * Lines 174-190: the score of a position without moves, mate (the stack depth minus
   * CHECKMATE) in check and a draw otherwise, and the draw of a repeated position; None
   * where the search goes on. `m0` is the generator's state before `Setup`.
   */
  ghost function Terminal(p: Position, m0: G.Masks): Option<int>
    requires G.Ready(p) && G.Setup(p, m0).Success?
  {
    GF.SetupFindsKings(p, m0);
    var m := G.Setup(p, m0).value;
    if G.GetMoves(p, m, false) == [] then Some(if m.inCheck then |p.states| - CHECKMATE else DRAW)
    else if Repeated(p.states, p.positionKey) then Some(DRAW)
    else None
  }

  /**
   * What `DeepEval` can return for a window with alpha <= beta: a score inside the window,
   * a draw, the mate score at this stack depth, or the null-move score at or above beta.
   */
  predicate DeepEvalBound(v: int, alpha: int, beta: int, stackDepth: int, nullMoveAllowed: bool)
  {
    || alpha <= v <= beta
    || v == DRAW
    || v == stackDepth - CHECKMATE
    || (nullMoveAllowed && v >= beta)
  }

  /** The move loop returns beta on a cutoff, otherwise alpha or an improvement on it below beta. */
  predicate LoopBound(v: int, alpha: int, beta: int)
  {
    v == beta || v == alpha || alpha < v < beta
  }

  /** In a window with alpha <= beta the loop's result lies inside the window. */
  lemma LoopBoundInWindow(v: int, alpha: int, beta: int)
    requires alpha <= beta && LoopBound(v, alpha, beta)
    ensures alpha <= v <= beta && DeepEvalBound(v, alpha, beta, 0, false)
  {
  }

  // ---------------------------------------------------------------------------------
  // The search

  class AI {
    const board: Boards.Board
    const generator: MoveGenerators.MoveGenerator
    /** The evaluator, static in the source. */
    const evaluation: Ev.Evaluation
    /** The Zobrist table `SubmitMove` reads, static in the source. */
    const zobrist: Z.Table
    const killerMoves: array2<Option<MoveData>>
    var nodes: int
    var lastpv: Option<seq<Option<MoveData>>>
    var searchDepth: int

    /** What holds from the constructor on, whatever the board does. */
    ghost predicate Fixed()
      reads this, evaluation
    {
      && generator.board == board
      && evaluation.Valid()
      && Z.IsTable(zobrist)
      && killerMoves.Length0 == KILLER_PLIES && killerMoves.Length1 == KILLER_SLOTS
      && searchDepth >= 0
    }

    ghost predicate Valid()
      reads this, evaluation, board, board.board
    {
      Fixed() && board.Valid()
    }

    /** `new AI(board)` (lines 110-119): a generator for the board and an empty killer table. */
    constructor (board: Boards.Board, evaluation: Ev.Evaluation, zobrist: Z.Table)
      requires evaluation.Valid() && Z.IsTable(zobrist)
      ensures Fixed() && this.board == board && this.evaluation == evaluation && this.zobrist == zobrist
      ensures nodes == 0 && lastpv == None && searchDepth == 0
      ensures forall i, j :: 0 <= i < KILLER_PLIES && 0 <= j < KILLER_SLOTS ==> killerMoves[i, j] == None
    {
      this.board := board;
      this.evaluation := evaluation;
      this.zobrist := zobrist;
      generator := new MoveGenerators.MoveGenerator(board);
      killerMoves := new Option<MoveData>[KILLER_PLIES, KILLER_SLOTS]((_, _) => None);
      nodes := 0;
      lastpv := None;
      searchDepth := 0;
    }

    /** Row `ply` of the killer table. */
    function KillerRow(ply: int): (r: seq<Option<MoveData>>)
      requires killerMoves.Length0 == KILLER_PLIES && killerMoves.Length1 == KILLER_SLOTS && 0 <= ply < KILLER_PLIES
      reads killerMoves
      ensures |r| == KILLER_SLOTS
    {
      [killerMoves[ply, 0], killerMoves[ply, 1], killerMoves[ply, 2]]
    }

    /** The killer row at the board's ply. */
    function KillerSlots(): (r: seq<Option<MoveData>>)
      requires killerMoves.Length0 == KILLER_PLIES && killerMoves.Length1 == KILLER_SLOTS && 0 <= board.ply < KILLER_PLIES
      reads this, board, killerMoves
      ensures |r| == KILLER_SLOTS
    {
      KillerRow(board.ply)
    }

    /** What the ordering reads from the search, the killer table and the generator. */
    function OrderingState(): (o: Ordering)
      requires killerMoves.Length0 == KILLER_PLIES && killerMoves.Length1 == KILLER_SLOTS && 0 <= board.ply < KILLER_PLIES
      reads this, board, killerMoves, generator
      ensures IsOrdering(o)
    {
      Ordering(KillerSlots(), lastpv, searchDepth, generator.masks.opponentPawnAttackMap)
    }

    /** `GetKillerMoveValue(move)` (lines 121-132). */
    method GetKillerMoveValue(move: MoveData) returns (r: int)
      requires killerMoves.Length0 == KILLER_PLIES && killerMoves.Length1 == KILLER_SLOTS && 0 <= board.ply < KILLER_PLIES
      ensures r == KillerValue(KillerSlots(), move, 0)
    {
      var ply := board.ply;
      ghost var slots := KillerSlots();
      for i := 0 to KILLER_SLOTS
        invariant KillerValue(slots, move, 0) == KillerValue(slots, move, i)
      {
        var killer := killerMoves[ply, i];
        assert killer == slots[i];
        if killer == None {
          return 0;
        }
        if killer.value.start == move.start && killer.value.target == move.target {
          return (KILLER_SLOTS - i) * KILLER_UNIT;
        }
      }
      return 0;
    }

    /** `MoveImportance(move, depth)` (lines 134-147). */
    method MoveImportance(move: MoveData, depth: int) returns (r: int)
      requires Fixed() && 0 <= board.ply < KILLER_PLIES && Indexable(move) && (depth < 0 || depth <= searchDepth)
      ensures r == Importance(OrderingState(), move, depth)
    {
      var pvMove := if lastpv.None? then None
        else if searchDepth - depth >= |lastpv.value| then None
        else if depth < 0 then None
        else lastpv.value[searchDepth - depth];
      var pvValue := if pvMove.None? then 0
        else if pvMove.value.start == move.start && pvMove.value.target == move.target then PV_VALUE
        else 0;
      var killerValue := GetKillerMoveValue(move);
      var values := evaluation.tables.colorIndependent;
      var captureValue := -values[move.movedPiece] * 100 + 1000 * values[move.capturedPiece];
      var promotionValue := values[move.promotion];
      var pawnCapturePenalty := if And(generator.masks.opponentPawnAttackMap, Bit(move.target)) != 0 then -10 else 0;
      r := killerValue + pvValue + captureValue + promotionValue + pawnCapturePenalty;
    }

    /**
     * `moves.OrderByDescending(m => MoveImportance(m, depth))` (lines 222, 272): the
     * importance of every move, then the stable sort. Looking up the killer row or a piece
     * code outside its table throws, except that an empty list is never looked at.
     */
    method OrderMoves(moves: seq<MoveData>, depth: int) returns (ordered: seq<MoveData>, ok: bool)
      requires Fixed() && (depth < 0 || depth <= searchDepth)
      ensures ok == (moves == [] || (0 <= board.ply < KILLER_PLIES && forall k {:trigger moves[k]} :: 0 <= k < |moves| ==> Indexable(moves[k])))
      ensures ok ==> multiset(ordered) == multiset(moves) && |ordered| == |moves|
      ensures ok && moves != [] ==> forall i, j {:trigger ordered[i], ordered[j]} :: 0 <= i < j < |ordered| ==>
        Importance(OrderingState(), ordered[i], depth) >= Importance(OrderingState(), ordered[j], depth)
    {
      if moves == [] {
        return [], true;
      }
      if !(0 <= board.ply < KILLER_PLIES) {
        return [], false;
      }
      var pairs;
      pairs, ok := KeyMoves(moves, depth);
      if !ok {
        return [], false;
      }
      OrderedByImportance(OrderingState(), depth, pairs);
      ordered := Keys(SortDescending(pairs));
    }

    /** The importance of every move, paired with it: the keys `OrderByDescending` sorts by. */
    method KeyMoves(moves: seq<MoveData>, depth: int) returns (pairs: seq<(int, MoveData)>, ok: bool)
      requires Fixed() && 0 <= board.ply < KILLER_PLIES && (depth < 0 || depth <= searchDepth)
      ensures ok == forall k {:trigger moves[k]} :: 0 <= k < |moves| ==> Indexable(moves[k])
      ensures ok ==> Keys(pairs) == moves && Keyed(OrderingState(), depth, pairs)
    {
      ghost var o := OrderingState();
      pairs := [];
      for i := 0 to |moves|
        invariant |pairs| == i && Keyed(o, depth, pairs)
        invariant forall k {:trigger pairs[k]} :: 0 <= k < i ==> pairs[k].1 == moves[k]
        invariant forall k {:trigger moves[k]} :: 0 <= k < i ==> Indexable(moves[k])
      {
        if !Indexable(moves[i]) {
          return [], false;
        }
        var importance := MoveImportance(moves[i], depth);
        KeyedAppend(o, depth, pairs, (importance, moves[i]));
        pairs := pairs + [(importance, moves[i])];
      }
      assert Keys(pairs) == moves;
      ok := true;
    }

    /** Lines 236-241: a quiet move that caused a cutoff becomes the first killer at this ply. */
    method StoreKiller(move: MoveData)
      requires killerMoves.Length0 == KILLER_PLIES && killerMoves.Length1 == KILLER_SLOTS && 0 <= board.ply < KILLER_PLIES
      modifies killerMoves
      ensures KillerSlots() == Rotated(old(KillerSlots()), move)
      ensures forall i, j :: 0 <= i < KILLER_PLIES && 0 <= j < KILLER_SLOTS && i != board.ply ==> killerMoves[i, j] == old(killerMoves[i, j])
    {
      var ply := board.ply;
      killerMoves[ply, 2] := killerMoves[ply, 1];
      killerMoves[ply, 1] := killerMoves[ply, 0];
      killerMoves[ply, 0] := Some(move);
    }

    /** Lines 248-249: the move, then the child's PV copied behind it. */
    static method UpdatePv(pv: array<Option<MoveData>>, move: MoveData, npv: array<Option<MoveData>>)
      requires pv != npv && npv.Length + 1 <= pv.Length
      modifies pv
      ensures pv[..] == [Some(move)] + npv[..] + old(pv[..])[npv.Length + 1..]
    {
      pv[0] := Some(move);
      for k := 0 to npv.Length
        invariant pv[..] == [Some(move)] + npv[..k] + old(pv[..])[k + 1..]
      {
        pv[k + 1] := npv[k];
        assert npv[..k + 1] == npv[..k] + [npv[k]];
      }
      assert npv[..npv.Length] == npv[..];
    }

    /**
     * `generator.Setup()` and `generator.GetMoves(onlyCaptures)` (lines 171-172, 270-271).
     * A board whose lists name a square off the board, or a side without a king, makes the
     * source throw; then `ok` is false.
     */
    method Generate(onlyCaptures: bool) returns (moves: seq<MoveData>, ok: bool)
      requires Valid()
      modifies generator
      ensures ok ==> G.Ready(board.View()) && G.Setup(board.View(), old(generator.masks)) == Success(generator.masks)
      ensures ok ==> OnBoard(generator.masks.ourKingSquare)
      ensures ok ==> moves == G.GetMoves(board.View(), generator.masks, onlyCaptures)
      ensures ok ==> Ev.Evaluable(board.pieceLists)
    {
      if !G.Ready(board.View()) {
        return [], false;
      }
      ghost var p := board.View();
      ghost var m := generator.masks;
      ok := generator.Setup();
      if !ok {
        return [], false;
      }
      GF.SetupFindsKings(p, m);
      assert p.pieceLists == board.pieceLists;
      moves := generator.GetMoves(onlyCaptures);
    }

    // -------------------------------------------------------------------------------
    // The main search (lines 149-254)

    /**
     * `FindBestMove(depth, lastpv, startAlpha, startBeta)` (lines 149-160). A negative depth
     * makes the source throw when it allocates the PV.
     */
    method FindBestMove(depth: int, lastpv: Option<seq<Option<MoveData>>>, startAlpha: int, startBeta: int)
      returns (r: Outcome, pv: array<Option<MoveData>>)
      requires Valid()
      modifies this, board, board.board, generator, evaluation, killerMoves
      ensures r.Score? ==> Valid() && board.states == old(board.states) && board.ply == old(board.ply)
      ensures r.Score? ==> pv.Length == depth && this.lastpv == lastpv && searchDepth == depth && nodes >= 1
      ensures r.Score? && startAlpha <= startBeta ==> DeepEvalBound(r.value, startAlpha, startBeta, |board.states|, false)
    {
      nodes := 0;
      if depth < 0 {
        return Aborted, new Option<MoveData>[0];
      }
      pv := new Option<MoveData>[depth](_ => None);
      this.lastpv := lastpv;
      searchDepth := depth;
      r := DeepEval(depth, startAlpha, startBeta, false, pv);
    }

    /** `DeepEval(depth, alpha, beta, nullMoveAllowed, pv)` (lines 162-190): the terminal positions. */
    method DeepEval(depth: int, alpha: int, beta: int, nullMoveAllowed: bool, pv: array<Option<MoveData>>) returns (r: Outcome)
      requires Valid() && depth <= searchDepth && pv.Length >= depth
      modifies this, board, board.board, generator, evaluation, killerMoves, pv
      decreases depth, 5
      ensures lastpv == old(lastpv) && searchDepth == old(searchDepth) && nodes > old(nodes)
      ensures forall row, slot :: 0 <= row < old(board.ply) && row < killerMoves.Length0 && 0 <= slot < killerMoves.Length1 ==>
        killerMoves[row, slot] == old(killerMoves[row, slot])
      ensures r.Score? ==> Valid() && board.states == old(board.states) && board.ply == old(board.ply)
      ensures r.Score? && alpha <= beta ==> DeepEvalBound(r.value, alpha, beta, |board.states|, nullMoveAllowed)
      ensures r.Score? ==>
        && G.Ready(old(board.View())) && G.Setup(old(board.View()), old(generator.masks)).Success?
        && (Terminal(old(board.View()), old(generator.masks)).Some? ==> r.value == Terminal(old(board.View()), old(generator.masks)).value)
      ensures r.Score? && alpha <= beta && r.value > beta && r.value != DRAW && r.value != |board.states| - CHECKMATE ==>
        nullMoveAllowed && !G.Setup(old(board.View()), old(generator.masks)).value.inCheck && depth >= 1 + R
    {
      nodes := nodes + 1;
      var moves, ok := Generate(false);
      if !ok {
        return Aborted;
      }
      if moves == [] {
        if generator.masks.inCheck {
          var currentDepth := |board.states|;
          return Score(-CHECKMATE + currentDepth);
        }
        return Score(DRAW);
      }
      if Repeated(board.states, board.positionKey) {
        return Score(DRAW);
      }
      r := Expand(depth, alpha, beta, nullMoveAllowed, pv, moves);
    }

    /** Lines 194-206: the horizon and futility pruning one ply above it. */
    method Expand(depth: int, alpha: int, beta: int, nullMoveAllowed: bool, pv: array<Option<MoveData>>, moves: seq<MoveData>)
      returns (r: Outcome)
      requires Valid() && Ev.Evaluable(board.pieceLists) && depth <= searchDepth && pv.Length >= depth
      modifies this, board, board.board, generator, evaluation, killerMoves, pv
      decreases depth, 4
      ensures lastpv == old(lastpv) && searchDepth == old(searchDepth) && nodes >= old(nodes)
      ensures forall row, slot :: 0 <= row < old(board.ply) && row < killerMoves.Length0 && 0 <= slot < killerMoves.Length1 ==>
        killerMoves[row, slot] == old(killerMoves[row, slot])
      ensures r.Score? ==> Valid() && board.states == old(board.states) && board.ply == old(board.ply)
      ensures r.Score? && alpha <= beta ==> DeepEvalBound(r.value, alpha, beta, |board.states|, nullMoveAllowed)
      ensures r.Score? && alpha <= beta && r.value > beta ==>
        nullMoveAllowed && !old(generator.masks.inCheck) && depth >= 1 + R
    {
      if depth == 0 {
        r := QuiesceneSearch(alpha, beta);
        return;
      }
      if depth == 1 {
        var pruned, _, quiescence := Futility(alpha, beta);
        if pruned {
          return quiescence;
        }
      }
      r := Deepen(depth, alpha, beta, nullMoveAllowed, pv, moves);
    }

    /**
     * Lines 199-205: the static score `eval` of the position; when it plus a bishop stays
     * below alpha, the node is left to the quiescence search.
     */
    method Futility(alpha: int, beta: int) returns (pruned: bool, eval: int, r: Outcome)
      requires Valid() && Ev.Evaluable(board.pieceLists)
      modifies this, board, board.board, generator, evaluation
      ensures eval == Ev.Preference(old(board.us)) *
        (Ev.Probed(old(evaluation.materialDatabase), old(board.pieceLists), old(board.materialKey))
          + Ev.PositionalTerms(old(board.pieceLists), old(board.bitboards)))
      ensures old(evaluation.Cached()) && Ev.KeyMatches(old(board.pieceLists), old(board.materialKey)) ==>
        eval == Ev.StaticScore(old(board.View()))
      ensures pruned == (eval + Ev.BISHOP_VALUE < alpha)
      ensures lastpv == old(lastpv) && searchDepth == old(searchDepth) && nodes >= old(nodes)
      ensures !pruned ==> Valid() && board.states == old(board.states) && board.ply == old(board.ply)
      ensures !pruned ==> generator.masks == old(generator.masks)
      ensures pruned && r.Score? ==> Valid() && board.states == old(board.states) && board.ply == old(board.ply)
      ensures pruned && r.Score? && alpha <= beta ==> alpha <= r.value <= beta
    {
      eval := StaticEval();
      if eval + Ev.BISHOP_VALUE < alpha {
        r := QuiesceneSearch(alpha, beta);
        return true, eval, r;
      }
      return false, eval, Aborted;
    }

    /** Line 199: `evaluation.Evaluate(board)`, the static score of the position. */
    method StaticEval() returns (eval: int)
      requires Valid() && Ev.Evaluable(board.pieceLists)
      modifies evaluation
      ensures Valid()
      ensures eval == Ev.Preference(old(board.us)) *
        (Ev.Probed(old(evaluation.materialDatabase), old(board.pieceLists), old(board.materialKey))
          + Ev.PositionalTerms(old(board.pieceLists), old(board.bitboards)))
      ensures old(evaluation.Cached()) && Ev.KeyMatches(old(board.pieceLists), old(board.materialKey)) ==>
        eval == Ev.StaticScore(old(board.View()))
      ensures board.View() == old(board.View())
    {
      ghost var db := evaluation.materialDatabase;
      ghost var lists, bitboards, key, us := board.pieceLists, board.bitboards, board.materialKey, board.us;
      eval := evaluation.Evaluate(board);
      assert us == board.us && key == board.materialKey && lists == board.pieceLists && bitboards == board.bitboards;
    }

    /** Lines 208-253: the null-move search, then the moves in order. */
    method Deepen(depth: int, alpha: int, beta: int, nullMoveAllowed: bool, pv: array<Option<MoveData>>, moves: seq<MoveData>)
      returns (r: Outcome)
      requires Valid() && depth != 0 && depth <= searchDepth && pv.Length >= depth
      modifies this, board, board.board, generator, evaluation, killerMoves, pv
      decreases depth, 3
      ensures lastpv == old(lastpv) && searchDepth == old(searchDepth) && nodes >= old(nodes)
      ensures forall row, slot :: 0 <= row < old(board.ply) && row < killerMoves.Length0 && 0 <= slot < killerMoves.Length1 ==>
        killerMoves[row, slot] == old(killerMoves[row, slot])
      ensures r.Score? ==> Valid() && board.states == old(board.states) && board.ply == old(board.ply)
      ensures r.Score? && alpha <= beta ==> DeepEvalBound(r.value, alpha, beta, |board.states|, nullMoveAllowed)
      ensures r.Score? && alpha <= beta && r.value > beta ==>
        nullMoveAllowed && !old(generator.masks.inCheck) && depth >= 1 + R
    {
      if nullMoveAllowed && !generator.masks.inCheck && depth >= 1 + R {
        var eval := NullMoveSearch(depth, beta);
        if eval.Aborted? {
          return Aborted;
        }
        if eval.value >= beta {
          return eval;
        }
      }
      if depth < 0 {
        // `new Move[depth - 1]` throws.
        return Aborted;
      }
      r := SearchMoves(depth, alpha, beta, pv, moves);
      if r.Score? && alpha <= beta {
        LoopBoundInWindow(r.value, alpha, beta);
      }
    }

    /**
     * Lines 210-218: the other side moves twice, searched R + 1 plies shallower with the
     * window (-beta, -beta + 1); the null move is undone before the score is looked at.
     */
    method NullMoveSearch(depth: int, beta: int) returns (r: Outcome)
      requires Valid() && !generator.masks.inCheck && 1 + R <= depth <= searchDepth
      modifies this, board, board.board, generator, evaluation, killerMoves
      decreases depth, 2
      ensures lastpv == old(lastpv) && searchDepth == old(searchDepth) && nodes > old(nodes)
      ensures forall row, slot :: 0 <= row <= old(board.ply) && row < killerMoves.Length0 && 0 <= slot < killerMoves.Length1 ==>
        killerMoves[row, slot] == old(killerMoves[row, slot])
      ensures r.Score? ==> Valid() && board.states == old(board.states) && board.ply == old(board.ply)
      ensures r.Score? ==> DeepEvalBound(-r.value, -beta, -beta + 1, |board.states| + 1, false)
    {
      var npv := new Option<MoveData>[depth](_ => None);
      ghost var p := board.View();
      board.SubmitNullMove();
      var child := DeepEval(depth - 1 - R, -beta, -beta + 1, false, npv);
      if child.Aborted? {
        return Aborted;
      }
      ghost var q := board.View();
      PF.NullMakeUnmakeKeepsStack(p, q);
      var ok := board.UndoNullMove();
      if !ok {
        return Aborted;
      }
      r := Score(-child.value);
    }

    /**
     * The loop of lines 221-253: beta on a cutoff, after a quiet cutting move has become a
     * killer; otherwise the best score above alpha, whose move and line start the PV.
     */
    method SearchMoves(depth: int, alpha: int, beta: int, pv: array<Option<MoveData>>, moves: seq<MoveData>)
      returns (r: Outcome)
      requires Valid() && 1 <= depth <= searchDepth && pv.Length >= depth
      modifies this, board, board.board, generator, evaluation, killerMoves, pv
      decreases depth, 2
      ensures lastpv == old(lastpv) && searchDepth == old(searchDepth) && nodes >= old(nodes)
      ensures 0 <= old(board.ply) < KILLER_PLIES ==>
        || KillerRow(old(board.ply)) == old(KillerRow(board.ply))
        || (r == Score(beta) && exists mv :: (mv in moves && mv.capturedPiece == NONE &&
              KillerRow(old(board.ply)) == Rotated(old(KillerRow(board.ply)), mv)))
      ensures forall row, slot :: 0 <= row < old(board.ply) && row < killerMoves.Length0 && 0 <= slot < killerMoves.Length1 ==>
        killerMoves[row, slot] == old(killerMoves[row, slot])
      ensures r.Score? ==> Valid() && board.states == old(board.states) && board.ply == old(board.ply)
      ensures r.Score? ==> LoopBound(r.value, alpha, beta)
      ensures r.Score? && r.value != alpha && r.value != beta ==> pv[0].Some? && pv[0].value in moves
    {
      var ordered, ok := OrderMoves(moves, depth);
      if !ok {
        return Aborted;
      }
      r := SearchLoop(ordered, depth, alpha, beta, pv, moves);
    }

    /** The loop over the ordered moves, with the moves they were ordered from. */
    method SearchLoop(ordered: seq<MoveData>, depth: int, alpha: int, beta: int, pv: array<Option<MoveData>>,
                      ghost moves: seq<MoveData>)
      returns (r: Outcome)
      requires Valid() && 1 <= depth <= searchDepth && pv.Length >= depth
      requires multiset(ordered) == multiset(moves) && (ordered == [] || 0 <= board.ply < KILLER_PLIES)
      modifies this, board, board.board, generator, evaluation, killerMoves, pv
      decreases depth, 1
      ensures lastpv == old(lastpv) && searchDepth == old(searchDepth) && nodes >= old(nodes)
      ensures 0 <= old(board.ply) < KILLER_PLIES ==>
        || KillerRow(old(board.ply)) == old(KillerRow(board.ply))
        || (r == Score(beta) && exists mv :: (mv in moves && mv.capturedPiece == NONE &&
              KillerRow(old(board.ply)) == Rotated(old(KillerRow(board.ply)), mv)))
      ensures forall row, slot :: 0 <= row < old(board.ply) && row < killerMoves.Length0 && 0 <= slot < killerMoves.Length1 ==>
        killerMoves[row, slot] == old(killerMoves[row, slot])
      ensures r.Score? ==> Valid() && board.states == old(board.states) && board.ply == old(board.ply)
      ensures r.Score? ==> LoopBound(r.value, alpha, beta)
      ensures r.Score? && r.value != alpha && r.value != beta ==> pv[0].Some? && pv[0].value in moves
    {
      var a := alpha;
      for i := 0 to |ordered|
        invariant Valid() && board.states == old(board.states) && board.ply == old(board.ply)
        invariant lastpv == old(lastpv) && searchDepth == old(searchDepth) && nodes >= old(nodes)
        invariant a == alpha || alpha < a < beta
        invariant a != alpha ==> pv[0].Some? && pv[0].value in moves
        invariant forall row, slot :: 0 <= row <= old(board.ply) && row < killerMoves.Length0 && 0 <= slot < killerMoves.Length1 ==>
          killerMoves[row, slot] == old(killerMoves[row, slot])
      {
        var move := ordered[i];
        assert move in multiset(moves);
        var npv := new Option<MoveData>[depth - 1](_ => None);
        var eval := SearchChild(move, depth, a, beta, npv);
        if eval.Aborted? {
          return Aborted;
        }
        if eval.value >= beta {
          if move.capturedPiece == NONE {
            StoreKiller(move);
          }
          return Score(beta);
        }
        if eval.value > a {
          a := eval.value;
          UpdatePv(pv, move, npv);
        }
      }
      return Score(a);
    }

    /** Lines 227-232: the move is made, the child searched with the negated window, and the move taken back. */
    method SearchChild(move: MoveData, depth: int, alpha: int, beta: int, npv: array<Option<MoveData>>) returns (r: Outcome)
      requires Valid() && 1 <= depth <= searchDepth && npv.Length == depth - 1
      modifies this, board, board.board, generator, evaluation, killerMoves, npv
      decreases depth, 0
      ensures lastpv == old(lastpv) && searchDepth == old(searchDepth) && nodes >= old(nodes)
      ensures forall row, slot :: 0 <= row <= old(board.ply) && row < killerMoves.Length0 && 0 <= slot < killerMoves.Length1 ==>
        killerMoves[row, slot] == old(killerMoves[row, slot])
      ensures r.Score? ==> Valid() && board.states == old(board.states) && board.ply == old(board.ply)
      ensures r.Score? && alpha <= beta ==> DeepEvalBound(-r.value, -beta, -alpha, |board.states| + 1, true)
    {
      if !MoveFits(board.us, move) {
        return Aborted;
      }
      ghost var p := board.View();
      var ok := board.SubmitMove(move, zobrist);
      if !ok {
        return Aborted;
      }
      var child := DeepEval(depth - 1, -beta, -alpha, true, npv);
      if child.Aborted? {
        return Aborted;
      }
      ghost var q := board.View();
      ok := board.UndoMove();
      if !ok {
        return Aborted;
      }
      PF.MakeUnmakeKeepsStack(p, move, zobrist, q);
      r := Score(-child.value);
    }

    // -------------------------------------------------------------------------------
    // The quiescence search (lines 256-288)

    /**
     * `QuiesceneSearch(alpha, beta)`: fail-hard, so for alpha <= beta the score lies in
     * [alpha, beta]. Each level goes one ply deeper, and ordering a non-empty move list reads
     * the killer row of the ply, so the search cannot pass the 1024 rows of the table.
     */
    method QuiesceneSearch(alpha: int, beta: int) returns (r: Outcome)
      requires Valid()
      modifies this, board, board.board, generator, evaluation
      decreases KILLER_PLIES - board.ply, 3
      ensures lastpv == old(lastpv) && searchDepth == old(searchDepth) && nodes > old(nodes)
      ensures r.Score? ==> Valid() && board.states == old(board.states) && board.ply == old(board.ply)
      ensures r.Score? && alpha <= beta ==> alpha <= r.value <= beta
    {
      nodes := nodes + 1;
      if !Ev.Evaluable(board.pieceLists) {
        // The piece tables or the king lists are indexed out of range.
        return Aborted;
      }
      var currentEval := evaluation.Evaluate(board);
      if currentEval >= beta {
        return Score(beta);
      }
      var a := alpha;
      if currentEval > a {
        a := currentEval;
      }
      r := QuiesceMoves(a, beta);
    }

    /** Lines 270-287: the captures in order, each searched with the negated window. */
    method QuiesceMoves(alpha: int, beta: int) returns (r: Outcome)
      requires Valid()
      modifies this, board, board.board, generator, evaluation
      decreases KILLER_PLIES - board.ply, 2
      ensures lastpv == old(lastpv) && searchDepth == old(searchDepth) && nodes >= old(nodes)
      ensures r.Score? ==> Valid() && board.states == old(board.states) && board.ply == old(board.ply)
      ensures r.Score? ==> LoopBound(r.value, alpha, beta)
    {
      var moves, ok := Generate(true);
      if !ok {
        return Aborted;
      }
      var ordered;
      ordered, ok := OrderMoves(moves, -1);
      if !ok {
        return Aborted;
      }
      r := QuiesceLoop(ordered, alpha, beta);
    }

    /** The loop of lines 272-285: beta on a cutoff, otherwise alpha or the best score above it. */
    method QuiesceLoop(ordered: seq<MoveData>, alpha: int, beta: int) returns (r: Outcome)
      requires Valid() && (ordered == [] || 0 <= board.ply < KILLER_PLIES)
      modifies this, board, board.board, generator, evaluation
      decreases KILLER_PLIES - board.ply, 1
      ensures lastpv == old(lastpv) && searchDepth == old(searchDepth) && nodes >= old(nodes)
      ensures r.Score? ==> Valid() && board.states == old(board.states) && board.ply == old(board.ply)
      ensures r.Score? ==> LoopBound(r.value, alpha, beta)
    {
      var a := alpha;
      for i := 0 to |ordered|
        invariant Valid() && board.states == old(board.states) && board.ply == old(board.ply)
        invariant lastpv == old(lastpv) && searchDepth == old(searchDepth) && nodes >= old(nodes)
        invariant a == alpha || alpha < a < beta
      {
        var eval := QuiesceChild(ordered[i], a, beta);
        if eval.Aborted? {
          return Aborted;
        }
        if eval.value >= beta {
          return Score(beta);
        }
        if eval.value > a {
          a := eval.value;
        }
      }
      return Score(a);
    }

    /** Lines 274-276: make the capture, search, take it back. */
    method QuiesceChild(move: MoveData, alpha: int, beta: int) returns (r: Outcome)
      requires Valid() && 0 <= board.ply < KILLER_PLIES
      modifies this, board, board.board, generator, evaluation
      decreases KILLER_PLIES - board.ply, 0
      ensures lastpv == old(lastpv) && searchDepth == old(searchDepth) && nodes >= old(nodes)
      ensures r.Score? ==> Valid() && board.states == old(board.states) && board.ply == old(board.ply)
      ensures r.Score? && alpha <= beta ==> alpha <= r.value <= beta
    {
      if !MoveFits(board.us, move) {
        return Aborted;
      }
      ghost var p := board.View();
      var ok := board.SubmitMove(move, zobrist);
      if !ok {
        return Aborted;
      }
      var child := QuiesceneSearch(-beta, -alpha);
      if child.Aborted? {
        return Aborted;
      }
      ghost var q := board.View();
      ok := board.UndoMove();
      if !ok {
        return Aborted;
      }
      PF.MakeUnmakeKeepsStack(p, move, zobrist, q);
      r := Score(-child.value);
    }
  }
}
