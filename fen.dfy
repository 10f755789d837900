/**
 * Reading a position from FEN (section 16.1 of the PGN Standard), as the `Board(string
 * fen)` constructor of Chess/Board.cs does it (lines 59-122). The constructor walks the
 * characters of the placement field and fills the board array, the piece lists, the
 * material key and the four bitboards; `ParseFen` is the value it produces, and the
 * static method `Boards.Board.FromFen` builds a `Board` by the same loops.
 *
 * Only the first three fields are read. The en-passant field, the clocks and the
 * position key are not: `EnPassentSquare` stays -1 and `positionKey` stays 0.
 */
module Fen {
  import opened Wrappers
  import opened Bits
  import opened Pieces
  import opened Positions
  import MK = MaterialKey

  const STARTING_POSITION: string := "rnbqkbnr/pppppppp/8/8/8/8/PPPPPPPP/RNBQKBNR w QKqk - 0 1"

  // ---------------------------------------------------------------------------------
  // `string.Split(char)`

  /** `s.Split(sep)`: the pieces between the separators, empty pieces included. */
  function Split(s: string, sep: char): (r: seq<string>)
    ensures |r| >= 1
  {
    if |s| == 0 then [""]
    else
      var rest := Split(s[1..], sep);
      if s[0] == sep then [""] + rest
      else [[s[0]] + rest[0]] + rest[1..]
  }

  /** The pieces put back together with the separator between them. */
  function Join(parts: seq<string>, sep: char): string
    requires |parts| >= 1
  {
    if |parts| == 1 then parts[0] else parts[0] + [sep] + Join(parts[1..], sep)
  }

  /** How often c occurs in s. */
  function Occurrences(s: string, c: char): nat
  {
    if |s| == 0 then 0 else (if s[0] == c then 1 else 0) + Occurrences(s[1..], c)
  }

  /** Splitting loses nothing: no piece holds the separator and joining them gives s back. */
  lemma {:induction false} SplitJoin(s: string, sep: char)
    ensures Join(Split(s, sep), sep) == s
    ensures forall k {:trigger Split(s, sep)[k]} :: 0 <= k < |Split(s, sep)| ==> sep !in Split(s, sep)[k]
  {
    if |s| > 0 {
      var rest := Split(s[1..], sep);
      SplitJoin(s[1..], sep);
      if s[0] == sep {
        assert Split(s, sep)[1..] == rest;
        assert s == [s[0]] + s[1..];
      } else {
        var parts := Split(s, sep);
        assert parts[0] == [s[0]] + rest[0];
        assert parts[1..] == rest[1..];
        if |rest| == 1 {
          assert s == [s[0]] + rest[0];
        } else {
          assert Join(rest, sep) == rest[0] + [sep] + Join(rest[1..], sep);
          assert s == [s[0]] + s[1..];
        }
        forall k | 0 <= k < |parts|
          ensures sep !in parts[k]
        {
          if k > 0 {
            assert parts[k] == rest[k];
          }
        }
      }
    }
  }

  /** There is one piece more than there are separators. */
  lemma {:induction false} SplitCount(s: string, sep: char)
    ensures |Split(s, sep)| == Occurrences(s, sep) + 1
  {
    if |s| > 0 {
      SplitCount(s[1..], sep);
    }
  }

  // ---------------------------------------------------------------------------------
  // The constructor, as a function of the FEN string

  /** The fields a `Board` has before its constructor runs: every list empty, no piece anywhere. */
  function Initial(): Position
  {
    Position(seq(64, _ => NONE), 0, [], seq(32, _ => []), 0, 0, 0, 0, -1, 0, Bitboards(0, 0, 0, 0))
  }

  /** `char.IsNumber`, on the characters whose `int.Parse` succeeds. */
  predicate IsDigit(c: char)
  {
    '0' <= c <= '9'
  }

  function Digit(c: char): nat
    requires IsDigit(c)
  {
    c as int - '0' as int
  }

  /** A FEN letter names a piece with a piece list. */
  lemma FenLetterHasList(c: char)
    ensures FromFenString(c).Success? ==> HasList(FromFenString(c).value)
  {
    FromFenLetters(c);
    if c in "pbnrqk" {
      ColouredHasList(LetterType(c), BLACK);
    } else if c in "PBNRQK" || c == 'K' {
      ColouredHasList(LetterType(ToLower(c)), WHITE);
    }
  }

  /** A FEN letter's code indexes the piece lists. */
  lemma FenLetterCode(c: char)
    ensures FromFenString(c).Success? ==> NONE < FromFenString(c).value < 32
  {
    FenLetterHasList(c);
  }

  /** A piece the constructor puts on a square. */
  datatype Placement = Placement(piece: nat, square: int)

  /** Placements of codes below 32 on squares of the board. */
  predicate Fits(ps: seq<Placement>)
  {
    forall k {:trigger ps[k]} :: 0 <= k < |ps| ==> ps[k].piece < 32 && 0 <= ps[k].square < 64
  }

  /**
   * Lines 77-107 for one rank: the characters from `file` on, digits skipping files and
   * letters placing pieces on square `rank * 8 + file`, in order. A letter that names no
   * piece throws, and so does a square beyond the board (the files are not checked, so a
   * long rank runs on into the next one).
   */
  function RankPlacements(rank: nat, data: string, file: nat): (r: Result<seq<Placement>>)
    ensures r.Success? ==> Fits(r.value)
    decreases |data|
  {
    if |data| == 0 then Success([])
    else if IsDigit(data[0]) then RankPlacements(rank, data[1..], file + Digit(data[0]))
    else match FromFenString(data[0])
      case Failure(e) => Failure(e)
      case Success(piece) =>
        var pos := rank * 8 + file;
        if pos >= 64 then Failure("Index was outside the bounds of the array.")
        else match RankPlacements(rank, data[1..], file + 1)
          case Failure(e) => Failure(e)
          case Success(rest) =>
            FenLetterCode(data[0]);
            Success([Placement(piece, pos)] + rest)
  }

  /** Lines 73-76: ranks `rank` to 7 in turn, rank r read from the piece `7 - r` of the placement field. */
  function RanksPlacements(ranks: seq<string>, rank: nat): (r: Result<seq<Placement>>)
    requires |ranks| >= 8 && rank <= 8
    ensures r.Success? ==> Fits(r.value)
    decreases 8 - rank
  {
    if rank == 8 then Success([])
    else match RankPlacements(rank, ranks[7 - rank], 0)
      case Failure(e) => Failure(e)
      case Success(here) =>
        match RanksPlacements(ranks, rank + 1)
        case Failure(e) => Failure(e)
        case Success(rest) => Success(here + rest)
  }

  // The four things a placement changes (lines 84-104), each with the pieces placed so far.

  /** `pieceList[piece].Add(pos)`, for a piece other than NONE. */
  function ListsPut(l: seq<seq<int>>, piece: nat, pos: int): (r: seq<seq<int>>)
    requires |l| == 32 && piece < 32
    ensures |r| == 32
  {
    if piece == NONE then l else AddTo(l, piece, pos)
  }

  /** `MaterialKey.AddPiece(piece, ref materialKey)`, for a piece other than NONE. */
  function KeyPut(key: nat, piece: nat): (r: nat)
    requires MK.IsKey(key) && piece < 32
    ensures MK.IsKey(r)
  {
    if piece == NONE then key else MK.AddPiece(piece, key)
  }

  /** A white pawn, a black pawn, another white piece or another black piece sets its square on one bitboard. */
  function BitboardsPut(b: Bitboards, piece: nat, pos: int): Bitboards
  {
    if piece == NONE then b
    else if piece == Make(PAWN, WHITE) then b.(whitePawns := SetSquare(b.whitePawns, pos))
    else if piece == Make(PAWN, BLACK) then b.(blackPawns := SetSquare(b.blackPawns, pos))
    else if ColorOf(piece) == WHITE then b.(whitePieces := SetSquare(b.whitePieces, pos))
    else b.(blackPieces := SetSquare(b.blackPieces, pos))
  }

  function SquaresAfter(b: seq<nat>, ps: seq<Placement>): (r: seq<nat>)
    requires |b| == 64 && Fits(ps)
    ensures |r| == 64
  {
    if |ps| == 0 then b
    else
      var last := ps[|ps| - 1];
      SquaresAfter(b, ps[..|ps| - 1])[last.square := last.piece]
  }

  function ListsAfter(l: seq<seq<int>>, ps: seq<Placement>): (r: seq<seq<int>>)
    requires |l| == 32 && Fits(ps)
    ensures |r| == 32
  {
    if |ps| == 0 then l
    else
      var last := ps[|ps| - 1];
      ListsPut(ListsAfter(l, ps[..|ps| - 1]), last.piece, last.square)
  }

  function KeyAfter(key: nat, ps: seq<Placement>): (r: nat)
    requires MK.IsKey(key) && Fits(ps)
    ensures MK.IsKey(r)
  {
    if |ps| == 0 then key
    else
      var last := ps[|ps| - 1];
      KeyPut(KeyAfter(key, ps[..|ps| - 1]), last.piece)
  }

  function BitboardsAfter(b: Bitboards, ps: seq<Placement>): Bitboards
  {
    if |ps| == 0 then b
    else
      var last := ps[|ps| - 1];
      BitboardsPut(BitboardsAfter(b, ps[..|ps| - 1]), last.piece, last.square)
  }

  /** A position whose squares, lists and material key are the sizes the constructor fills in. */
  predicate Fillable(p: Position)
  {
    |p.squares| == 64 && |p.pieceLists| == 32 && MK.IsKey(p.materialKey)
  }

  /** One placement (lines 84-104): the square, then for a piece its key, list and bitboard. */
  function Put(p: Position, x: Placement): (r: Position)
    requires Fillable(p) && 0 <= x.square < 64 && x.piece < 32
    ensures Fillable(r)
  {
    p.(squares := p.squares[x.square := x.piece], pieceLists := ListsPut(p.pieceLists, x.piece, x.square),
       materialKey := KeyPut(p.materialKey, x.piece), bitboards := BitboardsPut(p.bitboards, x.piece, x.square))
  }

  /** A run of placements, each field the fold of its own step. */
  function After(p: Position, ps: seq<Placement>): (r: Position)
    requires Fillable(p) && Fits(ps)
    ensures Fillable(r)
  {
    p.(squares := SquaresAfter(p.squares, ps), pieceLists := ListsAfter(p.pieceLists, ps),
       materialKey := KeyAfter(p.materialKey, ps), bitboards := BitboardsAfter(p.bitboards, ps))
  }

  /** Placing one more piece after a run is one more `Put`. */
  lemma AfterSnoc(p: Position, ps: seq<Placement>, x: Placement)
    requires Fillable(p) && Fits(ps) && 0 <= x.square < 64 && x.piece < 32
    ensures Fits(ps + [x]) && After(p, ps + [x]) == Put(After(p, ps), x)
  {
    assert (ps + [x])[..|ps|] == ps;
    assert Fits(ps + [x]) by {
      forall k | 0 <= k < |ps + [x]| ensures (ps + [x])[k].piece < 32 && 0 <= (ps + [x])[k].square < 64 {
        if k < |ps| { assert (ps + [x])[k] == ps[k]; }
      }
    }
  }

  /** Two reads in turn: the first failure, or both results one after the other. */
  function Then(a: Result<seq<Placement>>, b: Result<seq<Placement>>): Result<seq<Placement>>
  {
    match a
    case Failure(e) => Failure(e)
    case Success(xs) =>
      match b
      case Failure(e) => Failure(e)
      case Success(ys) => Success(xs + ys)
  }

  /** `rights |= bit`. */
  function AddRight(rights: nat, bit: nat): nat
    requires bit > 0
  {
    if HasRight(rights, bit) then rights else rights + bit
  }

  /** Lines 113-121: one bit for each of the letters Q, K, q and k that occurs in the field. */
  function CastlingRightsOf(field: string): nat
  {
    var r := if 'Q' in field then AddRight(0, WHITE_QUEENSIDE_CASTLE) else 0;
    var r := if 'K' in field then AddRight(r, WHITE_KINGSIDE_CASTLE) else r;
    var r := if 'q' in field then AddRight(r, BLACK_QUEENSIDE_CASTLE) else r;
    if 'k' in field then AddRight(r, BLACK_KINGSIDE_CASTLE) else r
  }

  /** The side to move: white for "w", black for anything else (line 110). */
  function SideOf(field: string): nat
  {
    if field == "w" then WHITE else BLACK
  }

  /**
   * `new Board(fen)`: the pieces of the placement field, then the side to move and the
   * castling field. Fewer than eight ranks or fewer than three fields throw when they are
   * indexed.
   */
  function ParseFen(fen: string): Result<Position>
  {
    var fields := Split(fen, ' ');
    var ranks := Split(fields[0], '/');
    if |ranks| < 8 then Failure("Index was outside the bounds of the array.")
    else match RanksPlacements(ranks, 0)
      case Failure(e) => Failure(e)
      case Success(ps) =>
        if |fields| < 3 then Failure("Index was outside the bounds of the array.")
        else
          var us := SideOf(fields[1]);
          Success(After(Initial(), ps).(us := us, them := OtherColor(us), castlingRights := CastlingRightsOf(fields[2])))
  }

  // The constructor's loops read the placement field one rank and one character at a time.

  /** Rank `rank`, then the ranks above it. */
  lemma RanksUnfold(ranks: seq<string>, rank: nat)
    requires |ranks| >= 8 && rank < 8
    ensures RanksPlacements(ranks, rank) == Then(RankPlacements(rank, ranks[7 - rank], 0), RanksPlacements(ranks, rank + 1))
  {
  }

  /**
   * One character of a rank at file `file`: a digit places nothing and skips its files, a
   * letter places its piece and moves one file on; an unknown letter or a square beyond
   * the board throws.
   */
  function CharPlacement(rank: nat, file: nat, c: char): (r: Result<(seq<Placement>, nat)>)
    ensures r.Success? ==> Fits(r.value.0) && |r.value.0| <= 1
  {
    if IsDigit(c) then var next: nat := file + Digit(c); Success(([], next))
    else match FromFenString(c)
      case Failure(e) => Failure(e)
      case Success(piece) =>
        if rank * 8 + file >= 64 then Failure("Index was outside the bounds of the array.")
        else
          FenLetterCode(c);
          var next: nat := file + 1;
          Success(([Placement(piece, rank * 8 + file)], next))
  }

  /** The character at j, then the rest of the rank. */
  lemma RankStep(rank: nat, data: string, j: nat, file: nat)
    requires j < |data|
    ensures RankPlacements(rank, data[j..], file) ==
      match CharPlacement(rank, file, data[j])
      case Failure(e) => Failure(e)
      case Success(step) => Then(Success(step.0), RankPlacements(rank, data[j + 1..], step.1))
  {
    assert data[j..][0] == data[j];
    assert data[j..][1..] == data[j + 1..];
    if IsDigit(data[j]) {
      ThenNone(RankPlacements(rank, data[j + 1..], file + Digit(data[j])));
    }
  }

  /** What is placed, then a further run, then the rest. */
  lemma ThenAppend(done: seq<Placement>, xs: seq<Placement>, a: Result<seq<Placement>>)
    ensures Then(Success(done), Then(Success(xs), a)) == Then(Success(done + xs), a)
  {
    if a.Success? {
      assert done + (xs + a.value) == done + xs + a.value;
    }
  }

  /** Runs of placements one after another. */
  lemma {:induction false} AfterAppend(p: Position, xs: seq<Placement>, ys: seq<Placement>)
    requires Fillable(p) && Fits(xs) && Fits(ys)
    ensures Fits(xs + ys) && After(p, xs + ys) == After(After(p, xs), ys)
    decreases |ys|
  {
    FitsAppend(xs, ys);
    if |ys| == 0 {
      assert xs + ys == xs;
    } else {
      var init := ys[..|ys| - 1];
      var x := ys[|ys| - 1];
      assert ys == init + [x];
      assert Fits(init) by {
        forall k | 0 <= k < |init| ensures init[k].piece < 32 && 0 <= init[k].square < 64 {
          assert init[k] == ys[k];
        }
      }
      AfterAppend(p, xs, init);
      assert xs + ys == (xs + init) + [x];
      AfterSnoc(p, xs + init, x);
      AfterSnoc(After(p, xs), init, x);
    }
  }

  /** Nothing placed yet. */
  lemma ThenNone(a: Result<seq<Placement>>)
    ensures Then(Success([]), a) == a
  {
    if a.Success? {
      assert [] + a.value == a.value;
    }
  }

  // ---------------------------------------------------------------------------------
  // What the constructor produces

  /** Each castling letter sets its own bit, and no other bit is ever set. */
  lemma CastlingRightsLetters(field: string)
    ensures HasRight(CastlingRightsOf(field), WHITE_QUEENSIDE_CASTLE) <==> 'Q' in field
    ensures HasRight(CastlingRightsOf(field), WHITE_KINGSIDE_CASTLE) <==> 'K' in field
    ensures HasRight(CastlingRightsOf(field), BLACK_QUEENSIDE_CASTLE) <==> 'q' in field
    ensures HasRight(CastlingRightsOf(field), BLACK_KINGSIDE_CASTLE) <==> 'k' in field
    ensures CastlingRightsOf(field) < 16
  {
    var q := if 'Q' in field then 1 else 0;
    var k := if 'K' in field then 1 else 0;
    var q' := if 'q' in field then 1 else 0;
    var k' := if 'k' in field then 1 else 0;
    assert CastlingRightsOf(field) == 8 * q + 4 * k + 2 * q' + k';
  }

  /**
   * A successful parse is a well-formed board with an empty history at ply 0, no
   * en-passant square and position key 0; the side to move is white exactly when the
   * second field is "w", and the castling bits are those of the letters in the third.
   */
  lemma ParseFenResult(fen: string)
    requires ParseFen(fen).Success?
    ensures var p := ParseFen(fen).value;
      && WellFormed(p)
      && p.states == [] && p.ply == 0 && p.enPassant == -1 && p.positionKey == 0
      && (p.us == WHITE <==> Split(fen, ' ')[1] == "w")
      && p.them == OtherColor(p.us)
      && p.castlingRights == CastlingRightsOf(Split(fen, ' ')[2])
  {
  }

  /** Fewer than three fields, or fewer than eight ranks, and the constructor throws. */
  lemma ParseFenTooShort(fen: string)
    ensures Occurrences(fen, ' ') < 2 ==> ParseFen(fen).Failure?
    ensures Occurrences(Split(fen, ' ')[0], '/') < 7 ==> ParseFen(fen).Failure?
  {
    SplitCount(fen, ' ');
    SplitCount(Split(fen, ' ')[0], '/');
  }

  /** A character that is neither a digit nor a piece letter. */
  predicate BadChar(c: char)
  {
    !IsDigit(c) && FromFenString(c).Failure?
  }

  lemma {:induction false} RankFailsOnBadChar(rank: nat, data: string, file: nat, i: nat)
    requires i < |data| && BadChar(data[i])
    ensures RankPlacements(rank, data, file).Failure?
    decreases |data|
  {
    if i > 0 && !BadChar(data[0]) {
      assert data[1..][i - 1] == data[i];
      if IsDigit(data[0]) {
        RankFailsOnBadChar(rank, data[1..], file + Digit(data[0]), i - 1);
      } else {
        RankFailsOnBadChar(rank, data[1..], file + 1, i - 1);
      }
    }
  }

  lemma {:induction false} RanksFailOnBadChar(ranks: seq<string>, rank: nat, k: nat, i: nat)
    requires |ranks| >= 8 && rank <= 7 - k && k < 8
    requires i < |ranks[k]| && BadChar(ranks[k][i])
    ensures RanksPlacements(ranks, rank).Failure?
    decreases 8 - rank
  {
    if rank == 7 - k {
      RankFailsOnBadChar(rank, ranks[k], 0, i);
    } else {
      RanksFailOnBadChar(ranks, rank + 1, k, i);
    }
  }

  /** Any character of the eight ranks that is neither a digit nor a piece letter makes the constructor throw. */
  lemma ParseFenBadChar(fen: string, k: nat, i: nat)
    requires k < 8 && k < |Split(Split(fen, ' ')[0], '/')|
    requires i < |Split(Split(fen, ' ')[0], '/')[k]| && BadChar(Split(Split(fen, ' ')[0], '/')[k][i])
    ensures ParseFen(fen).Failure?
  {
    var ranks := Split(Split(fen, ' ')[0], '/');
    if |ranks| >= 8 {
      RanksFailOnBadChar(ranks, 0, k, i);
    }
  }

  // ---------------------------------------------------------------------------------
  // Where the pieces go

  /** d empty squares. */
  function Empties(d: nat): (r: seq<nat>)
    ensures |r| == d && forall j {:trigger r[j]} :: 0 <= j < d ==> r[j] == NONE
  {
    if d == 0 then [] else [NONE] + Empties(d - 1)
  }

  /** The squares a rank's characters describe: a digit d is d empty squares, a letter its piece. */
  function Expand(data: string): (r: Option<seq<nat>>)
    ensures r.Some? ==> forall j {:trigger r.value[j]} :: 0 <= j < |r.value| ==> r.value[j] < 32
  {
    if |data| == 0 then Some([])
    else match Expand(data[1..])
      case None => None
      case Some(rest) =>
        if IsDigit(data[0]) then Some(Empties(Digit(data[0])) + rest)
        else match FromFenString(data[0])
          case Failure(_) => None
          case Success(piece) =>
            FenLetterCode(data[0]);
            Some([piece] + rest)
  }

  /** The placements of a row of cells starting on square `lo`: one for each cell that holds a piece. */
  function RowPlacements(cells: seq<nat>, lo: int): (r: seq<Placement>)
    requires 0 <= lo && lo + |cells| <= 64
    requires forall j {:trigger cells[j]} :: 0 <= j < |cells| ==> cells[j] < 32
    ensures Fits(r)
  {
    if |cells| == 0 then []
    else
      var rest := RowPlacements(cells[1..], lo + 1);
      if cells[0] == NONE then rest else [Placement(cells[0], lo)] + rest
  }

  /** A rank whose squares fit from `file` on places exactly the pieces its cells describe. */
  lemma {:induction false} RankPlacementsOfCells(rank: nat, data: string, file: nat)
    requires rank < 8 && Expand(data).Some? && file + |Expand(data).value| <= 8
    ensures RankPlacements(rank, data, file) == Success(RowPlacements(Expand(data).value, rank * 8 + file))
    decreases |data|, 1
  {
    if |data| > 0 {
      if IsDigit(data[0]) {
        RankDigitCells(rank, data, file);
      } else {
        RankLetterCells(rank, data, file);
      }
    }
  }

  lemma {:induction false} RankDigitCells(rank: nat, data: string, file: nat)
    requires rank < 8 && Expand(data).Some? && file + |Expand(data).value| <= 8
    requires |data| > 0 && IsDigit(data[0])
    ensures RankPlacements(rank, data, file) == Success(RowPlacements(Expand(data).value, rank * 8 + file))
    decreases |data|, 0
  {
    var d := Digit(data[0]);
    ExpandDigit(data);
    var rest := Expand(data[1..]).value;
    var lo := rank * 8 + file;
    RankPlacementsOfCells(rank, data[1..], file + d);
    assert rank * 8 + (file + d) == lo + d;
    Blanks(d, rest, lo);
    RankPlacementsDigit(rank, data, file);
    calc {
      RankPlacements(rank, data, file);
      RankPlacements(rank, data[1..], file + d);
      Success(RowPlacements(rest, lo + d));
      Success(RowPlacements(Empties(d) + rest, lo));
    }
  }

  lemma ExpandDigit(data: string)
    requires Expand(data).Some? && |data| > 0 && IsDigit(data[0])
    ensures Expand(data[1..]).Some? && Expand(data).value == Empties(Digit(data[0])) + Expand(data[1..]).value
  {
  }

  lemma RankPlacementsDigit(rank: nat, data: string, file: nat)
    requires |data| > 0 && IsDigit(data[0])
    ensures RankPlacements(rank, data, file) == RankPlacements(rank, data[1..], file + Digit(data[0]))
  {
  }

  lemma ExpandLetter(data: string)
    requires Expand(data).Some? && |data| > 0 && !IsDigit(data[0])
    ensures Expand(data[1..]).Some? && FromFenString(data[0]).Success?
    ensures NONE < FromFenString(data[0]).value < 32
    ensures Expand(data).value == [FromFenString(data[0]).value] + Expand(data[1..]).value
  {
    FenLetterCode(data[0]);
  }

  lemma RankPlacementsLetter(rank: nat, data: string, file: nat, rest: seq<Placement>)
    requires |data| > 0 && !IsDigit(data[0]) && FromFenString(data[0]).Success? && rank * 8 + file < 64
    requires RankPlacements(rank, data[1..], file + 1) == Success(rest)
    ensures RankPlacements(rank, data, file) == Success([Placement(FromFenString(data[0]).value, rank * 8 + file)] + rest)
  {
  }

  lemma RowPlacementsPiece(cells: seq<nat>, lo: int)
    requires 0 <= lo && lo + |cells| <= 64 && |cells| > 0 && cells[0] != NONE
    requires forall j {:trigger cells[j]} :: 0 <= j < |cells| ==> cells[j] < 32
    ensures RowPlacements(cells, lo) == [Placement(cells[0], lo)] + RowPlacements(cells[1..], lo + 1)
  {
  }

  lemma {:induction false} RankLetterCells(rank: nat, data: string, file: nat)
    requires rank < 8 && Expand(data).Some? && file + |Expand(data).value| <= 8
    requires |data| > 0 && !IsDigit(data[0])
    ensures RankPlacements(rank, data, file) == Success(RowPlacements(Expand(data).value, rank * 8 + file))
    decreases |data|, 0
  {
    ExpandLetter(data);
    var cells := Expand(data).value;
    var rest := Expand(data[1..]).value;
    var piece := FromFenString(data[0]).value;
    var pos := rank * 8 + file;
    assert cells[1..] == rest;
    RowPlacementsPiece(cells, pos);
    RankPlacementsOfCells(rank, data[1..], file + 1);
    assert rank * 8 + (file + 1) == pos + 1;
    RankPlacementsLetter(rank, data, file, RowPlacements(rest, pos + 1));
    calc {
      RankPlacements(rank, data, file);
      Success([Placement(piece, pos)] + RowPlacements(rest, pos + 1));
      Success(RowPlacements(cells, pos));
    }
  }

  /** Empty cells place nothing. */
  lemma {:induction false} Blanks(d: nat, rest: seq<nat>, lo: int)
    requires 0 <= lo && lo + d + |rest| <= 64
    requires forall j {:trigger rest[j]} :: 0 <= j < |rest| ==> rest[j] < 32
    ensures RowPlacements(Empties(d) + rest, lo) == RowPlacements(rest, lo + d)
  {
    if d > 0 {
      var cells := Empties(d) + rest;
      assert cells[0] == NONE;
      assert cells[1..] == Empties(d - 1) + rest;
      Blanks(d - 1, rest, lo + 1);
      assert RowPlacements(cells, lo) == RowPlacements(cells[1..], lo + 1);
    } else {
      assert Empties(d) + rest == rest;
    }
  }

  /** Placements one after another fit when each part fits. */
  lemma FitsAppend(xs: seq<Placement>, ys: seq<Placement>)
    requires Fits(xs) && Fits(ys)
    ensures Fits(xs + ys)
  {
    forall k | 0 <= k < |xs + ys|
      ensures (xs + ys)[k].piece < 32 && 0 <= (xs + ys)[k].square < 64
    {
      if k < |xs| { assert (xs + ys)[k] == xs[k]; } else { assert (xs + ys)[k] == ys[k - |xs|]; }
    }
  }

  lemma {:induction false} SquaresAfterAppend(b: seq<nat>, xs: seq<Placement>, ys: seq<Placement>)
    requires |b| == 64 && Fits(xs) && Fits(ys)
    ensures Fits(xs + ys)
    ensures SquaresAfter(b, xs + ys) == SquaresAfter(SquaresAfter(b, xs), ys)
    decreases |ys|
  {
    FitsAppend(xs, ys);
    if |ys| > 0 {
      var init := ys[..|ys| - 1];
      var last := ys[|ys| - 1];
      assert Fits(init) by {
        forall k | 0 <= k < |init| ensures init[k].piece < 32 && 0 <= init[k].square < 64 {
          assert init[k] == ys[k];
        }
      }
      assert (xs + ys)[..|xs + ys| - 1] == xs + init;
      assert (xs + ys)[|xs + ys| - 1] == last;
      SquaresAfterAppend(b, xs, init);
    } else {
      assert xs + ys == xs;
    }
  }

  /** Placing a row of cells from square `lo` puts each cell's piece on its square and leaves the rest. */
  lemma {:induction false} RowSquares(b: seq<nat>, cells: seq<nat>, lo: int)
    requires |b| == 64 && 0 <= lo && lo + |cells| <= 64
    requires forall j {:trigger cells[j]} :: 0 <= j < |cells| ==> cells[j] < 32
    ensures forall i {:trigger SquaresAfter(b, RowPlacements(cells, lo))[i]} :: 0 <= i < 64 ==>
      SquaresAfter(b, RowPlacements(cells, lo))[i] ==
        if lo <= i < lo + |cells| && cells[i - lo] != NONE then cells[i - lo] else b[i]
    decreases |cells|
  {
    if |cells| > 0 {
      var rest := RowPlacements(cells[1..], lo + 1);
      var b' := if cells[0] == NONE then b else b[lo := cells[0]];
      if cells[0] == NONE {
        RowSquares(b, cells[1..], lo + 1);
      } else {
        var first := [Placement(cells[0], lo)];
        assert first[..0] == [];
        assert SquaresAfter(b, first) == b';
        SquaresAfterAppend(b, first, rest);
        RowSquares(b', cells[1..], lo + 1);
      }
      assert SquaresAfter(b, RowPlacements(cells, lo)) == SquaresAfter(b', rest);
      RowSquaresStep(b, b', cells, lo, SquaresAfter(b', rest));
    }
  }

  /** The step of `RowSquares`: the first cell's square, then the rest of the row. */
  lemma RowSquaresStep(b: seq<nat>, b': seq<nat>, cells: seq<nat>, lo: int, after: seq<nat>)
    requires |b| == 64 && |after| == 64 && 0 <= lo && 0 < |cells| && lo + |cells| <= 64
    requires b' == if cells[0] == NONE then b else b[lo := cells[0]]
    requires forall i {:trigger after[i]} :: 0 <= i < 64 ==>
      after[i] == if lo + 1 <= i < lo + |cells| && cells[1..][i - (lo + 1)] != NONE then cells[1..][i - (lo + 1)] else b'[i]
    ensures forall i {:trigger after[i]} :: 0 <= i < 64 ==>
      after[i] == if lo <= i < lo + |cells| && cells[i - lo] != NONE then cells[i - lo] else b[i]
  {
    forall i | 0 <= i < 64
      ensures after[i] == if lo <= i < lo + |cells| && cells[i - lo] != NONE then cells[i - lo] else b[i]
    {
      if lo < i < lo + |cells| {
        assert cells[i - lo] == cells[1..][i - (lo + 1)];
      }
    }
  }

  /** Each of the eight ranks describes exactly eight squares. */
  predicate ExactRanks(ranks: seq<string>)
  {
    && |ranks| >= 8
    && forall k {:trigger Expand(ranks[k])} :: 0 <= k < 8 ==> Expand(ranks[k]).Some? && |Expand(ranks[k]).value| == 8
  }

  /** Eight rows of eight cells, each a code below 32. */
  predicate IsGrid(rows: seq<seq<nat>>)
  {
    && |rows| == 8
    && forall k {:trigger rows[k]} :: 0 <= k < 8 ==>
      |rows[k]| == 8 && forall j {:trigger rows[k][j]} :: 0 <= j < 8 ==> rows[k][j] < 32
  }

  /** The cells of the first n ranks of the placement field. */
  function Grid(ranks: seq<string>, n: nat): (r: seq<seq<nat>>)
    requires ExactRanks(ranks) && n <= 8
    ensures |r| == n && forall k {:trigger r[k]} :: 0 <= k < n ==> r[k] == Expand(ranks[k]).value
  {
    if n == 0 then [] else Grid(ranks, n - 1) + [Expand(ranks[n - 1]).value]
  }

  lemma GridIsGrid(ranks: seq<string>)
    requires ExactRanks(ranks)
    ensures IsGrid(Grid(ranks, 8))
  {
    var rows := Grid(ranks, 8);
    forall k | 0 <= k < 8
      ensures |rows[k]| == 8 && forall j {:trigger rows[k][j]} :: 0 <= j < 8 ==> rows[k][j] < 32
    {
      assert rows[k] == Expand(ranks[k]).value;
    }
  }

  /** The placements of rows `rank` to 7 of a grid, the grid's row `7 - r` on rank r. */
  function GridPlacements(rows: seq<seq<nat>>, rank: nat): (r: seq<Placement>)
    requires IsGrid(rows) && rank <= 8
    ensures Fits(r)
    decreases 8 - rank
  {
    if rank == 8 then []
    else
      var row := rows[7 - rank];
      var here := RowPlacements(row, rank * 8);
      var rest := GridPlacements(rows, rank + 1);
      FitsAppend(here, rest);
      here + rest
  }

  /** Ranks that each describe eight squares are read as the placements of their cells. */
  lemma RanksOfGrid(ranks: seq<string>, rank: nat)
    requires ExactRanks(ranks) && rank <= 8
    ensures IsGrid(Grid(ranks, 8))
    ensures RanksPlacements(ranks, rank) == Success(GridPlacements(Grid(ranks, 8), rank))
  {
    GridIsGrid(ranks);
    RanksOfRows(ranks, Grid(ranks, 8), rank);
  }

  /** `RanksOfGrid` over rows given as a parameter. */
  lemma {:induction false} RanksOfRows(ranks: seq<string>, rows: seq<seq<nat>>, rank: nat)
    requires ExactRanks(ranks) && rank <= 8 && IsGrid(rows)
    requires forall k {:trigger rows[k]} :: 0 <= k < 8 ==> rows[k] == Expand(ranks[k]).value
    ensures RanksPlacements(ranks, rank) == Success(GridPlacements(rows, rank))
    decreases 8 - rank
  {
    if rank < 8 {
      RowOfRank(ranks, rows, rank);
      RanksOfRows(ranks, rows, rank + 1);
      RanksStep(ranks, rank, RowPlacements(rows[7 - rank], rank * 8), GridPlacements(rows, rank + 1));
      GridPlacementsStep(rows, rank);
    }
  }

  lemma GridPlacementsStep(rows: seq<seq<nat>>, rank: nat)
    requires IsGrid(rows) && rank < 8
    ensures GridPlacements(rows, rank) == RowPlacements(rows[7 - rank], rank * 8) + GridPlacements(rows, rank + 1)
  {
  }

  /** Rank r of the placement field is read as the placements of grid row `7 - r`. */
  lemma RowOfRank(ranks: seq<string>, rows: seq<seq<nat>>, rank: nat)
    requires ExactRanks(ranks) && rank < 8 && IsGrid(rows)
    requires forall k {:trigger rows[k]} :: 0 <= k < 8 ==> rows[k] == Expand(ranks[k]).value
    ensures RankPlacements(rank, ranks[7 - rank], 0) == Success(RowPlacements(rows[7 - rank], rank * 8))
  {
    assert rows[7 - rank] == Expand(ranks[7 - rank]).value;
    RankPlacementsOfCells(rank, ranks[7 - rank], 0);
  }

  lemma RanksStep(ranks: seq<string>, rank: nat, here: seq<Placement>, rest: seq<Placement>)
    requires |ranks| >= 8 && rank < 8
    requires RankPlacements(rank, ranks[7 - rank], 0) == Success(here)
    requires RanksPlacements(ranks, rank + 1) == Success(rest)
    ensures RanksPlacements(ranks, rank) == Success(here + rest)
  {
  }

  /** The piece FEN puts on square i: file i % 8 of row `7 - i / 8`. */
  function GridSquare(rows: seq<seq<nat>>, i: int): nat
    requires IsGrid(rows) && 0 <= i < 64
  {
    var k := 7 - i / 8;
    assert |rows[k]| == 8;
    rows[k][i % 8]
  }

  /** Placing rows `rank` to 7 of a grid on squares that are blank from `rank` on. */
  lemma {:induction false} GridSquares(b: seq<nat>, rows: seq<seq<nat>>, rank: nat)
    requires |b| == 64 && IsGrid(rows) && rank <= 8
    requires forall i {:trigger b[i]} :: rank * 8 <= i < 64 ==> b[i] == NONE
    ensures forall i {:trigger SquaresAfter(b, GridPlacements(rows, rank))[i]} :: 0 <= i < 64 ==>
      SquaresAfter(b, GridPlacements(rows, rank))[i] == if i < rank * 8 then b[i] else GridSquare(rows, i)
    decreases 8 - rank
  {
    if rank < 8 {
      var cells := rows[7 - rank];
      var here := RowPlacements(cells, rank * 8);
      RowSquares(b, cells, rank * 8);
      var b' := SquaresAfter(b, here);
      GridSquares(b', rows, rank + 1);
      var rest := GridPlacements(rows, rank + 1);
      SquaresAfterAppend(b, here, rest);
      CombineRows(b, b', SquaresAfter(b', rest), rows, rank);
    }
  }

  /** One row written over a blank board, then the rows above it: the squares from `rank` on are the grid's. */
  lemma CombineRows(b: seq<nat>, b': seq<nat>, after: seq<nat>, rows: seq<seq<nat>>, rank: nat)
    requires |b| == 64 && |b'| == 64 && |after| == 64 && IsGrid(rows) && rank < 8
    requires forall i {:trigger b[i]} :: rank * 8 <= i < 64 ==> b[i] == NONE
    requires var cells := rows[7 - rank];
      forall i {:trigger b'[i]} :: 0 <= i < 64 ==>
        b'[i] == if rank * 8 <= i < rank * 8 + |cells| && cells[i - rank * 8] != NONE then cells[i - rank * 8] else b[i]
    requires forall i {:trigger after[i]} :: 0 <= i < 64 ==>
      after[i] == if i < (rank + 1) * 8 then b'[i] else GridSquare(rows, i)
    ensures forall i {:trigger after[i]} :: 0 <= i < 64 ==>
      after[i] == if i < rank * 8 then b[i] else GridSquare(rows, i)
  {
    forall i | 0 <= i < 64
      ensures after[i] == if i < rank * 8 then b[i] else GridSquare(rows, i)
    {
      if rank * 8 <= i < rank * 8 + 8 {
        assert i / 8 == rank && i % 8 == i - rank * 8;
      }
    }
  }

  /** The piece FEN puts on square i: file i % 8 of the placement field's piece `7 - i / 8`. */
  function FenSquare(ranks: seq<string>, i: int): (r: nat)
    requires ExactRanks(ranks) && 0 <= i < 64
  {
    var k := 7 - i / 8;
    assert ranks[k] == ranks[k];
    Expand(ranks[k]).value[i % 8]
  }

  /**
   * A FEN string with at least three fields whose eight ranks each describe eight squares
   * is read, and square i holds the piece of file i % 8 of the placement field's piece
   * `7 - i / 8` (ranks are written from the eighth down), NONE for a digit's squares.
   */
  lemma ParseFenSquares(fen: string)
    requires |Split(fen, ' ')| >= 3 && ExactRanks(Split(Split(fen, ' ')[0], '/'))
    ensures ParseFen(fen).Success?
    ensures forall i {:trigger ParseFen(fen).value.squares[i]} :: 0 <= i < 64 ==>
      ParseFen(fen).value.squares[i] == FenSquare(Split(Split(fen, ' ')[0], '/'), i)
  {
    var ranks := Split(Split(fen, ' ')[0], '/');
    var rows := Grid(ranks, 8);
    RanksOfGrid(ranks, 0);
    var ps := GridPlacements(rows, 0);
    ParseFenPlaces(fen, ps);
    GridSquares(Initial().squares, rows, 0);
    GridIsFen(ranks);
  }

  /** When the ranks are read as `ps`, the squares are those `ps` leave on an empty board. */
  lemma ParseFenPlaces(fen: string, ps: seq<Placement>)
    requires |Split(fen, ' ')| >= 3 && |Split(Split(fen, ' ')[0], '/')| >= 8
    requires RanksPlacements(Split(Split(fen, ' ')[0], '/'), 0) == Success(ps)
    ensures ParseFen(fen).Success? && ParseFen(fen).value.squares == SquaresAfter(Initial().squares, ps)
  {
  }

  /** The grid's squares are FEN's squares. */
  lemma GridIsFen(ranks: seq<string>)
    requires ExactRanks(ranks)
    ensures IsGrid(Grid(ranks, 8))
    ensures forall i {:trigger FenSquare(ranks, i)} :: 0 <= i < 64 ==> GridSquare(Grid(ranks, 8), i) == FenSquare(ranks, i)
  {
    GridIsGrid(ranks);
    forall i | 0 <= i < 64
      ensures GridSquare(Grid(ranks, 8), i) == FenSquare(ranks, i)
    {
      assert Grid(ranks, 8)[7 - i / 8] == Expand(ranks[7 - i / 8]).value;
    }
  }

  /**
   * Placing a piece adds its square to its own list only and raises its own count in the
   * material key (below 15) only.
   */
  lemma PutPieceEffects(l: seq<seq<int>>, key: nat, piece: nat, pos: int)
    requires |l| == 32 && MK.IsKey(key) && HasList(piece)
    ensures ListsPut(l, piece, pos)[piece] == l[piece] + [pos]
    ensures forall c {:trigger ListsPut(l, piece, pos)[c]} :: 0 <= c < 32 && c != piece ==> ListsPut(l, piece, pos)[c] == l[c]
    ensures MK.Count(piece, key) < 15 ==>
      forall j {:trigger MK.Field(KeyPut(key, piece), j)} :: MK.Field(KeyPut(key, piece), j) ==
        if j == MK.Slot(piece) then MK.Count(piece, key) + 1 else MK.Field(key, j)
  {
    if MK.Count(piece, key) < 15 {
      forall j
        ensures MK.Field(KeyPut(key, piece), j) == if j == MK.Slot(piece) then MK.Count(piece, key) + 1 else MK.Field(key, j)
      {
        MK.AddCounts(piece, key, j);
      }
    }
  }

  /** The squares, in order, that placements put piece c on. */
  function SquaresOf(ps: seq<Placement>, c: nat): (r: seq<int>)
    ensures |r| <= |ps|
  {
    if |ps| == 0 then []
    else
      var last := ps[|ps| - 1];
      SquaresOf(ps[..|ps| - 1], c) + if last.piece == c then [last.square] else []
  }

  /** After a run of placements, each piece's list has gained the squares placed with that piece, in order. */
  lemma {:induction false} ListsAfterSquares(l: seq<seq<int>>, ps: seq<Placement>, c: nat)
    requires |l| == 32 && Fits(ps) && NONE < c < 32
    ensures ListsAfter(l, ps)[c] == l[c] + SquaresOf(ps, c)
  {
    if |ps| > 0 {
      var init := ps[..|ps| - 1];
      assert Fits(init) by {
        forall k | 0 <= k < |init| ensures init[k].piece < 32 && 0 <= init[k].square < 64 {
          assert init[k] == ps[k];
        }
      }
      ListsAfterSquares(l, init, c);
    }
  }

  /** The two pawn codes are the codes of type PAWN. */
  lemma PawnCodes(piece: nat)
    requires HasList(piece)
    ensures piece == Make(PAWN, WHITE) <==> TypeOf(piece) == PAWN && ColorOf(piece) == WHITE
    ensures piece == Make(PAWN, BLACK) <==> TypeOf(piece) == PAWN && ColorOf(piece) == BLACK
    ensures piece != NONE && (ColorOf(piece) == WHITE || ColorOf(piece) == BLACK)
  {
    assert piece in [21, 25, 17, 9, 13, 5, 22, 26, 18, 10, 14, 6];
  }

  /**
   * Placing a piece sets its square on exactly one of the four bitboards: the pawn board
   * of its colour for a pawn, its colour's piece board for any other piece.
   */
  lemma PutPieceBitboards(b: Bitboards, piece: nat, pos: int, i: int)
    requires 0 <= pos < 64 && HasList(piece)
    ensures var b' := BitboardsPut(b, piece, pos);
      && (Has(b'.whitePawns, i) <==> Has(b.whitePawns, i) || (i == pos && TypeOf(piece) == PAWN && ColorOf(piece) == WHITE))
      && (Has(b'.blackPawns, i) <==> Has(b.blackPawns, i) || (i == pos && TypeOf(piece) == PAWN && ColorOf(piece) == BLACK))
      && (Has(b'.whitePieces, i) <==> Has(b.whitePieces, i) || (i == pos && TypeOf(piece) != PAWN && ColorOf(piece) == WHITE))
      && (Has(b'.blackPieces, i) <==> Has(b.blackPieces, i) || (i == pos && TypeOf(piece) != PAWN && ColorOf(piece) == BLACK))
  {
    PawnCodes(piece);
    HasSet(b.whitePawns, pos, i);
    HasSet(b.blackPawns, pos, i);
    HasSet(b.whitePieces, pos, i);
    HasSet(b.blackPieces, pos, i);
  }
}
