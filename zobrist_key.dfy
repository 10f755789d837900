/**
 * The position hash (Chess/ZobristKey.cs). `pieceSquareData` holds one random `ulong` per
 * (piece code, square); the random generator is not modelled, so the table is built from
 * an arbitrary stream of values standing for the successive `NextULong` results.
 *
 * `PieceMoved` and `ColorChanged` are called by the board (Chess/Board.cs:145, 189-190,
 * 212, 243, 286, 355, 371) but are not defined in the source; they are declared here with
 * their evident meaning, chosen to agree with `GetKey`: moving a piece XORs out its old
 * square's entry and XORs in its new one, and changing the side to move swaps the side
 * code that `GetKey` XORs in (WHITE = 1 for BLACK = 2, that is XOR with 3).
 */
module ZobristKey {
  import opened Pieces
  import opened Bits

  /** `pieceSquareData`: 32 rows indexed by code; the twelve piece rows hold 64 entries. */
  type Table = seq<seq<bv64>>

  predicate IsTable(t: Table)
  {
    && |t| == 32
    && forall p {:trigger t[p]} :: 0 <= p < 32 && IsPiece(p) ==> |t[p]| == 64
  }

  /** A board array whose squares hold NONE or a piece code (other rows of the table are null). */
  predicate IsBoard(b: seq<nat>)
  {
    && |b| == 64
    && forall i {:trigger b[i]} :: 0 <= i < 64 ==> b[i] == NONE || (b[i] < 32 && IsPiece(b[i]))
  }

  /** The row the static constructor puts in place for the k-th code of `PIECE_TYPES`. */
  function Row(stream: seq<bv64>, k: nat): (row: seq<bv64>)
    requires 64 * k + 64 <= |stream|
    ensures |row| == 64
    ensures forall i {:trigger row[i]} :: 0 <= i < 64 ==> row[i] == stream[64 * k + i]
  {
    stream[64 * k .. 64 * k + 64]
  }

  /**
   * The static constructor: for each code of `PIECE_TYPES`, a fresh row of 64 draws. The
   * draws are the stream's values in order; codes that are not pieces keep no row.
   */
  method BuildTable(stream: seq<bv64>) returns (table: Table)
    requires |stream| >= 64 * |PIECE_TYPES|
    ensures IsTable(table)
    ensures forall k {:trigger PIECE_TYPES[k]} :: 0 <= k < |PIECE_TYPES| ==> table[PIECE_TYPES[k]] == Row(stream, k)
    ensures forall p {:trigger table[p]} :: 0 <= p < 32 && !IsPiece(p) ==> table[p] == []
  {
    table := seq(32, _ => []);
    var k := 0;
    while k < |PIECE_TYPES|
      invariant 0 <= k <= |PIECE_TYPES| && |table| == 32
      invariant forall j {:trigger PIECE_TYPES[j]} :: 0 <= j < k ==> table[PIECE_TYPES[j]] == Row(stream, j)
      invariant forall p {:trigger table[p]} :: 0 <= p < 32 && p !in PIECE_TYPES[..k] ==> table[p] == []
    {
      var pieceType := PIECE_TYPES[k];
      var row := [];
      var i := 0;
      while i < 64
        invariant 0 <= i <= 64
        invariant row == stream[64 * k .. 64 * k + i]
      {
        row := row + [stream[64 * k + i]];
        i := i + 1;
      }
      PieceCodeBelow(k);
      DistinctAfter(k);
      assert PIECE_TYPES[..k + 1] == PIECE_TYPES[..k] + [pieceType];
      table := table[pieceType := row];
      k := k + 1;
    }
    assert PIECE_TYPES[..k] == PIECE_TYPES;
    forall p | 0 <= p < 32 && IsPiece(p)
      ensures |table[p]| == 64
    {
      var j :| 0 <= j < |PIECE_TYPES| && PIECE_TYPES[j] == p;
    }
  }

  lemma PieceCodeBelow(k: nat)
    requires k < |PIECE_TYPES|
    ensures PIECE_TYPES[k] < 32
  {
  }

  /** The k-th code differs from every earlier one. */
  lemma DistinctAfter(k: nat)
    requires k < |PIECE_TYPES|
    ensures forall j {:trigger PIECE_TYPES[j]} :: 0 <= j < k ==> PIECE_TYPES[j] != PIECE_TYPES[k]
  {
    forall j | 0 <= j < k
      ensures PIECE_TYPES[j] != PIECE_TYPES[k]
    {
      PieceTypesDistinct(j, k);
    }
  }

  /** The XOR of the entries of the occupied squares below n. */
  function PieceHash(b: seq<nat>, t: Table, n: nat): bv64
    requires IsBoard(b) && IsTable(t) && n <= 64
  {
    if n == 0 then 0
    else if b[n - 1] == NONE then PieceHash(b, t, n - 1)
    else Xor(PieceHash(b, t, n - 1), t[b[n - 1]][n - 1])
  }

  /** The `ulong` value of a small natural, counted up one at a time (no integer-to-bit-vector cast). */
  function Code(n: nat): bv64
    requires n < 64
  {
    if n == 0 then 0 else Code(n - 1) + 1
  }

  /**
   * `(uint)EnPassentSquare` widened to `ulong`. The square is -1 or an index 0..63
   * throughout the board; -1 wraps to `0xFFFFFFFF`.
   */
  function EnPassantCode(ep: int): bv64
    requires -1 <= ep < 64
  {
    if ep == -1 then 0xFFFF_FFFF else Code(ep)
  }

  /** The key of a position: the piece hash, then the side code, then the en-passant code. */
  function Key(b: seq<nat>, us: nat, ep: int, t: Table): bv64
    requires IsBoard(b) && IsTable(t) && us < 64 && -1 <= ep < 64
  {
    Xor(Xor(PieceHash(b, t, 64), Code(us)), EnPassantCode(ep))
  }

  /** `GetKey`: fold `hash ^= pieceSquareData[board[i]][i]` over the occupied squares. */
  method GetKey(board: array<nat>, us: nat, enPassant: int, table: Table) returns (hash: bv64)
    requires IsBoard(board[..]) && IsTable(table) && us < 64 && -1 <= enPassant < 64
    ensures hash == Key(board[..], us, enPassant, table)
  {
    hash := 0;
    var i := 0;
    while i < 64
      invariant 0 <= i <= 64
      invariant hash == PieceHash(board[..], table, i)
    {
      if board[i] != NONE {
        hash := Xor(hash, table[board[i]][i]);
      }
      i := i + 1;
    }
    hash := Xor(hash, Code(us));
    hash := Xor(hash, EnPassantCode(enPassant));
  }

  /** With no piece on the board only the side and en-passant codes remain. */
  lemma {:induction false} EmptyHash(b: seq<nat>, t: Table, n: nat)
    requires IsBoard(b) && IsTable(t) && n <= 64
    requires forall i {:trigger b[i]} :: 0 <= i < 64 ==> b[i] == NONE
    ensures PieceHash(b, t, n) == 0
  {
    if n > 0 {
      EmptyHash(b, t, n - 1);
    }
  }

  /** Swapping the order of two XORed entries. */
  lemma XorSwap(h: bv64, x: bv64, y: bv64)
    ensures Xor(Xor(h, x), y) == Xor(Xor(h, y), x)
  {
    XorAssociates(h, x, y);
    XorCommutes(x, y);
    XorAssociates(h, y, x);
  }

  /** Placing piece p on the empty square s XORs exactly the entry `t[p][s]` into the hash. */
  lemma {:induction false} PlaceHash(b: seq<nat>, t: Table, s: int, p: nat, n: nat)
    requires IsBoard(b) && IsTable(t) && 0 <= s < 64 && b[s] == NONE && p < 32 && IsPiece(p) && n <= 64
    ensures IsBoard(b[s := p])
    ensures PieceHash(b[s := p], t, n) == if s < n then Xor(PieceHash(b, t, n), t[p][s]) else PieceHash(b, t, n)
  {
    var b' := b[s := p];
    assert IsBoard(b') by {
      forall i | 0 <= i < 64 ensures b'[i] == NONE || (b'[i] < 32 && IsPiece(b'[i])) {
        if i != s {
          assert b'[i] == b[i];
        }
      }
    }
    if n > 0 {
      PlaceHash(b, t, s, p, n - 1);
      if n - 1 != s && b[n - 1] != NONE && s < n - 1 {
        XorSwap(PieceHash(b, t, n - 1), t[p][s], t[b[n - 1]][n - 1]);
      }
    }
  }

  /** Placing a piece on an empty square changes the key by XOR with one table entry. */
  lemma PlaceKey(b: seq<nat>, us: nat, ep: int, t: Table, s: int, p: nat)
    requires IsBoard(b) && IsTable(t) && us < 64 && -1 <= ep < 64
    requires 0 <= s < 64 && b[s] == NONE && p < 32 && IsPiece(p)
    ensures IsBoard(b[s := p])
    ensures Key(b[s := p], us, ep, t) == Xor(Key(b, us, ep, t), t[p][s])
  {
    PlaceHash(b, t, s, p, 64);
    var h := PieceHash(b, t, 64);
    var e := t[p][s];
    XorSwap(h, e, Code(us));
    XorSwap(Xor(h, Code(us)), e, EnPassantCode(ep));
  }

  /** Removing the piece on square s changes the key by XOR with the same entry. */
  lemma RemoveKey(b: seq<nat>, us: nat, ep: int, t: Table, s: int)
    requires IsBoard(b) && IsTable(t) && us < 64 && -1 <= ep < 64
    requires 0 <= s < 64 && b[s] != NONE
    ensures IsBoard(b[s := NONE])
    ensures Key(b[s := NONE], us, ep, t) == Xor(Key(b, us, ep, t), t[b[s]][s])
  {
    var b' := b[s := NONE];
    assert IsBoard(b') by {
      forall i | 0 <= i < 64 ensures b'[i] == NONE || (b'[i] < 32 && IsPiece(b'[i])) {
        if i != s {
          assert b'[i] == b[i];
        }
      }
    }
    assert b'[s := b[s]] == b;
    PlaceKey(b', us, ep, t, s, b[s]);
    XorTwice(Key(b', us, ep, t), t[b[s]][s]);
  }

  /**
   * The XOR resulting from moving `piece` off square `from` and, unless `to` is -1, onto
   * square `to` (declared here; not part of the source).
   */
  function PieceMoved(piece: nat, from: int, to: int, key: bv64, t: Table): bv64
    requires IsTable(t) && piece < 32 && IsPiece(piece) && 0 <= from < 64 && -1 <= to < 64
  {
    var k := Xor(key, t[piece][from]);
    if to == -1 then k else Xor(k, t[piece][to])
  }

  /** The XOR resulting from a change of the side to move (declared here; not part of the source). */
  function ColorChanged(key: bv64): bv64
  {
    Xor(key, 3)
  }

  /** `PieceMoved` agrees with `GetKey` on a move to an empty square and on a removal. */
  lemma PieceMovedKey(b: seq<nat>, us: nat, ep: int, t: Table, from: int, to: int)
    requires IsBoard(b) && IsTable(t) && us < 64 && -1 <= ep < 64
    requires 0 <= from < 64 && b[from] != NONE && -1 <= to < 64 && to != from
    requires to >= 0 ==> b[to] == NONE
    ensures IsBoard(if to == -1 then b[from := NONE] else b[from := NONE][to := b[from]])
    ensures Key(if to == -1 then b[from := NONE] else b[from := NONE][to := b[from]], us, ep, t)
      == PieceMoved(b[from], from, to, Key(b, us, ep, t), t)
  {
    RemoveKey(b, us, ep, t, from);
    if to >= 0 {
      PlaceKey(b[from := NONE], us, ep, t, to, b[from]);
    }
  }

  /** `ColorChanged` agrees with `GetKey` when the side to move changes colour. */
  lemma ColorChangedKey(b: seq<nat>, us: nat, ep: int, t: Table)
    requires IsBoard(b) && IsTable(t) && IsColor(us) && -1 <= ep < 64
    ensures Key(b, OtherColor(us), ep, t) == ColorChanged(Key(b, us, ep, t))
  {
    var h := PieceHash(b, t, 64);
    var e := EnPassantCode(ep);
    XorSwap(Xor(h, Code(us)), e, 3);
    XorAssociates(h, Code(us), 3);
    XorDef(Code(us), 3);
    assert Xor(Code(us), 3) == Code(OtherColor(us));
  }
}
