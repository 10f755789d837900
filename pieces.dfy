/**
 * Piece codes (Chess/Piece.cs). A code is a C# `uint` built from a 3-bit type field
 * (bits 2..4) and a 2-bit colour field (bits 0..1). Codes are modelled as naturals; the
 * masks `p & PIECE_MASK` and `p & COLOR_MASK` are written as the equivalent arithmetic
 * (`TypeOf`, `ColorOf`), and `type | color` as `Make(type, color)`, which is a sum because
 * the two fields do not overlap.
 */
module Pieces {
  import opened Wrappers

  const NONE: nat := 0
  const PAWN: nat := 4
  const BISHOP: nat := 8
  const ROOK: nat := 16
  const QUEEN: nat := 24
  const KNIGHT: nat := 12
  const KING: nat := 20

  const WHITE: nat := 1
  const BLACK: nat := 2

  const PIECE_MASK: nat := 28
  const COLOR_MASK: nat := 3

  /** `type | color` for a type code (a multiple of 4) and a colour code (below 4). */
  function Make(t: nat, c: nat): nat
  {
    t + c
  }

  /** The twelve coloured pieces, in the source's order. */
  const PIECE_TYPES: seq<nat> := [
    Make(KING, WHITE), Make(QUEEN, WHITE), Make(ROOK, WHITE), Make(BISHOP, WHITE), Make(KNIGHT, WHITE), Make(PAWN, WHITE),
    Make(KING, BLACK), Make(QUEEN, BLACK), Make(ROOK, BLACK), Make(BISHOP, BLACK), Make(KNIGHT, BLACK), Make(PAWN, BLACK)
  ]

  /** The six type codes. */
  predicate IsType(t: nat)
  {
    t == PAWN || t == BISHOP || t == KNIGHT || t == ROOK || t == QUEEN || t == KING
  }

  predicate IsColor(c: nat)
  {
    c == WHITE || c == BLACK
  }

  /** `p & PIECE_MASK`. */
  function TypeOf(p: nat): nat
  {
    p / 4 % 8 * 4
  }

  /** `p & COLOR_MASK`. */
  function ColorOf(p: nat): nat
  {
    p % 4
  }

  /** A code that names one of the twelve coloured pieces. */
  predicate IsPiece(p: nat)
  {
    p in PIECE_TYPES
  }

  /** The first six codes are white, the last six black, each with one of the six types. */
  lemma PieceTypesShape(k: int)
    requires 0 <= k < |PIECE_TYPES|
    ensures |PIECE_TYPES| == 12
    ensures IsType(TypeOf(PIECE_TYPES[k]))
    ensures ColorOf(PIECE_TYPES[k]) == (if k < 6 then WHITE else BLACK)
    ensures PIECE_TYPES[k] == Make(TypeOf(PIECE_TYPES[k]), ColorOf(PIECE_TYPES[k]))
  {
  }

  lemma PieceTypesDistinct(k: int, l: int)
    requires 0 <= k < l < |PIECE_TYPES|
    ensures PIECE_TYPES[k] != PIECE_TYPES[l]
  {
  }

  /** The twelve codes are exactly the codes below 32 with a valid type and colour. */
  lemma PieceCodes(p: nat)
    ensures IsPiece(p) <==> IsType(TypeOf(p)) && IsColor(ColorOf(p)) && p < 32
  {
    if IsType(TypeOf(p)) && IsColor(ColorOf(p)) && p < 32 {
      FieldsDisjoint(p);
    }
  }

  /** The type and colour fields do not overlap: every code is its type plus its colour. */
  lemma FieldsDisjoint(p: nat)
    ensures p % 32 == TypeOf(p) + ColorOf(p)
    ensures TypeOf(Make(TypeOf(p), ColorOf(p))) == TypeOf(p)
    ensures ColorOf(Make(TypeOf(p), ColorOf(p))) == ColorOf(p)
    ensures TypeOf(p) <= PIECE_MASK && ColorOf(p) <= COLOR_MASK
  {
    var q, r := p / 4, p % 4;
    var a, b := q / 8, q % 8;
    assert p == 32 * a + (4 * b + r);
    assert TypeOf(p) == 4 * b;
  }

  /** `COLOR_MASK ^ color`: the low two bits are flipped, the higher bits kept. */
  function OtherColor(c: nat): (r: nat)
    ensures r / 4 == c / 4 && r % 4 == 3 - c % 4
    ensures c == WHITE ==> r == BLACK
    ensures c == BLACK ==> r == WHITE
  {
    c / 4 * 4 + (3 - c % 4)
  }

  lemma OtherColorSwaps(c: nat)
    ensures OtherColor(WHITE) == BLACK && OtherColor(BLACK) == WHITE
    ensures OtherColor(OtherColor(c)) == c
    ensures IsColor(c) ==> IsColor(OtherColor(c)) && OtherColor(c) != c
  {
  }

  /** `char.ToLower` as it acts on letters: ASCII capitals, and the Kelvin sign that folds to 'k'. */
  function ToLower(c: char): char
  {
    if 'A' <= c <= 'Z' then (c as int + 32) as char
    else if c == 'K' then 'k'
    else c
  }

  /** `char.ToUpper` on the lower-case ASCII letters; other characters are kept. */
  function ToUpper(c: char): char
  {
    if 'a' <= c <= 'z' then (c as int - 32) as char else c
  }

  /** `char.IsUpper` for the characters `ToLower` can map to a piece letter. */
  predicate IsUpper(c: char)
  {
    'A' <= c <= 'Z' || c == 'K'
  }

  /** The lower-case letter of a type code, or '.' for NONE (Chess/Piece.cs:35-45). */
  function TypeLetter(t: nat): Option<char>
  {
    if t == NONE then Some('.')
    else if t == PAWN then Some('p')
    else if t == BISHOP then Some('b')
    else if t == KNIGHT then Some('n')
    else if t == ROOK then Some('r')
    else if t == QUEEN then Some('q')
    else if t == KING then Some('k')
    else None
  }

  /** The FEN letter of a code; white pieces are upper case. The unassigned type throws. */
  function ToFenString(p: nat): Result<char>
  {
    match TypeLetter(TypeOf(p))
    case None => Failure("CANNOT HAPPEN")
    case Some(res) => Success(if ColorOf(p) == WHITE then ToUpper(res) else res)
  }

  /** The code of a FEN letter: upper case is white, anything else black. */
  function FromFenString(fen: char): Result<nat>
  {
    var l := ToLower(fen);
    var piece :=
      if l == 'p' then PAWN
      else if l == 'b' then BISHOP
      else if l == 'n' then KNIGHT
      else if l == 'r' then ROOK
      else if l == 'q' then QUEEN
      else if l == 'k' then KING
      else NONE;
    if piece == NONE then Failure("not a valid fen piece type")
    else if IsUpper(fen) then Success(Make(piece, WHITE))
    else Success(Make(piece, BLACK))
  }

  /** The type of a lower-case piece letter. */
  function LetterType(l: char): nat
  {
    if l == 'p' then PAWN
    else if l == 'b' then BISHOP
    else if l == 'n' then KNIGHT
    else if l == 'r' then ROOK
    else if l == 'q' then QUEEN
    else KING
  }

  lemma FromFenLetters(c: char)
    ensures c in "pbnrqk" ==> FromFenString(c) == Success(Make(LetterType(c), BLACK))
    ensures c in "PBNRQK" ==> FromFenString(c) == Success(Make(LetterType(ToLower(c)), WHITE))
    ensures FromFenString(c).Success? <==> c in "pbnrqkPBNRQK" || c == 'K'
  {
  }

  lemma FromFenIsPiece(c: char)
    ensures FromFenString(c).Success? ==> IsPiece(FromFenString(c).value)
  {
  }

  lemma FenLetterRoundTrip(c: char)
    ensures c in "pbnrqkPBNRQK" ==> FromFenString(c).Success? && ToFenString(FromFenString(c).value) == Success(c)
  {
    if c in "pbnrqk" {
      FenLetterRoundTripOf(LetterType(c), BLACK);
    } else if c in "PBNRQK" {
      FenLetterRoundTripOf(LetterType(ToLower(c)), WHITE);
    }
  }

  lemma FenLetterRoundTripOf(t: nat, c: nat)
    requires IsType(t) && IsColor(c)
    ensures ToFenString(Make(t, c)) == Success(if c == WHITE then ToUpper(TypeLetter(t).value) else TypeLetter(t).value)
  {
    assert TypeOf(Make(t, c)) == t && ColorOf(Make(t, c)) == c by {
      if t == PAWN {} else if t == BISHOP {} else if t == KNIGHT {} else if t == ROOK {} else if t == QUEEN {} else {}
    }
  }

  lemma FenPieceRoundTrip(p: nat)
    ensures IsPiece(p) ==> ToFenString(p).Success? && FromFenString(ToFenString(p).value) == Success(p)
  {
    if IsPiece(p) {
      var k :| 0 <= k < |PIECE_TYPES| && PIECE_TYPES[k] == p;
      PieceTypesShape(k);
      var t, c := TypeOf(p), ColorOf(p);
      FenPieceRoundTripOf(t, c);
      assert p == Make(t, c);
    }
  }

  lemma FenPieceRoundTripOf(t: nat, c: nat)
    requires IsType(t) && IsColor(c)
    ensures ToFenString(Make(t, c)).Success? && FromFenString(ToFenString(Make(t, c)).value) == Success(Make(t, c))
  {
    if c == WHITE {
      if t == PAWN {} else if t == BISHOP {} else if t == KNIGHT {} else if t == ROOK {} else if t == QUEEN {} else {}
    } else {
      if t == PAWN {} else if t == BISHOP {} else if t == KNIGHT {} else if t == ROOK {} else if t == QUEEN {} else {}
    }
  }

  lemma ToFenCases(p: nat)
    ensures ToFenString(NONE) == Success('.')
    ensures ToFenString(p).Failure? <==> TypeOf(p) == PIECE_MASK
    ensures ToFenString(p).Success? && TypeOf(p) != NONE ==>
      ('A' <= ToFenString(p).value <= 'Z' <==> ColorOf(p) == WHITE)
  {
  }
}
