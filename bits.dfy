/**
 * Bitboards are C# `ulong` values, modelled as `bv64`. Bit i of a bitboard stands for
 * square i (a1 = 0, b1 = 1, ..., h8 = 63). This module gives the per-square view
 * `Has(b, i)`, `Bit(n)` for C#'s `1ul << n`, the trailing-zero count and the population
 * count, and the facts about `|`, `&`, `^`, `!` and the constant shifts that the rest of
 * the model relies on.
 */
module Bits {
  /** Bit j of b, for a bit-vector index j. */
  predicate HasB(b: bv64, j: bv8)
  {
    j < 64 && (b >> j) & 1 == 1
  }

  /** The bit-vector index of square i. */
  function Sq(i: nat): bv8
  {
    if i == 0 then 0 else Sq(i - 1) + 1
  }

  /**
   * Square i is a member of bitboard b. The bit test sits two unfoldings deep so that the
   * solver meets bit `Sq(i)` only through `HasDef`; elsewhere `Has` is a plain predicate
   * about squares.
   */
  predicate Has(b: bv64, i: int)
  {
    0 <= i < 64 && HasAfter(b, i, 2)
  }

  predicate HasAfter(b: bv64, i: nat, n: nat)
  {
    if n == 0 then HasB(b, Sq(i)) else HasAfter(b, i, n - 1)
  }

  /*
   * The bitboard operations. Each one sits two unfoldings deep behind a depth counter, so
   * that outside this module the solver sees only `Or(a, b)`, `Bit(n)` and so on and meets
   * the bit-vector operators only through the `...Def` lemmas below. Every fact the rest
   * of the model needs about them is stated square by square with `Has`.
   */

  /** C#'s `a | b`. */
  function Or(a: bv64, b: bv64): bv64 { OrAt(a, b, 2) }

  function OrAt(a: bv64, b: bv64, depth: nat): bv64
  {
    if depth == 0 then a | b else OrAt(a, b, depth - 1)
  }

  /** C#'s `a & b`. */
  function And(a: bv64, b: bv64): bv64 { AndAt(a, b, 2) }

  function AndAt(a: bv64, b: bv64, depth: nat): bv64
  {
    if depth == 0 then a & b else AndAt(a, b, depth - 1)
  }

  /** C#'s `a ^ b`. */
  function Xor(a: bv64, b: bv64): bv64 { XorAt(a, b, 2) }

  function XorAt(a: bv64, b: bv64, depth: nat): bv64
  {
    if depth == 0 then a ^ b else XorAt(a, b, depth - 1)
  }

  /** C#'s `~a`. */
  function Not(a: bv64): bv64 { NotAt(a, 2) }

  function NotAt(a: bv64, depth: nat): bv64
  {
    if depth == 0 then !a else NotAt(a, depth - 1)
  }

  /** The shift distances the engine uses: one file, and one rank with or without a file. */
  predicate ShiftDistance(k: nat)
  {
    k == 1 || k == 7 || k == 8 || k == 9
  }

  /** C#'s `a << k` for a constant shift distance k. */
  function Shl(a: bv64, k: nat): bv64
    requires ShiftDistance(k)
  {
    ShlAt(a, k, 2)
  }

  function ShlAt(a: bv64, k: nat, depth: nat): bv64
    requires ShiftDistance(k)
  {
    if depth > 0 then ShlAt(a, k, depth - 1)
    else if k == 1 then a << 1
    else if k == 7 then a << 7
    else if k == 8 then a << 8
    else a << 9
  }

  /** C#'s `a >> k` (a logical shift on `ulong`) for a constant shift distance k. */
  function Shr(a: bv64, k: nat): bv64
    requires ShiftDistance(k)
  {
    ShrAt(a, k, 2)
  }

  function ShrAt(a: bv64, k: nat, depth: nat): bv64
    requires ShiftDistance(k)
  {
    if depth > 0 then ShrAt(a, k, depth - 1)
    else if k == 1 then a >> 1
    else if k == 7 then a >> 7
    else if k == 8 then a >> 8
    else a >> 9
  }

  /** C#'s `1ul << n`: the shift count is taken modulo 64. */
  function Bit(n: int): bv64 { BitAt(n, 2) }

  function BitAt(n: int, depth: nat): bv64
  {
    if depth == 0 then Power(n % 64) else BitAt(n, depth - 1)
  }

  /** The bitboard holding square k alone, built by doubling. */
  function Power(k: nat): bv64
  {
    if k == 0 then 1 else Power(k - 1) << 1
  }

  /** The squares of b, as a set. */
  ghost function Squares(b: bv64): set<int>
  {
    set i | 0 <= i < 64 && Has(b, i)
  }

  /** The number of squares of b below n. */
  function CountBelow(b: bv64, n: nat): (c: nat)
    requires n <= 64
    ensures c <= n
  {
    if n == 0 then 0 else CountBelow(b, n - 1) + (if Has(b, n - 1) then 1 else 0)
  }

  /** `BitOperations.PopCount`: the number of squares of b. */
  function PopCount(b: bv64): nat
  {
    CountBelow(b, 64)
  }

  /** The lowest square of b at or above i, or 64 when there is none. */
  function LowestFrom(b: bv64, i: nat): (t: nat)
    requires i <= 64
    ensures i <= t <= 64
    ensures t < 64 ==> Has(b, t)
    ensures forall k :: i <= k < t ==> !Has(b, k)
    decreases 64 - i
  {
    if i == 64 then 64 else if Has(b, i) then i else LowestFrom(b, i + 1)
  }

  /** `BitOperations.TrailingZeroCount`: the lowest square of b, 64 for the empty board. */
  function TrailingZeroCount(b: bv64): (t: nat)
    ensures t <= 64
    ensures t < 64 ==> Has(b, t)
    ensures forall k :: 0 <= k < t ==> !Has(b, k)
  {
    LowestFrom(b, 0)
  }

  // ---------------------------------------------------------------------------------
  // The index bridge between squares (int) and bit positions (bv8)

  lemma Inc(x: bv8)
    requires x < 64
    ensures (x + 1) as int == x as int + 1
  {
  }

  lemma {:induction false} SqFacts(i: nat)
    requires i <= 64
    ensures Sq(i) <= 64 && Sq(i) as int == i
    ensures i < 64 ==> Sq(i) < 64
  {
    if i > 0 {
      SqFacts(i - 1);
      Inc(Sq(i - 1));
    }
  }

  lemma SqInjective(i: nat, k: nat)
    requires i < 64 && k < 64
    ensures (Sq(i) == Sq(k)) == (i == k)
  {
    SqFacts(i);
    SqFacts(k);
  }

  lemma AddOne(a: bv8, b: bv8)
    ensures a + (b + 1) == (a + b) + 1
  {
  }

  lemma {:induction false} SqAdd(i: nat, d: nat)
    ensures Sq(i + d) == Sq(i) + Sq(d)
  {
    if d > 0 {
      SqAdd(i, d - 1);
      AddOne(Sq(i), Sq(d - 1));
    }
  }

  lemma SameValue(x: bv8, y: bv8)
    requires x as int == y as int
    ensures x == y
  {
  }

  lemma SqOffsets()
    ensures Sq(1) == 1 && Sq(7) == 7 && Sq(8) == 8 && Sq(9) == 9
  {
    SqFacts(7);
    SameValue(Sq(7), 7);
    SqFacts(8);
    SameValue(Sq(8), 8);
  }

  /** Every bit position below 64 is the index of a square. */
  lemma SqOnto(j: bv8)
    requires j < 64
    ensures Sq(j as int) == j
  {
    SqFacts(j as int);
    SameValue(Sq(j as int), j);
  }

  // ---------------------------------------------------------------------------------
  // Bit-level facts

  lemma HasOrB(a: bv64, b: bv64, j: bv8)
    ensures HasB(a | b, j) == (HasB(a, j) || HasB(b, j))
  {
  }

  lemma HasAndB(a: bv64, b: bv64, j: bv8)
    ensures HasB(a & b, j) == (HasB(a, j) && HasB(b, j))
  {
  }

  lemma HasXorB(a: bv64, b: bv64, j: bv8)
    requires j < 64
    ensures HasB(a ^ b, j) == (HasB(a, j) != HasB(b, j))
  {
  }

  lemma HasNotB(a: bv64, j: bv8)
    requires j < 64
    ensures HasB(!a, j) == !HasB(a, j)
  {
  }

  lemma HasOneB(k: bv8, j: bv8)
    requires k < 64
    ensures HasB(1 << k, j) == (j == k)
  {
  }

  lemma NoneAbove(b: bv64, n: bv8)
    requires n < 64 && b >> (n + 1) == 0 && !HasB(b, n)
    ensures b >> n == 0
  {
  }

  lemma Shl1B(a: bv64, j: bv8)
    ensures HasB(a << 1, j) == (1 <= j < 64 && HasB(a, j - 1))
  {
  }

  lemma Shl7B(a: bv64, j: bv8)
    ensures HasB(a << 7, j) == (7 <= j < 64 && HasB(a, j - 7))
  {
  }

  lemma Shl8B(a: bv64, j: bv8)
    ensures HasB(a << 8, j) == (8 <= j < 64 && HasB(a, j - 8))
  {
  }

  lemma Shl9B(a: bv64, j: bv8)
    ensures HasB(a << 9, j) == (9 <= j < 64 && HasB(a, j - 9))
  {
  }

  lemma Shr1B(a: bv64, j: bv8)
    ensures HasB(a >> 1, j) == (j < 63 && HasB(a, j + 1))
  {
  }

  lemma Shr7B(a: bv64, j: bv8)
    ensures HasB(a >> 7, j) == (j < 57 && HasB(a, j + 7))
  {
  }

  lemma Shr8B(a: bv64, j: bv8)
    ensures HasB(a >> 8, j) == (j < 56 && HasB(a, j + 8))
  {
  }

  lemma Shr9B(a: bv64, j: bv8)
    ensures HasB(a >> 9, j) == (j < 55 && HasB(a, j + 9))
  {
  }

  // ---------------------------------------------------------------------------------
  // The hidden operations are the bit-vector operators

  lemma {:induction false} OrAtIs(a: bv64, b: bv64, depth: nat)
    ensures OrAt(a, b, depth) == a | b
  {
    if depth > 0 { OrAtIs(a, b, depth - 1); }
  }

  lemma OrDef(a: bv64, b: bv64)
    ensures Or(a, b) == a | b
  {
    OrAtIs(a, b, 2);
  }

  lemma {:induction false} AndAtIs(a: bv64, b: bv64, depth: nat)
    ensures AndAt(a, b, depth) == a & b
  {
    if depth > 0 { AndAtIs(a, b, depth - 1); }
  }

  lemma AndDef(a: bv64, b: bv64)
    ensures And(a, b) == a & b
  {
    AndAtIs(a, b, 2);
  }

  lemma {:induction false} XorAtIs(a: bv64, b: bv64, depth: nat)
    ensures XorAt(a, b, depth) == a ^ b
  {
    if depth > 0 { XorAtIs(a, b, depth - 1); }
  }

  lemma XorDef(a: bv64, b: bv64)
    ensures Xor(a, b) == a ^ b
  {
    XorAtIs(a, b, 2);
  }

  lemma {:induction false} NotAtIs(a: bv64, depth: nat)
    ensures NotAt(a, depth) == !a
  {
    if depth > 0 { NotAtIs(a, depth - 1); }
  }

  lemma NotDef(a: bv64)
    ensures Not(a) == !a
  {
    NotAtIs(a, 2);
  }

  lemma {:induction false} ShlAtIs(a: bv64, k: nat, depth: nat)
    requires ShiftDistance(k)
    ensures ShlAt(a, k, depth) == ShlAt(a, k, 0)
  {
    if depth > 0 { ShlAtIs(a, k, depth - 1); }
  }

  lemma ShlDef(a: bv64, k: nat)
    requires ShiftDistance(k)
    ensures k == 1 ==> Shl(a, k) == a << 1
    ensures k == 7 ==> Shl(a, k) == a << 7
    ensures k == 8 ==> Shl(a, k) == a << 8
    ensures k == 9 ==> Shl(a, k) == a << 9
  {
    ShlAtIs(a, k, 2);
  }

  lemma {:induction false} ShrAtIs(a: bv64, k: nat, depth: nat)
    requires ShiftDistance(k)
    ensures ShrAt(a, k, depth) == ShrAt(a, k, 0)
  {
    if depth > 0 { ShrAtIs(a, k, depth - 1); }
  }

  lemma ShrDef(a: bv64, k: nat)
    requires ShiftDistance(k)
    ensures k == 1 ==> Shr(a, k) == a >> 1
    ensures k == 7 ==> Shr(a, k) == a >> 7
    ensures k == 8 ==> Shr(a, k) == a >> 8
    ensures k == 9 ==> Shr(a, k) == a >> 9
  {
    ShrAtIs(a, k, 2);
  }

  lemma {:induction false} BitAtIs(n: int, depth: nat)
    ensures BitAt(n, depth) == Power(n % 64)
  {
    if depth > 0 { BitAtIs(n, depth - 1); }
  }

  lemma BitDef(n: int)
    ensures Bit(n) == Power(n % 64)
  {
    BitAtIs(n, 2);
  }

  // ---------------------------------------------------------------------------------
  // Square-level facts

  lemma {:induction false} HasAfterIs(b: bv64, i: nat, n: nat)
    ensures HasAfter(b, i, n) == HasB(b, Sq(i))
  {
    if n > 0 {
      HasAfterIs(b, i, n - 1);
    }
  }

  /** Square i of b is bit `Sq(i)` of b. */
  lemma HasDef(b: bv64, i: int)
    ensures Has(b, i) == (0 <= i < 64 && HasB(b, Sq(i)))
  {
    if 0 <= i < 64 {
      HasAfterIs(b, i, 2);
    }
  }

  lemma HasOr(a: bv64, b: bv64, i: int)
    ensures Has(Or(a, b), i) == (Has(a, i) || Has(b, i))
  {
    OrDef(a, b);
    HasDef(a | b, i); HasDef(a, i); HasDef(b, i);
    if 0 <= i < 64 {
      HasOrB(a, b, Sq(i));
    }
  }

  lemma HasAnd(a: bv64, b: bv64, i: int)
    ensures Has(And(a, b), i) == (Has(a, i) && Has(b, i))
  {
    AndDef(a, b);
    HasDef(a & b, i); HasDef(a, i); HasDef(b, i);
    if 0 <= i < 64 {
      HasAndB(a, b, Sq(i));
    }
  }

  lemma HasXor(a: bv64, b: bv64, i: int)
    ensures Has(Xor(a, b), i) == (Has(a, i) != Has(b, i))
  {
    XorDef(a, b);
    HasDef(a ^ b, i); HasDef(a, i); HasDef(b, i);
    if 0 <= i < 64 {
      SqFacts(i);
      HasXorB(a, b, Sq(i));
    }
  }

  lemma HasNot(a: bv64, i: int)
    ensures Has(Not(a), i) == (0 <= i < 64 && !Has(a, i))
  {
    NotDef(a);
    HasDef(!a, i); HasDef(a, i);
    if 0 <= i < 64 {
      SqFacts(i);
      HasNotB(a, Sq(i));
    }
  }

  lemma HasZero(i: int)
    ensures !Has(0, i)
  {
    HasDef(0, i);
  }

  lemma HasAll(i: int)
    ensures Has(Not(0), i) == (0 <= i < 64)
  {
    HasNot(0, i);
    HasZero(i);
  }

  lemma RawShl1(a: bv64, i: int)
    ensures Has(a << 1, i) == (1 <= i < 64 && Has(a, i - 1))
  {
    HasDef(a << 1, i); HasDef(a, i - 1);
    if 0 <= i < 64 {
      SqFacts(i);
      Shl1B(a, Sq(i));
      if 1 <= i {
        SqOffset(i - 1, 1);
      }
    }
  }

  lemma {:induction false} HasPower(k: nat, i: int)
    requires k < 64
    ensures Has(Power(k), i) == (i == k)
  {
    if k == 0 {
      HasDef(Power(0), i);
      if 0 <= i < 64 {
        SqFacts(i);
        HasOneB(0, Sq(i));
        SqInjective(i, 0);
      }
    } else {
      RawShl1(Power(k - 1), i);
      HasPower(k - 1, i - 1);
    }
  }

  lemma HasBit(n: int, i: int)
    ensures Has(Bit(n), i) == (i == n % 64)
  {
    BitDef(n);
    HasPower(n % 64, i);
  }

  lemma HasSquare(t: int, i: int)
    requires 0 <= t < 64
    ensures Has(Bit(t), i) == (i == t)
  {
    HasBit(t, i);
  }

  /** The test `(b & 1ul << t) != 0` asks whether b holds square t. */
  lemma TestBit(b: bv64, t: int)
    requires 0 <= t < 64
    ensures (And(b, Bit(t)) != 0) == Has(b, t)
  {
    forall i | 0 <= i < 64
      ensures Has(And(b, Bit(t)), i) == (i == t && Has(b, t))
    {
      HasAnd(b, Bit(t), i);
      HasSquare(t, i);
    }
    if Has(b, t) {
      HasZero(t);
    } else {
      Empty(And(b, Bit(t)));
    }
  }

  /** Clearing or setting one square with `^ Bit(t)`. */
  lemma HasToggle(b: bv64, t: int, i: int)
    requires 0 <= t < 64
    ensures Has(Xor(b, Bit(t)), i) == (if i == t then !Has(b, i) else Has(b, i))
  {
    HasXor(b, Bit(t), i);
    HasSquare(t, i);
  }

  /** `b & ~Bit(t)` removes square t and keeps every other. */
  lemma HasClear(b: bv64, t: int, i: int)
    requires 0 <= t < 64
    ensures Has(And(b, Not(Bit(t))), i) == (i != t && Has(b, i))
  {
    HasSquare(t, i);
    HasAnd(b, Not(Bit(t)), i);
    HasNot(Bit(t), i);
  }

  /** `b | Bit(t)` adds square t and keeps every other. */
  lemma HasSet(b: bv64, t: int, i: int)
    requires 0 <= t < 64
    ensures Has(Or(b, Bit(t)), i) == (i == t || Has(b, i))
  {
    HasOr(b, Bit(t), i);
    HasSquare(t, i);
  }

  /** Square i + k has bit index Sq(i) + k, for the offsets the shifts use. */
  lemma SqOffset(i: nat, k: nat)
    requires ShiftDistance(k)
    ensures Sq(i + k) == Sq(i) + (if k == 1 then 1 else if k == 7 then 7 else if k == 8 then 8 else 9)
  {
    SqAdd(i, k);
    SqOffsets();
  }

  lemma ShlStep1(a: bv64, i: int)
    requires 0 <= i < 64
    ensures HasB(a << 1, Sq(i)) == (1 <= i && HasB(a, Sq(i - 1)))
  {
    SqFacts(i);
    if 1 <= i {
      SqOffset(i - 1, 1);
    }
    Shl1B(a, Sq(i));
  }

  lemma ShlStep7(a: bv64, i: int)
    requires 0 <= i < 64
    ensures HasB(a << 7, Sq(i)) == (7 <= i && HasB(a, Sq(i - 7)))
  {
    SqFacts(i);
    if 7 <= i {
      SqOffset(i - 7, 7);
    }
    Shl7B(a, Sq(i));
  }

  lemma ShlStep8(a: bv64, i: int)
    requires 0 <= i < 64
    ensures HasB(a << 8, Sq(i)) == (8 <= i && HasB(a, Sq(i - 8)))
  {
    SqFacts(i);
    if 8 <= i {
      SqOffset(i - 8, 8);
    }
    Shl8B(a, Sq(i));
  }

  lemma ShlStep9(a: bv64, i: int)
    requires 0 <= i < 64
    ensures HasB(a << 9, Sq(i)) == (9 <= i && HasB(a, Sq(i - 9)))
  {
    SqFacts(i);
    if 9 <= i {
      SqOffset(i - 9, 9);
    }
    Shl9B(a, Sq(i));
  }

  lemma ShlStep(a: bv64, k: nat, i: int)
    requires ShiftDistance(k) && 0 <= i < 64
    ensures HasB(ShlAt(a, k, 0), Sq(i)) == (k <= i && HasB(a, Sq(i - k)))
  {
    if k == 1 {
      ShlStep1(a, i);
    } else if k == 7 {
      ShlStep7(a, i);
    } else if k == 8 {
      ShlStep8(a, i);
    } else {
      ShlStep9(a, i);
    }
  }

  /** Shifting up by k moves square i - k to square i. */
  lemma HasShl(a: bv64, k: nat, i: int)
    requires ShiftDistance(k)
    ensures Has(Shl(a, k), i) == (k <= i < 64 && Has(a, i - k))
  {
    ShlAtIs(a, k, 2);
    HasDef(Shl(a, k), i); HasDef(a, i - k);
    if 0 <= i < 64 {
      ShlStep(a, k, i);
    }
  }

  lemma ShrStep1(a: bv64, i: int)
    requires 0 <= i < 64
    ensures HasB(a >> 1, Sq(i)) == (i + 1 < 64 && HasB(a, Sq(i + 1)))
  {
    SqFacts(i);
    SqOffset(i, 1);
    Shr1B(a, Sq(i));
  }

  lemma ShrStep7(a: bv64, i: int)
    requires 0 <= i < 64
    ensures HasB(a >> 7, Sq(i)) == (i + 7 < 64 && HasB(a, Sq(i + 7)))
  {
    SqFacts(i);
    SqOffset(i, 7);
    Shr7B(a, Sq(i));
  }

  lemma ShrStep8(a: bv64, i: int)
    requires 0 <= i < 64
    ensures HasB(a >> 8, Sq(i)) == (i + 8 < 64 && HasB(a, Sq(i + 8)))
  {
    SqFacts(i);
    SqOffset(i, 8);
    Shr8B(a, Sq(i));
  }

  lemma ShrStep9(a: bv64, i: int)
    requires 0 <= i < 64
    ensures HasB(a >> 9, Sq(i)) == (i + 9 < 64 && HasB(a, Sq(i + 9)))
  {
    SqFacts(i);
    SqOffset(i, 9);
    Shr9B(a, Sq(i));
  }

  lemma ShrStep(a: bv64, k: nat, i: int)
    requires ShiftDistance(k) && 0 <= i < 64
    ensures HasB(ShrAt(a, k, 0), Sq(i)) == (i + k < 64 && HasB(a, Sq(i + k)))
  {
    if k == 1 {
      ShrStep1(a, i);
    } else if k == 7 {
      ShrStep7(a, i);
    } else if k == 8 {
      ShrStep8(a, i);
    } else {
      ShrStep9(a, i);
    }
  }

  /** Shifting down by k moves square i + k to square i. */
  lemma HasShr(a: bv64, k: nat, i: int)
    requires ShiftDistance(k)
    ensures Has(Shr(a, k), i) == (0 <= i && i + k < 64 && Has(a, i + k))
  {
    ShrAtIs(a, k, 2);
    HasDef(Shr(a, k), i); HasDef(a, i + k);
    if 0 <= i < 64 {
      ShrStep(a, k, i);
    }
  }

  /** d shifted down by n squares. */
  function ShiftedDown(d: bv64, n: nat): bv64
    requires n <= 64
  {
    SqFacts(n);
    d >> Sq(n)
  }

  /** A bitboard without squares at or above n has nothing left after shifting by n. */
  lemma {:induction false} ZeroAbove(d: bv64, n: nat)
    requires n <= 64
    requires forall i :: n <= i < 64 ==> !Has(d, i)
    ensures ShiftedDown(d, n) == 0
    decreases 64 - n
  {
    SqFacts(n);
    if n < 64 {
      ZeroAbove(d, n + 1);
      assert !Has(d, n);
      HasDef(d, n);
      assert Sq(n + 1) == Sq(n) + 1;
      NoneAbove(d, Sq(n));
    } else {
      SameValue(Sq(n), 64);
    }
  }

  /** The empty bitboard is the only one without squares. */
  lemma Empty(d: bv64)
    requires forall i :: 0 <= i < 64 ==> !Has(d, i)
    ensures d == 0
  {
    ZeroAbove(d, 0);
  }

  /** Two bitboards with the same squares are equal. */
  lemma Extensionality(a: bv64, b: bv64)
    requires forall i :: 0 <= i < 64 ==> Has(a, i) == Has(b, i)
    ensures a == b
  {
    var d := Xor(a, b);
    forall i | 0 <= i < 64
      ensures !Has(d, i)
    {
      HasXor(a, b, i);
    }
    Empty(d);
    XorDef(a, b);
  }

  /** A non-empty bitboard has a lowest square. */
  lemma NonEmpty(b: bv64)
    requires b != 0
    ensures TrailingZeroCount(b) < 64
  {
    if TrailingZeroCount(b) == 64 {
      Empty(b);
    }
  }

  lemma OrZero(b: bv64)
    ensures Or(0, b) == b && Or(b, 0) == b
  {
    OrDef(0, b);
    OrDef(b, 0);
  }

  lemma OrAssociates(a: bv64, b: bv64, c: bv64)
    ensures Or(Or(a, b), c) == Or(a, Or(b, c))
  {
    forall i | 0 <= i < 64
      ensures Has(Or(Or(a, b), c), i) == Has(Or(a, Or(b, c)), i)
    {
      HasOr(Or(a, b), c, i);
      HasOr(a, b, i);
      HasOr(a, Or(b, c), i);
      HasOr(b, c, i);
    }
    Extensionality(Or(Or(a, b), c), Or(a, Or(b, c)));
  }

  /** XOR is an involution: applying the same key twice restores the value. */
  lemma XorTwice(a: bv64, b: bv64)
    ensures Xor(Xor(a, b), b) == a
  {
    XorDef(a, b);
    XorDef(a ^ b, b);
  }

  lemma XorCommutes(a: bv64, b: bv64)
    ensures Xor(a, b) == Xor(b, a)
  {
    XorDef(a, b);
    XorDef(b, a);
  }

  lemma XorAssociates(a: bv64, b: bv64, c: bv64)
    ensures Xor(Xor(a, b), c) == Xor(a, Xor(b, c))
  {
    forall i | 0 <= i < 64
      ensures Has(Xor(Xor(a, b), c), i) == Has(Xor(a, Xor(b, c)), i)
    {
      HasXor(Xor(a, b), c, i);
      HasXor(a, b, i);
      HasXor(a, Xor(b, c), i);
      HasXor(b, c, i);
    }
    Extensionality(Xor(Xor(a, b), c), Xor(a, Xor(b, c)));
  }

  lemma XorZero(a: bv64)
    ensures Xor(a, 0) == a
  {
    XorDef(a, 0);
  }

  /** Removing a square of b with `^ Bit(t)` lowers every count at or above t by one. */
  lemma {:induction false} CountToggle(b: bv64, t: int, n: nat)
    requires 0 <= t < 64 && Has(b, t) && n <= 64
    ensures CountBelow(Xor(b, Bit(t)), n) + (if t < n then 1 else 0) == CountBelow(b, n)
  {
    if n > 0 {
      CountToggle(b, t, n - 1);
      HasToggle(b, t, n - 1);
    }
  }

  lemma PopCountToggle(b: bv64, t: int)
    requires 0 <= t < 64 && Has(b, t)
    ensures PopCount(Xor(b, Bit(t))) == PopCount(b) - 1
  {
    CountToggle(b, t, 64);
  }

  /** The empty board has no squares below any n. */
  lemma {:induction false} CountEmpty(n: nat)
    requires n <= 64
    ensures CountBelow(0, n) == 0
  {
    if n > 0 {
      CountEmpty(n - 1);
      HasZero(n - 1);
    }
  }

  /** The population count is the size of the set of squares. */
  lemma {:induction false} CountIsSize(b: bv64, n: nat)
    requires n <= 64
    ensures CountBelow(b, n) == |set i | 0 <= i < n && Has(b, i)|
  {
    var s := set i | 0 <= i < n && Has(b, i);
    if n > 0 {
      CountIsSize(b, n - 1);
      var s' := set i | 0 <= i < n - 1 && Has(b, i);
      if Has(b, n - 1) {
        assert s == s' + {n - 1};
      } else {
        assert s == s';
      }
    } else {
      assert s == {};
    }
  }
}
