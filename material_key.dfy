/**
 * The material key (Chess/MaterialKey.cs): a 64-bit counter with one 4-bit field per
 * coloured piece code, in `PIECE_TYPES` order, so field k occupies bits 4k..4k+3.
 *
 * The key is modelled as a natural below 2^64 and read as base-16 digits: `Field(key, k)`
 * is bits 4k..4k+3. The source's `(key & MASK) >> OFFSET` is that digit, `key & ~MASK` is
 * the key minus the digit's weight, and `| amount << OFFSET` is the addition of
 * `amount * 16^k`, which is exact because the cleared field and `amount` do not overlap
 * once `amount` is below 16.
 */
module MaterialKey {
  import opened Pieces

  const KEY_BOUND: nat := 0x1_0000_0000_0000_0000

  /** A `ulong` holds sixteen 4-bit fields; the twelve pieces use the low twelve. */
  const KEY_FIELDS: nat := 16

  /** `2^n`. */
  function Pow2(n: nat): (r: nat)
    ensures r >= 1
  {
    if n == 0 then 1 else 2 * Pow2(n - 1)
  }

  /** `16^k`, the weight of field k. */
  function Pow16(k: nat): (r: nat)
    ensures r >= 1
  {
    if k == 0 then 1 else 16 * Pow16(k - 1)
  }

  /** `a * 16^k`, that is `a << 4k` without overflow: digit a moved up to field k. */
  function Scaled(a: nat, k: nat): nat
  {
    if k == 0 then a else 16 * Scaled(a, k - 1)
  }

  /** Digit k of `key` in base 16: bits 4k..4k+3. */
  function Field(key: nat, k: nat): (d: nat)
    ensures d < 16
  {
    if k == 0 then key % 16 else Field(key / 16, k - 1)
  }

  /** Position of `p` in `s` (the length of `s` when it is absent). */
  function IndexOf(s: seq<nat>, p: nat): (k: nat)
    ensures k <= |s|
    ensures k < |s| ==> s[k] == p
    ensures p in s <==> k < |s|
    ensures forall j :: 0 <= j < k ==> s[j] != p
  {
    if |s| == 0 then 0 else if s[0] == p then 0 else 1 + IndexOf(s[1..], p)
  }

  /** The field that belongs to piece code `p`: its position in `PIECE_TYPES`. */
  function Slot(p: nat): nat
  {
    IndexOf(PIECE_TYPES, p)
  }

  /** `OFFSETS[p]`: 4 times the position in `PIECE_TYPES`; 0 for codes that are not pieces. */
  function Offset(p: nat): nat
  {
    if IsPiece(p) then 4 * Slot(p) else 0
  }

  /** `MASKS[p]`: `0xF << OFFSETS[p]` for a piece; 0 for codes that are not pieces. */
  function Mask(p: nat): nat
  {
    if IsPiece(p) then 15 * Pow2(Offset(p)) else 0
  }

  /** The number of pieces with code `p` that `key` records. */
  function Count(p: nat, key: nat): nat
  {
    Field(key, Slot(p))
  }

  /**
   * The static constructor: walks `PIECE_TYPES` with an offset that grows by 4 and fills
   * `OFFSETS` and `MASKS` (32 entries, indexed by code, zero for codes that are not pieces).
   */
  method BuildTables() returns (offsets: seq<nat>, masks: seq<nat>)
    ensures |offsets| == 32 && |masks| == 32
    ensures forall p {:trigger offsets[p]} :: 0 <= p < 32 ==> offsets[p] == Offset(p)
    ensures forall p {:trigger masks[p]} :: 0 <= p < 32 ==> masks[p] == Mask(p)
  {
    offsets := seq(32, _ => 0);
    masks := seq(32, _ => 0);
    var offset := 0;
    var i := 0;
    while i < |PIECE_TYPES|
      invariant 0 <= i <= |PIECE_TYPES| && offset == 4 * i
      invariant |offsets| == 32 && |masks| == 32
      invariant forall p {:trigger offsets[p]} :: 0 <= p < 32 ==>
        offsets[p] == (if Slot(p) < i then Offset(p) else 0)
      invariant forall p {:trigger masks[p]} :: 0 <= p < 32 ==>
        masks[p] == (if Slot(p) < i then Mask(p) else 0)
    {
      var pieceType := PIECE_TYPES[i];
      SlotOfIndex(i);
      SlotIs(i);
      offsets := offsets[pieceType := offset];
      masks := masks[pieceType := 15 * Pow2(offset)];
      offset := offset + 4;
      i := i + 1;
    }
    SlotsOfPieces();
  }

  /** Only the code at position i of `PIECE_TYPES` has slot i. */
  lemma SlotIs(i: nat)
    requires i < |PIECE_TYPES|
    ensures forall p {:trigger Slot(p)} :: Slot(p) == i <==> p == PIECE_TYPES[i]
  {
    forall p ensures Slot(p) == i <==> p == PIECE_TYPES[i] {
      if p == PIECE_TYPES[i] {
        SlotOfIndex(i);
      }
    }
  }

  /** The codes with a slot below 12 are exactly the pieces. */
  lemma SlotsOfPieces()
    ensures forall p {:trigger Slot(p)} :: Slot(p) < 12 <==> IsPiece(p)
  {
  }

  /** The code at position i of `PIECE_TYPES` has slot i, and it is a code below 32. */
  lemma SlotOfIndex(i: nat)
    requires i < |PIECE_TYPES|
    ensures Slot(PIECE_TYPES[i]) == i && PIECE_TYPES[i] < 32 && IsPiece(PIECE_TYPES[i])
  {
    var k := Slot(PIECE_TYPES[i]);
    if k < i {
      PieceTypesDistinct(k, i);
    }
  }

  /** A piece's field is one of the twelve. */
  lemma SlotOfPiece(p: nat)
    requires IsPiece(p)
    ensures Slot(p) < 12
  {
  }

  /** Distinct piece codes own distinct fields, all inside the low 48 bits. */
  lemma SlotsDistinct(p: nat, q: nat)
    requires IsPiece(p) && IsPiece(q) && p != q
    ensures Slot(p) < 12 && Slot(q) < 12 && Slot(p) != Slot(q)
    ensures Offset(p) == 4 * Slot(p) && Offset(p) <= 44
  {
  }

  /** `2^(4k) == 16^k`: an offset of 4k bits is the weight of field k. */
  lemma {:induction false} Pow2Pow16(k: nat)
    ensures Pow2(4 * k) == Pow16(k)
  {
    if k > 0 {
      Pow2Pow16(k - 1);
      var m := 4 * k;
      assert Pow2(m) == 2 * Pow2(m - 1);
      assert Pow2(m - 1) == 2 * Pow2(m - 2);
      assert Pow2(m - 2) == 2 * Pow2(m - 3);
      assert Pow2(m - 3) == 2 * Pow2(m - 4);
      assert m - 4 == 4 * (k - 1);
    }
  }

  /** The fields of `d << 4k` for a digit d: d in field k and zero everywhere else. */
  lemma {:induction false} FieldsOfDigit(d: nat, k: nat, l: nat)
    requires d < 16
    ensures Field(Scaled(d, k), l) == if l == k then d else 0
  {
    if k == 0 {
      if l > 0 {
        assert d / 16 == 0;
        FieldOfZero(l - 1);
      }
    } else if l > 0 {
      FieldsOfDigit(d, k - 1, l - 1);
    }
  }

  /** `Scaled(a, k)` is `a * 16^k`. */
  lemma {:induction false} ScaledProduct(a: nat, k: nat)
    ensures Scaled(a, k) == a * Pow16(k)
  {
    if k > 0 {
      ScaledProduct(a, k - 1);
      assert a * (16 * Pow16(k - 1)) == 16 * (a * Pow16(k - 1));
    }
  }

  /** Shifting distributes over a sum of amounts (with no overflow). */
  lemma {:induction false} ScaledSum(a: nat, b: nat, k: nat)
    ensures Scaled(a + b, k) == Scaled(a, k) + Scaled(b, k)
  {
    if k > 0 {
      ScaledSum(a, b, k - 1);
    }
  }

  lemma {:induction false} FieldOfZero(l: nat)
    ensures Field(0, l) == 0
  {
    if l > 0 {
      FieldOfZero(l - 1);
    }
  }

  /**
   * The masks: `MASKS[p]` has all four bits of field `Slot(p)` set and no other bit, so
   * the masks of distinct pieces are disjoint nibbles inside the low 48 bits.
   */
  lemma MaskFields(p: nat, l: nat)
    requires IsPiece(p)
    ensures Field(Mask(p), l) == if l == Slot(p) then 15 else 0
  {
    Pow2Pow16(Slot(p));
    ScaledProduct(15, Slot(p));
    FieldsOfDigit(15, Slot(p), l);
  }

  /** `key & ~MASK` for the mask of field k: the key with field k cleared. */
  function Clear(key: nat, k: nat): nat
  {
    if k == 0 then key / 16 * 16 else 16 * Clear(key / 16, k - 1) + key % 16
  }

  /** Clearing field k zeroes that field and keeps every other one. */
  lemma {:induction false} ClearFields(key: nat, k: nat, l: nat)
    ensures Field(Clear(key, k), l) == if l == k then 0 else Field(key, l)
  {
    var c := Clear(key, k);
    if k == 0 {
      assert c % 16 == 0 && c / 16 == key / 16;
    } else {
      assert c % 16 == key % 16 && c / 16 == Clear(key / 16, k - 1);
      if l > 0 {
        ClearFields(key / 16, k - 1, l - 1);
      }
    }
  }

  /** The cleared key and the field's own digit make up the key again. */
  lemma {:induction false} ClearSum(key: nat, k: nat)
    ensures Clear(key, k) + Scaled(Field(key, k), k) == key
  {
    if k > 0 {
      ClearSum(key / 16, k - 1);
    }
  }

  /** `c | a << 4k` for a key c whose field k is clear and a digit a: field k becomes a. */
  lemma {:induction false} PlaceFields(c: nat, k: nat, a: nat, l: nat)
    requires Field(c, k) == 0 && a < 16
    ensures Field(c + Scaled(a, k), l) == if l == k then a else Field(c, l)
  {
    var r := c + Scaled(a, k);
    if k == 0 {
      assert r % 16 == a && r / 16 == c / 16;
    } else {
      assert Scaled(a, k) == 16 * (Scaled(a, k - 1));
      assert r == 16 * (c / 16 + Scaled(a, k - 1)) + c % 16;
      assert r / 16 == c / 16 + Scaled(a, k - 1) && r % 16 == c % 16;
      if l > 0 {
        PlaceFields(c / 16, k - 1, a, l - 1);
      }
    }
  }

  /** Writing a digit into a clear field below field n keeps a key below `16^n`. */
  lemma {:induction false} PlaceBound(c: nat, k: nat, a: nat, n: nat)
    requires Field(c, k) == 0 && a < 16 && k < n && c < Pow16(n)
    ensures c + Scaled(a, k) < Pow16(n)
  {
    assert c / 16 < Pow16(n - 1);
    if k == 0 {
      assert c == 16 * (c / 16);
    } else {
      PlaceBound(c / 16, k - 1, a, n - 1);
      assert Scaled(a, k) == 16 * (Scaled(a, k - 1));
      assert c + Scaled(a, k) == 16 * (c / 16 + Scaled(a, k - 1)) + c % 16;
    }
  }

  /** Writing `amount` into field k of `key`: clear the field, then put the digit in. */
  lemma WriteField(key: nat, k: nat, amount: nat, l: nat, n: nat)
    requires amount < 16 && k < n && key < Pow16(n)
    ensures Field(Clear(key, k) + Scaled(amount, k), l) == if l == k then amount else Field(key, l)
    ensures Clear(key, k) + Scaled(amount, k) < Pow16(n)
  {
    ClearFields(key, k, k);
    ClearFields(key, k, l);
    PlaceFields(Clear(key, k), k, amount, l);
    ClearSum(key, k);
    PlaceBound(Clear(key, k), k, amount, n);
  }

  /** A key is a C# `ulong`. */
  predicate IsKey(key: nat)
  {
    key < KEY_BOUND
  }

  lemma KeyBound()
    ensures KEY_BOUND == Pow16(KEY_FIELDS)
  {
    assert Pow16(4) == 0x1_0000;
    assert Pow16(8) == 0x1_0000 * Pow16(4) by {
      assert Pow16(8) == 16 * (16 * (16 * (16 * Pow16(4))));
    }
    assert Pow16(12) == 0x1_0000 * Pow16(8) by {
      assert Pow16(12) == 16 * (16 * (16 * (16 * Pow16(8))));
    }
    assert Pow16(16) == 0x1_0000 * Pow16(12) by {
      assert Pow16(16) == 16 * (16 * (16 * (16 * Pow16(12))));
    }
  }

  /** Writing `amount` into field k, for every field at once. */
  lemma WriteFields(key: nat, k: nat, amount: nat, n: nat)
    requires amount < 16 && k < n && key < Pow16(n)
    ensures forall l {:trigger Field(Clear(key, k) + Scaled(amount, k), l)} ::
      Field(Clear(key, k) + Scaled(amount, k), l) == if l == k then amount else Field(key, l)
    ensures Clear(key, k) + Scaled(amount, k) < Pow16(n)
  {
    forall l
      ensures Field(Clear(key, k) + Scaled(amount, k), l) == if l == k then amount else Field(key, l)
    {
      WriteField(key, k, amount, l, n);
    }
    WriteField(key, k, amount, k, n);
  }

  /**
   * The carry of `AddPiece` at 15: after field k is cleared, `16 << 4k` is the lowest bit of
   * field k+1, and ORing it in adds `16^(k+1)` exactly when that bit was clear.
   */
  lemma SpillFields(key: nat, k: nat, n: nat)
    requires k + 1 < n && key < Pow16(n)
    ensures Clear(key, k) < Pow16(n)
    ensures Field(key, k + 1) % 2 == 0 ==> Clear(key, k) + Pow16(k + 1) < Pow16(n)
    ensures forall l {:trigger Field(Clear(key, k), l)} ::
      Field(Clear(key, k), l) == if l == k then 0 else Field(key, l)
    ensures Field(key, k + 1) % 2 == 0 ==>
      forall l {:trigger Field(Clear(key, k) + Pow16(k + 1), l)} ::
        Field(Clear(key, k) + Pow16(k + 1), l) ==
          if l == k then 0 else if l == k + 1 then Field(key, l) + 1 else Field(key, l)
  {
    ClearSum(key, k);
    var c := Clear(key, k);
    forall l ensures Field(c, l) == if l == k then 0 else Field(key, l) {
      ClearFields(key, k, l);
    }
    if Field(key, k + 1) % 2 == 0 {
      var d := Field(c, k + 1);
      WeightStep(c, k + 1, d);
      WriteFields(c, k + 1, d + 1, n);
      var r := c + Pow16(k + 1);
      assert r == Clear(c, k + 1) + Scaled(d + 1, k + 1);
      forall l ensures Field(r, l) == if l == k then 0 else if l == k + 1 then Field(key, l) + 1 else Field(key, l) {
        WriteField(c, k + 1, d + 1, l, n);
      }
    }
  }

  /** The bits of `key` below field k: `key % 16^k`. */
  function Low(key: nat, k: nat): nat
  {
    if k == 0 then 0 else 16 * Low(key / 16, k - 1) + key % 16
  }

  /** `Low(key, k)` keeps the fields below k and is below `16^k`. */
  lemma {:induction false} LowFields(key: nat, k: nat, l: nat)
    ensures Low(key, k) < Pow16(k)
    ensures Field(Low(key, k), l) == if l < k then Field(key, l) else 0
  {
    if k == 0 {
      FieldOfZero(l);
    } else {
      LowFields(key / 16, k - 1, if l == 0 then 0 else l - 1);
      var x := Low(key, k);
      assert x % 16 == key % 16 && x / 16 == Low(key / 16, k - 1);
    }
  }

  /** `16^n - 1` has all of its n fields at 15. */
  lemma {:induction false} AllFifteen(n: nat, l: nat)
    ensures Field(Pow16(n) - 1, l) == if l < n then 15 else 0
  {
    if n == 0 {
      FieldOfZero(l);
    } else {
      var y := Pow16(n) - 1;
      assert y == 16 * (Pow16(n - 1) - 1) + 15;
      assert y % 16 == 15 && y / 16 == Pow16(n - 1) - 1;
      if l > 0 {
        AllFifteen(n - 1, l - 1);
      }
    }
  }

  /**
   * The borrow of `RemovePiece` at 0: `x | (2^64 - 1) << 4k` for x below `16^k` keeps the
   * fields below k and sets every field from k up to 15.
   */
  lemma {:induction false} TopFields(x: nat, k: nat, n: nat, l: nat)
    requires x < Pow16(k) && k <= n
    ensures Pow16(k) <= Pow16(n)
    ensures Field(x + (Pow16(n) - Pow16(k)), l) == if l < k then Field(x, l) else if l < n then 15 else 0
  {
    if k == 0 {
      AllFifteen(n, l);
      assert x == 0;
      PowMonotone(0, n);
    } else {
      var q := x / 16;
      TopFields(q, k - 1, n - 1, if l == 0 then 0 else l - 1);
      var y := x + (Pow16(n) - Pow16(k));
      assert y == 16 * (q + (Pow16(n - 1) - Pow16(k - 1))) + x % 16;
      assert y % 16 == x % 16 && y / 16 == q + (Pow16(n - 1) - Pow16(k - 1));
    }
  }

  lemma {:induction false} PowMonotone(k: nat, n: nat)
    requires k <= n
    ensures Pow16(k) <= Pow16(n)
  {
    if k < n {
      PowMonotone(k, n - 1);
    }
  }

  /**
   * The field-level step of `AddPiece` for field k (k < 12): read the field, add one,
   * clear the field and OR the new amount back in at offset 4k. Below 15 this raises the
   * field by one and leaves every other bit alone; at 15 the new amount 16 lands on the
   * lowest bit of field k+1.
   */
  function AddField(k: nat, key: nat): (r: nat)
    requires k < 12 && IsKey(key)
    ensures IsKey(r)
    ensures Field(key, k) < 15 ==>
      forall l {:trigger Field(r, l)} :: Field(r, l) == if l == k then Field(key, k) + 1 else Field(key, l)
  {
    KeyBound();
    var amount := Field(key, k) + 1;
    if amount < 16 then
      WriteFields(key, k, amount, KEY_FIELDS);
      Clear(key, k) + Scaled(amount, k)
    else
      SpillFields(key, k, KEY_FIELDS);
      if Field(key, k + 1) % 2 == 1 then Clear(key, k) else Clear(key, k) + Pow16(k + 1)
  }

  /**
   * The field-level step of `RemovePiece` for field k: read the field, subtract one, clear
   * the field and OR the new amount back in. From 1 up this lowers the field by one and
   * leaves every other bit alone; at 0 the `ulong` subtraction wraps to `2^64 - 1`, whose
   * shifted copy sets every bit from offset 4k up.
   */
  function RemoveField(k: nat, key: nat): (r: nat)
    requires k < 12 && IsKey(key)
    ensures IsKey(r)
    ensures Field(key, k) >= 1 ==>
      forall l {:trigger Field(r, l)} :: Field(r, l) == if l == k then Field(key, k) - 1 else Field(key, l)
  {
    KeyBound();
    if Field(key, k) >= 1 then
      var amount := Field(key, k) - 1;
      WriteFields(key, k, amount, KEY_FIELDS);
      Clear(key, k) + Scaled(amount, k)
    else
      LowFields(key, k, 0);
      PowMonotone(k, KEY_FIELDS);
      Low(key, k) + (KEY_BOUND - Pow16(k))
  }

  /**
   * `AddPiece`: the field step on the field of `pieceType`. For a code that is not a
   * piece, `MASKS` and `OFFSETS` hold 0, so the amount 1 is ORed into bit 0.
   */
  function AddPiece(pieceType: nat, key: nat): (r: nat)
    requires pieceType < 32 && IsKey(key)
    ensures IsKey(r)
  {
    if !IsPiece(pieceType) then
      KeyBound();
      if key % 2 == 1 then key else key + 1
    else
      SlotOfPiece(pieceType);
      AddField(Slot(pieceType), key)
  }

  /**
   * `RemovePiece`: the field step on the field of `pieceType`. For a code that is not a
   * piece the mask is 0 and the wrapped amount `2^64 - 1` sets every bit of the key.
   */
  function RemovePiece(pieceType: nat, key: nat): (r: nat)
    requires pieceType < 32 && IsKey(key)
    ensures IsKey(r)
  {
    if !IsPiece(pieceType) then
      KeyBound();
      KEY_BOUND - 1
    else
      SlotOfPiece(pieceType);
      RemoveField(Slot(pieceType), key)
  }

  /** Below 15, `AddPiece` raises the count of its piece by one and changes no other field. */
  lemma AddCounts(pieceType: nat, key: nat, l: nat)
    requires IsPiece(pieceType) && IsKey(key) && Count(pieceType, key) < 15
    ensures Field(AddPiece(pieceType, key), l) ==
      if l == Slot(pieceType) then Count(pieceType, key) + 1 else Field(key, l)
  {
    SlotOfPiece(pieceType);
  }

  /** From 1 up, `RemovePiece` lowers the count of its piece by one and changes no other field. */
  lemma RemoveCounts(pieceType: nat, key: nat, l: nat)
    requires IsPiece(pieceType) && IsKey(key) && Count(pieceType, key) >= 1
    ensures Field(RemovePiece(pieceType, key), l) ==
      if l == Slot(pieceType) then Count(pieceType, key) - 1 else Field(key, l)
  {
    SlotOfPiece(pieceType);
  }

  /** `AddPiece` at a count of 15: the field drops to 0 and bit 0 of the next field is set. */
  lemma AddAtFifteen(pieceType: nat, key: nat, l: nat)
    requires IsPiece(pieceType) && IsKey(key) && Count(pieceType, key) == 15
    ensures Field(AddPiece(pieceType, key), l) ==
      if l == Slot(pieceType) then 0
      else if l == Slot(pieceType) + 1 then Field(key, l) / 2 * 2 + 1
      else Field(key, l)
  {
    SlotOfPiece(pieceType);
    AddFieldAtFifteen(Slot(pieceType), key, l);
  }

  lemma AddFieldAtFifteen(k: nat, key: nat, l: nat)
    requires k < 12 && IsKey(key) && Field(key, k) == 15
    ensures Field(AddField(k, key), l) ==
      if l == k then 0 else if l == k + 1 then Field(key, l) / 2 * 2 + 1 else Field(key, l)
  {
    KeyBound();
    SpillFields(key, k, KEY_FIELDS);
  }

  /** `RemovePiece` at a count of 0: the lower fields stay and every field from its own up is 15. */
  lemma RemoveAtZero(pieceType: nat, key: nat, l: nat)
    requires IsPiece(pieceType) && IsKey(key) && Count(pieceType, key) == 0 && l < KEY_FIELDS
    ensures Field(RemovePiece(pieceType, key), l) == if l < Slot(pieceType) then Field(key, l) else 15
  {
    KeyBound();
    var k := Slot(pieceType);
    SlotOfPiece(pieceType);
    LowFields(key, k, l);
    TopFields(Low(key, k), k, KEY_FIELDS, l);
  }

  /** Writing d + 1 into field k instead of d raises the value by `16^k`. */
  lemma WeightStep(key: nat, k: nat, d: nat)
    requires Field(key, k) == d || Field(key, k) == d + 1
    ensures Clear(key, k) + Scaled(d + 1, k) == Clear(key, k) + Scaled(d, k) + Pow16(k)
    ensures Clear(key, k) + Scaled(Field(key, k), k) == key
  {
    ClearSum(key, k);
    ScaledSum(d, 1, k);
    ScaledProduct(1, k);
  }

  /** Below 15, the field step adds the field's weight. */
  lemma AddFieldIsWeight(k: nat, key: nat)
    requires k < 12 && IsKey(key) && Field(key, k) < 15
    ensures AddField(k, key) == key + Pow16(k)
  {
    WeightStep(key, k, Field(key, k));
  }

  /** From 1 up, the field step subtracts the field's weight. */
  lemma RemoveFieldIsWeight(k: nat, key: nat)
    requires k < 12 && IsKey(key) && Field(key, k) >= 1
    ensures RemoveField(k, key) == key - Pow16(k)
  {
    WeightStep(key, k, Field(key, k) - 1);
  }

  /** Adding a piece raises the key by the weight of its field. */
  lemma AddIsWeight(pieceType: nat, key: nat)
    requires IsPiece(pieceType) && IsKey(key) && Count(pieceType, key) < 15
    ensures AddPiece(pieceType, key) == key + Pow16(Slot(pieceType))
  {
    SlotOfPiece(pieceType);
    AddFieldIsWeight(Slot(pieceType), key);
  }

  /** Removing a piece lowers the key by the weight of its field. */
  lemma RemoveIsWeight(pieceType: nat, key: nat)
    requires IsPiece(pieceType) && IsKey(key) && Count(pieceType, key) >= 1
    ensures RemovePiece(pieceType, key) == key - Pow16(Slot(pieceType))
  {
    SlotOfPiece(pieceType);
    RemoveFieldIsWeight(Slot(pieceType), key);
  }

  /** `RemovePiece` undoes `AddPiece`. */
  lemma RemoveUndoesAdd(pieceType: nat, key: nat)
    requires IsPiece(pieceType) && IsKey(key) && Count(pieceType, key) < 15
    ensures RemovePiece(pieceType, AddPiece(pieceType, key)) == key
  {
    SlotOfPiece(pieceType);
    var k := Slot(pieceType);
    AddFieldIsWeight(k, key);
    RemoveFieldIsWeight(k, AddField(k, key));
  }

  /** `AddPiece` undoes `RemovePiece`. */
  lemma AddUndoesRemove(pieceType: nat, key: nat)
    requires IsPiece(pieceType) && IsKey(key) && Count(pieceType, key) >= 1
    ensures AddPiece(pieceType, RemovePiece(pieceType, key)) == key
  {
    SlotOfPiece(pieceType);
    var k := Slot(pieceType);
    RemoveFieldIsWeight(k, key);
    AddFieldIsWeight(k, RemoveField(k, key));
  }

  /** Field steps on two different fields commute. */
  lemma FieldStepsCommute(k: nat, j: nat, key: nat)
    requires k < 12 && j < 12 && k != j && IsKey(key)
    ensures Field(key, k) < 15 && Field(key, j) < 15 ==>
      AddField(j, AddField(k, key)) == AddField(k, AddField(j, key))
    ensures Field(key, k) < 15 && Field(key, j) >= 1 ==>
      RemoveField(j, AddField(k, key)) == AddField(k, RemoveField(j, key))
  {
    if Field(key, k) < 15 && Field(key, j) < 15 {
      AddFieldIsWeight(k, key);
      AddFieldIsWeight(j, key);
      AddFieldIsWeight(j, AddField(k, key));
      AddFieldIsWeight(k, AddField(j, key));
    }
    if Field(key, k) < 15 && Field(key, j) >= 1 {
      AddFieldIsWeight(k, key);
      RemoveFieldIsWeight(j, key);
      RemoveFieldIsWeight(j, AddField(k, key));
      AddFieldIsWeight(k, RemoveField(j, key));
    }
  }

  /** Additions of two different piece codes commute. */
  lemma AddsCommute(p: nat, q: nat, key: nat)
    requires IsPiece(p) && IsPiece(q) && p != q && IsKey(key)
    requires Count(p, key) < 15 && Count(q, key) < 15
    ensures AddPiece(q, AddPiece(p, key)) == AddPiece(p, AddPiece(q, key))
  {
    SlotsDistinct(p, q);
    FieldStepsCommute(Slot(p), Slot(q), key);
  }

  /** An addition and a removal of two different piece codes commute. */
  lemma AddRemoveCommute(p: nat, q: nat, key: nat)
    requires IsPiece(p) && IsPiece(q) && p != q && IsKey(key)
    requires Count(p, key) < 15 && Count(q, key) >= 1
    ensures RemovePiece(q, AddPiece(p, key)) == AddPiece(p, RemovePiece(q, key))
  {
    SlotsDistinct(p, q);
    FieldStepsCommute(Slot(p), Slot(q), key);
  }
}
