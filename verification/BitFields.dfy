/**
 Bit fields of unbounded numbers, as the Python gold model handles them, and slices of
 fixed-width registers, as the RTL does; `get`, `pack` and a run of slice assignments over
 any layout agree bit by bit.
 */
module BitFields {
  import opened BitVec

  // ---- Bits of a number ----

  function TestBit(n: nat, k: nat): bool {
    if k == 0 then n % 2 == 1 else TestBit(n / 2, k - 1)
  }

  function ShiftRight(n: nat, places: nat): nat {
    if places == 0 then n else ShiftRight(n / 2, places - 1)
  }

  function ShiftLeft(n: nat, places: nat): (r: nat)
    ensures n > 0 ==> r > 0
  {
    if places == 0 then n else 2 * ShiftLeft(n, places - 1)
  }

  function Or(a: nat, b: nat): nat {
    if a == 0 && b == 0 then 0 else (if a % 2 == 1 || b % 2 == 1 then 1 else 0) + 2 * Or(a / 2, b / 2)
  }

  function And(a: nat, b: nat): nat {
    if a == 0 || b == 0 then 0 else (if a % 2 == 1 && b % 2 == 1 then 1 else 0) + 2 * And(a / 2, b / 2)
  }

  function Mask(w: nat): nat { ShiftLeft(1, w) - 1 }

  lemma {:induction false} ZeroHasNoBits(k: nat)
    ensures !TestBit(0, k)
  {
    if k > 0 {
      ZeroHasNoBits(k - 1);
    }
  }

  lemma {:induction false} OrBit(a: nat, b: nat, k: nat)
    ensures TestBit(Or(a, b), k) <==> TestBit(a, k) || TestBit(b, k)
  {
    if a == 0 && b == 0 {
      ZeroHasNoBits(k);
    } else if k > 0 {
      OrBit(a / 2, b / 2, k - 1);
    }
  }

  lemma {:induction false} AndBit(a: nat, b: nat, k: nat)
    ensures TestBit(And(a, b), k) <==> TestBit(a, k) && TestBit(b, k)
  {
    if a == 0 || b == 0 {
      ZeroHasNoBits(k);
    } else if k > 0 {
      AndBit(a / 2, b / 2, k - 1);
    }
  }

  lemma {:induction false} ShiftRightBit(n: nat, places: nat, k: nat)
    ensures TestBit(ShiftRight(n, places), k) <==> TestBit(n, k + places)
  {
    if places > 0 {
      ShiftRightBit(n / 2, places - 1, k);
    }
  }

  lemma {:induction false} ShiftLeftBit(n: nat, places: nat, k: nat)
    ensures TestBit(ShiftLeft(n, places), k) <==> k >= places && TestBit(n, k - places)
  {
    if places > 0 && k > 0 {
      ShiftLeftBit(n, places - 1, k - 1);
    }
  }

  lemma {:induction false} MaskBit(w: nat, k: nat)
    ensures TestBit(Mask(w), k) <==> k < w
  {
    if w == 0 {
      ZeroHasNoBits(k);
    } else {
      MaskBit(w - 1, if k == 0 then 0 else k - 1);
      assert Mask(w) == 2 * Mask(w - 1) + 1;
    }
  }

  /** A number is its bits. */
  lemma {:induction false} SameBits(a: nat, b: nat)
    requires forall k: nat :: TestBit(a, k) == TestBit(b, k)
    ensures a == b
    decreases a + b
  {
    assert TestBit(a, 0) == TestBit(b, 0);
    if a > 0 || b > 0 {
      forall k: nat ensures TestBit(a / 2, k) == TestBit(b / 2, k) {
        assert TestBit(a, k + 1) == TestBit(b, k + 1);
      }
      SameBits(a / 2, b / 2);
    }
  }

  lemma {:induction false} FromNatBit(n: nat, w: nat, k: nat)
    requires k < w
    ensures FromNat(n, w)[k] == TestBit(n, k)
  {
    if k > 0 {
      FromNatBit(n / 2, w - 1, k - 1);
    }
  }

  lemma {:induction false} ToNatBit(b: Bits, k: nat)
    ensures TestBit(ToNat(b), k) == (k < |b| && b[k])
  {
    if b == [] {
      ZeroHasNoBits(k);
    } else if k > 0 {
      ToNatBit(b[1..], k - 1);
      assert ToNat(b) / 2 == ToNat(b[1..]);
    }
  }

  // ---- Fields ----

  /** The field names of the flits. */
  datatype Name =
    | ORDER | MEMATTR | SIZE | ADDR | OPCODE | TXNID | SRCID | TGTID | QOS | RESPERR | DBID
    | DATA | BE | POISON | DATAID | RESP | TC | TAG | METAVAL | METAFLD | SNPTYPE | LEN | MEMOP | DEVLOAD

  datatype Field = Field(name: Name, lsb: nat, width: nat)
  {
    predicate Covers(k: nat) { lsb <= k < lsb + width }
  }

  type Layout = seq<Field>

  function Get(n: nat, f: Field): nat {
    And(ShiftRight(n, f.lsb), Mask(f.width))
  }

  function Masked(values: map<Name, nat>, f: Field): nat {
    And(if f.name in values then values[f.name] else 0, Mask(f.width))
  }

  /** The named fields, zero where no value is given, one after the other into one number. */
  function Packed(layout: Layout, values: map<Name, nat>): nat {
    if layout == [] then 0
    else Or(Packed(layout[..|layout| - 1], values),
            ShiftLeft(Masked(values, layout[|layout| - 1]), layout[|layout| - 1].lsb))
  }

  method Pack(layout: Layout, values: map<Name, nat>) returns (out: nat)
    ensures out == Packed(layout, values)
  {
    out := 0;
    for i := 0 to |layout|
      invariant out == Packed(layout[..i], values)
    {
      assert layout[..i + 1][..i] == layout[..i];
      var f := layout[i];
      var v := And(if f.name in values then values[f.name] else 0, Mask(f.width));
      out := Or(out, ShiftLeft(v, f.lsb));
    }
    assert layout[..|layout|] == layout;
  }

  lemma GetBit(n: nat, f: Field, k: nat)
    ensures TestBit(Get(n, f), k) <==> k < f.width && TestBit(n, k + f.lsb)
  {
    AndBit(ShiftRight(n, f.lsb), Mask(f.width), k);
    ShiftRightBit(n, f.lsb, k);
    MaskBit(f.width, k);
  }

  function ValueOf(values: map<Name, nat>, f: Field): nat {
    if f.name in values then values[f.name] else 0
  }

  lemma MaskedBit(values: map<Name, nat>, f: Field, k: nat)
    ensures TestBit(ShiftLeft(Masked(values, f), f.lsb), k) <==> f.Covers(k) && TestBit(ValueOf(values, f), k - f.lsb)
  {
    ShiftLeftBit(Masked(values, f), f.lsb, k);
    if k >= f.lsb {
      AndBit(ValueOf(values, f), Mask(f.width), k - f.lsb);
      MaskBit(f.width, k - f.lsb);
    }
  }

  ghost predicate SetBy(layout: Layout, values: map<Name, nat>, k: nat) {
    exists i :: 0 <= i < |layout| && layout[i].Covers(k) && TestBit(ValueOf(values, layout[i]), k - layout[i].lsb)
  }

  /** A bit of the packed number is set exactly when some field that covers it sets it. */
  lemma {:induction false} PackedBit(layout: Layout, values: map<Name, nat>, k: nat)
    ensures TestBit(Packed(layout, values), k) <==> SetBy(layout, values, k)
  {
    hide TestBit, Or, ShiftLeft, Masked, ValueOf;
    if layout == [] {
      ZeroHasNoBits(k);
    } else {
      var front, f := layout[..|layout| - 1], layout[|layout| - 1];
      PackedBit(front, values, k);
      OrBit(Packed(front, values), ShiftLeft(Masked(values, f), f.lsb), k);
      MaskedBit(values, f, k);
      assert layout == front + [f];
      assert layout[|front|] == f;
    }
  }

  ghost predicate Disjoint(layout: Layout) {
    forall i, j, k :: 0 <= i < j < |layout| && layout[i].Covers(k) ==> !layout[j].Covers(k)
  }

  /** Every bit below `w`, and no other, lies in exactly one field. */
  ghost predicate Tiles(layout: Layout, w: nat) {
    && Disjoint(layout)
    && (forall k :: 0 <= k < w ==> Covered(layout, k))
    && (forall i :: 0 <= i < |layout| ==> layout[i].lsb + layout[i].width <= w)
  }

  ghost predicate Covered(layout: Layout, k: nat) {
    exists i :: 0 <= i < |layout| && layout[i].Covers(k)
  }

  // ---- get and pack are inverse to each other ----

  lemma {:induction false} ShiftRightIs(n: nat, places: nat)
    ensures ShiftRight(n, places) == n / Pow2(places)
  {
    if places > 0 {
      ShiftRightIs(n / 2, places - 1);
      HalveThenDivide(n, Pow2(places - 1));
    }
  }

  lemma HalveThenDivide(n: nat, p: nat)
    requires p > 0
    ensures n / 2 / p == n / (2 * p)
  {
    var q, r := n / 2 / p, n / 2 % p;
    assert n / 2 == p * q + r;
    assert n == (2 * p) * q + (2 * r + n % 2);
    ModUnique(n, 2 * p, q, 2 * r + n % 2);
  }

  lemma AndMaskIs(n: nat, w: nat)
    ensures And(n, Mask(w)) == n % Pow2(w)
  {
    hide And, TestBit, Pow2, FromNat, ToNat;
    forall k: nat ensures TestBit(And(n, Mask(w)), k) == TestBit(ToNat(FromNat(n, w)), k) {
      AndBit(n, Mask(w), k);
      MaskBit(w, k);
      ToNatBit(FromNat(n, w), k);
      if k < w {
        FromNatBit(n, w, k);
      }
    }
    SameBits(And(n, Mask(w)), ToNat(FromNat(n, w)));
    ToNatFromNat(n, w);
  }

  /** `get` in arithmetic terms. */
  lemma GetIs(n: nat, f: Field)
    ensures Get(n, f) == n / Pow2(f.lsb) % Pow2(f.width)
  {
    hide And, ShiftRight, Pow2;
    ShiftRightIs(n, f.lsb);
    AndMaskIs(n / Pow2(f.lsb), f.width);
  }

  /** From a layout of disjoint fields `get` recovers each packed value, modulo its field's width. */
  lemma GetRecovers(layout: Layout, values: map<Name, nat>, i: nat)
    requires Disjoint(layout) && i < |layout|
    ensures Get(Packed(layout, values), layout[i]) == ValueOf(values, layout[i]) % Pow2(layout[i].width)
  {
    hide TestBit, Packed, And, ShiftRight, ShiftLeft, Pow2, ValueOf, Get;
    var f := layout[i];
    forall k: nat ensures TestBit(Get(Packed(layout, values), f), k) ==
      TestBit(And(ValueOf(values, f), Mask(f.width)), k) {
      GetBit(Packed(layout, values), f, k);
      PackedBit(layout, values, k + f.lsb);
      AndBit(ValueOf(values, f), Mask(f.width), k);
      MaskBit(f.width, k);
      if k < f.width {
        OnlyField(layout, values, i, k + f.lsb);
      }
    }
    SameBits(Get(Packed(layout, values), f), And(ValueOf(values, f), Mask(f.width)));
    AndMaskIs(ValueOf(values, f), f.width);
  }

  lemma OnlyField(layout: Layout, values: map<Name, nat>, i: nat, k: nat)
    requires Disjoint(layout) && i < |layout| && layout[i].Covers(k)
    ensures SetBy(layout, values, k) <==> TestBit(ValueOf(values, layout[i]), k - layout[i].lsb)
  {
    hide TestBit, ValueOf;
  }

  ghost predicate Named(layout: Layout) {
    forall i, j :: 0 <= i < j < |layout| ==> layout[i].name != layout[j].name
  }

  /** Disjointness is needed: where two fields share a bit, some values come back changed. */
  lemma OverlapLoses(layout: Layout, i: nat, j: nat, k: nat) returns (values: map<Name, nat>)
    requires Named(layout) && i < |layout| && j < |layout| && i != j
    requires layout[i].Covers(k) && layout[j].Covers(k)
    ensures Get(Packed(layout, values), layout[i]) != ValueOf(values, layout[i]) % Pow2(layout[i].width)
  {
    hide TestBit, Packed, And, ShiftRight, ShiftLeft, Pow2, Get;
    var f, g := layout[i], layout[j];
    values := map[g.name := ShiftLeft(1, k - g.lsb)];
    PackedBit(layout, values, k);
    ShiftLeftBit(1, k - g.lsb, k - g.lsb);
    assert TestBit(1, 0) by { OneBit(); }
    assert SetBy(layout, values, k);
    GetBit(Packed(layout, values), f, k - f.lsb);
    ZeroHasNoBits(k - f.lsb);
    ModUnique(0, Pow2(f.width), 0, 0);
  }

  lemma OneBit()
    ensures TestBit(1, 0)
  {
  }

  /** What `get` reads from each field of `n`. */
  function Fields(layout: Layout, n: nat): map<Name, nat> {
    if layout == [] then map[]
    else Fields(layout[..|layout| - 1], n)[layout[|layout| - 1].name := Get(n, layout[|layout| - 1])]
  }

  lemma {:induction false} FieldsAre(layout: Layout, n: nat, i: nat)
    requires Named(layout) && i < |layout|
    ensures ValueOf(Fields(layout, n), layout[i]) == Get(n, layout[i])
  {
    hide Get;
    var front := layout[..|layout| - 1];
    if i < |front| {
      FieldsAre(front, n, i);
      assert front[i] == layout[i];
    }
  }

  lemma {:induction false} HighBits(n: nat, w: nat, k: nat)
    requires n < Pow2(w) && k >= w
    ensures !TestBit(n, k)
  {
    if w == 0 {
      ZeroHasNoBits(k);
    } else {
      HighBits(n / 2, w - 1, k - 1);
    }
  }

  /** Packing all fields of a tiling layout rebuilds the number they were read from. */
  lemma PackRebuilds(layout: Layout, w: nat, n: nat)
    requires Tiles(layout, w) && Named(layout) && n < Pow2(w)
    ensures Packed(layout, Fields(layout, n)) == n
  {
    hide TestBit, Packed, Get, Fields, Pow2, ValueOf;
    var values := Fields(layout, n);
    forall k: nat ensures TestBit(Packed(layout, values), k) == TestBit(n, k) {
      PackedBit(layout, values, k);
      if k < w {
        assert Covered(layout, k);
        var i: nat :| i < |layout| && layout[i].Covers(k);
        OnlyField(layout, values, i, k);
        FieldsAre(layout, n, i);
        GetBit(n, layout[i], k - layout[i].lsb);
      } else {
        HighBits(n, w, k);
      }
    }
    SameBits(Packed(layout, values), n);
  }

  // ---- Slices of a register ----

  function Slice(r: Bits, f: Field): (v: Bits)
    requires f.lsb + f.width <= |r|
    ensures |v| == f.width
  {
    r[f.lsb..f.lsb + f.width]
  }

  /** `r[lsb +: width] = v`. */
  function Assigned(r: Bits, f: Field, v: Bits): (r': Bits)
    requires f.lsb + f.width <= |r| && |v| == f.width
    ensures |r'| == |r|
  {
    r[..f.lsb] + v + r[f.lsb + f.width..]
  }

  /** Slices assigned one after the other. */
  function AssignedAll(r: Bits, order: Layout, values: map<Name, nat>): (r': Bits)
    requires forall i :: 0 <= i < |order| ==> order[i].lsb + order[i].width <= |r|
    ensures |r'| == |r|
  {
    if order == [] then r
    else
      var f := order[|order| - 1];
      Assigned(AssignedAll(r, order[..|order| - 1], values), f, FromNat(ValueOf(values, f), f.width))
  }

  /** A slice read is `get`. */
  lemma SliceIsGet(r: Bits, f: Field)
    requires f.lsb + f.width <= |r|
    ensures ToNat(Slice(r, f)) == Get(ToNat(r), f)
  {
    hide TestBit, ToNat, Get;
    forall k: nat ensures TestBit(ToNat(Slice(r, f)), k) == TestBit(Get(ToNat(r), f), k) {
      ToNatBit(Slice(r, f), k);
      GetBit(ToNat(r), f, k);
      ToNatBit(r, k + f.lsb);
    }
    SameBits(ToNat(Slice(r, f)), Get(ToNat(r), f));
  }

  lemma AssignedBit(r: Bits, f: Field, v: nat, k: nat)
    requires f.lsb + f.width <= |r| && k < |r|
    ensures Assigned(r, f, FromNat(v, f.width))[k] == if f.Covers(k) then TestBit(v, k - f.lsb) else r[k]
  {
    hide TestBit, FromNat;
    if f.Covers(k) {
      FromNatBit(v, f.width, k - f.lsb);
    }
  }

  lemma LastField(front: Layout, f: Field, values: map<Name, nat>, k: nat)
    requires Disjoint(front + [f])
    ensures Disjoint(front)
    ensures Covered(front + [f], k) <==> Covered(front, k) || f.Covers(k)
    ensures f.Covers(k) ==> (SetBy(front + [f], values, k) <==> TestBit(ValueOf(values, f), k - f.lsb))
    ensures !f.Covers(k) ==> (SetBy(front + [f], values, k) <==> SetBy(front, values, k))
  {
    hide TestBit, ValueOf;
    var layout := front + [f];
    assert layout[|front|] == f && forall i :: 0 <= i < |front| ==> layout[i] == front[i];
  }

  lemma {:induction false} AssignedAllBit(r: Bits, order: Layout, values: map<Name, nat>, k: nat)
    requires Disjoint(order) && (forall i :: 0 <= i < |order| ==> order[i].lsb + order[i].width <= |r|) && k < |r|
    ensures AssignedAll(r, order, values)[k] == if Covered(order, k) then SetBy(order, values, k) else r[k]
  {
    hide TestBit, FromNat, Assigned, ValueOf, Covered, SetBy, Disjoint;
    if order == [] {
      assert !Covered(order, k) by { NothingCovered(order, k); }
    } else {
      var front, f := order[..|order| - 1], order[|order| - 1];
      assert order == front + [f];
      LastField(front, f, values, k);
      AssignedAllBit(r, front, values, k);
      AssignedBit(AssignedAll(r, front, values), f, ValueOf(values, f), k);
    }
  }

  lemma NothingCovered(order: Layout, k: nat)
    requires order == []
    ensures !Covered(order, k)
  {
  }

  /** A register all of whose bits are assigned, in any order and whatever it held before, is
      the packed number. */
  lemma AssignedAllIsPacked(r: Bits, order: Layout, layout: Layout, values: map<Name, nat>)
    requires Tiles(order, |r|) && forall f :: f in order <==> f in layout
    ensures ToNat(AssignedAll(r, order, values)) == Packed(layout, values) < Pow2(|r|)
  {
    hide TestBit, ToNat, Packed, AssignedAll, ValueOf, Pow2;
    var r' := AssignedAll(r, order, values);
    forall k: nat ensures TestBit(ToNat(r'), k) == TestBit(Packed(layout, values), k) {
      ToNatBit(r', k);
      PackedBit(layout, values, k);
      SetByFields(order, layout, values, k);
      if k < |r| {
        assert Covered(order, k);
        AssignedAllBit(r, order, values, k);
      }
    }
    SameBits(ToNat(r'), Packed(layout, values));
  }

  lemma SetByFields(a: Layout, b: Layout, values: map<Name, nat>, k: nat)
    requires forall f :: f in a <==> f in b
    ensures SetBy(a, values, k) <==> SetBy(b, values, k)
  {
    hide TestBit, ValueOf;
    if SetBy(a, values, k) {
      var i: nat :| i < |a| && a[i].Covers(k) && TestBit(ValueOf(values, a[i]), k - a[i].lsb);
      assert a[i] in b;
    }
    if SetBy(b, values, k) {
      var i: nat :| i < |b| && b[i].Covers(k) && TestBit(ValueOf(values, b[i]), k - b[i].lsb);
      assert b[i] in a;
    }
  }
}
