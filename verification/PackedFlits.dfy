/**
 The field maps, and each of the four translations twice: as the RTL does it, by slice
 assignments into an uninitialized register, and as the Python gold model does it, with
 `get` and `pack`. They agree on every packet and for every data width, and both agree
 with the translation of the fields in `Flits`.
 */
module PackedFlits {
  import opened BitVec
  import opened BitFields
  import opened Flits
  import GoldModel

  // ---- Field maps, least significant field first; `d` is the data width ----

  function ChiReqMap(): Layout {
    [Field(ORDER, 0, 2), Field(MEMATTR, 2, 4), Field(SIZE, 6, 3), Field(ADDR, 9, 48), Field(OPCODE, 57, 7),
     Field(TXNID, 64, 8), Field(SRCID, 72, 7), Field(TGTID, 79, 7), Field(QOS, 86, 4)]
  }

  function ChiRspMap(): Layout {
    [Field(RESPERR, 0, 2), Field(DBID, 2, 4), Field(TXNID, 6, 8), Field(OPCODE, 14, 4), Field(SRCID, 18, 7)]
  }

  function ChiDatMap(d: nat): Layout {
    var b := d + d / 8;
    [Field(DATA, 0, d), Field(BE, d, d / 8), Field(POISON, b, 1), Field(DATAID, b + 1, 4), Field(RESPERR, b + 5, 2),
     Field(RESP, b + 7, 3), Field(TXNID, b + 10, 8), Field(OPCODE, b + 18, 4)]
  }

  function CxlReqMap(): Layout {
    [Field(TC, 0, 2), Field(ADDR, 2, 48), Field(TAG, 50, 4), Field(METAVAL, 54, 2), Field(METAFLD, 56, 2),
     Field(SNPTYPE, 58, 3), Field(LEN, 61, 3), Field(MEMOP, 64, 4)]
  }

  function CxlRwdMap(d: nat): Layout {
    var b := d + d / 8;
    [Field(DATA, 0, d), Field(BE, d, d / 8), Field(POISON, b, 1), Field(METAVAL, b + 1, 2), Field(METAFLD, b + 3, 2),
     Field(ADDR, b + 5, 48), Field(TAG, b + 53, 4), Field(LEN, b + 57, 3), Field(MEMOP, b + 60, 4)]
  }

  function CxlNdrMap(): Layout {
    [Field(DEVLOAD, 0, 2), Field(TAG, 2, 4), Field(METAVAL, 6, 2), Field(METAFLD, 8, 2), Field(OPCODE, 10, 3)]
  }

  function CxlDrsMap(d: nat): Layout {
    [Field(DATA, 0, d), Field(POISON, d, 1), Field(DEVLOAD, d + 1, 2), Field(TAG, d + 3, 4), Field(METAVAL, d + 7, 2),
     Field(METAFLD, d + 9, 2), Field(OPCODE, d + 11, 3)]
  }

  const CHI_REQ_W: nat := 90
  const CHI_RSP_W: nat := 25
  const CXL_REQ_W: nat := 68
  const CXL_NDR_W: nat := 13

  function ChiDatW(d: nat): nat { d + d / 8 + 22 }
  function CxlRwdW(d: nat): nat { d + d / 8 + 64 }
  function CxlDrsW(d: nat): nat { d + 14 }

  /** Each field starts where the one before ends. */
  ghost predicate Contiguous(layout: Layout, w: nat) {
    && layout != [] && layout[0].lsb == 0
    && (forall i :: 0 < i < |layout| ==> layout[i].lsb == End(layout[i - 1]))
    && End(layout[|layout| - 1]) == w
  }

  function End(f: Field): nat { f.lsb + f.width }

  lemma {:induction false} StartsAscend(layout: Layout, w: nat, i: nat, j: nat)
    requires Contiguous(layout, w) && i < j < |layout|
    ensures End(layout[i]) <= layout[j].lsb
  {
    if i + 1 < j {
      StartsAscend(layout, w, i, j - 1);
      assert layout[j].lsb == End(layout[j - 1]);
    }
  }

  lemma {:induction false} FieldAt(layout: Layout, w: nat, k: nat, n: nat)
    requires Contiguous(layout, w) && 0 < n <= |layout| && k < End(layout[n - 1])
    ensures Covered(layout, k)
  {
    if layout[n - 1].Covers(k) {
    } else {
      assert n > 1 ==> layout[n - 1].lsb == End(layout[n - 2]);
      FieldAt(layout, w, k, n - 1);
    }
  }

  lemma ContiguousTiles(layout: Layout, w: nat)
    requires Contiguous(layout, w)
    ensures Tiles(layout, w)
  {
    hide Field.Covers;
    forall k: nat | k < w ensures Covered(layout, k) {
      FieldAt(layout, w, k, |layout|);
    }
    forall i: nat, j: nat, k: nat | i < j < |layout| && layout[i].Covers(k) ensures !layout[j].Covers(k) {
      StartsAscend(layout, w, i, j);
      NotBoth(layout[i], layout[j], k);
    }
    forall i: nat | i < |layout| ensures End(layout[i]) <= w {
      if i < |layout| - 1 { StartsAscend(layout, w, i, |layout| - 1); }
    }
  }

  lemma NotBoth(f: Field, g: Field, k: nat)
    requires End(f) <= g.lsb
    ensures f.Covers(k) ==> !g.Covers(k)
  {
  }

  lemma ChiMapsTile(d: nat)
    ensures Tiles(ChiReqMap(), CHI_REQ_W) && Tiles(ChiRspMap(), CHI_RSP_W) && Tiles(ChiDatMap(d), ChiDatW(d))
  {
    hide Tiles;
    ContiguousTiles(ChiReqMap(), CHI_REQ_W);
    ContiguousTiles(ChiRspMap(), CHI_RSP_W);
    ContiguousTiles(ChiDatMap(d), ChiDatW(d));
  }

  lemma CxlMapsTile(d: nat)
    ensures Tiles(CxlReqMap(), CXL_REQ_W) && Tiles(CxlRwdMap(d), CxlRwdW(d)) && Tiles(CxlNdrMap(), CXL_NDR_W)
            && Tiles(CxlDrsMap(d), CxlDrsW(d))
  {
    hide Tiles;
    ContiguousTiles(CxlReqMap(), CXL_REQ_W);
    ContiguousTiles(CxlRwdMap(d), CxlRwdW(d));
    ContiguousTiles(CxlNdrMap(), CXL_NDR_W);
    ContiguousTiles(CxlDrsMap(d), CxlDrsW(d));
  }

  /** The Python maps are written out in numbers, for 64-byte beats. */
  lemma PythonMaps()
    ensures ChiDatMap(512) == [Field(DATA, 0, 512), Field(BE, 512, 64), Field(POISON, 576, 1), Field(DATAID, 577, 4),
                               Field(RESPERR, 581, 2), Field(RESP, 583, 3), Field(TXNID, 586, 8), Field(OPCODE, 594, 4)]
    ensures CxlRwdMap(512) == [Field(DATA, 0, 512), Field(BE, 512, 64), Field(POISON, 576, 1), Field(METAVAL, 577, 2),
                               Field(METAFLD, 579, 2), Field(ADDR, 581, 48), Field(TAG, 629, 4), Field(LEN, 633, 3),
                               Field(MEMOP, 636, 4)]
    ensures CxlDrsMap(512) == [Field(DATA, 0, 512), Field(POISON, 512, 1), Field(DEVLOAD, 513, 2), Field(TAG, 515, 4),
                               Field(METAVAL, 519, 2), Field(METAFLD, 521, 2), Field(OPCODE, 523, 3)]
    ensures ChiDatW(512) == 598 && CxlRwdW(512) == 640 && CxlDrsW(512) == 526
  {
  }

  // ---- The Python translations ----

  function ReqValues(opcode: nat, tag: nat, addr: nat, size: nat): map<Name, nat> {
    map[MEMOP := GoldModel.ReqMemOp(opcode), TAG := tag, ADDR := addr, LEN := GoldModel.ChiReqBeats(size)]
  }

  function ChiReqToCxlReq(chi: nat, tag: nat): nat {
    Packed(CxlReqMap(), ReqValues(Get(chi, Field(OPCODE, 57, 7)), tag, Get(chi, Field(ADDR, 9, 48)),
                                  Get(chi, Field(SIZE, 6, 3))))
  }

  function RwdValues(opcode: nat, tag: nat, addr: nat, size: nat, poison: nat, be: nat, data: nat): map<Name, nat> {
    map[MEMOP := GoldModel.RwdMemOp(opcode), TAG := tag, ADDR := addr, LEN := GoldModel.ChiReqBeats(size),
        POISON := poison, BE := be, DATA := data]
  }

  function ChiWrToCxlRwd(d: nat, req: nat, dat: nat, tag: nat): nat {
    var b := d + d / 8;
    Packed(CxlRwdMap(d), RwdValues(Get(req, Field(OPCODE, 57, 7)), tag, Get(req, Field(ADDR, 9, 48)),
                                   Get(req, Field(SIZE, 6, 3)), Get(dat, Field(POISON, b, 1)),
                                   Get(dat, Field(BE, d, d / 8)), Get(dat, Field(DATA, 0, d))))
  }

  function CompValues(tag: nat, txnId: nat): map<Name, nat> {
    map[RESPERR := 0, DBID := tag, TXNID := txnId, OPCODE := 4]
  }

  function CxlNdrToChiComp(ndr: nat, txnId: nat): nat {
    Packed(ChiRspMap(), CompValues(Get(ndr, Field(TAG, 2, 4)), txnId))
  }

  function CompDataValues(data: nat, be: nat, poison: nat, txnId: nat): map<Name, nat> {
    map[DATA := data, BE := be, POISON := poison, RESPERR := 0, TXNID := txnId, OPCODE := 4]
  }

  function CxlDrsToChiCompData(d: nat, drs: nat, txnId: nat): nat {
    Packed(ChiDatMap(d), CompDataValues(Get(drs, Field(DATA, 0, d)), Mask(d / 8), Get(drs, Field(POISON, d, 1)), txnId))
  }

  // ---- The RTL translations ----

  method AssignSlices(r: Bits, order: Layout, values: map<Name, nat>) returns (r': Bits)
    requires forall i :: 0 <= i < |order| ==> order[i].lsb + order[i].width <= |r|
    ensures r' == AssignedAll(r, order, values)
  {
    r' := r;
    for i := 0 to |order|
      invariant r' == AssignedAll(r, order[..i], values)
    {
      assert order[..i + 1][..i] == order[..i];
      r' := Assigned(r', order[i], FromNat(ValueOf(values, order[i]), order[i].width));
    }
    assert order[..|order|] == order;
  }

  /** `p` says where the map has each field of the order, `q` the other way round. */
  ghost predicate Rearranged(order: Layout, layout: Layout, p: seq<nat>, q: seq<nat>) {
    && |p| == |order| && |q| == |layout|
    && (forall i :: 0 <= i < |p| ==> p[i] < |layout| && order[i] == layout[p[i]] && q[p[i]] == i)
    && (forall i :: 0 <= i < |q| ==> q[i] < |order| && layout[i] == order[q[i]])
  }

  lemma OrderTiles(order: Layout, layout: Layout, w: nat, p: seq<nat>, q: seq<nat>)
    requires Tiles(layout, w) && Rearranged(order, layout, p, q)
    ensures Tiles(order, w)
    ensures forall f :: f in order <==> f in layout
  {
    hide Field.Covers;
    forall i: nat, j: nat, k: nat | i < j < |order| && order[i].Covers(k) ensures !order[j].Covers(k) {
      assert p[i] != p[j];
    }
    forall k: nat | k < w ensures Covered(order, k) {
      assert Covered(layout, k);
      var i: nat :| i < |layout| && layout[i].Covers(k);
      assert order[q[i]].Covers(k);
    }
  }

  /** Packing looks only at the values of the layout's fields. */
  lemma {:induction false} PackedSame(layout: Layout, v1: map<Name, nat>, v2: map<Name, nat>)
    requires forall f :: f in layout ==> ValueOf(v1, f) == ValueOf(v2, f)
    ensures Packed(layout, v1) == Packed(layout, v2)
  {
    hide And, Or, ShiftLeft;
    if layout != [] {
      assert layout[|layout| - 1] in layout;
      PackedSame(layout[..|layout| - 1], v1, v2);
    }
  }

  /** Slice assignments in the RTL's order give what `pack` gives in the map's. */
  lemma AssignedIsPacked(r: Bits, order: Layout, layout: Layout,
                         rtl: map<Name, nat>, python: map<Name, nat>, p: seq<nat>, q: seq<nat>)
    requires Tiles(layout, |r|) && Rearranged(order, layout, p, q)
    requires forall f :: f in layout ==> ValueOf(rtl, f) == ValueOf(python, f)
    ensures Tiles(order, |r|)
    ensures ToNat(AssignedAll(r, order, rtl)) == Packed(layout, python)
  {
    hide Packed, AssignedAll, ToNat, ValueOf, Rearranged;
    OrderTiles(order, layout, |r|, p, q);
    AssignedAllIsPacked(r, order, layout, rtl);
    PackedSame(layout, rtl, python);
  }

  function ReqOrder(): Layout {
    [Field(MEMOP, 64, 4), Field(SNPTYPE, 58, 3), Field(METAFLD, 56, 2), Field(METAVAL, 54, 2),
     Field(TAG, 50, 4), Field(ADDR, 2, 48), Field(LEN, 61, 3), Field(TC, 0, 2)]
  }

  function ReqAssigned(memOp: nat, tag: nat, addr: nat, len: nat): map<Name, nat> {
    map[MEMOP := memOp, SNPTYPE := 0, METAFLD := 0, METAVAL := 0, TAG := tag, ADDR := addr, LEN := len, TC := 0]
  }

  lemma ReqAgrees(junk: Bits, opcode: nat, tag: nat, addr: nat, size: nat)
    requires |junk| == CXL_REQ_W
    ensures Tiles(ReqOrder(), CXL_REQ_W)
    ensures ToNat(AssignedAll(junk, ReqOrder(), ReqAssigned(ReadMemOp(opcode), tag, addr, Beats(size)))) ==
            Packed(CxlReqMap(), ReqValues(opcode, tag, addr, size))
  {
    hide *;
    CxlMapsTile(0);
    ReqOrderOk();
    ReqValuesSame(opcode, tag, addr, size);
    OrderTiles(ReqOrder(), CxlReqMap(), CXL_REQ_W, [7, 5, 4, 3, 2, 1, 6, 0], [7, 5, 4, 3, 2, 1, 6, 0]);
    AssignedIsPacked(junk, ReqOrder(), CxlReqMap(), ReqAssigned(ReadMemOp(opcode), tag, addr, Beats(size)),
                     ReqValues(opcode, tag, addr, size), [7, 5, 4, 3, 2, 1, 6, 0], [7, 5, 4, 3, 2, 1, 6, 0]);
  }

  lemma ReqOrderOk()
    ensures Rearranged(ReqOrder(), CxlReqMap(), [7, 5, 4, 3, 2, 1, 6, 0], [7, 5, 4, 3, 2, 1, 6, 0])
  {
  }

  lemma ReqValuesSame(opcode: nat, tag: nat, addr: nat, size: nat)
    ensures forall f :: f in CxlReqMap() ==>
            ValueOf(ReqAssigned(ReadMemOp(opcode), tag, addr, Beats(size)), f) ==
            ValueOf(ReqValues(opcode, tag, addr, size), f)
  {
    TablesAgree(opcode, size);
    hide Beats, ReadMemOp, GoldModel.ReqMemOp, GoldModel.ChiReqBeats;
  }

  /** The tables of the RTL are those of the gold model. */
  lemma TablesAgree(opcode: nat, size: nat)
    ensures ReadMemOp(opcode) == GoldModel.ReqMemOp(opcode) && WriteMemOp(opcode) == GoldModel.RwdMemOp(opcode)
    ensures IsWrite(opcode) <==> GoldModel.IsWrite(opcode)
    ensures Beats(size) == GoldModel.ChiReqBeats(size)
    ensures GoldModel.ReqMemOp(opcode) == (match opcode case 0x04 => 1 case 0x03 => 2 case _ => 5)
    ensures GoldModel.RwdMemOp(opcode) == (match opcode case 0x1C => 4 case _ => 3)
    ensures GoldModel.IsWrite(opcode) <==> opcode == 0x1D || opcode == 0x1C || opcode == 0x19
    ensures GoldModel.ChiReqBeats(size) == if 1 <= size <= 4 then size else 1
  {
  }

  method TranslateChiReqToCxl(chi: Bits, tag: Bits, junk: Bits) returns (cxl: Bits)
    requires |chi| == CHI_REQ_W && |tag| == TAG_W && |junk| == CXL_REQ_W
    ensures ToNat(cxl) == ChiReqToCxlReq(ToNat(chi), ToNat(tag))
  {
    hide ToNat, Get, Packed, AssignedAll, Beats, Tiles, ReqAssigned, ReqOrder, ReqValues, CxlReqMap, Slice;
    SliceIsGet(chi, Field(OPCODE, 57, 7));
    SliceIsGet(chi, Field(ADDR, 9, 48));
    SliceIsGet(chi, Field(SIZE, 6, 3));
    var opcode := ToNat(Slice(chi, Field(OPCODE, 57, 7)));
    var memOp := CXL_MEMINV;
    if opcode == CHI_REQ_READNOSNP {
      memOp := CXL_MEMRD;
    } else if opcode == CHI_REQ_READONCE {
      memOp := CXL_MEMRDDATA;
    }
    var addr, size := ToNat(Slice(chi, Field(ADDR, 9, 48))), ToNat(Slice(chi, Field(SIZE, 6, 3)));
    ReqAgrees(junk, opcode, ToNat(tag), addr, size);
    InWidth(ReqOrder(), CXL_REQ_W);
    cxl := AssignSlices(junk, ReqOrder(), ReqAssigned(memOp, ToNat(tag), addr, Beats(size)));
  }

  lemma InWidth(order: Layout, w: nat)
    requires Tiles(order, w)
    ensures forall i :: 0 <= i < |order| ==> order[i].lsb + order[i].width <= w
  {
  }

  function RwdOrder(d: nat): Layout {
    var b := d + d / 8;
    [Field(MEMOP, b + 60, 4), Field(TAG, b + 53, 4), Field(LEN, b + 57, 3), Field(ADDR, b + 5, 48),
     Field(METAFLD, b + 3, 2), Field(METAVAL, b + 1, 2), Field(POISON, b, 1), Field(BE, d, d / 8), Field(DATA, 0, d)]
  }

  function RwdAssigned(memOp: nat, tag: nat, len: nat, addr: nat, poison: nat, be: nat, data: nat): map<Name, nat> {
    map[MEMOP := memOp, TAG := tag, LEN := len, ADDR := addr, METAFLD := 0, METAVAL := 0, POISON := poison, BE := be,
        DATA := data]
  }

  lemma RwdOrderOk(d: nat)
    ensures Rearranged(RwdOrder(d), CxlRwdMap(d), [8, 6, 7, 5, 4, 3, 2, 1, 0], [8, 7, 6, 5, 4, 3, 1, 2, 0])
  {
  }

  lemma RwdValuesSame(d: nat, opcode: nat, tag: nat, addr: nat, size: nat, poison: nat, be: nat, data: nat)
    ensures forall f :: f in CxlRwdMap(d) ==>
              ValueOf(RwdAssigned(WriteMemOp(opcode), tag, Beats(size), addr, poison, be, data), f) ==
                ValueOf(RwdValues(opcode, tag, addr, size, poison, be, data), f)
  {
    TablesAgree(opcode, size);
    hide Beats, WriteMemOp, GoldModel.RwdMemOp, GoldModel.ChiReqBeats;
  }

  lemma RwdAgrees(d: nat, junk: Bits, opcode: nat, tag: nat, addr: nat, size: nat, poison: nat, be: nat, data: nat)
    requires |junk| == CxlRwdW(d)
    ensures Tiles(RwdOrder(d), CxlRwdW(d))
    ensures ToNat(AssignedAll(junk, RwdOrder(d),
                              RwdAssigned(WriteMemOp(opcode), tag, Beats(size), addr, poison, be, data)))
         == Packed(CxlRwdMap(d), RwdValues(opcode, tag, addr, size, poison, be, data))
  {
    hide *;
    CxlMapsTile(d);
    RwdOrderOk(d);
    RwdValuesSame(d, opcode, tag, addr, size, poison, be, data);
    OrderTiles(RwdOrder(d), CxlRwdMap(d), CxlRwdW(d), [8, 6, 7, 5, 4, 3, 2, 1, 0], [8, 7, 6, 5, 4, 3, 1, 2, 0]);
    AssignedIsPacked(junk, RwdOrder(d), CxlRwdMap(d),
                     RwdAssigned(WriteMemOp(opcode), tag, Beats(size), addr, poison, be, data),
                     RwdValues(opcode, tag, addr, size, poison, be, data), [8, 6, 7, 5, 4, 3, 2, 1, 0],
                     [8, 7, 6, 5, 4, 3, 1, 2, 0]);
  }

  method TranslateChiWrToCxl(d: nat, req: Bits, dat: Bits, tag: Bits, junk: Bits) returns (cxl: Bits)
    requires |req| == CHI_REQ_W && |dat| == ChiDatW(d) && |tag| == TAG_W && |junk| == CxlRwdW(d)
    ensures ToNat(cxl) == ChiWrToCxlRwd(d, ToNat(req), ToNat(dat), ToNat(tag))
  {
    hide ToNat, Get, Packed, AssignedAll, Beats, Tiles, RwdAssigned, RwdOrder, RwdValues, CxlRwdMap, Slice;
    var b := d + d / 8;
    SliceIsGet(req, Field(OPCODE, 57, 7));
    SliceIsGet(req, Field(ADDR, 9, 48));
    SliceIsGet(req, Field(SIZE, 6, 3));
    SliceIsGet(dat, Field(POISON, b, 1));
    SliceIsGet(dat, Field(BE, d, d / 8));
    SliceIsGet(dat, Field(DATA, 0, d));
    var opcode := ToNat(Slice(req, Field(OPCODE, 57, 7)));
    var memOp := CXL_MEMWR;
    if opcode == CHI_REQ_WRITENOSNPPTL {
      memOp := CXL_MEMWRPTL;
    }
    var addr, size := ToNat(Slice(req, Field(ADDR, 9, 48))), ToNat(Slice(req, Field(SIZE, 6, 3)));
    var poison, be, data := ToNat(Slice(dat, Field(POISON, b, 1))), ToNat(Slice(dat, Field(BE, d, d / 8))),
        ToNat(Slice(dat, Field(DATA, 0, d)));
    RwdAgrees(d, junk, opcode, ToNat(tag), addr, size, poison, be, data);
    InWidth(RwdOrder(d), CxlRwdW(d));
    cxl := AssignSlices(junk, RwdOrder(d), RwdAssigned(memOp, ToNat(tag), Beats(size), addr, poison, be, data));
  }

  // ---- Responses, with TxnID recovery ----

  /** One field of a packed register replaced. */
  lemma ReassignedIsPacked(r: Bits, layout: Layout, v: map<Name, nat>, i: nat, x: nat)
    requires Tiles(layout, |r|) && i < |layout| && ToNat(r) == Packed(layout, v)
    requires forall j :: 0 <= j < |layout| && j != i ==> layout[j].name != layout[i].name
    requires layout[i].lsb + layout[i].width <= |r|
    ensures ToNat(Assigned(r, layout[i], FromNat(x, layout[i].width))) == Packed(layout, v[layout[i].name := x])
  {
    hide TestBit, ToNat, FromNat, Packed, ValueOf, Assigned;
    var f, v' := layout[i], v[layout[i].name := x];
    var r' := Assigned(r, f, FromNat(x, f.width));
    forall k: nat ensures TestBit(ToNat(r'), k) == TestBit(Packed(layout, v'), k) {
      ToNatBit(r', k);
      ToNatBit(r, k);
      PackedBit(layout, v, k);
      PackedBit(layout, v', k);
      if k < |r| {
        AssignedBit(r, f, x, k);
        SetByOthers(layout, v, i, x, k);
      }
    }
    SameBits(ToNat(r'), Packed(layout, v'));
  }

  lemma SetByOthers(layout: Layout, v: map<Name, nat>, i: nat, x: nat, k: nat)
    requires Disjoint(layout) && i < |layout|
    requires forall j :: 0 <= j < |layout| && j != i ==> layout[j].name != layout[i].name
    ensures var v' := v[layout[i].name := x];
            SetBy(layout, v', k) <==> if layout[i].Covers(k) then TestBit(x, k - layout[i].lsb) else SetBy(layout, v, k)
  {
    hide TestBit;
    var v' := v[layout[i].name := x];
    assert forall j :: 0 <= j < |layout| && j != i ==> ValueOf(v', layout[j]) == ValueOf(v, layout[j]);
    if layout[i].Covers(k) {
      OnlyField(layout, v', i, k);
    }
  }

  function CompAssigned(tag: nat, txnId: nat): map<Name, nat> {
    map[RESPERR := CHI_RESPERR_OK, DBID := tag, TXNID := txnId, OPCODE := CHI_RSP_COMP, SRCID := 0]
  }

  method TranslateCxlNdrToChi(ndr: Bits, junk: Bits) returns (rsp: Bits)
    requires |ndr| == CXL_NDR_W && |junk| == CHI_RSP_W
    ensures |rsp| == CHI_RSP_W
    ensures ToNat(rsp) == Packed(ChiRspMap(), CompAssigned(Get(ToNat(ndr), Field(TAG, 2, 4)), 0))
  {
    hide ToNat, Get, Packed, AssignedAll, Tiles, CompAssigned, ChiRspMap, Slice;
    SliceIsGet(ndr, Field(TAG, 2, 4));
    ChiMapsTile(0);
    InWidth(ChiRspMap(), CHI_RSP_W);
    var values := CompAssigned(ToNat(Slice(ndr, Field(TAG, 2, 4))), 0);
    AssignedAllIsPacked(junk, ChiRspMap(), ChiRspMap(), values);
    rsp := AssignSlices(junk, ChiRspMap(), values);
  }

  /** `chi_rsp_data_recovered`: the TxnID field replaced by the one from the state RAM. */
  lemma CompRecovered(ndr: Bits, rsp: Bits, txnId: Bits)
    requires |rsp| == CHI_RSP_W && |txnId| == 8
    requires ToNat(rsp) == Packed(ChiRspMap(), CompAssigned(Get(ToNat(ndr), Field(TAG, 2, 4)), 0))
    ensures ToNat(Assigned(rsp, Field(TXNID, 6, 8), txnId)) == CxlNdrToChiComp(ToNat(ndr), ToNat(txnId))
  {
    hide ToNat, FromNat, Get, Packed, Assigned, Tiles;
    var tag := Get(ToNat(ndr), Field(TAG, 2, 4));
    ChiMapsTile(0);
    FromNatToNat(txnId);
    ReassignedIsPacked(rsp, ChiRspMap(), CompAssigned(tag, 0), 2, ToNat(txnId));
    PackedSame(ChiRspMap(), CompAssigned(tag, 0)[TXNID := ToNat(txnId)], CompValues(tag, ToNat(txnId)));
  }

  function CompDataAssigned(data: nat, be: nat, poison: nat, txnId: nat): map<Name, nat> {
    map[DATA := data, BE := be, POISON := poison, DATAID := 0, RESPERR := CHI_RESPERR_OK, RESP := CHI_CACHE_I,
        TXNID := txnId, OPCODE := CHI_DAT_COMPDATA]
  }

  method TranslateCxlDrsToChi(d: nat, drs: Bits, junk: Bits) returns (dat: Bits)
    requires |drs| == CxlDrsW(d) && |junk| == ChiDatW(d)
    ensures |dat| == ChiDatW(d)
    ensures ToNat(dat) == Packed(ChiDatMap(d),
                                 CompDataAssigned(Get(ToNat(drs), Field(DATA, 0, d)), Mask(d / 8),
                                                  Get(ToNat(drs), Field(POISON, d, 1)),
                                                               Get(ToNat(drs), Field(TAG, d + 3, 4))))
  {
    hide ToNat, Get, Packed, AssignedAll, Tiles, CompDataAssigned, ChiDatMap, Slice, Mask;
    SliceIsGet(drs, Field(DATA, 0, d));
    SliceIsGet(drs, Field(POISON, d, 1));
    SliceIsGet(drs, Field(TAG, d + 3, 4));
    ChiMapsTile(d);
    InWidth(ChiDatMap(d), ChiDatW(d));
    var values := CompDataAssigned(ToNat(Slice(drs, Field(DATA, 0, d))), Mask(d / 8),
                                   ToNat(Slice(drs, Field(POISON, d, 1))), ToNat(Slice(drs, Field(TAG, d + 3, 4))));
    AssignedAllIsPacked(junk, ChiDatMap(d), ChiDatMap(d), values);
    dat := AssignSlices(junk, ChiDatMap(d), values);
  }

  /** `chi_comp_data_recovered`. */
  lemma CompDataRecovered(d: nat, drs: Bits, dat: Bits, txnId: Bits)
    requires |dat| == ChiDatW(d) && |txnId| == 8
    requires ToNat(dat) == Packed(ChiDatMap(d),
                                  CompDataAssigned(Get(ToNat(drs), Field(DATA, 0, d)), Mask(d / 8),
                                                   Get(ToNat(drs), Field(POISON, d, 1)),
                                                                Get(ToNat(drs), Field(TAG, d + 3, 4))))
    ensures ToNat(Assigned(dat, Field(TXNID, d + d / 8 + 10, 8), txnId)) ==
            CxlDrsToChiCompData(d, ToNat(drs), ToNat(txnId))
  {
    hide ToNat, FromNat, Get, Packed, Assigned, Tiles, Mask;
    var n := ToNat(drs);
    var data, poison, tag := Get(n, Field(DATA, 0, d)), Get(n, Field(POISON, d, 1)), Get(n, Field(TAG, d + 3, 4));
    ChiMapsTile(d);
    FromNatToNat(txnId);
    ReassignedIsPacked(dat, ChiDatMap(d), CompDataAssigned(data, Mask(d / 8), poison, tag), 6, ToNat(txnId));
    PackedSame(ChiDatMap(d), CompDataAssigned(data, Mask(d / 8), poison, tag)[TXNID := ToNat(txnId)],
               CompDataValues(data, Mask(d / 8), poison, ToNat(txnId)));
  }

  // ---- The same translations, field by field ----

  function ReadChiReq(n: nat): ChiReq {
    ChiReq(Get(n, Field(QOS, 86, 4)), Get(n, Field(TGTID, 79, 7)), Get(n, Field(SRCID, 72, 7)),
           Get(n, Field(TXNID, 64, 8)), Get(n, Field(OPCODE, 57, 7)), Get(n, Field(ADDR, 9, 48)),
           Get(n, Field(SIZE, 6, 3)), Get(n, Field(MEMATTR, 2, 4)), Get(n, Field(ORDER, 0, 2)))
  }

  function ReadChiDat(d: nat, n: nat): ChiDat {
    var b := d + d / 8;
    ChiDat(Get(n, Field(OPCODE, b + 18, 4)), Get(n, Field(TXNID, b + 10, 8)), Get(n, Field(RESP, b + 7, 3)),
           Get(n, Field(RESPERR, b + 5, 2)), Get(n, Field(DATAID, b + 1, 4)), Get(n, Field(POISON, b, 1)),
           Get(n, Field(BE, d, d / 8)), Get(n, Field(DATA, 0, d)))
  }

  function ReadTag(n: nat, lsb: nat): Tag {
    GetIs(n, Field(TAG, lsb, 4));
    assert Pow2(4) == 16;
    Get(n, Field(TAG, lsb, 4))
  }

  function ReadCxlNdr(n: nat): CxlNdr {
    CxlNdr(Get(n, Field(OPCODE, 10, 3)), Get(n, Field(METAFLD, 8, 2)), Get(n, Field(METAVAL, 6, 2)), ReadTag(n, 2),
           Get(n, Field(DEVLOAD, 0, 2)))
  }

  function ReadCxlDrs(d: nat, n: nat): CxlDrs {
    CxlDrs(Get(n, Field(OPCODE, d + 11, 3)), Get(n, Field(METAFLD, d + 9, 2)), Get(n, Field(METAVAL, d + 7, 2)),
           ReadTag(n, d + 3), Get(n, Field(DEVLOAD, d + 1, 2)), Get(n, Field(POISON, d, 1)), Get(n, Field(DATA, 0, d)))
  }

  function PackCxlReq(r: CxlReq): nat {
    Packed(CxlReqMap(), CxlReqFields(r))
  }

  function CxlReqFields(r: CxlReq): map<Name, nat> {
    map[MEMOP := r.memOp, LEN := r.len, SNPTYPE := r.snpType, METAFLD := r.metaField, METAVAL := r.metaValue,
        TAG := r.tag, ADDR := r.addr, TC := r.tc]
  }

  function PackCxlRwd(d: nat, r: CxlRwd): nat {
    Packed(CxlRwdMap(d), CxlRwdFields(r))
  }

  function CxlRwdFields(r: CxlRwd): map<Name, nat> {
    map[MEMOP := r.memOp, LEN := r.len, TAG := r.tag, ADDR := r.addr, METAFLD := r.metaField, METAVAL := r.metaValue,
        POISON := r.poison, BE := r.be, DATA := r.data]
  }

  function PackChiRsp(r: ChiRsp): nat {
    Packed(ChiRspMap(), ChiRspFields(r))
  }

  function ChiRspFields(r: ChiRsp): map<Name, nat> {
    map[SRCID := r.srcId, OPCODE := r.opcode, TXNID := r.txnId, DBID := r.dbId, RESPERR := r.respErr]
  }

  function PackChiDat(d: nat, r: ChiDat): nat {
    Packed(ChiDatMap(d), ChiDatFields(r))
  }

  function ChiDatFields(r: ChiDat): map<Name, nat> {
    map[OPCODE := r.opcode, TXNID := r.txnId, RESP := r.resp, RESPERR := r.respErr, DATAID := r.dataId,
        POISON := r.poison, BE := r.be, DATA := r.data]
  }

  /** The gold model's packets are the packed flits of the bridge model, so what is proved of
      those holds of the packets: a request by its fields, */
  lemma ReqByFields(chi: nat, tag: nat)
    ensures ChiReqToCxlReq(chi, tag) == PackCxlReq(TranslateReq(ReadChiReq(chi), tag))
  {
    var r := ReadChiReq(chi);
    TablesAgree(r.opcode, r.size);
    hide Get, Packed, Beats, ReadMemOp, GoldModel.ReqMemOp, GoldModel.ChiReqBeats;
    PackedSame(CxlReqMap(), ReqValues(r.opcode, tag, r.addr, r.size), CxlReqFields(TranslateReq(r, tag)));
  }

  /** a write beat, */
  lemma RwdByFields(d: nat, req: nat, dat: nat, tag: nat)
    ensures ChiWrToCxlRwd(d, req, dat, tag) == PackCxlRwd(d, TranslateWrite(ReadChiReq(req), ReadChiDat(d, dat), tag))
  {
    var r, w := ReadChiReq(req), ReadChiDat(d, dat);
    TablesAgree(r.opcode, r.size);
    hide Get, Packed, Beats, WriteMemOp, GoldModel.RwdMemOp, GoldModel.ChiReqBeats;
    PackedSame(CxlRwdMap(d), RwdValues(r.opcode, tag, r.addr, r.size, w.poison, w.be, w.data),
               CxlRwdFields(TranslateWrite(r, w, tag)));
  }

  /** a completion, */
  lemma CompByFields(ndr: nat, txnId: nat)
    ensures CxlNdrToChiComp(ndr, txnId) == PackChiRsp(TranslateNdr(ReadCxlNdr(ndr)).(txnId := txnId))
  {
    hide Get, Packed;
    var f := ReadCxlNdr(ndr);
    PackedSame(ChiRspMap(), CompValues(f.tag, txnId), ChiRspFields(TranslateNdr(f).(txnId := txnId)));
  }

  /** and a beat of read data. */
  lemma CompDataByFields(d: nat, drs: nat, txnId: nat)
    ensures CxlDrsToChiCompData(d, drs, txnId) ==
            PackChiDat(d, TranslateDrs(ReadCxlDrs(d, drs), Mask(d / 8)).(txnId := txnId))
  {
    hide Get, Packed, Mask;
    var f := ReadCxlDrs(d, drs);
    PackedSame(ChiDatMap(d), CompDataValues(f.data, Mask(d / 8), f.poison, txnId),
               ChiDatFields(TranslateDrs(f, Mask(d / 8)).(txnId := txnId)));
  }

  // ---- Reading a flit back ----

  lemma GetFits(n: nat, f: Field)
    ensures Get(n, f) < Pow2(f.width)
  {
    hide Get, Pow2;
    GetIs(n, f);
  }

  /** A field of a packed flit reads back as the value put in, when that fits. */
  lemma ReadsBack(layout: Layout, w: nat, values: map<Name, nat>, i: nat)
    requires Tiles(layout, w) && i < |layout| && ValueOf(values, layout[i]) < Pow2(layout[i].width)
    ensures Get(Packed(layout, values), layout[i]) == ValueOf(values, layout[i])
  {
    hide Get, Packed, Pow2, ValueOf;
    GetRecovers(layout, values, i);
    ModUnique(ValueOf(values, layout[i]), Pow2(layout[i].width), 0, ValueOf(values, layout[i]));
  }

  lemma SmallPowers()
    ensures Pow2(3) == 8 && Pow2(4) == 16
  {
  }

  /** The device reads from a Req the tag, address, LEN and opcode that the bridge put there. */
  lemma DeviceReadsReq(chi: nat, tag: nat)
    requires tag < N_TAGS
    ensures var n, size := ChiReqToCxlReq(chi, tag), Get(chi, Field(SIZE, 6, 3));
            && Get(n, Field(TAG, 50, 4)) == tag
            && Get(n, Field(ADDR, 2, 48)) == Get(chi, Field(ADDR, 9, 48))
            && Get(n, Field(LEN, 61, 3)) == (if 1 <= size <= 4 then size else 1)
            && Get(n, Field(MEMOP, 64, 4)) == (match Get(chi, Field(OPCODE, 57, 7))
                                               case 0x04 => 1 case 0x03 => 2 case _ => 5)
  {
    hide Get, Packed, Pow2, Tiles;
    CxlMapsTile(0);
    SmallPowers();
    GetFits(chi, Field(ADDR, 9, 48));
    var v := ReqValues(Get(chi, Field(OPCODE, 57, 7)), tag, Get(chi, Field(ADDR, 9, 48)), Get(chi, Field(SIZE, 6, 3)));
    ReadsBack(CxlReqMap(), CXL_REQ_W, v, 2);
    ReadsBack(CxlReqMap(), CXL_REQ_W, v, 1);
    ReadsBack(CxlReqMap(), CXL_REQ_W, v, 6);
    ReadsBack(CxlReqMap(), CXL_REQ_W, v, 7);
  }

  /** And from a RwD beat, the same and the data. */
  lemma DeviceReadsRwd(d: nat, req: nat, dat: nat, tag: nat)
    requires tag < 16
    ensures var n, b, size := ChiWrToCxlRwd(d, req, dat, tag), d + d / 8, Get(req, Field(SIZE, 6, 3));
            && Get(n, Field(TAG, b + 53, 4)) == tag
            && Get(n, Field(ADDR, b + 5, 48)) == Get(req, Field(ADDR, 9, 48))
            && Get(n, Field(LEN, b + 57, 3)) == (if 1 <= size <= 4 then size else 1)
            && Get(n, Field(MEMOP, b + 60, 4)) == (match Get(req, Field(OPCODE, 57, 7)) case 0x1C => 4 case _ => 3)
            && Get(n, Field(POISON, b, 1)) == Get(dat, Field(POISON, b, 1))
            && Get(n, Field(BE, d, d / 8)) == Get(dat, Field(BE, d, d / 8))
            && Get(n, Field(DATA, 0, d)) == Get(dat, Field(DATA, 0, d))
  {
    hide Get, Packed, Pow2, Tiles;
    var b := d + d / 8;
    CxlMapsTile(d);
    SmallPowers();
    GetFits(req, Field(ADDR, 9, 48));
    GetFits(dat, Field(POISON, b, 1));
    GetFits(dat, Field(BE, d, d / 8));
    GetFits(dat, Field(DATA, 0, d));
    var v := RwdValues(Get(req, Field(OPCODE, 57, 7)), tag, Get(req, Field(ADDR, 9, 48)), Get(req, Field(SIZE, 6, 3)),
                       Get(dat, Field(POISON, b, 1)), Get(dat, Field(BE, d, d / 8)), Get(dat, Field(DATA, 0, d)));
    ReadsBack(CxlRwdMap(d), CxlRwdW(d), v, 6);
    ReadsBack(CxlRwdMap(d), CxlRwdW(d), v, 5);
    ReadsBack(CxlRwdMap(d), CxlRwdW(d), v, 7);
    ReadsBack(CxlRwdMap(d), CxlRwdW(d), v, 8);
    ReadsBack(CxlRwdMap(d), CxlRwdW(d), v, 2);
    ReadsBack(CxlRwdMap(d), CxlRwdW(d), v, 1);
    ReadsBack(CxlRwdMap(d), CxlRwdW(d), v, 0);
  }

  /** And from the S2M answers the host side reads the TxnID of the request and the tag. */
  lemma HostReadsComp(ndr: nat, txnId: nat)
    requires txnId < Pow2(8)
    ensures var n := CxlNdrToChiComp(ndr, txnId);
            && Get(n, Field(TXNID, 6, 8)) == txnId
            && Get(n, Field(DBID, 2, 4)) == Get(ndr, Field(TAG, 2, 4))
            && Get(n, Field(OPCODE, 14, 4)) == 4
  {
    hide Get, Packed, Pow2, Tiles;
    ChiMapsTile(0);
    SmallPowers();
    GetFits(ndr, Field(TAG, 2, 4));
    var v := CompValues(Get(ndr, Field(TAG, 2, 4)), txnId);
    ReadsBack(ChiRspMap(), CHI_RSP_W, v, 2);
    ReadsBack(ChiRspMap(), CHI_RSP_W, v, 1);
    ReadsBack(ChiRspMap(), CHI_RSP_W, v, 3);
  }

  /** From a beat of read data it reads the TxnID, the data and the poison. */
  lemma HostReadsCompData(d: nat, drs: nat, txnId: nat)
    requires txnId < Pow2(8)
    ensures var n, b := CxlDrsToChiCompData(d, drs, txnId), d + d / 8;
            && Get(n, Field(TXNID, b + 10, 8)) == txnId
            && Get(n, Field(DATA, 0, d)) == Get(drs, Field(DATA, 0, d))
            && Get(n, Field(POISON, b, 1)) == Get(drs, Field(POISON, d, 1))
            && Get(n, Field(OPCODE, b + 18, 4)) == 4
  {
    hide Get, Packed, Pow2, Tiles, Mask;
    ChiMapsTile(d);
    SmallPowers();
    GetFits(drs, Field(DATA, 0, d));
    GetFits(drs, Field(POISON, d, 1));
    var v := CompDataValues(Get(drs, Field(DATA, 0, d)), Mask(d / 8), Get(drs, Field(POISON, d, 1)), txnId);
    ReadsBack(ChiDatMap(d), ChiDatW(d), v, 6);
    ReadsBack(ChiDatMap(d), ChiDatW(d), v, 0);
    ReadsBack(ChiDatMap(d), ChiDatW(d), v, 2);
    ReadsBack(ChiDatMap(d), ChiDatW(d), v, 7);
  }
}
