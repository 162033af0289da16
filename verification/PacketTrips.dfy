/**
 The header's field maps, each field starting where the last one ends, are the gold model's; and
 what a packet builder puts into a packet comes out at the far end of the bridge.
 */
module PacketTrips {
  import opened BitVec
  import opened BitFields
  import opened PackedFlits

  // ---- The maps of the header ----

  /** Fields by width, least significant first. */
  function Chained(widths: seq<(Name, nat)>): Layout {
    if widths == [] then []
    else
      var last := |widths| - 1;
      Chained(widths[..last]) + [Field(widths[last].0, Total(widths[..last]), widths[last].1)]
  }

  function Total(widths: seq<(Name, nat)>): nat {
    if widths == [] then 0 else Total(widths[..|widths| - 1]) + widths[|widths| - 1].1
  }

  lemma {:induction false} ChainedIs(widths: seq<(Name, nat)>, layout: Layout)
    requires |layout| == |widths|
    requires forall i :: 0 <= i < |widths| ==> layout[i].name == widths[i].0 && layout[i].width == widths[i].1
    requires layout != [] ==> layout[0].lsb == 0
    requires forall i :: 0 < i < |layout| ==> layout[i].lsb == layout[i - 1].lsb + layout[i - 1].width
    ensures Chained(widths) == layout
    ensures Total(widths) == if layout == [] then 0 else layout[|layout| - 1].lsb + layout[|layout| - 1].width
  {
    if widths != [] {
      var last := |widths| - 1;
      ChainedIs(widths[..last], layout[..last]);
      assert layout == layout[..last] + [layout[last]];
    }
  }

  const CHI_REQ_WIDTHS: seq<(Name, nat)> :=
    [(ORDER, 2), (MEMATTR, 4), (SIZE, 3), (ADDR, 48), (OPCODE, 7), (TXNID, 8), (SRCID, 7), (TGTID, 7), (QOS, 4)]

  const CHI_RSP_WIDTHS: seq<(Name, nat)> := [(RESPERR, 2), (DBID, 4), (TXNID, 8), (OPCODE, 4), (SRCID, 7)]

  function ChiDatWidths(d: nat): seq<(Name, nat)> {
    [(DATA, d), (BE, d / 8), (POISON, 1), (DATAID, 4), (RESPERR, 2), (RESP, 3), (TXNID, 8), (OPCODE, 4)]
  }

  const CXL_REQ_WIDTHS: seq<(Name, nat)> :=
    [(TC, 2), (ADDR, 48), (TAG, 4), (METAVAL, 2), (METAFLD, 2), (SNPTYPE, 3), (LEN, 3), (MEMOP, 4)]

  function CxlRwdWidths(d: nat): seq<(Name, nat)> {
    [(DATA, d), (BE, d / 8), (POISON, 1), (METAVAL, 2), (METAFLD, 2), (ADDR, 48), (TAG, 4), (LEN, 3), (MEMOP, 4)]
  }

  const CXL_NDR_WIDTHS: seq<(Name, nat)> := [(DEVLOAD, 2), (TAG, 4), (METAVAL, 2), (METAFLD, 2), (OPCODE, 3)]

  function CxlDrsWidths(d: nat): seq<(Name, nat)> {
    [(DATA, d), (POISON, 1), (DEVLOAD, 2), (TAG, 4), (METAVAL, 2), (METAFLD, 2), (OPCODE, 3)]
  }

  lemma ReqChained()
    ensures Chained(CHI_REQ_WIDTHS) == ChiReqMap() && Total(CHI_REQ_WIDTHS) == 90
  {
    hide Chained, Total;
    ChainedIs(CHI_REQ_WIDTHS, ChiReqMap());
  }

  lemma RspChained()
    ensures Chained(CHI_RSP_WIDTHS) == ChiRspMap() && Total(CHI_RSP_WIDTHS) == 25
  {
    hide Chained, Total;
    ChainedIs(CHI_RSP_WIDTHS, ChiRspMap());
  }

  lemma DatChained(d: nat)
    ensures Chained(ChiDatWidths(d)) == ChiDatMap(d) && Total(ChiDatWidths(d)) == d + d / 8 + 22
  {
    hide Chained, Total;
    ChainedIs(ChiDatWidths(d), ChiDatMap(d));
  }

  lemma CxlReqChained()
    ensures Chained(CXL_REQ_WIDTHS) == CxlReqMap() && Total(CXL_REQ_WIDTHS) == 68
  {
    hide Chained, Total;
    ChainedIs(CXL_REQ_WIDTHS, CxlReqMap());
  }

  lemma RwdChained(d: nat)
    ensures Chained(CxlRwdWidths(d)) == CxlRwdMap(d) && Total(CxlRwdWidths(d)) == d + d / 8 + 64
  {
    hide Chained, Total;
    ChainedIs(CxlRwdWidths(d), CxlRwdMap(d));
  }

  lemma NdrChained()
    ensures Chained(CXL_NDR_WIDTHS) == CxlNdrMap() && Total(CXL_NDR_WIDTHS) == 13
  {
    hide Chained, Total;
    ChainedIs(CXL_NDR_WIDTHS, CxlNdrMap());
  }

  lemma DrsChained(d: nat)
    ensures Chained(CxlDrsWidths(d)) == CxlDrsMap(d) && Total(CxlDrsWidths(d)) == d + 14
  {
    hide Chained, Total;
    ChainedIs(CxlDrsWidths(d), CxlDrsMap(d));
  }

  /** Both transcriptions of the CHI maps give the same positions, at every data width, */
  lemma ChiMapsAgree(d: nat)
    ensures Chained(CHI_REQ_WIDTHS) == ChiReqMap() && Chained(CHI_RSP_WIDTHS) == ChiRspMap()
    ensures Chained(ChiDatWidths(d)) == ChiDatMap(d)
    ensures Total(CHI_REQ_WIDTHS) == 90 && Total(CHI_RSP_WIDTHS) == 25 && Total(ChiDatWidths(d)) == d + d / 8 + 22
  {
    hide *;
    ReqChained();
    RspChained();
    DatChained(d);
  }

  /** and of the CXL maps. */
  lemma CxlMapsAgree(d: nat)
    ensures Chained(CXL_REQ_WIDTHS) == CxlReqMap() && Chained(CXL_NDR_WIDTHS) == CxlNdrMap()
    ensures Chained(CxlRwdWidths(d)) == CxlRwdMap(d) && Chained(CxlDrsWidths(d)) == CxlDrsMap(d)
    ensures Total(CXL_REQ_WIDTHS) == 68 && Total(CXL_NDR_WIDTHS) == 13
    ensures Total(CxlRwdWidths(d)) == d + d / 8 + 64 && Total(CxlDrsWidths(d)) == d + 14
  {
    hide *;
    CxlReqChained();
    RwdChained(d);
    NdrChained();
    DrsChained(d);
  }

  // ---- Packet builders ----

  function MakeChiReq(opcode: nat, addr: nat, txnId: nat, srcId: nat, size: nat): nat {
    Packed(ChiReqMap(), ChiReqValues(opcode, addr, txnId, srcId, size))
  }

  function ChiReqValues(opcode: nat, addr: nat, txnId: nat, srcId: nat, size: nat): map<Name, nat> {
    map[OPCODE := opcode, ADDR := addr, TXNID := txnId, SRCID := srcId, SIZE := size]
  }

  function MakeChiWrData(d: nat, data: nat, be: nat, poison: nat): nat {
    Packed(ChiDatMap(d), ChiWrValues(data, be, poison))
  }

  function ChiWrValues(data: nat, be: nat, poison: nat): map<Name, nat> {
    map[DATA := data, BE := be, POISON := poison, OPCODE := 3]
  }

  function MakeCxlNdr(tag: nat): nat {
    Packed(CxlNdrMap(), map[TAG := tag, OPCODE := 0])
  }

  function MakeCxlDrs(d: nat, tag: nat, data: nat, poison: nat): nat {
    Packed(CxlDrsMap(d), CxlDrsValues(tag, data, poison))
  }

  function CxlDrsValues(tag: nat, data: nat, poison: nat): map<Name, nat> {
    map[TAG := tag, DATA := data, POISON := poison, OPCODE := 0]
  }

  lemma Powers()
    ensures Pow2(1) == 2 && Pow2(3) == 8 && Pow2(4) == 16 && Pow2(7) == 128 && Pow2(8) == 256
  {
    assert Pow2(5) == 32 && Pow2(6) == 64;
  }

  /** What the bridge reads of a request. */
  lemma RequestRead(opcode: nat, addr: nat, txnId: nat, srcId: nat, size: nat)
    requires opcode < 128 && addr < Pow2(48) && txnId < 256 && srcId < 128 && size < 8
    ensures var n := MakeChiReq(opcode, addr, txnId, srcId, size);
            && Get(n, Field(OPCODE, 57, 7)) == opcode && Get(n, Field(ADDR, 9, 48)) == addr
            && Get(n, Field(TXNID, 64, 8)) == txnId && Get(n, Field(SRCID, 72, 7)) == srcId
            && Get(n, Field(SIZE, 6, 3)) == size
  {
    hide Get, Packed, Pow2, Tiles;
    Powers();
    ChiMapsTile(0);
    var v := ChiReqValues(opcode, addr, txnId, srcId, size);
    ReadsBack(ChiReqMap(), CHI_REQ_W, v, 4);
    ReadsBack(ChiReqMap(), CHI_REQ_W, v, 3);
    ReadsBack(ChiReqMap(), CHI_REQ_W, v, 5);
    ReadsBack(ChiReqMap(), CHI_REQ_W, v, 6);
    ReadsBack(ChiReqMap(), CHI_REQ_W, v, 2);
  }

  /** A read: what the host packed into a CHI request the device reads from the Req. */
  lemma ReadTrip(opcode: nat, addr: nat, txnId: nat, srcId: nat, size: nat, tag: nat)
    requires opcode < 128 && addr < Pow2(48) && txnId < 256 && srcId < 128 && size < 8 && tag < 16
    ensures var n := ChiReqToCxlReq(MakeChiReq(opcode, addr, txnId, srcId, size), tag);
            && Get(n, Field(TAG, 50, 4)) == tag && Get(n, Field(ADDR, 2, 48)) == addr
            && Get(n, Field(LEN, 61, 3)) == (if 1 <= size <= 4 then size else 1)
            && Get(n, Field(MEMOP, 64, 4)) == (match opcode case 0x04 => 1 case 0x03 => 2 case _ => 5)
  {
    hide Get, Packed, Pow2, MakeChiReq, ChiReqToCxlReq;
    RequestRead(opcode, addr, txnId, srcId, size);
    DeviceReadsReq(MakeChiReq(opcode, addr, txnId, srcId, size), tag);
  }

  /** A write: so it does from a RwD beat, the data included, at every data width. */
  lemma WriteTrip(d: nat, opcode: nat, addr: nat, txnId: nat, srcId: nat, size: nat, tag: nat, data: nat, be: nat,
                  poison: nat)
    requires opcode < 128 && addr < Pow2(48) && txnId < 256 && srcId < 128 && size < 8 && tag < 16
    requires data < Pow2(d) && be < Pow2(d / 8) && poison < 2
    ensures var b := d + d / 8;
            var n := ChiWrToCxlRwd(d, MakeChiReq(opcode, addr, txnId, srcId, size), MakeChiWrData(d, data, be, poison),
                                   tag);
            && Get(n, Field(TAG, b + 53, 4)) == tag && Get(n, Field(ADDR, b + 5, 48)) == addr
            && Get(n, Field(LEN, b + 57, 3)) == (if 1 <= size <= 4 then size else 1)
            && Get(n, Field(MEMOP, b + 60, 4)) == (match opcode case 0x1C => 4 case _ => 3)
            && Get(n, Field(DATA, 0, d)) == data && Get(n, Field(BE, d, d / 8)) == be
            && Get(n, Field(POISON, b, 1)) == poison
  {
    hide Get, Packed, Pow2, MakeChiReq, MakeChiWrData, ChiWrToCxlRwd;
    RequestRead(opcode, addr, txnId, srcId, size);
    WrDataRead(d, data, be, poison);
    DeviceReadsRwd(d, MakeChiReq(opcode, addr, txnId, srcId, size), MakeChiWrData(d, data, be, poison), tag);
  }

  lemma WrDataRead(d: nat, data: nat, be: nat, poison: nat)
    requires data < Pow2(d) && be < Pow2(d / 8) && poison < 2
    ensures var n, b := MakeChiWrData(d, data, be, poison), d + d / 8;
            Get(n, Field(DATA, 0, d)) == data && Get(n, Field(BE, d, d / 8)) == be
              && Get(n, Field(POISON, b, 1)) == poison
  {
    hide Get, Packed, Pow2, Tiles;
    Powers();
    ChiMapsTile(d);
    var v := ChiWrValues(data, be, poison);
    ReadsBack(ChiDatMap(d), ChiDatW(d), v, 0);
    ReadsBack(ChiDatMap(d), ChiDatW(d), v, 1);
    ReadsBack(ChiDatMap(d), ChiDatW(d), v, 2);
  }

  /** A completion: the tag the device packed comes back as DBID, under the TxnID put in. */
  lemma CompTrip(tag: nat, txnId: nat)
    requires tag < 16 && txnId < 256
    ensures var n := CxlNdrToChiComp(MakeCxlNdr(tag), txnId);
            && Get(n, Field(TXNID, 6, 8)) == txnId && Get(n, Field(DBID, 2, 4)) == tag
            && Get(n, Field(OPCODE, 14, 4)) == 4
  {
    hide Get, Packed, Pow2, CxlNdrToChiComp, Tiles;
    Powers();
    CxlMapsTile(0);
    ReadsBack(CxlNdrMap(), CXL_NDR_W, map[TAG := tag, OPCODE := 0], 1);
    assert Get(MakeCxlNdr(tag), Field(TAG, 2, 4)) == tag;
    HostReadsComp(MakeCxlNdr(tag), txnId);
  }

  /** Read data: data and poison arrive, and the bridge finds the tag it must look up. */
  lemma CompDataTrip(d: nat, tag: nat, data: nat, poison: nat, txnId: nat)
    requires tag < 16 && data < Pow2(d) && poison < 2 && txnId < 256
    ensures var n, b := CxlDrsToChiCompData(d, MakeCxlDrs(d, tag, data, poison), txnId), d + d / 8;
            && Get(n, Field(TXNID, b + 10, 8)) == txnId && Get(n, Field(DATA, 0, d)) == data
            && Get(n, Field(POISON, b, 1)) == poison && Get(n, Field(OPCODE, b + 18, 4)) == 4
    ensures Get(MakeCxlDrs(d, tag, data, poison), Field(TAG, d + 3, 4)) == tag
  {
    hide Get, Packed, Pow2, CxlDrsToChiCompData, Tiles;
    Powers();
    CxlMapsTile(d);
    var v := CxlDrsValues(tag, data, poison);
    ReadsBack(CxlDrsMap(d), CxlDrsW(d), v, 0);
    ReadsBack(CxlDrsMap(d), CxlDrsW(d), v, 1);
    ReadsBack(CxlDrsMap(d), CxlDrsW(d), v, 3);
    HostReadsCompData(d, MakeCxlDrs(d, tag, data, poison), txnId);
  }
}
