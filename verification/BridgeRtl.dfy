/**
 The bridge as the RTL composes it: five register-level dual-clock FIFOs, the DBIDResp FIFO,
 the tag manager, two reset cells and the two beat counters. One call of `Edges` is one
 instant; it is proved to do to the model what `BridgeSpec` says, so every theorem about
 reachable states of the model is one about these registers.
 */
module BridgeRtl {
  import opened Options
  import opened BitVec
  import opened ResetSync
  import opened FifoSpec
  import opened AsyncFifo
  import opened SyncFifo
  import opened TagManager
  import opened Flits
  import opened BridgeSpec
  import opened System
  import opened Runs
  import opened Pins
  import opened Streams
  import opened TagLedger

  /** Which bits of a moving pointer each synchronizer catches new. */
  datatype Mixes = Mixes(posted: (Bits, Bits), np: (Bits, Bits), dat: (Bits, Bits), ndr: (Bits, Bits),
                         drs: (Bits, Bits))

  class ChiToCxlBridge {
    const cfg: Config
    const posted: AsyncFifo<ChiReq>
    const np: AsyncFifo<ChiReq>
    const dat: AsyncFifo<ChiDat>
    const ndr: AsyncFifo<ChiRsp>
    const drs: AsyncFifo<ChiDat>
    const rspInt: SyncFifo<ChiRsp>
    const tags: TagManager
    const clkCell: ResetCell
    const cxlCell: ResetCell
    var drsBeat: nat
    var rwdBeat: nat

    /** Parts of the same type are different objects. */
    ghost predicate Apart() {
      && posted != np && posted.mem != np.mem
      && dat != drs && dat.mem != drs.mem
      && ndr.mem != rspInt.mem
      && clkCell != cxlCell
    }

    ghost function Model(): Bridge
      reads this, posted, posted.mem, np, np.mem, dat, dat.mem, ndr, ndr.mem, drs, drs.mem,
        rspInt, rspInt.mem, tags, tags.pool, tags.pool.mem, tags.stateMem, clkCell, cxlCell
    {
      Bridge(clkCell.syncR, cxlCell.syncR, posted.q, np.q, dat.q, ndr.q, drs.q, rspInt.contents, tags.Model(), drsBeat,
             rwdBeat)
    }

    ghost predicate PartsValid()
      reads this, posted, posted.mem, np, np.mem, dat, dat.mem, ndr, ndr.mem, drs, drs.mem,
        rspInt, rspInt.mem, tags, tags.pool, tags.pool.mem, tags.stateMem, clkCell, cxlCell
    {
      && posted.Valid() && np.Valid() && dat.Valid() && ndr.Valid() && drs.Valid() && rspInt.Valid() && tags.Valid()
    }

    ghost predicate Sized() {
      && posted.Depth() == np.Depth() == dat.Depth() == ndr.Depth() == drs.Depth() == cfg.depth
      && rspInt.Depth() == RSP_INT_DEPTH && tags.NTags() == N_TAGS
    }

    ghost predicate Valid()
      reads this, posted, posted.mem, np, np.mem, dat, dat.mem, ndr, ndr.mem, drs, drs.mem,
        rspInt, rspInt.mem, tags, tags.pool, tags.pool.mem, tags.stateMem, clkCell, cxlCell
    {
      Apart() && Sized() && PartsValid() && ResetQuiet(Model())
    }

    lemma ModelOk()
      requires Valid()
      ensures Model().WellFormed() && Model().Ordered(cfg.depth) && cfg.depth > 0
    {
      hide Stored, WriteRegs, ReadRegs, Holds, ResetQuiet, Apart;
    }

    lemma Parted()
      requires Apart()
      ensures posted != np && posted.mem != np.mem && dat != drs && dat.mem != drs.mem && ndr.mem != rspInt.mem
              && clkCell != cxlCell
    {
    }

    constructor (addrW: nat, postedCredits: nat, npCredits: nat, allBe: nat, junk: Entry)
      requires addrW >= 2
      ensures Valid()
      ensures cfg == Config(Pow2(addrW), postedCredits, npCredits, allBe)
      ensures Model() == AfterReset(Model().tags.state)
    {
      hide *;
      cfg := Config(Pow2(addrW), postedCredits, npCredits, allBe);
      var reqP, reqNp, wrDat := NewReqFifos(addrW);
      var rspIn, datIn := NewRspFifos(addrW);
      var dbids, manager := NewTagging(junk);
      posted, np, dat, ndr, drs, rspInt, tags := reqP, reqNp, wrDat, rspIn, datIn, dbids, manager;
      clkCell := new ResetCell();
      cxlCell := new ResetCell();
      drsBeat, rwdBeat := 0, 0;
      new;
      PackApart();
      PackSized(addrW);
      PackReset(tags.stateMem[..]);
    }

    lemma PackApart()
      requires posted != np && posted.mem != np.mem && dat != drs && dat.mem != drs.mem && ndr.mem != rspInt.mem
               && clkCell != cxlCell
      ensures Apart()
    {
    }

    lemma PackSized(addrW: nat)
      requires cfg.depth == Pow2(addrW) && rspInt.addrW == 2 && tags.tagW == TAG_W && tags.Valid()
      requires posted.addrW == np.addrW == dat.addrW == ndr.addrW == drs.addrW == addrW
      ensures Sized() && |tags.stateMem[..]| == N_TAGS
    {
      hide TagManager.Valid;
      FourBits();
      assert |tags.stateMem[..]| == tags.NTags() by { StateSize(); }
    }

    lemma StateSize()
      requires tags.Valid()
      ensures |tags.stateMem[..]| == tags.NTags()
    {
      hide Pow2;
    }

    lemma FourBits()
      ensures Pow2(2) == RSP_INT_DEPTH && Pow2(TAG_W) == N_TAGS
    {
      assert Pow2(4) == 16;
    }

    method ResetFifos()
      requires Apart() && posted.Valid() && np.Valid() && dat.Valid() && ndr.Valid() && drs.Valid()
      modifies posted, np, dat, ndr, drs
      ensures posted.Valid() && np.Valid() && dat.Valid() && ndr.Valid() && drs.Valid()
      ensures posted.q == Cleared() && np.q == Cleared() && dat.q == Cleared() && ndr.q == Cleared()
              && drs.q == Cleared()
    {
      hide *;
      Parted();
      posted.AsyncReset();
      np.AsyncReset();
      dat.AsyncReset();
      ndr.AsyncReset();
      drs.AsyncReset();
    }

    method ResetClkSide()
      requires Apart() && rspInt.Valid() && tags.Valid()
      modifies `drsBeat, `rwdBeat, rspInt, tags, tags.pool, tags.pool.mem, tags.stateMem, clkCell, cxlCell
      ensures rspInt.Valid() && tags.Valid()
      ensures rspInt.contents == [] && tags.Model() == Unfilled(old(tags.Model().state))
      ensures clkCell.syncR == Asserted() && cxlCell.syncR == Asserted() && drsBeat == 0 && rwdBeat == 0
    {
      hide *;
      Parted();
      tags.AsyncReset();
      rspInt.AsyncReset();
      clkCell.AsyncReset();
      cxlCell.AsyncReset();
      drsBeat, rwdBeat := 0, 0;
    }

    /** Assertion of `rst_n`: everything but the memories clears at once. */
    method AsyncReset()
      requires Valid()
      modifies this, posted, np, dat, ndr, drs, rspInt, tags, tags.pool, tags.pool.mem, tags.stateMem, clkCell, cxlCell
      ensures Valid() && Model() == AfterReset(old(Model().tags.state))
    {
      hide *;
      Unpack();
      Parted();
      ResetClkSide();
      ResetFifos();
      PackReset(old(Model().tags.state));
    }

    lemma Unpack()
      requires Valid()
      ensures Apart() && Sized() && posted.Valid() && np.Valid() && dat.Valid() && ndr.Valid() && drs.Valid()
              && rspInt.Valid() && tags.Valid()
      ensures |Model().tags.state| == N_TAGS && tags.Model() == Model().tags
    {
      hide Stored, WriteRegs, ReadRegs, Holds, ResetQuiet, Apart;
    }

    lemma PackReset(state: seq<Entry>)
      requires Apart() && Sized() && posted.Valid() && np.Valid() && dat.Valid() && ndr.Valid() && drs.Valid()
               && rspInt.Valid() && tags.Valid()
      requires posted.q == Cleared() && np.q == Cleared() && dat.q == Cleared() && ndr.q == Cleared()
               && drs.q == Cleared()
      requires rspInt.contents == [] && tags.Model() == Unfilled(state) && |state| == N_TAGS
      requires clkCell.syncR == Asserted() && cxlCell.syncR == Asserted() && drsBeat == 0 && rwdBeat == 0
      ensures Valid() && Model() == AfterReset(state) && Model().tags.state == state
    {
      hide Apart, AsyncFifo.Valid, SyncFifo.Valid, TagManager.Valid;
    }

    // ---- Combinational logic, from the registers before the instant ----

    /** Accept and credit gating, and the DBIDResp to generate. */
    method DriveAccept(i: ClkIn) returns (w: AcceptWires)
      requires Valid()
      ensures Model().WellFormed() && w == AcceptOf(cfg, Model(), i)
      ensures w.reqHs <==> i.reqValid && TakesRequest(cfg, Model(), i.open, i.req.opcode)
      ensures w.write <==> i.req.opcode in {0x1D, 0x1C, 0x19}
      ensures w.datHs <==> i.wrValid && |Model().dat.written| - Model().dat.rs1 < cfg.depth
    {
      hide Stored, WriteRegs, ReadRegs, Holds, ResetQuiet, Apart, IsWrite, Config.PostedLimit, Config.NpLimit,
           TakesRequest, Bridge.Ordered;
      ModelOk();
      ClkWires(cfg, Model(), i);
      var reqPOcc := posted.WOccupancy();
      var reqNpOcc := np.WOccupancy();
      var write := IsWrite(i.req.opcode);
      var reqReady := i.open && tags.AllocRdy() &&
        (if write then !posted.WFull() && reqPOcc < cfg.PostedLimit() && !rspInt.Full()
         else !np.WFull() && reqNpOcc < cfg.NpLimit());
      var item, dbid := i.req, ChiRsp(0, 0, 0, 0, 0);
      if i.reqValid && reqReady {
        item := i.req.(txnId := tags.AllocTag());
        dbid := ChiRsp(0, CHI_RSP_DBIDRESP, i.req.txnId, tags.AllocTag(), CHI_RESPERR_OK);
      }
      w := AcceptWires(i.reqValid && reqReady, write, item, dbid, i.wrValid && !dat.WFull());
    }

    /** Response merge, TxnID recovery, the read-beat counter and both release ports. */
    method DriveReply(i: ClkIn) returns (w: ReplyWires)
      requires Valid()
      ensures Model().WellFormed() && w == ReplyOf(Model(), i)
      ensures w.compHs <==> w.comp.Some? && i.compReady
      ensures w.comp.Some? <==> Model().drs.rcnt < Model().drs.ws1
      ensures w.compRspHs <==> Model().ndr.rcnt < Model().ndr.ws1 && i.rspReady
      ensures w.intPop <==> Model().ndr.rcnt == Model().ndr.ws1 && |Model().rspInt| > 0 && i.rspReady
      ensures w.rsp.Some? <==> Model().ndr.rcnt < Model().ndr.ws1 || |Model().rspInt| > 0
    {
      hide Stored, WriteRegs, ReadRegs, Holds, ResetQuiet, Apart;
      ModelOk();
      var rsp: Option<ChiRsp>, relA: Option<nat> := None, None;
      if !ndr.REmpty() {
        var tag := TagOf(ndr.RData().dbId);
        rsp := Some(ndr.RData().(txnId := tags.Lookup(tag).txnId));
        relA := if i.rspReady then Some(tag) else None;
      } else if !rspInt.Empty() {
        rsp := Some(rspInt.RdData());
      }
      var comp: Option<ChiDat>, relB: Option<nat>, beat := None, None, drsBeat;
      if !drs.REmpty() {
        var tag := TagOf(drs.RData().txnId);
        var entry := tags.Lookup(tag);
        comp := Some(drs.RData().(txnId := entry.txnId));
        if i.compReady {
          var last := drsBeat == (entry.len + BEAT_MOD - 1) % BEAT_MOD;
          beat := if last then 0 else (drsBeat + 1) % BEAT_MOD;
          relB := if last then Some(tag) else None;
        }
      }
      w := ReplyWires(rsp, comp, !ndr.REmpty() && i.rspReady, rsp.Some? && ndr.REmpty() && i.rspReady,
                      comp.Some? && i.compReady, relA, relB, beat);
    }

    /** M2S egress and the write-beat counter. */
    method DriveEgress(i: CxlIn) returns (w: EgressWires)
      requires Valid()
      ensures Model().WellFormed() && w == EgressOf(Model(), i)
      ensures w.reqHs <==> w.req.Some? && i.reqReady
      ensures w.rwdHs <==> w.rwd.Some? && i.rwdReady
      ensures w.req.Some? <==> Model().np.rcnt < Model().np.ws1
      ensures w.rwd.Some? <==> Model().posted.rcnt < Model().posted.ws1 && Model().dat.rcnt < Model().dat.ws1
    {
      hide Stored, WriteRegs, ReadRegs, Holds, ResetQuiet, Apart, TranslateReq, TranslateWrite, Beats;
      ModelOk();
      var req: Option<CxlReq>, rwd: Option<CxlRwd>, last, beat := None, None, false, rwdBeat;
      if !np.REmpty() {
        req := Some(TranslateReq(np.RData(), TagOf(np.RData().txnId)));
      }
      if !posted.REmpty() && !dat.REmpty() {
        rwd := Some(TranslateWrite(posted.RData(), dat.RData(), TagOf(posted.RData().txnId)));
        if i.rwdReady {
          last := rwdBeat == (Beats(posted.RData().size) + BEAT_MOD - 1) % BEAT_MOD;
          beat := if last then 0 else (rwdBeat + 1) % BEAT_MOD;
        }
      }
      w := EgressWires(req, rwd, req.Some? && i.reqReady, rwd.Some? && i.rwdReady, last, beat);
    }

    /** S2M ingress. */
    method DriveIngress(i: CxlIn) returns (w: IngressWires)
      requires Valid()
      ensures w == IngressOf(cfg, Model(), i)
      ensures w.ndrHs <==> i.ndrValid && i.open && |Model().ndr.written| - Model().ndr.rs1 < cfg.depth
      ensures w.drsHs <==> i.drsValid && i.open && |Model().drs.written| - Model().drs.rs1 < cfg.depth
    {
      hide Stored, WriteRegs, ReadRegs, Holds, ResetQuiet, Apart, TranslateNdr, TranslateDrs;
      ModelOk();
      var ndrReady, drsReady := i.open && !ndr.WFull(), i.open && !drs.WFull();
      w := IngressWires(ndrReady, i.ndrValid && ndrReady, TranslateNdr(i.ndr),
                        drsReady, i.drsValid && drsReady, TranslateDrs(i.drs, cfg.allBe));
    }

    // ---- Clocked logic ----

    /** The FIFOs from the host's clock to the device's. */
    method OutwardEdges(clkTick: bool, clkRst: bool, a: AcceptWires, wr: ChiDat, cxlTick: bool, cxlRst: bool,
                        e: EgressWires, m: Mixes)
      returns (ghost cl: (bool, bool, bool), ghost xl: (bool, bool, bool))
      requires Apart() && posted.Valid() && np.Valid() && dat.Valid()
      requires |m.posted.0| == |m.posted.1| == posted.Width() && |m.np.0| == |m.np.1| == np.Width()
               && |m.dat.0| == |m.dat.1| == dat.Width()
      requires !clkRst ==> Unwritten(posted.q) && Unwritten(np.q) && Unwritten(dat.q)
      requires !cxlRst ==> Unread(posted.q) && Unread(np.q) && Unread(dat.q)
      modifies posted, posted.mem, np, np.mem, dat, dat.mem
      ensures posted.Valid() && np.Valid() && dat.Valid()
      ensures posted.q == old(posted.q).Edges(posted.Depth(),
                                              WPort(clkTick && clkRst, a.reqHs && a.write, a.item, cl.0),
                                              RPort(cxlTick && cxlRst, e.rwdLast, xl.0))
      ensures np.q == old(np.q).Edges(np.Depth(), WPort(clkTick && clkRst, a.reqHs && !a.write, a.item, cl.1),
                                      RPort(cxlTick && cxlRst, e.reqHs, xl.1))
      ensures dat.q == old(dat.q).Edges(dat.Depth(), WPort(clkTick && clkRst, a.datHs, wr, cl.2),
                                        RPort(cxlTick && cxlRst, e.rwdHs, xl.2))
    {
      hide *;
      Parted();
      ghost var w1, r1 := posted.Edges(clkTick, clkRst, a.reqHs && a.write, a.item, m.posted.0, cxlTick, cxlRst,
                                       e.rwdLast, m.posted.1);
      ghost var w2, r2 := np.Edges(clkTick, clkRst, a.reqHs && !a.write, a.item, m.np.0, cxlTick, cxlRst, e.reqHs,
                                   m.np.1);
      ghost var w3, r3 := dat.Edges(clkTick, clkRst, a.datHs, wr, m.dat.0, cxlTick, cxlRst, e.rwdHs, m.dat.1);
      cl, xl := (w1, w2, w3), (r1, r2, r3);
    }

    /** The FIFOs from the device's clock to the host's. */
    method InwardEdges(clkTick: bool, clkRst: bool, r: ReplyWires, cxlTick: bool, cxlRst: bool, g: IngressWires,
                       m: Mixes)
      returns (ghost cl: (bool, bool), ghost xl: (bool, bool))
      requires Apart() && ndr.Valid() && drs.Valid()
      requires |m.ndr.0| == |m.ndr.1| == ndr.Width() && |m.drs.0| == |m.drs.1| == drs.Width()
      requires !clkRst ==> Unread(ndr.q) && Unread(drs.q)
      requires !cxlRst ==> Unwritten(ndr.q) && Unwritten(drs.q)
      modifies ndr, ndr.mem, drs, drs.mem
      ensures ndr.Valid() && drs.Valid()
      ensures ndr.q == old(ndr.q).Edges(ndr.Depth(), WPort(cxlTick && cxlRst, g.ndrHs, g.ndr, xl.0),
                                        RPort(clkTick && clkRst, r.compRspHs, cl.0))
      ensures drs.q == old(drs.q).Edges(drs.Depth(), WPort(cxlTick && cxlRst, g.drsHs, g.drs, xl.1),
                                        RPort(clkTick && clkRst, r.compHs, cl.1))
    {
      hide *;
      ghost var w4, r4 := ndr.Edges(cxlTick, cxlRst, g.ndrHs, g.ndr, m.ndr.0, clkTick, clkRst, r.compRspHs, m.ndr.1);
      ghost var w5, r5 := drs.Edges(cxlTick, cxlRst, g.drsHs, g.drs, m.drs.0, clkTick, clkRst, r.compHs, m.drs.1);
      cl, xl := (r4, r5), (w4, w5);
    }

    /** The five dual-clock FIFOs at one instant. */
    method FifoEdges(clkTick: bool, clkRst: bool, a: AcceptWires, r: ReplyWires, wr: ChiDat,
                     cxlTick: bool, cxlRst: bool, e: EgressWires, g: IngressWires, m: Mixes)
      returns (ghost cl: Late, ghost xl: Late)
      requires Apart() && posted.Valid() && np.Valid() && dat.Valid() && ndr.Valid() && drs.Valid() && Fits(m)
      requires !clkRst ==> Unwritten(posted.q) && Unwritten(np.q) && Unwritten(dat.q) && Unread(ndr.q) && Unread(drs.q)
      requires !cxlRst ==> Unread(posted.q) && Unread(np.q) && Unread(dat.q) && Unwritten(ndr.q) && Unwritten(drs.q)
      modifies posted, posted.mem, np, np.mem, dat, dat.mem, ndr, ndr.mem, drs, drs.mem
      ensures posted.Valid() && np.Valid() && dat.Valid() && ndr.Valid() && drs.Valid()
      ensures posted.q == old(posted.q).Edges(posted.Depth(),
                                              WPort(clkTick && clkRst, a.reqHs && a.write, a.item, cl.posted),
                                              RPort(cxlTick && cxlRst, e.rwdLast, xl.posted))
      ensures np.q == old(np.q).Edges(np.Depth(), WPort(clkTick && clkRst, a.reqHs && !a.write, a.item, cl.np),
                                      RPort(cxlTick && cxlRst, e.reqHs, xl.np))
      ensures dat.q == old(dat.q).Edges(dat.Depth(), WPort(clkTick && clkRst, a.datHs, wr, cl.dat),
                                        RPort(cxlTick && cxlRst, e.rwdHs, xl.dat))
      ensures ndr.q == old(ndr.q).Edges(ndr.Depth(), WPort(cxlTick && cxlRst, g.ndrHs, g.ndr, xl.ndr),
                                        RPort(clkTick && clkRst, r.compRspHs, cl.ndr))
      ensures drs.q == old(drs.q).Edges(drs.Depth(), WPort(cxlTick && cxlRst, g.drsHs, g.drs, xl.drs),
                                        RPort(clkTick && clkRst, r.compHs, cl.drs))
    {
      hide *;
      UnpackWidths(m);
      Parted();
      ghost var c1, x1 := OutwardEdges(clkTick, clkRst, a, wr, cxlTick, cxlRst, e, m);
      ghost var c2, x2 := InwardEdges(clkTick, clkRst, r, cxlTick, cxlRst, g, m);
      cl, xl := Late(c1.0, c1.1, c1.2, c2.0, c2.1), Late(x1.0, x1.1, x1.2, x2.0, x2.1);
    }

    /** The DBIDResp FIFO, the tag manager, the beat counters and the reset cells. */
    method RegisterEdges(clkTick: bool, clkRst: bool, i: ClkIn, a: AcceptWires, r: ReplyWires,
                         cxlTick: bool, cxlRst: bool, e: EgressWires)
      requires rspInt.Valid() && tags.Valid() && clkCell != cxlCell
      requires r.relA.Some? ==> r.relA.value < tags.NTags()
      requires r.relB.Some? ==> r.relB.value < tags.NTags()
      modifies `drsBeat, `rwdBeat, rspInt, rspInt.mem, tags, tags.pool, tags.pool.mem, tags.stateMem, clkCell, cxlCell
      ensures rspInt.Valid() && tags.Valid()
      ensures var go := clkTick && clkRst;
              && rspInt.contents == (if go then QueueEdge(old(rspInt.contents), rspInt.Depth(), a.reqHs && a.write,
                                                          a.dbid, r.intPop) else old(rspInt.contents))
              && tags.Model() == (if go then old(tags.Model()).Edge(tags.NTags(), i.reqValid && i.open, EntryOf(i.req),
                                                                    r.relA, r.relB) else old(tags.Model()))
              && drsBeat == (if go then r.drsBeat else old(drsBeat))
      ensures rwdBeat == if cxlTick && cxlRst then e.rwdBeat else old(rwdBeat)
      ensures clkCell.syncR == (if clkTick then Shifted(old(clkCell.syncR)) else old(clkCell.syncR))
      ensures cxlCell.syncR == (if cxlTick then Shifted(old(cxlCell.syncR)) else old(cxlCell.syncR))
    {
      hide *;
      if clkTick && clkRst {
        tags.Edge(i.reqValid && i.open, EntryOf(i.req), r.relA, r.relB);
        rspInt.Edge(a.reqHs && a.write, a.dbid, r.intPop);
        drsBeat := r.drsBeat;
      }
      if cxlTick && cxlRst {
        rwdBeat := e.rwdBeat;
      }
      if clkTick {
        clkCell.Edge();
      }
      if cxlTick {
        cxlCell.Edge();
      }
    }

    /** One instant: a `clk` edge, a `cxl_clk` edge, or both, with any mix of old and new
        pointer bits in every synchronizer. The outputs are those shown before the edge. */
    method Edges(clkTick: bool, i: ClkIn, cxlTick: bool, j: CxlIn, m: Mixes)
      returns (accept: AcceptWires, reply: ReplyWires, egress: EgressWires, ingress: IngressWires, ghost cl: Late,
               ghost xl: Late)
      requires Valid() && Fits(m)
      modifies this, posted, posted.mem, np, np.mem, dat, dat.mem, ndr, ndr.mem, drs, drs.mem,
               rspInt, rspInt.mem, tags, tags.pool, tags.pool.mem, tags.stateMem, clkCell, cxlCell
      ensures Valid() && old(Model().WellFormed() && Model().Ordered(cfg.depth))
      ensures accept == AcceptOf(cfg, old(Model()), i) && reply == ReplyOf(old(Model()), i)
      ensures egress == EgressOf(old(Model()), j) && ingress == IngressOf(cfg, old(Model()), j)
      ensures Model() == old(Model()).Instant(cfg, ClkSeen(clkTick, i, cl), CxlSeen(cxlTick, j, xl))
    {
      hide *;
      ModelOk();
      ghost var b := Model();
      accept := DriveAccept(i);
      reply := DriveReply(i);
      egress := DriveEgress(j);
      ingress := DriveIngress(j);
      cl, xl := Clock(b, clkTick, i, cxlTick, j, m, accept, reply, egress, ingress);
    }

    /** All clocked blocks of the instant, on the wires computed before it. */
    method Clock(ghost b: Bridge, clkTick: bool, i: ClkIn, cxlTick: bool, j: CxlIn, m: Mixes,
                 accept: AcceptWires, reply: ReplyWires, egress: EgressWires, ingress: IngressWires)
      returns (ghost cl: Late, ghost xl: Late)
      requires Valid() && Fits(m) && b == Model() && b.WellFormed() && b.Ordered(cfg.depth)
      requires accept == AcceptOf(cfg, b, i) && reply == ReplyOf(b, i) && egress == EgressOf(b, j)
               && ingress == IngressOf(cfg, b, j)
      modifies this, posted, posted.mem, np, np.mem, dat, dat.mem, ndr, ndr.mem, drs, drs.mem,
               rspInt, rspInt.mem, tags, tags.pool, tags.pool.mem, tags.stateMem, clkCell, cxlCell
      ensures Valid()
      ensures Model() == b.Instant(cfg, ClkSeen(clkTick, i, cl), CxlSeen(cxlTick, j, xl))
    {
      hide *;
      Unpack();
      UnpackReset();
      Parted();
      RepliesInRange(b, i);
      var clkRst, cxlRst := Released(clkCell.syncR), Released(cxlCell.syncR);
      RegisterEdges(clkTick, clkRst, i, accept, reply, cxlTick, cxlRst, egress);
      cl, xl := FifoEdges(clkTick, clkRst, accept, reply, i.wr, cxlTick, cxlRst, egress, ingress, m);
      PackEdges(b, clkTick, i, cxlTick, j, cl, xl, accept, reply, egress, ingress);
    }

    predicate Fits(m: Mixes) {
      && |m.posted.0| == |m.posted.1| == posted.Width() && |m.np.0| == |m.np.1| == np.Width()
         && |m.dat.0| == |m.dat.1| == dat.Width()
      && |m.ndr.0| == |m.ndr.1| == ndr.Width() && |m.drs.0| == |m.drs.1| == drs.Width()
    }

    lemma UnpackWidths(m: Mixes)
      requires Fits(m)
      ensures |m.posted.0| == |m.posted.1| == posted.Width() && |m.np.0| == |m.np.1| == np.Width()
              && |m.dat.0| == |m.dat.1| == dat.Width()
      ensures |m.ndr.0| == |m.ndr.1| == ndr.Width() && |m.drs.0| == |m.drs.1| == drs.Width()
    {
    }

    lemma UnpackReset()
      requires Valid()
      ensures !Released(clkCell.syncR) ==>
              Unwritten(posted.q) && Unwritten(np.q) && Unwritten(dat.q) && Unread(ndr.q) && Unread(drs.q)
      ensures !Released(cxlCell.syncR) ==>
              Unread(posted.q) && Unread(np.q) && Unread(dat.q) && Unwritten(ndr.q) && Unwritten(drs.q)
      ensures tags.NTags() == N_TAGS && ResetQuiet(Model())
      ensures Model() == Bridge(clkCell.syncR, cxlCell.syncR, posted.q, np.q, dat.q, ndr.q, drs.q, rspInt.contents,
                                tags.Model(), drsBeat, rwdBeat)
    {
      hide AsyncFifo.Valid, SyncFifo.Valid, TagManager.Valid, Apart;
    }

    lemma PackEdges(b: Bridge, clkTick: bool, i: ClkIn, cxlTick: bool, j: CxlIn, cl: Late, xl: Late,
                    a: AcceptWires, r: ReplyWires, e: EgressWires, g: IngressWires)
      requires Apart() && Sized() && posted.Valid() && np.Valid() && dat.Valid() && ndr.Valid() && drs.Valid()
               && rspInt.Valid() && tags.Valid()
      requires b.WellFormed() && b.Ordered(cfg.depth) && ResetQuiet(b)
      requires a == AcceptOf(cfg, b, i) && r == ReplyOf(b, i) && e == EgressOf(b, j) && g == IngressOf(cfg, b, j)
      requires clkCell.syncR == (if clkTick then Shifted(b.clkReset) else b.clkReset)
      requires cxlCell.syncR == (if cxlTick then Shifted(b.cxlReset) else b.cxlReset)
      requires posted.q == b.posted.Edges(posted.Depth(),
                                          WPort(clkTick && Released(b.clkReset), a.reqHs && a.write, a.item, cl.posted),
                                          RPort(cxlTick && Released(b.cxlReset), e.rwdLast, xl.posted))
      requires np.q == b.np.Edges(np.Depth(), WPort(clkTick && Released(b.clkReset), a.reqHs && !a.write, a.item,
                                                    cl.np), RPort(cxlTick && Released(b.cxlReset), e.reqHs, xl.np))
      requires dat.q == b.dat.Edges(dat.Depth(), WPort(clkTick && Released(b.clkReset), a.datHs, i.wr, cl.dat),
                                    RPort(cxlTick && Released(b.cxlReset), e.rwdHs, xl.dat))
      requires ndr.q == b.ndr.Edges(ndr.Depth(), WPort(cxlTick && Released(b.cxlReset), g.ndrHs, g.ndr, xl.ndr),
                                    RPort(clkTick && Released(b.clkReset), r.compRspHs, cl.ndr))
      requires drs.q == b.drs.Edges(drs.Depth(), WPort(cxlTick && Released(b.cxlReset), g.drsHs, g.drs, xl.drs),
                                    RPort(clkTick && Released(b.clkReset), r.compHs, cl.drs))
      requires var go := clkTick && Released(b.clkReset);
               && rspInt.contents == (if go then QueueEdge(b.rspInt, rspInt.Depth(), a.reqHs && a.write, a.dbid,
                                                           r.intPop) else b.rspInt)
               && InRange(r, tags.NTags()) && b.tags.WellFormed(tags.NTags())
               && tags.Model() == (if go then b.tags.Edge(tags.NTags(), i.reqValid && i.open, EntryOf(i.req), r.relA,
                                                          r.relB) else b.tags)
               && drsBeat == (if go then r.drsBeat else b.drsBeat)
      requires rwdBeat == if cxlTick && Released(b.cxlReset) then e.rwdBeat else b.rwdBeat
      ensures Valid() && Model() == b.Instant(cfg, ClkSeen(clkTick, i, cl), CxlSeen(cxlTick, j, xl))
    {
      hide AsyncFifo.Valid, SyncFifo.Valid, TagManager.Valid, Apart, ResetQuiet, AcceptOf, ReplyOf, EgressOf,
           IngressOf, QueueEdge, Tags.Edge, Queue.Edges, WPort, RPort, Bridge.Instant, ClkSeen, CxlSeen, Shifted,
           Bridge.WellFormed, Bridge.Ordered;
      assert Model() == Clocked(cfg, b, clkTick, i, cxlTick, j, cl, xl);
      ClockedIsInstant(cfg, b, clkTick, i, cxlTick, j, cl, xl);
      InstantReset(cfg, b, ClkSeen(clkTick, i, cl), CxlSeen(cxlTick, j, xl));
    }
  }

  method NewReqFifos(addrW: nat) returns (posted: AsyncFifo<ChiReq>, np: AsyncFifo<ChiReq>, dat: AsyncFifo<ChiDat>)
    requires addrW >= 2
    ensures fresh(posted) && fresh(posted.mem) && posted.Valid() && posted.q == Cleared() && posted.addrW == addrW
    ensures fresh(np) && fresh(np.mem) && np.Valid() && np.q == Cleared() && np.addrW == addrW
    ensures fresh(dat) && fresh(dat.mem) && dat.Valid() && dat.q == Cleared() && dat.addrW == addrW
    ensures posted != np && posted.mem != np.mem
  {
    hide *;
    posted := new AsyncFifo<ChiReq>(addrW);
    np := new AsyncFifo<ChiReq>(addrW);
    dat := new AsyncFifo<ChiDat>(addrW);
  }

  method NewRspFifos(addrW: nat) returns (ndr: AsyncFifo<ChiRsp>, drs: AsyncFifo<ChiDat>)
    requires addrW >= 2
    ensures fresh(ndr) && fresh(ndr.mem) && ndr.Valid() && ndr.q == Cleared() && ndr.addrW == addrW
    ensures fresh(drs) && fresh(drs.mem) && drs.Valid() && drs.q == Cleared() && drs.addrW == addrW
  {
    hide *;
    ndr := new AsyncFifo<ChiRsp>(addrW);
    drs := new AsyncFifo<ChiDat>(addrW);
  }

  method NewTagging(junk: Entry) returns (rspInt: SyncFifo<ChiRsp>, tags: TagManager)
    ensures fresh(rspInt) && fresh(rspInt.mem) && rspInt.Valid() && rspInt.contents == [] && rspInt.addrW == 2
    ensures fresh(tags) && fresh(tags.stateMem) && fresh(tags.pool) && fresh(tags.pool.mem) && tags.Valid()
            && tags.tagW == TAG_W
    ensures tags.Model() == Unfilled(tags.stateMem[..])
  {
    hide *;
    rspInt := new SyncFifo<ChiRsp>(2);
    tags := new TagManager(TAG_W, junk);
  }

  lemma RepliesInRange(b: Bridge, i: ClkIn)
    requires b.WellFormed()
    ensures InRange(ReplyOf(b, i), N_TAGS)
    ensures ReplyOf(b, i).relA.Some? ==> ReplyOf(b, i).relA.value < N_TAGS
    ensures ReplyOf(b, i).relB.Some? ==> ReplyOf(b, i).relB.value < N_TAGS
    ensures b.tags.WellFormed(N_TAGS)
  {
    hide Bridge.RspData, Bridge.CompData, Bridge.DrsLast;
  }

  predicate InRange(r: ReplyWires, n: nat) {
    (r.relA.Some? ==> r.relA.value < n) && (r.relB.Some? ==> r.relB.value < n)
  }

  /** The inputs of a domain at an instant, with what its synchronizers caught; nothing if its clock is still. */
  function ClkSeen(tick: bool, i: ClkIn, late: Late): Option<ClkIn> {
    if tick then Some(i.(late := late)) else None
  }

  function CxlSeen(tick: bool, j: CxlIn, late: Late): Option<CxlIn> {
    if tick then Some(j.(late := late)) else None
  }

  /** The next state, register by register, from the wires. */
  ghost function Clocked(cfg: Config, b: Bridge, clkTick: bool, i: ClkIn, cxlTick: bool, j: CxlIn, cl: Late,
                         xl: Late): Bridge
    requires b.WellFormed()
  {
    var go, xgo := clkTick && Released(b.clkReset), cxlTick && Released(b.cxlReset);
    var a, r, e, g := AcceptOf(cfg, b, i), ReplyOf(b, i), EgressOf(b, j), IngressOf(cfg, b, j);
    Bridge(if clkTick then Shifted(b.clkReset) else b.clkReset,
           if cxlTick then Shifted(b.cxlReset) else b.cxlReset,
           b.posted.Edges(cfg.depth, WPort(go, a.reqHs && a.write, a.item, cl.posted),
                          RPort(xgo, e.rwdLast, xl.posted)),
           b.np.Edges(cfg.depth, WPort(go, a.reqHs && !a.write, a.item, cl.np), RPort(xgo, e.reqHs, xl.np)),
           b.dat.Edges(cfg.depth, WPort(go, a.datHs, i.wr, cl.dat), RPort(xgo, e.rwdHs, xl.dat)),
           b.ndr.Edges(cfg.depth, WPort(xgo, g.ndrHs, g.ndr, xl.ndr), RPort(go, r.compRspHs, cl.ndr)),
           b.drs.Edges(cfg.depth, WPort(xgo, g.drsHs, g.drs, xl.drs), RPort(go, r.compHs, cl.drs)),
           if go then QueueEdge(b.rspInt, RSP_INT_DEPTH, a.reqHs && a.write, a.dbid, r.intPop) else b.rspInt,
           if go then b.tags.Edge(N_TAGS, i.reqValid && i.open, EntryOf(i.req), r.relA, r.relB) else b.tags,
           if go then r.drsBeat else b.drsBeat,
           if xgo then e.rwdBeat else b.rwdBeat)
  }

  /** The two halves of `BridgeSpec`, taken in sequence, are the one instant of the registers. */
  lemma ClockedIsInstant(cfg: Config, b: Bridge, clkTick: bool, i: ClkIn, cxlTick: bool, j: CxlIn, cl: Late, xl: Late)
    requires b.WellFormed() && b.Ordered(cfg.depth)
    ensures b.Instant(cfg, ClkSeen(clkTick, i, cl), CxlSeen(cxlTick, j, xl)) ==
            Clocked(cfg, b, clkTick, i, cxlTick, j, cl, xl)
  {
    hide Bridge.Instant, QueueEdge, Tags.Edge, Queue.Edges, Bridge.RwdLast, Bridge.DrsLast, Bridge.ReqReady,
         Bridge.WellFormed, Bridge.Ordered, Bridge.Tagged, Bridge.DbidResp, Bridge.RspData, Bridge.CompData,
         Bridge.RwdData, Bridge.ReqOutData, Bridge.RspHs, Bridge.RwdHs, Bridge.CompRspHs, IsWrite, TranslateDrs,
         TranslateNdr;
    var clk, cxl := ClkSeen(clkTick, i, cl), CxlSeen(cxlTick, j, xl);
    WiresIgnoreLate(cfg, b, i, cl, j, xl);
    InstantFifos(cfg, b, clk, cxl);
    InstantRegisters(cfg, b, clk, cxl);
    InstantTags(cfg, b, clk, cxl);
    InstantCounters(cfg, b, clk, cxl);
  }

  lemma WiresIgnoreLate(cfg: Config, b: Bridge, i: ClkIn, cl: Late, j: CxlIn, xl: Late)
    requires b.WellFormed()
    ensures AcceptOf(cfg, b, i.(late := cl)) == AcceptOf(cfg, b, i) && ReplyOf(b, i.(late := cl)) == ReplyOf(b, i)
    ensures EgressOf(b, j.(late := xl)) == EgressOf(b, j) && IngressOf(cfg, b, j.(late := xl)) == IngressOf(cfg, b, j)
  {
    hide Queue.Full, Queue.Occupancy, Queue.Empty, IsWrite, Bridge.RspData, Bridge.CompData, Bridge.RwdData,
         Bridge.ReqOutData, Bridge.DrsLast, Bridge.RwdLast, TranslateNdr, TranslateDrs;
  }

  lemma InstantCounters(cfg: Config, b: Bridge, clk: Option<ClkIn>, cxl: Option<CxlIn>)
    requires b.WellFormed() && b.Ordered(cfg.depth)
    ensures var b' := b.Instant(cfg, clk, cxl);
            && (clk.Some? && b.ClkLive() ==>
                  && b'.drsBeat == ReplyOf(b, clk.value).drsBeat
                  && b'.rspInt == QueueEdge(b.rspInt, RSP_INT_DEPTH,
                                            b.ReqHs(cfg, clk.value) && IsWrite(clk.value.req.opcode),
                                            AcceptOf(cfg, b, clk.value).dbid, ReplyOf(b, clk.value).intPop))
            && (cxl.Some? && b.CxlLive() ==> b'.rwdBeat == EgressOf(b, cxl.value).rwdBeat)
  {
    hide Bridge.ReqReady, Bridge.NdrHs, Bridge.DrsHs, Bridge.RwdLast, Bridge.DrsLast, Bridge.Tagged, Bridge.DbidResp,
         Bridge.RspData, Bridge.RwdData, Bridge.ReqOutData, Bridge.CompData, Tags.Edge, QueueEdge, IsWrite,
         TranslateDrs, TranslateNdr, Queue.WriteHalf, Queue.ReadHalf;
    if clk.Some? && cxl.Some? {
      CxlWiresKept(cfg, b, clk.value, b.ClkSamples(cfg, clk, cxl), cxl.value);
    }
  }

  // ---- What the wires mean ----

  datatype AcceptWires = AcceptWires(reqHs: bool, write: bool, item: ChiReq, dbid: ChiRsp, datHs: bool)

  datatype ReplyWires = ReplyWires(rsp: Option<ChiRsp>, comp: Option<ChiDat>, compRspHs: bool, intPop: bool,
                                   compHs: bool, relA: Option<nat>, relB: Option<nat>, drsBeat: nat)

  datatype EgressWires = EgressWires(req: Option<CxlReq>, rwd: Option<CxlRwd>, reqHs: bool, rwdHs: bool, rwdLast: bool,
                                     rwdBeat: nat)

  datatype IngressWires = IngressWires(ndrReady: bool, ndrHs: bool, ndr: ChiRsp, drsReady: bool, drsHs: bool,
                                       drs: ChiDat)

  ghost function AcceptOf(cfg: Config, b: Bridge, i: ClkIn): AcceptWires
    requires b.WellFormed()
  {
    AcceptWires(b.ReqHs(cfg, i), IsWrite(i.req.opcode),
                if b.ReqHs(cfg, i) then b.Tagged(i) else i.req,
                if b.ReqHs(cfg, i) then b.DbidResp(i) else ChiRsp(0, 0, 0, 0, 0),
                i.wrValid && !b.dat.Full(cfg.depth))
  }

  ghost function ReplyOf(b: Bridge, i: ClkIn): ReplyWires
    requires b.WellFormed()
  {
    ReplyWires(if b.RspValid() then Some(b.RspData()) else None,
               if b.CompValid() then Some(b.CompData()) else None,
               b.CompRspHs(i), b.RspHs(i) && b.ndr.Empty(), b.CompHs(i), b.ReleaseA(i), b.ReleaseB(i),
               if !b.CompHs(i) then b.drsBeat else if b.DrsLast() then 0 else (b.drsBeat + 1) % BEAT_MOD)
  }

  ghost function EgressOf(b: Bridge, i: CxlIn): EgressWires
    requires b.WellFormed()
  {
    EgressWires(if b.ReqOutValid() then Some(b.ReqOutData()) else None,
                if b.RwdValid() then Some(b.RwdData()) else None,
                b.ReqOutHs(i), b.RwdHs(i), b.RwdHs(i) && b.RwdLast(),
                if !b.RwdHs(i) then b.rwdBeat else if b.RwdLast() then 0 else (b.rwdBeat + 1) % BEAT_MOD)
  }

  ghost function IngressOf(cfg: Config, b: Bridge, i: CxlIn): IngressWires {
    IngressWires(i.open && !b.ndr.Full(cfg.depth), b.NdrHs(cfg, i), TranslateNdr(i.ndr),
                 i.open && !b.drs.Full(cfg.depth), b.DrsHs(cfg, i), TranslateDrs(i.drs, cfg.allBe))
  }
}
