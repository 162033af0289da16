/**
 What crosses the pins of the bridge, read off valid and ready alone, with every condition and
 every encoding written out; and that the ledger records exactly that.
 */
module Pins {
  import opened Options
  import opened FifoSpec
  import opened SyncFifo
  import opened TagManager
  import opened Flits
  import opened BridgeSpec
  import opened Ledger
  import opened ReadPath
  import opened WritePath
  import opened TagLedger
  import opened System
  import opened Runs

  // ---- Valid and ready ----

  /** The flits handed over at one instant, or in one run, channel by channel. */
  datatype Traffic = Traffic(req: seq<ChiReq>, wrData: seq<ChiDat>, rsp: seq<ChiRsp>, comp: seq<ChiDat>,
                             m2sReq: seq<CxlReq>, m2sRwd: seq<CxlRwd>, ndr: seq<CxlNdr>, drs: seq<CxlDrs>)
  {
    function Then(t: Traffic): Traffic {
      Traffic(req + t.req, wrData + t.wrData, rsp + t.rsp, comp + t.comp, m2sReq + t.m2sReq, m2sRwd + t.m2sRwd,
              ndr + t.ndr, drs + t.drs)
    }
  }

  const NO_TRAFFIC: Traffic := Traffic([], [], [], [], [], [], [], [])

  function When<F>(valid: bool, ready: bool, f: F): seq<F> { if valid && ready then [f] else [] }

  /** `chi_req_ready`: the link open, a tag free, and in the FIFO that the opcode selects a place
      and a credit; for a write also a place among the four DBIDResps. */
  predicate TakesRequest(cfg: Config, b: Bridge, open: bool, opcode: nat) {
    && open && b.tags.initDone && |b.tags.pool| > 0
    && if opcode in {0x1D, 0x1C, 0x19}
       then |b.posted.written| - b.posted.rs1 < cfg.depth
         && |b.posted.written| - b.posted.rs1 < cfg.postedCredits % 65536
         && |b.rspInt| < 4
       else |b.np.written| - b.np.rs1 < cfg.depth && |b.np.written| - b.np.rs1 < cfg.npCredits % 65536
  }

  function ClkCrossing(cfg: Config, b: Bridge, i: ClkIn): Traffic
    requires b.WellFormed()
  {
    if !b.clkReset[1] then NO_TRAFFIC
    else
      var rspValid := b.ndr.rcnt < b.ndr.ws1 || |b.rspInt| > 0;
      var compValid := b.drs.rcnt < b.drs.ws1;
      NO_TRAFFIC.(
        req := When(i.reqValid, TakesRequest(cfg, b, i.open, i.req.opcode), i.req),
        wrData := When(i.wrValid, |b.dat.written| - b.dat.rs1 < cfg.depth, i.wr),
        rsp := if rspValid && i.rspReady then [b.RspData()] else [],
        comp := if compValid && i.compReady then [b.CompData()] else [])
  }

  function CxlCrossing(cfg: Config, b: Bridge, j: CxlIn): Traffic
    requires b.WellFormed()
  {
    if !b.cxlReset[1] then NO_TRAFFIC
    else
      var reqValid := b.np.rcnt < b.np.ws1;
      var rwdValid := b.posted.rcnt < b.posted.ws1 && b.dat.rcnt < b.dat.ws1;
      NO_TRAFFIC.(
        m2sReq := if reqValid && j.reqReady then [b.ReqOutData()] else [],
        m2sRwd := if rwdValid && j.rwdReady then [b.RwdData()] else [],
        ndr := When(j.ndrValid, j.open && |b.ndr.written| - b.ndr.rs1 < cfg.depth, j.ndr),
        drs := When(j.drsValid, j.open && |b.drs.written| - b.drs.rs1 < cfg.depth, j.drs))
  }

  /** What the two clocks' pins hand over at one instant. */
  function Crossing(cfg: Config, b: Bridge, m: Moment): Traffic
    requires b.WellFormed()
  {
    var x := if m.clk.Some? then ClkCrossing(cfg, b, m.clk.value) else NO_TRAFFIC;
    if m.cxl.Some? then x.Then(CxlCrossing(cfg, b, m.cxl.value.cxl)) else x
  }

  // ---- What the ledger says ----

  /** The requests among `s` whose opcode is one of the three writes, or is not. */
  function Selected(s: seq<ChiReq>, write: bool): seq<ChiReq> {
    if s == [] then []
    else
      var front := Selected(s[..|s| - 1], write);
      if (s[|s| - 1].opcode in {0x1D, 0x1C, 0x19}) == write then front + [s[|s| - 1]] else front
  }

  function ReadReqs(rds: seq<ReadTxn>): seq<ChiReq> { seq(|rds|, i requires 0 <= i < |rds| => rds[i].req) }

  function WriteReqs(wrs: seq<WriteTxn>): seq<ChiReq> { seq(|wrs|, i requires 0 <= i < |wrs| => wrs[i].req) }

  function RspFlits(s: seq<RspOut>): seq<ChiRsp> { seq(|s|, i requires 0 <= i < |s| => s[i].flit) }

  function BeatFlits<F>(s: seq<ReadBeat<F>>): seq<F> { seq(|s|, i requires 0 <= i < |s| => s[i].flit) }

  function RwdFlits(s: seq<WriteBeat>): seq<CxlRwd> { seq(|s|, i requires 0 <= i < |s| => s[i].flit) }

  function NdrFlits(s: seq<NdrTaken>): seq<CxlNdr> { seq(|s|, i requires 0 <= i < |s| => s[i].flit) }

  /** The ledger and the data FIFO hold the traffic `t`, the requests split by opcode. */
  ghost predicate Shows(s: Sys, t: Traffic) {
    && ReadReqs(s.log.rds) == Selected(t.req, false) && WriteReqs(s.log.wrs) == Selected(t.req, true)
    && s.b.dat.written == t.wrData
    && RspFlits(s.log.rspOut) == t.rsp && BeatFlits(s.log.compOut) == t.comp
    && s.log.reqOut == t.m2sReq && RwdFlits(s.log.rwdOut) == t.m2sRwd
    && NdrFlits(s.log.ndrIn) == t.ndr && BeatFlits(s.log.drsIn) == t.drs
  }

  lemma {:induction false} SelectedConcat(s: seq<ChiReq>, t: seq<ChiReq>, write: bool)
    ensures Selected(s + t, write) == Selected(s, write) + Selected(t, write)
  {
    if t == [] {
      assert s + t == s;
    } else {
      SelectedConcat(s, t[..|t| - 1], write);
      assert (s + t)[..|s + t| - 1] == s + t[..|t| - 1];
    }
  }

  // ---- One clk edge ----

  /** The wires of the model are valid and ready. */
  lemma ClkWires(cfg: Config, b: Bridge, i: ClkIn)
    requires b.WellFormed() && b.Ordered(cfg.depth)
    ensures b.ClkLive() <==> b.clkReset[1]
    ensures b.ReqHs(cfg, i) <==> i.reqValid && TakesRequest(cfg, b, i.open, i.req.opcode)
    ensures IsWrite(i.req.opcode) <==> i.req.opcode in {0x1D, 0x1C, 0x19}
    ensures b.dat.Full(cfg.depth) <==> |b.dat.written| - b.dat.rs1 >= cfg.depth
    ensures b.RspHs(i) <==> (b.ndr.rcnt < b.ndr.ws1 || |b.rspInt| > 0) && i.rspReady
    ensures b.CompHs(i) <==> b.drs.rcnt < b.drs.ws1 && i.compReady
  {
  }

  /** What the link side needs of the pointers. */
  ghost predicate CxlSided(cfg: Config, b: Bridge) {
    && b.WellFormed()
    && |b.ndr.written| - b.ndr.rs1 <= cfg.depth && |b.drs.written| - b.drs.rs1 <= cfg.depth
  }

  lemma CxlWires(cfg: Config, b: Bridge, j: CxlIn)
    requires CxlSided(cfg, b)
    ensures b.CxlLive() <==> b.cxlReset[1]
    ensures b.ReqOutHs(j) <==> b.np.rcnt < b.np.ws1 && j.reqReady
    ensures b.RwdHs(j) <==> b.posted.rcnt < b.posted.ws1 && b.dat.rcnt < b.dat.ws1 && j.rwdReady
    ensures b.NdrHs(cfg, j) <==> j.ndrValid && j.open && |b.ndr.written| - b.ndr.rs1 < cfg.depth
    ensures b.DrsHs(cfg, j) <==> j.drsValid && j.open && |b.drs.written| - b.drs.rs1 < cfg.depth
  {
  }

  ghost predicate LogShows(l: Log, t: Traffic) {
    && ReadReqs(l.rds) == Selected(t.req, false) && WriteReqs(l.wrs) == Selected(t.req, true)
    && RspFlits(l.rspOut) == t.rsp && BeatFlits(l.compOut) == t.comp
    && l.reqOut == t.m2sReq && RwdFlits(l.rwdOut) == t.m2sRwd
    && NdrFlits(l.ndrIn) == t.ndr && BeatFlits(l.drsIn) == t.drs
  }

  lemma SelectedOne(q: ChiReq)
    ensures Selected([q], true) == if q.opcode in {0x1D, 0x1C, 0x19} then [q] else []
    ensures Selected([q], false) == if q.opcode in {0x1D, 0x1C, 0x19} then [] else [q]
  {
    assert [q][..0] == [];
  }

  lemma SelectedNone()
    ensures Selected([], true) == [] && Selected([], false) == []
  {
  }

  lemma ReqSnoc(rds: seq<ReadTxn>, wrs: seq<WriteTxn>, r: ReadTxn, w: WriteTxn)
    ensures ReadReqs(rds + [r]) == ReadReqs(rds) + [r.req] && WriteReqs(wrs + [w]) == WriteReqs(wrs) + [w.req]
  {
  }

  lemma ClkRequests(rds: seq<ReadTxn>, wrs: seq<WriteTxn>, got: Option<nat>, comped: Option<nat>, acc: Option<ChiReq>,
                    tag: Tag, reqs: seq<ChiReq>, x: seq<ChiReq>)
    requires got.Some? ==> got.value < |rds|
    requires comped.Some? ==> comped.value < |wrs|
    requires ReadReqs(rds) == Selected(reqs, false) && WriteReqs(wrs) == Selected(reqs, true)
    requires x == (if acc.Some? then [acc.value] else [])
    requires acc.Some? ==> (IsWrite(acc.value.opcode) <==> acc.value.opcode in {0x1D, 0x1C, 0x19})
    ensures ReadReqs(ReadsAfter(rds, got, acc, tag)) == Selected(reqs + x, false)
    ensures WriteReqs(WritesAfter(wrs, comped, acc, tag)) == Selected(reqs + x, true)
  {
    hide IsWrite, Selected, ReadReqs, WriteReqs;
    SelectedConcat(reqs, x, false);
    SelectedConcat(reqs, x, true);
    var rds1, wrs1 := ReadsAfter(rds, got, None, tag), WritesAfter(wrs, comped, None, tag);
    SameReqs(rds, rds1, wrs, wrs1);
    if acc.Some? {
      SelectedOne(acc.value);
      ReqSnoc(rds1, wrs1, ReadTxn(acc.value, tag, 0, 0), WriteTxn(acc.value, tag, false, false));
    } else {
      SelectedNone();
    }
  }

  lemma BeatSnoc<F>(s: seq<ReadBeat<F>>, x: ReadBeat<F>)
    ensures BeatFlits(s + [x]) == BeatFlits(s) + [x.flit]
  {
  }

  lemma RspFlitSnoc(s: seq<RspOut>, x: RspOut)
    ensures RspFlits(s + [x]) == RspFlits(s) + [x.flit]
  {
  }

  lemma RwdSnoc(s: seq<WriteBeat>, x: WriteBeat)
    ensures RwdFlits(s + [x]) == RwdFlits(s) + [x.flit]
  {
  }

  lemma NdrSnoc(s: seq<NdrTaken>, x: NdrTaken)
    ensures NdrFlits(s + [x]) == NdrFlits(s) + [x.flit]
  {
  }

  lemma SameReqs(rds: seq<ReadTxn>, rds': seq<ReadTxn>, wrs: seq<WriteTxn>, wrs': seq<WriteTxn>)
    requires |rds'| == |rds| && forall i :: 0 <= i < |rds| ==> rds'[i].req == rds[i].req
    requires |wrs'| == |wrs| && forall i :: 0 <= i < |wrs| ==> wrs'[i].req == wrs[i].req
    ensures ReadReqs(rds') == ReadReqs(rds) && WriteReqs(wrs') == WriteReqs(wrs)
  {
  }

  lemma NothingAdded(t: Traffic, x: Traffic)
    ensures x.req == [] ==> t.Then(x).req == t.req
    ensures x.rsp == [] ==> t.Then(x).rsp == t.rsp
    ensures x.comp == [] ==> t.Then(x).comp == t.comp
    ensures x.m2sReq == [] ==> t.Then(x).m2sReq == t.m2sReq
    ensures x.m2sRwd == [] ==> t.Then(x).m2sRwd == t.m2sRwd
    ensures x.ndr == [] ==> t.Then(x).ndr == t.ndr
    ensures x.drs == [] ==> t.Then(x).drs == t.drs
  {
  }

  lemma ClkShows(cfg: Config, b: Bridge, l: Log, i: ClkIn, t: Traffic)
    requires LogShape(b, l) && b.Ordered(cfg.depth) && LogShows(l, t)
    ensures LogShows(LogClk(cfg, b, l, i), t.Then(ClkCrossing(cfg, b, i)))
  {
    hide IsWrite, ReadsAfter, WritesAfter, Selected, ReadReqs, WriteReqs, Bridge.DrsLast, Bridge.CompData,
         Bridge.RspData, TakesRequest, Bridge.Ordered, Bridge.ReqHs, Bridge.ReleaseA, Bridge.ReleaseB;
    ClkWires(cfg, b, i);
    NothingAdded(t, ClkCrossing(cfg, b, i));
    if b.ClkLive() {
      ClkRequests(l.rds, l.wrs, Got(b, l, i), Comped(b, l, i), Accepted(cfg, b, i), HeadTag(b), t.req,
                  ClkCrossing(cfg, b, i).req);
      if b.CompHs(i) {
        BeatSnoc(l.compOut, ReadBeat(Got(b, l, i).value, l.drsIn[b.drs.rcnt].beat, b.CompData()));
      }
      if b.CompRspHs(i) {
        RspFlitSnoc(l.rspOut, CompOut(Comped(b, l, i).value, b.RspData()));
      } else if b.RspHs(i) {
        RspFlitSnoc(l.rspOut, DbidOut(b.RspData()));
      }
    }
  }

  lemma CxlShows(cfg: Config, b: Bridge, l: Log, e: CxlStep, t: Traffic)
    requires LogShape(b, l) && CxlSided(cfg, b) && DeviceOk(cfg, b, l, e) && LogShows(l, t)
    ensures LogShows(LogCxl(cfg, b, l, e), t.Then(CxlCrossing(cfg, b, e.cxl)))
  {
    hide Selected, Bridge.ReqOutData, Bridge.RwdData;
    var l' := LogCxl(cfg, b, l, e);
    CxlWires(cfg, b, e.cxl);
    NothingAdded(t, CxlCrossing(cfg, b, e.cxl));
    SameReqs(l.rds, l'.rds, l.wrs, l'.wrs);
    if b.CxlLive() {
      if b.RwdHs(e.cxl) { RwdSnoc(l.rwdOut, WriteBeat(b.posted.rcnt, b.rwdBeat, b.RwdData())); }
      if b.NdrHs(cfg, e.cxl) { NdrSnoc(l.ndrIn, NdrTaken(e.ndrWrite, e.cxl.ndr)); }
      if b.DrsHs(cfg, e.cxl) { BeatSnoc(l.drsIn, ReadBeat(e.drsRead, l.rds[e.drsRead].returned, e.cxl.drs)); }
    }
  }

  // ---- One instant ----

  /** A `clk` edge changes nothing on the pins of the link. */
  lemma LinkPinsKept(cfg: Config, b: Bridge, i: ClkIn, smp: Samples, j: CxlIn)
    requires b.WellFormed() && b.Ordered(cfg.depth)
    ensures var b1 := b.ClkHalf(cfg, i, smp);
            CxlSided(cfg, b1) && CxlCrossing(cfg, b1, j) == CxlCrossing(cfg, b, j)
  {
    hide IsWrite, Tags.Edge, QueueEdge, Bridge.DrsLast, Bridge.ReqReady, Bridge.CompData, TranslateReq,
         TranslateWrite;
    ClkWellFormed(cfg, b, i, smp);
  }

  lemma DataTaken(cfg: Config, b: Bridge, m: Moment)
    requires b.WellFormed() && b.Ordered(cfg.depth)
    ensures b.Instant(cfg, m.clk, m.Cxl()).dat.written == b.dat.written + Crossing(cfg, b, m).wrData
  {
    hide Bridge.Instant, Bridge.RwdHs, Bridge.ReqHs, Bridge.RspData, Bridge.CompData, Bridge.ReqOutData,
         Bridge.RwdData, TakesRequest;
    InstantFifos(cfg, b, m.clk, m.Cxl());
  }

  /** The ledger grows by what crosses the pins, no more and no less. */
  lemma StepShows(cfg: Config, s: Sys, m: Moment, t: Traffic)
    requires Inv(cfg, s) && Allowed(cfg, s, m) && Shows(s, t)
    ensures s.b.WellFormed() && Shows(Step(cfg, s, m), t.Then(Crossing(cfg, s.b, m)))
  {
    hide ReadSide, WriteSide, TagSide, ResetQuiet, WithinCredit, DeviceOk, LogClk, LogCxl, Bridge.ClkHalf,
         Bridge.CxlHalf, ClkCrossing, CxlCrossing, CxlSided, Bridge.Instant, LogShape, Bridge.Ordered;
    ClkPartKeeps(cfg, s, m);
    InvShape(cfg, s.b, s.log);
    DataTaken(cfg, s.b, m);
    var s1 := ClkPart(cfg, s, m);
    var x := if m.clk.Some? then ClkCrossing(cfg, s.b, m.clk.value) else NO_TRAFFIC;
    ThenNothing(t);
    if m.clk.Some? {
      ClkShows(cfg, s.b, s.log, m.clk.value, t);
    }
    if m.cxl.Some? {
      LinkSided(cfg, s, m);
      CxlShows(cfg, s1.b, s1.log, m.cxl.value, t.Then(x));
      ThenAssociative(t, x, CxlCrossing(cfg, s.b, m.cxl.value.cxl));
    }
  }

  lemma LinkSided(cfg: Config, s: Sys, m: Moment)
    requires Inv(cfg, s) && m.cxl.Some?
    ensures s.b.WellFormed()
    ensures var b1 := ClkPart(cfg, s, m).b;
            CxlSided(cfg, b1) && CxlCrossing(cfg, b1, m.cxl.value.cxl) == CxlCrossing(cfg, s.b, m.cxl.value.cxl)
  {
    hide ReadSide, WriteSide, TagSide, ResetQuiet, WithinCredit, LogClk, Bridge.ClkHalf, CxlCrossing;
    if m.clk.Some? {
      LinkPinsKept(cfg, s.b, m.clk.value, s.b.ClkSamples(cfg, m.clk, m.Cxl()), m.cxl.value.cxl);
    }
  }

  lemma ThenNothing(t: Traffic)
    ensures t.Then(NO_TRAFFIC) == t && NO_TRAFFIC.Then(t) == t
  {
  }

  lemma ThenAssociative(t: Traffic, u: Traffic, v: Traffic)
    ensures t.Then(u).Then(v) == t.Then(u.Then(v))
  {
  }

  // ---- Runs ----

  /** What the pins hand over in a run. */
  function TrafficOver(cfg: Config, s: Sys, ms: seq<Moment>): Traffic
    requires cfg.depth > 0 && Inv(cfg, s) && Legal(cfg, s, ms)
    decreases |ms|
  {
    if ms == [] then NO_TRAFFIC
    else
      StepKeeps(cfg, s, ms[0]);
      Crossing(cfg, s.b, ms[0]).Then(TrafficOver(cfg, Step(cfg, s, ms[0]), ms[1..]))
  }

  lemma {:induction false} RunShows(cfg: Config, s: Sys, ms: seq<Moment>, t: Traffic)
    requires cfg.depth > 0 && Inv(cfg, s) && Legal(cfg, s, ms) && Shows(s, t)
    ensures Shows(Run(cfg, s, ms), t.Then(TrafficOver(cfg, s, ms)))
    decreases |ms|
  {
    hide Inv, Step, Allowed, Shows, Crossing;
    if ms == [] {
      ThenNothing(t);
    } else {
      StepKeeps(cfg, s, ms[0]);
      StepShows(cfg, s, ms[0], t);
      var x, rest := Crossing(cfg, s.b, ms[0]), TrafficOver(cfg, Step(cfg, s, ms[0]), ms[1..]);
      RunShows(cfg, Step(cfg, s, ms[0]), ms[1..], t.Then(x));
      ThenAssociative(t, x, rest);
    }
  }

  /** Over every run from reset the ledger is what the pins handed over: each flit that was valid
      while ready, and no other. */
  lemma LedgerIsTraffic(cfg: Config, state: seq<Entry>, ms: seq<Moment>)
    requires cfg.depth > 0 && |state| == N_TAGS
    requires (ResetInv(cfg, state); Legal(cfg, Sys(AfterReset(state), EMPTY_LOG), ms))
    ensures (ResetInv(cfg, state);
             Shows(Run(cfg, Sys(AfterReset(state), EMPTY_LOG), ms),
                   TrafficOver(cfg, Sys(AfterReset(state), EMPTY_LOG), ms)))
  {
    hide Inv, Run, Legal, AfterReset, TrafficOver, Shows;
    ResetInv(cfg, state);
    var s := Sys(AfterReset(state), EMPTY_LOG);
    assert Shows(s, NO_TRAFFIC) by { ResetShows(state); }
    RunShows(cfg, s, ms, NO_TRAFFIC);
    ThenNothing(TrafficOver(cfg, s, ms));
  }

  lemma ResetShows(state: seq<Entry>)
    requires |state| == N_TAGS
    ensures Shows(Sys(AfterReset(state), EMPTY_LOG), NO_TRAFFIC)
  {
  }

  // ---- Encodings, in numbers ----

  /** The Req of a read, */
  predicate IsReqOf(t: ReadTxn, f: CxlReq) {
    && f == CxlReq(if t.req.opcode == 0x04 then 1 else if t.req.opcode == 0x03 then 2 else 5,
                   if 1 <= t.req.size <= 4 then t.req.size else 1, 0, 0, 0, t.tag, t.req.addr, 0)
    && t.req.opcode !in {0x1D, 0x1C, 0x19}
  }

  /** a RwD beat of a write, */
  predicate IsRwdOf(t: WriteTxn, d: ChiDat, f: CxlRwd) {
    && f == CxlRwd(if t.req.opcode == 0x1C then 4 else 3, if 1 <= t.req.size <= 4 then t.req.size else 1,
                   t.tag, t.req.addr, 0, 0, d.poison, d.be, d.data)
    && t.req.opcode in {0x1D, 0x1C, 0x19}
  }

  /** a CompData beat of a read, */
  predicate IsCompDataOf(t: ReadTxn, d: CxlDrs, allBe: nat, f: ChiDat) {
    f == ChiDat(4, t.req.txnId, 0, 0, 0, d.poison, allBe, d.data) && d.tag == t.tag
  }

  /** and the two responses of a write. */
  predicate IsCompOf(t: WriteTxn, f: ChiRsp) { f == ChiRsp(0, 4, t.req.txnId, t.tag, 0) }

  predicate IsDbidRespOf(t: WriteTxn, f: ChiRsp) { f == ChiRsp(0, 3, t.req.txnId, t.tag, 0) }

  ghost predicate ReadsEncoded(cfg: Config, l: Log) {
    && |l.reqOut| <= |l.rds| && |l.compOut| <= |l.drsIn|
    && (forall i :: 0 <= i < |l.rds| ==> l.rds[i].req.opcode !in {0x1D, 0x1C, 0x19})
    && (forall i :: 0 <= i < |l.reqOut| ==> IsReqOf(l.rds[i], l.reqOut[i]))
    && (forall j :: 0 <= j < |l.compOut| ==>
          && l.compOut[j].read < |l.rds| && l.drsIn[j].read == l.compOut[j].read
          && IsCompDataOf(l.rds[l.compOut[j].read], l.drsIn[j].flit, cfg.allBe, l.compOut[j].flit))
  }

  ghost predicate WritesEncoded(b: Bridge, l: Log) {
    var c, d := Comps(l.rspOut), Dbids(l.rspOut);
    && |l.rwdOut| <= |b.dat.written| && |c| <= |l.ndrIn| && |d| <= |l.wrs|
    && (forall i :: 0 <= i < |l.wrs| ==> l.wrs[i].req.opcode in {0x1D, 0x1C, 0x19})
    && (forall j :: 0 <= j < |l.rwdOut| ==>
          l.rwdOut[j].write < |l.wrs| && IsRwdOf(l.wrs[l.rwdOut[j].write], b.dat.written[j], l.rwdOut[j].flit))
    && (forall j :: 0 <= j < |c| ==> c[j].CompOut? && c[j].write < |l.wrs| && IsCompOf(l.wrs[c[j].write], c[j].flit))
    && (forall i :: 0 <= i < |d| ==> IsDbidRespOf(l.wrs[i], d[i]))
  }

  /** What the state RAM holds for each transaction that has a tag. */
  ghost predicate EntriesEncoded(b: Bridge, l: Log) {
    && |b.tags.state| == 16
    && (forall r :: 0 <= r < |l.rds| && l.rds[r].Live() ==> IsEntryOf(l.rds[r].req, b.tags.state[l.rds[r].tag]))
    && (forall w :: 0 <= w < |l.wrs| && l.wrs[w].Live() ==> IsEntryOf(l.wrs[w].req, b.tags.state[l.wrs[w].tag]))
  }

  predicate IsEntryOf(q: ChiReq, e: Entry) {
    e == Entry(if 1 <= q.size <= 4 then q.size else 1, q.txnId, q.srcId)
  }

  lemma Encodings(cfg: Config, s: Sys)
    requires Inv(cfg, s)
    ensures ReadsEncoded(cfg, s.log) && WritesEncoded(s.b, s.log) && EntriesEncoded(s.b, s.log)
  {
    hide ReadSide, WriteSide, TagSide, ResetQuiet, WithinCredit, ReadsEncoded, WritesEncoded, EntriesEncoded;
    ReadEncodings(cfg, s.b, s.log);
    WriteEncodings(s.b, s.log);
    TagEncodings(s.b, s.log);
  }

  lemma ReadEncodings(cfg: Config, b: Bridge, l: Log)
    requires ReadOk(cfg, b, l)
    ensures ReadsEncoded(cfg, l)
  {
    hide Contiguous, CounterAt, BeatsOf, SumReturned, SumGot;
  }

  lemma WriteEncodings(b: Bridge, l: Log)
    requires WriteOk(b, l)
    ensures WritesEncoded(b, l)
  {
    hide CountTaken, CountComped, Comps, Dbids, Position;
    assert forall i :: 0 <= i < |l.wrs| ==> b.posted.written[i] == l.wrs[i].req.(txnId := l.wrs[i].tag);
    forall j | 0 <= j < |l.rwdOut|
      ensures l.rwdOut[j].write < |l.wrs| && IsRwdOf(l.wrs[l.rwdOut[j].write], b.dat.written[j], l.rwdOut[j].flit)
    {
      assert BeatAt(l.wrs, l.rwdOut, b.dat.written, j);
    }
    assert forall i :: 0 <= i < |Dbids(l.rspOut)| ==> DbidResps(l.wrs)[i] == Dbids(l.rspOut)[i];
  }

  lemma TagEncodings(b: Bridge, l: Log)
    requires TagsOk(b, l)
    ensures EntriesEncoded(b, l)
  {
    hide Account;
  }

  // ---- What one instant moves ----

  /** `s'` is `s` after the traffic `x`. */
  ghost predicate Moves(s: Sys, s': Sys, x: Traffic) {
    var l, l' := s.log, s'.log;
    && ReadReqs(l'.rds) == ReadReqs(l.rds) + Selected(x.req, false)
    && WriteReqs(l'.wrs) == WriteReqs(l.wrs) + Selected(x.req, true)
    && RspFlits(l'.rspOut) == RspFlits(l.rspOut) + x.rsp && BeatFlits(l'.compOut) == BeatFlits(l.compOut) + x.comp
    && l'.reqOut == l.reqOut + x.m2sReq && RwdFlits(l'.rwdOut) == RwdFlits(l.rwdOut) + x.m2sRwd
    && NdrFlits(l'.ndrIn) == NdrFlits(l.ndrIn) + x.ndr && BeatFlits(l'.drsIn) == BeatFlits(l.drsIn) + x.drs
    && s'.b.dat.written == s.b.dat.written + x.wrData
    && s'.b.drs.rcnt == s.b.drs.rcnt + |x.comp| && s'.b.np.rcnt == s.b.np.rcnt + |x.m2sReq|
    && s'.b.dat.rcnt == s.b.dat.rcnt + |x.m2sRwd|
    && |s'.b.posted.written| == |s.b.posted.written| + |Selected(x.req, true)|
    && |s'.b.np.written| == |s.b.np.written| + |Selected(x.req, false)|
    && |s'.b.ndr.written| == |s.b.ndr.written| + |x.ndr| && |s'.b.drs.written| == |s.b.drs.written| + |x.drs|
  }

  /** Some traffic that the ledger of `s` shows: the reads before the writes. */
  function Recorded(s: Sys): Traffic {
    Traffic(ReadReqs(s.log.rds) + WriteReqs(s.log.wrs), s.b.dat.written, RspFlits(s.log.rspOut),
            BeatFlits(s.log.compOut), s.log.reqOut, RwdFlits(s.log.rwdOut), NdrFlits(s.log.ndrIn),
            BeatFlits(s.log.drsIn))
  }

  lemma {:induction false} SelectedAll(s: seq<ChiReq>, write: bool)
    requires forall i :: 0 <= i < |s| ==> (s[i].opcode in {0x1D, 0x1C, 0x19} <==> write)
    ensures Selected(s, write) == s && Selected(s, !write) == []
  {
    if s != [] {
      SelectedAll(s[..|s| - 1], write);
      assert s == s[..|s| - 1] + [s[|s| - 1]];
    }
  }

  lemma ShowsRecorded(cfg: Config, s: Sys)
    requires Inv(cfg, s)
    ensures Shows(s, Recorded(s))
  {
    hide Inv, Selected, IsReqOf, IsRwdOf, IsCompDataOf, IsCompOf, IsDbidRespOf, IsEntryOf;
    Encodings(cfg, s);
    var r, w := ReadReqs(s.log.rds), WriteReqs(s.log.wrs);
    SelectedAll(r, false);
    SelectedAll(w, true);
    SelectedConcat(r, w, false);
    SelectedConcat(r, w, true);
  }

  lemma CrossingMovesInv(cfg: Config, s: Sys, m: Moment)
    requires cfg.depth > 0 && Inv(cfg, s) && Allowed(cfg, s, m)
    ensures s.b.WellFormed() && Moves(s, Step(cfg, s, m), Crossing(cfg, s.b, m))
  {
    hide Inv, Step, Allowed, Crossing, Recorded;
    StepKeeps(cfg, s, m);
    ShowsRecorded(cfg, s);
    StepShows(cfg, s, m, Recorded(s));
    var x := Crossing(cfg, s.b, m);
    SelectedConcat(Recorded(s).req, x.req, false);
    SelectedConcat(Recorded(s).req, x.req, true);
    CountsLogged(cfg, s);
    CountsLogged(cfg, Step(cfg, s, m));
  }

  lemma CountsLogged(cfg: Config, s: Sys)
    requires Inv(cfg, s)
    ensures |s.log.compOut| == s.b.drs.rcnt && |s.log.reqOut| == s.b.np.rcnt && |s.log.rwdOut| == s.b.dat.rcnt
    ensures |s.log.wrs| == |s.b.posted.written| && |s.log.rds| == |s.b.np.written|
    ensures |s.log.ndrIn| == |s.b.ndr.written| && |s.log.drsIn| == |s.b.drs.written|
  {
    hide TagSide, WithinCredit, ResetQuiet, Contiguous, CounterAt, Delivered, CompsSent, DbidsOwed;
  }

  /** The request that `i` offers is in `s'` under the tag at the head of the pool, a write with its
      DBIDResp; or it was not taken, and no request is. */
  ghost predicate Takes(cfg: Config, s: Sys, i: ClkIn, s': Sys) {
    var hs := s.b.clkReset[1] && i.reqValid && TakesRequest(cfg, s.b, i.open, i.req.opcode);
    var r, w := |s.log.rds|, |s.log.wrs|;
    if hs && i.req.opcode in {0x1D, 0x1C, 0x19} then
      && s'.b.posted.written == s.b.posted.written + [i.req.(txnId := s.b.tags.pool[0])]
      && s'.b.np.written == s.b.np.written
      && |s'.log.rds| == r && |s'.log.wrs| == w + 1
      && s'.log.wrs[w].req == i.req && s'.log.wrs[w].tag == s.b.tags.pool[0]
      && s'.b.rspInt != [] && IsDbidRespOf(s'.log.wrs[w], s'.b.rspInt[|s'.b.rspInt| - 1])
    else if hs then
      && s'.b.np.written == s.b.np.written + [i.req.(txnId := s.b.tags.pool[0])]
      && s'.b.posted.written == s.b.posted.written
      && |s'.log.wrs| == w && |s'.log.rds| == r + 1
      && s'.log.rds[r].req == i.req && s'.log.rds[r].tag == s.b.tags.pool[0]
    else
      && s'.b.posted.written == s.b.posted.written && s'.b.np.written == s.b.np.written
      && |s'.log.rds| == r && |s'.log.wrs| == w
  }

  lemma InstantDbids(cfg: Config, b: Bridge, clk: Option<ClkIn>, cxl: Option<CxlIn>)
    requires b.WellFormed() && b.Ordered(cfg.depth)
    ensures var b' := b.Instant(cfg, clk, cxl);
            var go := clk.Some? && b.ClkLive();
            var pops := go && b.RspHs(clk.value) && b.ndr.Empty();
            var pushes := go && b.ReqHs(cfg, clk.value) && IsWrite(clk.value.req.opcode);
            && (pops ==> b.rspInt != []) && (pushes ==> b.tags.pool != [])
            && b'.rspInt == (if pops then b.rspInt[1..] else b.rspInt)
                 + (if pushes then [b.DbidResp(clk.value)] else [])
  {
    hide Bridge.CompHs, Bridge.CompRspHs, Bridge.NdrHs, Bridge.DrsHs, Bridge.RwdLast, Bridge.DrsLast, Bridge.Tagged,
         Bridge.DbidResp, Bridge.CompData, Tags.Edge, IsWrite, TranslateDrs, TranslateNdr, Queue.WriteHalf,
         Queue.ReadHalf, Bridge.ClkSamples, Bridge.CxlSamples, Queue.Full, Queue.Occupancy;
    if clk.Some? && b.ReqHs(cfg, clk.value) {
      AcceptGates(cfg, b, clk.value);
    }
  }

  /** A request FIFO takes the tagged request when the opcode says so. */
  lemma RequestFifos(cfg: Config, b: Bridge, m: Moment)
    requires cfg.depth > 0 && b.WellFormed() && b.Ordered(cfg.depth) && m.clk.Some?
    ensures var b', i := b.Instant(cfg, m.clk, m.Cxl()), m.clk.value;
            var hs, write := b.ClkLive() && b.ReqHs(cfg, i), IsWrite(i.req.opcode);
            && (hs ==> |b.tags.pool| > 0)
            && b'.posted.written == b.posted.written + (if hs && write then [i.req.(txnId := b.tags.pool[0])] else [])
            && b'.np.written == b.np.written + (if hs && !write then [i.req.(txnId := b.tags.pool[0])] else [])
  {
    hide Bridge.Instant, Bridge.RwdLast, Bridge.RwdHs, Bridge.ReqOutHs, IsWrite, Bridge.WellFormed, Bridge.ReqHs,
         Queue.Edges, Config.PostedLimit, Config.NpLimit;
    InstantFifos(cfg, b, m.clk, m.Cxl());
    b.posted.EdgesOrdered(cfg.depth, PostedPorts(cfg, b, m.clk, m.Cxl()).w, PostedPorts(cfg, b, m.clk, m.Cxl()).r);
    b.np.EdgesOrdered(cfg.depth, NpPorts(cfg, b, m.clk, m.Cxl()).w, NpPorts(cfg, b, m.clk, m.Cxl()).r);
    if b.ReqHs(cfg, m.clk.value) {
      AcceptGates(cfg, b, m.clk.value);
    }
  }

  lemma RequestCrossing(cfg: Config, b: Bridge, m: Moment)
    requires b.WellFormed() && m.clk.Some?
    ensures var i := m.clk.value;
            var hs := b.clkReset[1] && i.reqValid && TakesRequest(cfg, b, i.open, i.req.opcode);
            var write := i.req.opcode in {0x1D, 0x1C, 0x19};
            && |Selected(Crossing(cfg, b, m).req, true)| == (if hs && write then 1 else 0)
            && |Selected(Crossing(cfg, b, m).req, false)| == (if hs && !write then 1 else 0)
            && (hs ==> Selected(Crossing(cfg, b, m).req, write) == [i.req])
  {
    hide TakesRequest, CxlCrossing, Bridge.RspData, Bridge.CompData;
    var i := m.clk.value;
    SelectedAll([i.req], i.req.opcode in {0x1D, 0x1C, 0x19});
    LinkTakesNone(cfg, b, m);
  }

  lemma LinkTakesNone(cfg: Config, b: Bridge, m: Moment)
    requires b.WellFormed() && m.clk.Some?
    ensures Crossing(cfg, b, m).req == ClkCrossing(cfg, b, m.clk.value).req
  {
    hide ClkCrossing;
  }

  /** The FIFOs hold the requests of the ledger under their tags. */
  lemma TaggedAlike(cfg: Config, s: Sys)
    requires Inv(cfg, s)
    ensures |s.b.posted.written| == |s.log.wrs| && |s.b.np.written| == |s.log.rds|
    ensures forall i :: 0 <= i < |s.log.wrs| ==> s.b.posted.written[i].txnId == s.log.wrs[i].tag
    ensures forall i :: 0 <= i < |s.log.rds| ==> s.b.np.written[i].txnId == s.log.rds[i].tag
  {
    hide TagSide, WithinCredit, ResetQuiet, Contiguous, CounterAt, Delivered, CompsSent, DbidsOwed;
  }

  lemma TakesInv(cfg: Config, s: Sys, m: Moment)
    requires cfg.depth > 0 && Inv(cfg, s) && Allowed(cfg, s, m) && m.clk.Some?
    ensures Takes(cfg, s, m.clk.value, Step(cfg, s, m))
  {
    hide ReadSide, WriteSide, TagSide, WithinCredit, ResetQuiet, DeviceOk, Bridge.Instant, LogClk, LogCxl, ClkPart,
         Crossing, TakesRequest, Bridge.ReqHs, Bridge.RspHs, Selected, IsWrite, Bridge.Ordered;
    var i, s' := m.clk.value, Step(cfg, s, m);
    StepKeeps(cfg, s, m);
    CrossingMovesInv(cfg, s, m);
    RequestCrossing(cfg, s.b, m);
    ClkWires(cfg, s.b, i);
    RequestFifos(cfg, s.b, m);
    TaggedAlike(cfg, s);
    TaggedAlike(cfg, s');
    InstantDbids(cfg, s.b, m.clk, m.Cxl());
    LastReq(s, s', m.clk.value.req, Crossing(cfg, s.b, m));
  }

  lemma LastReq(s: Sys, s': Sys, req: ChiReq, x: Traffic)
    requires Moves(s, s', x)
    ensures |s'.log.rds| == |s.log.rds| + |Selected(x.req, false)|
            && |s'.log.wrs| == |s.log.wrs| + |Selected(x.req, true)|
    ensures Selected(x.req, false) == [req] ==> s'.log.rds[|s.log.rds|].req == req
    ensures Selected(x.req, true) == [req] ==> s'.log.wrs[|s.log.wrs|].req == req
  {
    hide Selected;
    var r, w := ReadReqs(s'.log.rds), WriteReqs(s'.log.wrs);
    assert Selected(x.req, false) == [req] ==> r[|s.log.rds|] == req;
    assert Selected(x.req, true) == [req] ==> w[|s.log.wrs|] == req;
  }
}
