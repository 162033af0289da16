/**
 The work in flight, counted in handshakes: what each accepted request still owes on M2S Req,
 RwD, S2M, CHI RSP and CompData.
 */
module Drain {
  import opened Options
  import opened FifoSpec
  import opened Flits
  import opened BridgeSpec
  import opened Ledger
  import opened ReadPath
  import opened WritePath
  import opened TagLedger
  import opened System
  import opened Runs
  import opened Pins

  function SumReadLen(rds: seq<ReadTxn>): nat {
    if rds == [] then 0 else SumReadLen(rds[..|rds| - 1]) + rds[|rds| - 1].Len()
  }

  /** Handshakes still to come, channel by channel. */
  function Owed(s: Sys): int {
    (|s.log.rds| - |s.log.reqOut|)
    + (SumReadLen(s.log.rds) - SumReturned(s.log.rds))
    + (SumReadLen(s.log.rds) - SumGot(s.log.rds))
    + (SumLen(s.log.wrs) - |s.log.rwdOut|)
    + (|s.log.wrs| - CountTaken(s.log.wrs))
    + (|s.b.rspInt| + |s.log.wrs| - CountComped(s.log.wrs))
  }

  /** A read costs one Req, LEN DRS and LEN CompData handshakes; a write costs LEN RwD, one
      NDR, one DBIDResp and one Comp. */
  function CostOf(req: ChiReq): nat {
    if IsWrite(req.opcode) then Beats(req.size) + 3 else 1 + 2 * Beats(req.size)
  }

  function Cost(l: Log): nat {
    |l.rds| + 2 * SumReadLen(l.rds) + SumLen(l.wrs) + 3 * |l.wrs|
  }

  function Done(l: Log): nat {
    |l.reqOut| + |l.drsIn| + |l.compOut| + |l.rwdOut| + |l.ndrIn| + |l.rspOut|
  }

  lemma {:induction false} RspCount(s: seq<RspOut>)
    ensures |s| == |Dbids(s)| + |Comps(s)|
  {
    if s != [] {
      RspCount(s[..|s| - 1]);
    }
  }

  /** Work owed and work done make up the cost of everything accepted. */
  lemma OwedAccount(cfg: Config, s: Sys)
    requires Inv(cfg, s)
    ensures Owed(s) + Done(s.log) == Cost(s.log)
  {
    hide TagSide, Requests, Beatwise, Contiguous, CounterAt, BeatsOf, CompFlit, Commands, Bursts, CompsSent, Dbids,
         Comps, SumReadLen, SumReturned, SumGot, SumLen, CountTaken, CountComped, ResetQuiet, WithinCredit;
    InvShape(cfg, s.b, s.log);
    RspCount(s.log.rspOut);
    assert |Dbids(s.log.rspOut) + s.b.rspInt| == |s.log.wrs|;
  }

  lemma {:induction false} ReadSums(rds: seq<ReadTxn>)
    requires forall i :: 0 <= i < |rds| ==> rds[i].got <= rds[i].returned <= rds[i].Len()
    ensures SumGot(rds) <= SumReturned(rds) <= SumReadLen(rds)
    ensures SumGot(rds) == SumReadLen(rds) <==> forall i :: 0 <= i < |rds| ==> rds[i].got == rds[i].Len()
  {
    hide Beats;
    if rds != [] {
      ReadSums(rds[..|rds| - 1]);
      assert rds == rds[..|rds| - 1] + [rds[|rds| - 1]];
    }
  }

  lemma {:induction false} WriteCounts(wrs: seq<WriteTxn>)
    requires forall i :: 0 <= i < |wrs| ==> (wrs[i].comped ==> wrs[i].ndrTaken)
    ensures CountComped(wrs) <= CountTaken(wrs) <= |wrs|
    ensures CountComped(wrs) == |wrs| <==> forall i :: 0 <= i < |wrs| ==> wrs[i].comped
  {
    if wrs != [] {
      WriteCounts(wrs[..|wrs| - 1]);
      assert wrs == wrs[..|wrs| - 1] + [wrs[|wrs| - 1]];
    }
  }

  ghost predicate Drained<T>(q: Queue<T>) { q.rcnt == |q.written| }

  /** Nothing is in flight: every accepted read has had all its beats, every accepted write its
      DBIDResp, its burst and its Comp. */
  ghost predicate Quiet(s: Sys) {
    && (forall r :: 0 <= r < |s.log.rds| ==> s.log.rds[r].got == s.log.rds[r].Len())
    && (forall w :: 0 <= w < |s.log.wrs| ==> s.log.wrs[w].comped)
    && s.b.rspInt == []
    && |s.log.reqOut| == |s.log.rds| && |s.log.rwdOut| == SumLen(s.log.wrs)
  }

  /** What is owed is never negative, and zero exactly when nothing is in flight. */
  lemma OwedMeansInFlight(cfg: Config, s: Sys)
    requires Inv(cfg, s)
    ensures Owed(s) >= 0
    ensures Owed(s) == 0 <==> Quiet(s)
  {
    hide TagSide, Contiguous, CounterAt, BeatsOf, CompFlit, CompsSent, Dbids, Comps, SumReadLen, SumReturned, SumGot,
         SumLen, CountTaken, CountComped, ResetQuiet, WithinCredit, TranslateDrs, TranslateNdr, TranslateReq, IsWrite,
         Delivered, Bursts;
    ReadSums(s.log.rds);
    WriteCounts(s.log.wrs);
    RwdIsExpansion(s.b.posted, s.b.dat, s.log.wrs, s.log.rwdOut, s.b.rwdBeat);
  }

  lemma ReadLenSame(rds: seq<ReadTxn>, rds': seq<ReadTxn>)
    requires |rds| == |rds'| && forall i :: 0 <= i < |rds| ==> rds'[i].req == rds[i].req
    ensures SumReadLen(rds') == SumReadLen(rds)
  {
    if rds != [] {
      ReadLenSame(rds[..|rds| - 1], rds'[..|rds| - 1]);
    }
  }

  lemma WriteLenSame(wrs: seq<WriteTxn>, wrs': seq<WriteTxn>)
    requires |wrs| == |wrs'| && forall i :: 0 <= i < |wrs| ==> wrs'[i].req == wrs[i].req
    ensures SumLen(wrs') == SumLen(wrs)
  {
    if wrs != [] {
      WriteLenSame(wrs[..|wrs| - 1], wrs'[..|wrs| - 1]);
    }
  }

  lemma AfterCost(rds: seq<ReadTxn>, wrs: seq<WriteTxn>, got: Option<nat>, comped: Option<nat>, acc: Option<ChiReq>,
                  tag: Tag)
    requires got.Some? ==> got.value < |rds|
    requires comped.Some? ==> comped.value < |wrs|
    ensures var rds', wrs' := ReadsAfter(rds, got, acc, tag), WritesAfter(wrs, comped, acc, tag);
            (|rds'| + 2 * SumReadLen(rds') + SumLen(wrs') + 3 * |wrs'|)
            == |rds| + 2 * SumReadLen(rds) + SumLen(wrs) + 3 * |wrs| + (if acc.Some? then CostOf(acc.value) else 0)
  {
    hide IsWrite, Beats;
    var rds1, wrs1 := ReadsAfter(rds, got, None, tag), WritesAfter(wrs, comped, None, tag);
    ReadLenSame(rds, rds1);
    WriteLenSame(wrs, wrs1);
    if acc.Some? {
      var rds', wrs' := ReadsAfter(rds, got, acc, tag), WritesAfter(wrs, comped, acc, tag);
      assert !IsWrite(acc.value.opcode) ==> rds'[..|rds1|] == rds1 && wrs' == wrs1;
      assert IsWrite(acc.value.opcode) ==> wrs'[..|wrs1|] == wrs1 && rds' == rds1;
    }
  }

  /** Handshakes at one instant, read off the wires. */
  function HandshakesAt(cfg: Config, b: Bridge, m: Moment): nat {
    (if m.clk.Some? && b.ClkLive() && b.RspHs(m.clk.value) then 1 else 0)
    + (if m.clk.Some? && b.ClkLive() && b.CompHs(m.clk.value) then 1 else 0)
    + (if m.cxl.Some? && b.CxlLive() && b.ReqOutHs(m.cxl.value.cxl) then 1 else 0)
    + (if m.cxl.Some? && b.CxlLive() && b.RwdHs(m.cxl.value.cxl) then 1 else 0)
    + (if m.cxl.Some? && b.CxlLive() && b.NdrHs(cfg, m.cxl.value.cxl) then 1 else 0)
    + (if m.cxl.Some? && b.CxlLive() && b.DrsHs(cfg, m.cxl.value.cxl) then 1 else 0)
  }

  function AcceptedCost(cfg: Config, b: Bridge, m: Moment): nat {
    if m.clk.Some? && b.ClkLive() && b.ReqHs(cfg, m.clk.value) then CostOf(m.clk.value.req) else 0
  }

  lemma ClkDone(cfg: Config, b: Bridge, l: Log, i: ClkIn)
    requires LogShape(b, l) && b.ClkLive()
    ensures var l' := LogClk(cfg, b, l, i);
            && Done(l') == Done(l) + (if b.RspHs(i) then 1 else 0) + (if b.CompHs(i) then 1 else 0)
            && Cost(l') == Cost(l) + (if b.ReqHs(cfg, i) then CostOf(i.req) else 0)
  {
    hide SumReadLen, SumLen, IsWrite, ReadsAfter, WritesAfter, Bridge.ReqReady, Bridge.DrsLast, CostOf;
    AfterCost(l.rds, l.wrs, Got(b, l, i), Comped(b, l, i), Accepted(cfg, b, i), HeadTag(b));
  }

  lemma CxlDone(cfg: Config, b: Bridge, l: Log, e: CxlStep)
    requires LogShape(b, l) && DeviceOk(cfg, b, l, e) && b.CxlLive()
    ensures var l' := LogCxl(cfg, b, l, e);
            && Done(l') == Done(l) + (if b.ReqOutHs(e.cxl) then 1 else 0) + (if b.RwdHs(e.cxl) then 1 else 0)
                           + (if b.NdrHs(cfg, e.cxl) then 1 else 0) + (if b.DrsHs(cfg, e.cxl) then 1 else 0)
            && Cost(l') == Cost(l)
  {
    hide SumReadLen, SumLen, TranslateReq, TranslateWrite, Bridge.RwdLast;
    var l' := LogCxl(cfg, b, l, e);
    ReadLenSame(l.rds, l'.rds);
    WriteLenSame(l.wrs, l'.wrs);
  }

  /** Accepting a request adds its cost, every later handshake takes one off, and nothing else
      changes what is owed. */
  lemma OwedStep(cfg: Config, s: Sys, m: Moment)
    requires cfg.depth > 0 && Inv(cfg, s) && Allowed(cfg, s, m)
    ensures Inv(cfg, Step(cfg, s, m))
    ensures Owed(Step(cfg, s, m)) == Owed(s) + AcceptedCost(cfg, s.b, m) - HandshakesAt(cfg, s.b, m)
  {
    hide ReadSide, WriteSide, TagSide, DeviceOk, Bridge.Instant, Bridge.ClkHalf, LogClk, LogCxl, ResetQuiet,
         WithinCredit, Owed, Cost, Done, CostOf, Bridge.RspHs, Bridge.CompHs, Bridge.ReqOutHs, Bridge.RwdHs,
         Bridge.NdrHs, Bridge.DrsHs, Bridge.ReqHs;
    StepKeeps(cfg, s, m);
    InvShape(cfg, s.b, s.log);
    ClkPartKeeps(cfg, s, m);
    var s1 := ClkPart(cfg, s, m);
    OwedAccount(cfg, s);
    OwedAccount(cfg, Step(cfg, s, m));
    if m.clk.Some? {
      ClkInReset(cfg, s.b, s.log, m.clk.value);
      if s.b.ClkLive() { ClkDone(cfg, s.b, s.log, m.clk.value); }
    }
    if m.cxl.Some? {
      SameCxlWires(cfg, s, m);
      CxlInReset(cfg, s1.b, s1.log, m.cxl.value);
      if s1.b.CxlLive() { CxlDone(cfg, s1.b, s1.log, m.cxl.value); }
    }
  }

  lemma SameCxlWires(cfg: Config, s: Sys, m: Moment)
    requires Inv(cfg, s) && m.cxl.Some?
    ensures var b1, j := s.b.AfterClk(cfg, m.clk, m.Cxl()), m.cxl.value.cxl;
            && b1.CxlLive() == s.b.CxlLive()
            && b1.ReqOutHs(j) == s.b.ReqOutHs(j) && b1.RwdHs(j) == s.b.RwdHs(j)
            && b1.NdrHs(cfg, j) == s.b.NdrHs(cfg, j) && b1.DrsHs(cfg, j) == s.b.DrsHs(cfg, j)
  {
    hide ReadSide, WriteSide, TagSide, ResetQuiet, WithinCredit, Bridge.ClkHalf;
    if m.clk.Some? {
      CxlWiresKept(cfg, s.b, m.clk.value, s.b.ClkSamples(cfg, m.clk, m.Cxl()), m.cxl.value.cxl);
    }
  }

  lemma ClkInReset(cfg: Config, b: Bridge, l: Log, i: ClkIn)
    requires LogShape(b, l)
    ensures !b.ClkLive() ==> LogClk(cfg, b, l, i) == l
  {
  }

  lemma CxlInReset(cfg: Config, b: Bridge, l: Log, e: CxlStep)
    requires LogShape(b, l) && DeviceOk(cfg, b, l, e)
    ensures !b.CxlLive() ==> LogCxl(cfg, b, l, e) == l
  {
  }

  /** The cost of the requests of one instant, in numbers. */
  function CostsOf(reqs: seq<ChiReq>): nat {
    if reqs == [] then 0
    else
      var q := reqs[|reqs| - 1];
      var len := if 1 <= q.size <= 4 then q.size else 1;
      CostsOf(reqs[..|reqs| - 1]) + (if q.opcode in {0x1D, 0x1C, 0x19} then len + 3 else 1 + 2 * len)
  }

  /** Flits handed over on the channels after acceptance. */
  function Flow(x: Traffic): nat {
    |x.rsp| + |x.comp| + |x.m2sReq| + |x.m2sRwd| + |x.ndr| + |x.drs|
  }

  lemma ClkFlow(cfg: Config, b: Bridge, i: ClkIn)
    requires b.WellFormed() && b.Ordered(cfg.depth)
    ensures var x := ClkCrossing(cfg, b, i);
            && CostsOf(x.req) == (if b.ClkLive() && b.ReqHs(cfg, i) then CostOf(i.req) else 0)
            && Flow(x) == (if b.ClkLive() && b.RspHs(i) then 1 else 0) + (if b.ClkLive() && b.CompHs(i) then 1 else 0)
  {
    hide TakesRequest, Bridge.ReqHs, Bridge.RspHs, Bridge.CompHs, Bridge.RspData, Bridge.CompData, Bridge.Ordered,
         Bridge.WellFormed;
    ClkWires(cfg, b, i);
    assert [i.req][..0] == [];
  }

  lemma CxlFlow(cfg: Config, b: Bridge, j: CxlIn)
    requires CxlSided(cfg, b)
    ensures var x := CxlCrossing(cfg, b, j);
            && x.req == []
            && Flow(x) == (if b.CxlLive() && b.ReqOutHs(j) then 1 else 0) + (if b.CxlLive() && b.RwdHs(j) then 1 else 0)
                          + (if b.CxlLive() && b.NdrHs(cfg, j) then 1 else 0)
                          + (if b.CxlLive() && b.DrsHs(cfg, j) then 1 else 0)
  {
    hide Bridge.ReqOutHs, Bridge.RwdHs, Bridge.NdrHs, Bridge.DrsHs, Bridge.RwdData, Bridge.ReqOutData, CxlSided;
    CxlWires(cfg, b, j);
    assert b.WellFormed() by { CxlSidedIs(cfg, b); }
  }

  lemma CxlSidedIs(cfg: Config, b: Bridge)
    requires CxlSided(cfg, b)
    ensures b.WellFormed()
  {
  }

  lemma FlowThen(x: Traffic, y: Traffic)
    ensures Flow(x.Then(y)) == Flow(x) + Flow(y)
    ensures y.req == [] ==> x.Then(y).req == x.req
    ensures x.Then(y).req == [] <==> x.req == [] && y.req == []
  {
  }

  /** Handshakes and costs are what crosses the pins. */
  lemma HandshakesCross(cfg: Config, s: Sys, m: Moment)
    requires Inv(cfg, s)
    ensures s.b.WellFormed()
    ensures AcceptedCost(cfg, s.b, m) == CostsOf(Crossing(cfg, s.b, m).req)
    ensures AcceptedCost(cfg, s.b, m) == 0 <==> Crossing(cfg, s.b, m).req == []
    ensures HandshakesAt(cfg, s.b, m) == Flow(Crossing(cfg, s.b, m))
  {
    hide ReadSide, WriteSide, TagSide, ResetQuiet, WithinCredit, Bridge.ReqHs, Bridge.RspHs, Bridge.CompHs,
         Bridge.ReqOutHs, Bridge.RwdHs, Bridge.NdrHs, Bridge.DrsHs, ClkCrossing, CxlCrossing, Flow, CostsOf, CostOf;
    FlowNothing();
    if m.clk.Some? {
      ClkFlow(cfg, s.b, m.clk.value);
      CostsPositive(ClkCrossing(cfg, s.b, m.clk.value).req);
    }
    if m.cxl.Some? {
      CxlFlow(cfg, s.b, m.cxl.value.cxl);
      FlowThen(if m.clk.Some? then ClkCrossing(cfg, s.b, m.clk.value) else NO_TRAFFIC,
               CxlCrossing(cfg, s.b, m.cxl.value.cxl));
    }
  }

  lemma FlowNothing()
    ensures Flow(NO_TRAFFIC) == 0 && CostsOf([]) == 0
  {
  }

  lemma CostsPositive(reqs: seq<ChiReq>)
    ensures CostsOf(reqs) == 0 <==> reqs == []
  {
  }

  /** Handshakes over a run. */
  function HandshakesOver(cfg: Config, s: Sys, ms: seq<Moment>): nat
    requires cfg.depth > 0 && Inv(cfg, s) && Legal(cfg, s, ms)
    decreases |ms|
  {
    if ms == [] then 0
    else
      StepKeeps(cfg, s, ms[0]);
      HandshakesAt(cfg, s.b, ms[0]) + HandshakesOver(cfg, Step(cfg, s, ms[0]), ms[1..])
  }

  ghost predicate AcceptsNothing(cfg: Config, s: Sys, ms: seq<Moment>)
    requires cfg.depth > 0 && Inv(cfg, s) && Legal(cfg, s, ms)
    decreases |ms|
  {
    ms != [] ==>
      AcceptedCost(cfg, s.b, ms[0]) == 0
      && (StepKeeps(cfg, s, ms[0]); AcceptsNothing(cfg, Step(cfg, s, ms[0]), ms[1..]))
  }

  /** A drain: with nothing accepted on the way, the bridge and device are quiet exactly when
      as many handshakes have happened as were owed at the start, and never after more. */
  lemma {:induction false} DrainExact(cfg: Config, s: Sys, ms: seq<Moment>)
    requires cfg.depth > 0 && Inv(cfg, s) && Legal(cfg, s, ms) && AcceptsNothing(cfg, s, ms)
    ensures Owed(Run(cfg, s, ms)) == Owed(s) - HandshakesOver(cfg, s, ms)
    ensures HandshakesOver(cfg, s, ms) <= Owed(s)
    ensures Quiet(Run(cfg, s, ms)) <==> HandshakesOver(cfg, s, ms) == Owed(s)
    decreases |ms|
  {
    hide Step, Allowed, HandshakesAt, AcceptedCost, Inv, Owed, Quiet;
    if ms == [] {
      OwedMeansInFlight(cfg, s);
    } else {
      StepKeeps(cfg, s, ms[0]);
      OwedStep(cfg, s, ms[0]);
      DrainExact(cfg, Step(cfg, s, ms[0]), ms[1..]);
    }
  }

  /** Over a run too. */
  lemma {:induction false} HandshakesFlow(cfg: Config, s: Sys, ms: seq<Moment>)
    requires cfg.depth > 0 && Inv(cfg, s) && Legal(cfg, s, ms)
    ensures HandshakesOver(cfg, s, ms) == Flow(TrafficOver(cfg, s, ms))
    ensures AcceptsNothing(cfg, s, ms) <==> TrafficOver(cfg, s, ms).req == []
    decreases |ms|
  {
    hide Inv, Step, Allowed, HandshakesAt, AcceptedCost, Crossing, Flow;
    if ms == [] {
      FlowNothing();
    } else {
      StepKeeps(cfg, s, ms[0]);
      HandshakesCross(cfg, s, ms[0]);
      HandshakesFlow(cfg, Step(cfg, s, ms[0]), ms[1..]);
      FlowThen(Crossing(cfg, s.b, ms[0]), TrafficOver(cfg, Step(cfg, s, ms[0]), ms[1..]));
    }
  }

  lemma {:induction false} SumLenPrefix(wrs: seq<WriteTxn>, n: nat)
    requires n <= |wrs|
    ensures SumLen(wrs[..n]) + (|wrs| - n) <= SumLen(wrs)
  {
    if n < |wrs| {
      SumLenPrefix(wrs[..|wrs| - 1], n);
      assert wrs[..|wrs| - 1][..n] == wrs[..n];
    } else {
      assert wrs[..n] == wrs;
    }
  }

  lemma {:induction false} NoneLive(u: seq<Use>)
    requires forall i :: 0 <= i < |u| ==> !u[i].live
    ensures LiveTags(u) == multiset{}
  {
    if u != [] {
      NoneLive(u[..|u| - 1]);
    }
  }

  lemma ReadsDrained(cfg: Config, b: Bridge, l: Log)
    requires ReadOk(cfg, b, l)
    requires |l.reqOut| == |l.rds| && forall r :: 0 <= r < |l.rds| ==> l.rds[r].got == l.rds[r].Len()
    ensures b.np.rcnt == |b.np.written| && b.drs.rcnt == |b.drs.written| && b.drsBeat == 0
    ensures ReadTags(l.rds) == multiset{}
  {
    hide BeatsOf, CompFlit, SumReturned, SumGot, TranslateDrs, TranslateReq, IsWrite, LiveTags, Resuming, Ascending,
         Beats;
    ReadSums(l.rds);
    NoneLive(ReadUses(l.rds));
  }

  lemma WritesDrained(b: Bridge, l: Log)
    requires WriteOk(b, l)
    requires |l.rwdOut| == SumLen(l.wrs) && forall w :: 0 <= w < |l.wrs| ==> l.wrs[w].comped
    ensures b.posted.rcnt == |b.posted.written| && b.ndr.rcnt == |b.ndr.written| && b.rwdBeat == 0
    ensures WriteTags(l.wrs) == multiset{}
  {
    hide CompsSent, Dbids, Comps, SumLen, CountTaken, CountComped, TranslateNdr, IsWrite, LiveTags;
    WriteCounts(l.wrs);
    NoneLive(WriteUses(l.wrs));
    RwdIsExpansion(b.posted, b.dat, l.wrs, l.rwdOut, b.rwdBeat);
    SumLenPrefix(l.wrs, b.posted.rcnt);
  }

  /** Quiet in the ledger is empty in the hardware: every request and response FIFO is drained,
      the counters are at rest, and no transaction holds a tag. */
  lemma QuietIsEmpty(cfg: Config, s: Sys)
    requires Inv(cfg, s) && Quiet(s)
    ensures s.b.posted.Contents() == [] && s.b.np.Contents() == [] && s.b.ndr.Contents() == []
            && s.b.drs.Contents() == []
    ensures s.b.rwdBeat == 0 && s.b.drsBeat == 0
    ensures ReadTags(s.log.rds) == multiset{} && WriteTags(s.log.wrs) == multiset{}
  {
    hide ReadSide, WriteSide, TagSide, SumLen, ResetQuiet, WithinCredit, ReadTags, WriteTags;
    ReadsDrained(cfg, s.b, s.log);
    WritesDrained(s.b, s.log);
  }
}
