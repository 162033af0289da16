/** Steps and runs of the system, and the invariant over every run. */
module Runs {
  import opened Options
  import opened ResetSync
  import opened FifoSpec
  import opened SyncFifo
  import opened TagManager
  import opened Flits
  import opened BridgeSpec
  import opened Ledger
  import opened ReadPath
  import opened WritePath
  import opened TagLedger
  import opened System

  ghost predicate Allowed(cfg: Config, s: Sys, m: Moment) {
    m.cxl.Some? ==> DeviceOk(cfg, s.b, s.log, m.cxl.value)
  }

  function ClkPart(cfg: Config, s: Sys, m: Moment): Sys
    requires Inv(cfg, s)
  {
    InvShape(cfg, s.b, s.log);
    Sys(s.b.AfterClk(cfg, m.clk, m.Cxl()), if m.clk.Some? then LogClk(cfg, s.b, s.log, m.clk.value) else s.log)
  }

  function Step(cfg: Config, s: Sys, m: Moment): Sys
    requires Inv(cfg, s) && Allowed(cfg, s, m)
  {
    var s1 := ClkPart(cfg, s, m);
    ClkPartKeeps(cfg, s, m);
    Sys(s.b.Instant(cfg, m.clk, m.Cxl()), if m.cxl.Some? then LogCxl(cfg, s1.b, s1.log, m.cxl.value) else s1.log)
  }

  /** The contract looks at nothing a `clk` edge changes. */
  lemma ContractKept(cfg: Config, b: Bridge, l: Log, i: ClkIn, smp: Samples, e: CxlStep)
    requires DataInv(cfg, Sys(b, l)) && b.Ordered(cfg.depth) && LogShape(b, l)
    requires DeviceOk(cfg, b, l, e)
    ensures DeviceOk(cfg, b.ClkHalf(cfg, i, smp), LogClk(cfg, b, l, i), e)
  {
    hide ReadSide, WriteSide, TagSide, Bridge.ClkHalf, Bridge.DrsLast, IsWrite;
    CxlWiresKept(cfg, b, i, smp, e.cxl);
    var l' := LogClk(cfg, b, l, i);
    if b.CxlLive() && b.NdrHs(cfg, e.cxl) {
      var j :| 0 <= j < |l.rwdOut| && l.rwdOut[j].write == e.ndrWrite && l.rwdOut[j].beat + 1 == l.rwdOut[j].flit.len
        && l.rwdOut[j].flit.tag == e.cxl.ndr.tag;
      assert l'.rwdOut[j] == l.rwdOut[j];
    }
  }

  lemma ClkPartKeeps(cfg: Config, s: Sys, m: Moment)
    requires Inv(cfg, s) && Allowed(cfg, s, m)
    ensures var s1 := ClkPart(cfg, s, m);
            && DataInv(cfg, s1) && LogShape(s1.b, s1.log)
            && (m.cxl.Some? ==> DeviceOk(cfg, s1.b, s1.log, m.cxl.value))
            && HeadAhead(s1.b.posted) && HeadAhead(s1.b.np) && HeadAhead(s1.b.dat)
  {
    hide ReadSide, WriteSide, TagSide, DeviceOk, Bridge.ClkHalf, LogClk, WithinCredit, ResetQuiet;
    InvShape(cfg, s.b, s.log);
    if m.clk.Some? {
      var smp := s.b.ClkSamples(cfg, m.clk, m.Cxl());
      ClkHalfKeeps(cfg, s.b, s.log, m.clk.value, smp);
      ClkHeadAhead(cfg, s.b, m.clk.value, smp);
      if m.cxl.Some? {
        ContractKept(cfg, s.b, s.log, m.clk.value, smp, m.cxl.value);
      }
      InvShape(cfg, s.b.ClkHalf(cfg, m.clk.value, smp), LogClk(cfg, s.b, s.log, m.clk.value));
    }
  }

  lemma ClkHeadAhead(cfg: Config, b: Bridge, i: ClkIn, smp: Samples)
    requires b.WellFormed() && b.Ordered(cfg.depth)
    ensures var b1 := b.ClkHalf(cfg, i, smp);
            HeadAhead(b1.posted) && HeadAhead(b1.np) && HeadAhead(b1.dat)
  {
    hide IsWrite, Bridge.DrsLast, Bridge.CompData, Bridge.ReqReady, Tags.Edge, QueueEdge;
  }

  lemma InstantOrdered(cfg: Config, b: Bridge, clk: Option<ClkIn>, cxl: Option<CxlIn>)
    requires cfg.depth > 0 && b.WellFormed() && b.Ordered(cfg.depth)
    ensures b.Instant(cfg, clk, cxl).Ordered(cfg.depth)
    ensures WithinCredit(cfg, b) ==> WithinCredit(cfg, b.Instant(cfg, clk, cxl))
  {
    hide Bridge.Instant, Bridge.RwdLast, Bridge.RwdHs, Bridge.ReqOutHs, Bridge.NdrHs, Bridge.DrsHs, Bridge.CompHs,
         Bridge.CompRspHs, Bridge.Tagged, IsWrite, TranslateDrs, TranslateNdr, Bridge.WellFormed, Config.PostedLimit,
         Config.NpLimit, Tags.AllocRdy;
    InstantFifos(cfg, b, clk, cxl);
    b.posted.EdgesOrdered(cfg.depth, PostedPorts(cfg, b, clk, cxl).w, PostedPorts(cfg, b, clk, cxl).r);
    b.np.EdgesOrdered(cfg.depth, NpPorts(cfg, b, clk, cxl).w, NpPorts(cfg, b, clk, cxl).r);
    b.dat.EdgesOrdered(cfg.depth, DatPorts(cfg, b, clk, cxl).w, DatPorts(cfg, b, clk, cxl).r);
    b.ndr.EdgesOrdered(cfg.depth, NdrPorts(cfg, b, clk, cxl).w, NdrPorts(cfg, b, clk, cxl).r);
    b.drs.EdgesOrdered(cfg.depth, DrsPorts(cfg, b, clk, cxl).w, DrsPorts(cfg, b, clk, cxl).r);
    assert WithinCredit(cfg, b) ==> WithinCredit(cfg, b.Instant(cfg, clk, cxl)) by {
      OccupancyGrows(b.posted, cfg.depth, PostedPorts(cfg, b, clk, cxl).w, PostedPorts(cfg, b, clk, cxl).r);
      OccupancyGrows(b.np, cfg.depth, NpPorts(cfg, b, clk, cxl).w, NpPorts(cfg, b, clk, cxl).r);
    }
  }

  lemma OccupancyGrows<T>(q: Queue<T>, depth: nat, w: WritePort<T>, r: ReadPort)
    requires q.Ordered(depth)
    ensures q.Edges(depth, w, r).Occupancy() <= q.Occupancy() + (if w.WriteTick? && w.en then 1 else 0)
  {
  }

  lemma InstantReset(cfg: Config, b: Bridge, clk: Option<ClkIn>, cxl: Option<CxlIn>)
    requires b.WellFormed() && b.Ordered(cfg.depth) && ResetQuiet(b)
    ensures ResetQuiet(b.Instant(cfg, clk, cxl))
  {
    hide Bridge.ReqHs, Bridge.CompHs, Bridge.CompRspHs, Bridge.RspHs, Bridge.NdrHs, Bridge.DrsHs, Bridge.RwdLast,
         Bridge.DrsLast, Bridge.Tagged, Bridge.DbidResp, Bridge.CompData, Tags.Edge, QueueEdge, IsWrite, TranslateDrs,
         TranslateNdr, Bridge.Instant;
    InstantFifos(cfg, b, clk, cxl);
    InstantRegisters(cfg, b, clk, cxl);
    ReleasedStays(b.clkReset);
    ReleasedStays(b.cxlReset);
  }

  /** The registers outside the FIFOs change only on their own clock, out of reset. */
  lemma InstantRegisters(cfg: Config, b: Bridge, clk: Option<ClkIn>, cxl: Option<CxlIn>)
    requires b.WellFormed() && b.Ordered(cfg.depth)
    ensures var b' := b.Instant(cfg, clk, cxl);
            && b'.clkReset == (if clk.Some? then Shifted(b.clkReset) else b.clkReset)
            && b'.cxlReset == (if cxl.Some? then Shifted(b.cxlReset) else b.cxlReset)
            && (clk.None? || !b.ClkLive() ==> b'.rspInt == b.rspInt && b'.tags == b.tags && b'.drsBeat == b.drsBeat)
            && (cxl.None? || !b.CxlLive() ==> b'.rwdBeat == b.rwdBeat)
  {
    hide Bridge.ReqHs, Bridge.CompHs, Bridge.CompRspHs, Bridge.RspHs, Bridge.NdrHs, Bridge.DrsHs, Bridge.RwdLast,
         Bridge.DrsLast, Bridge.Tagged, Bridge.DbidResp, Bridge.CompData, Tags.Edge, QueueEdge, IsWrite, TranslateDrs,
         TranslateNdr, Queue.WriteHalf, Queue.ReadHalf, Bridge.ClkSamples, Bridge.CxlSamples;
  }

  /** The invariant holds after reset and is kept by every instant the device's contract allows. */
  lemma StepKeeps(cfg: Config, s: Sys, m: Moment)
    requires cfg.depth > 0 && Inv(cfg, s) && Allowed(cfg, s, m)
    ensures Inv(cfg, Step(cfg, s, m))
  {
    hide ReadSide, WriteSide, TagSide, DeviceOk, Bridge.ClkHalf, Bridge.CxlHalf, LogClk, LogCxl, WithinCredit,
         ResetQuiet, Bridge.Ordered, LogShape;
    ClkPartKeeps(cfg, s, m);
    var s1 := ClkPart(cfg, s, m);
    if m.cxl.Some? {
      CxlHalfKeeps(cfg, s1.b, s1.log, m.cxl.value, s.b.CxlSamples(cfg, m.clk, m.Cxl()));
    }
    InstantOrdered(cfg, s.b, m.clk, m.Cxl());
    InstantReset(cfg, s.b, m.clk, m.Cxl());
  }

  lemma ResetInv(cfg: Config, state: seq<Entry>)
    requires |state| == N_TAGS
    ensures Inv(cfg, Sys(AfterReset(state), EMPTY_LOG))
  {
    hide ReadSide, WriteSide, TagSide;
    EmptyReads(cfg);
    EmptyWrites();
    EmptyTags(state);
  }

  lemma EmptyReads(cfg: Config)
    ensures ReadSide(Cleared(), Cleared(), [], [], [], [], 0, cfg.allBe)
  {
    hide TranslateDrs, TranslateReq, IsWrite;
  }

  lemma EmptyWrites()
    ensures WriteSide(Cleared(), Cleared(), Cleared(), [], [], [], [], [], 0)
  {
    hide TranslateNdr, TranslateWrite, IsWrite;
    assert DbidResps([]) == [];
  }

  lemma EmptyTags(state: seq<Entry>)
    requires |state| == N_TAGS
    ensures TagSide(Unfilled(state), [], [], multiset{}, multiset{})
  {
    assert ReadUses([]) == [] && WriteUses([]) == [];
  }

  // ---- Runs ----

  /** A run since reset in which the device keeps its contract. */
  ghost predicate Legal(cfg: Config, s: Sys, ms: seq<Moment>)
    requires cfg.depth > 0 && Inv(cfg, s)
    decreases |ms|
  {
    ms == [] ||
    (Allowed(cfg, s, ms[0]) && (StepKeeps(cfg, s, ms[0]); Legal(cfg, Step(cfg, s, ms[0]), ms[1..])))
  }

  function Run(cfg: Config, s: Sys, ms: seq<Moment>): Sys
    requires cfg.depth > 0 && Inv(cfg, s) && Legal(cfg, s, ms)
    decreases |ms|
  {
    if ms == [] then s
    else
      StepKeeps(cfg, s, ms[0]);
      Run(cfg, Step(cfg, s, ms[0]), ms[1..])
  }

  /** The states reachable from reset. */
  ghost predicate Reachable(cfg: Config, s: Sys)
    requires cfg.depth > 0
  {
    exists state: seq<Entry>, ms: seq<Moment> ::
      && |state| == N_TAGS
      && (ResetInv(cfg, state); Legal(cfg, Sys(AfterReset(state), EMPTY_LOG), ms))
      && s == Run(cfg, Sys(AfterReset(state), EMPTY_LOG), ms)
  }

  lemma {:induction false} RunInv(cfg: Config, s: Sys, ms: seq<Moment>)
    requires cfg.depth > 0 && Inv(cfg, s) && Legal(cfg, s, ms)
    ensures Inv(cfg, Run(cfg, s, ms))
    decreases |ms|
  {
    hide Inv, Step, Allowed;
    if ms != [] {
      StepKeeps(cfg, s, ms[0]);
      RunInv(cfg, Step(cfg, s, ms[0]), ms[1..]);
    }
  }

  lemma ReachableInv(cfg: Config, s: Sys)
    requires cfg.depth > 0 && Reachable(cfg, s)
    ensures Inv(cfg, s)
  {
    hide Inv, Run, Legal, AfterReset;
    var state: seq<Entry>, ms: seq<Moment> :|
      && |state| == N_TAGS
      && (ResetInv(cfg, state); Legal(cfg, Sys(AfterReset(state), EMPTY_LOG), ms))
      && s == Run(cfg, Sys(AfterReset(state), EMPTY_LOG), ms);
    ResetInv(cfg, state);
    RunInv(cfg, Sys(AfterReset(state), EMPTY_LOG), ms);
  }
}
