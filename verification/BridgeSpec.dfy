/**
 The bridge, clock edge by clock edge, over the FIFO model of `FifoSpec`: accept and credit
 gating, DBIDResp generation, response merge, TxnID recovery, burst counters and egress.
 Class `ChiToCxlBridge` builds the same machine from the register-level FIFOs and is proved to
 follow this one.
 */
module BridgeSpec {
  import opened Options
  import opened ResetSync
  import opened FifoSpec
  import opened SyncFifo
  import opened TagManager
  import opened Flits

  const RSP_INT_DEPTH: nat := 4
  const BEAT_MOD: nat := 8  // the beat counters have BEATCNT_W = 3 bits

  /** Parameters; `allBe` is the all-ones byte enable of the data width. */
  datatype Config = Config(depth: nat, postedCredits: nat, npCredits: nat, allBe: nat)
  {
    function PostedLimit(): nat { postedCredits % 0x1_0000 }
    function NpLimit(): nat { npCredits % 0x1_0000 }
  }

  /** Inputs at a `clk` edge. The last three fields say whether a synchronizer that samples at
      the instant of a `cxl_clk` edge, or is sampled there, already sees the new pointer. */
  datatype ClkIn = ClkIn(reqValid: bool, req: ChiReq, wrValid: bool, wr: ChiDat, open: bool,
                         rspReady: bool, compReady: bool, late: Late)

  datatype CxlIn = CxlIn(reqReady: bool, rwdReady: bool, ndrValid: bool, ndr: CxlNdr,
                         drsValid: bool, drs: CxlDrs, open: bool, late: Late)

  datatype Late = Late(posted: bool, np: bool, dat: bool, ndr: bool, drs: bool)

  /** Counts sampled by the synchronizers of one domain. */
  datatype Samples = Samples(posted: nat, np: nat, dat: nat, ndr: nat, drs: nat)

  datatype Bridge = Bridge(
    clkReset: ResetReg, cxlReset: ResetReg,
    posted: Queue<ChiReq>, np: Queue<ChiReq>, dat: Queue<ChiDat>,
    ndr: Queue<ChiRsp>, drs: Queue<ChiDat>,
    rspInt: seq<ChiRsp>, tags: Tags, drsBeat: nat, rwdBeat: nat)
  {
    ghost predicate WellFormed() {
      && HeadKnown(posted) && HeadKnown(np) && HeadKnown(dat) && HeadKnown(ndr) && HeadKnown(drs)
      && tags.WellFormed(N_TAGS)
      && |rspInt| <= RSP_INT_DEPTH
    }

    ghost predicate Ordered(depth: nat) {
      posted.Ordered(depth) && np.Ordered(depth) && dat.Ordered(depth) && ndr.Ordered(depth) && drs.Ordered(depth)
    }

    // ---- clk domain ----

    predicate ClkLive() { Released(clkReset) }

    predicate ReqReady(cfg: Config, i: ClkIn) {
      && i.open
      && tags.AllocRdy()
      && if IsWrite(i.req.opcode)
         then !posted.Full(cfg.depth) && posted.Occupancy() < cfg.PostedLimit() && |rspInt| != RSP_INT_DEPTH
         else !np.Full(cfg.depth) && np.Occupancy() < cfg.NpLimit()
    }

    /** `alloc_vld && alloc_rdy`: a tag is taken whether or not the request is accepted. */
    predicate TagTaken(i: ClkIn) { i.reqValid && i.open && tags.AllocRdy() }

    predicate ReqHs(cfg: Config, i: ClkIn) { i.reqValid && ReqReady(cfg, i) }

    function Tagged(i: ClkIn): ChiReq
      requires tags.pool != []
    {
      i.req.(txnId := tags.AllocTag())
    }

    function DbidResp(i: ClkIn): ChiRsp
      requires tags.pool != []
    {
      ChiRsp(0, CHI_RSP_DBIDRESP, i.req.txnId, tags.AllocTag(), CHI_RESPERR_OK)
    }

    predicate RspValid() { !ndr.Empty() || rspInt != [] }

    function RspData(): ChiRsp
      requires WellFormed() && RspValid()
    {
      if !ndr.Empty() then ndr.Head().(txnId := tags.state[TagOf(ndr.Head().dbId)].txnId) else rspInt[0]
    }

    predicate RspHs(i: ClkIn) { RspValid() && i.rspReady }

    predicate CompRspHs(i: ClkIn) { RspHs(i) && !ndr.Empty() }

    predicate CompValid() { !drs.Empty() }

    function HeadEntry(): Entry
      requires WellFormed() && CompValid()
    {
      tags.state[TagOf(drs.Head().txnId)]
    }

    function CompData(): ChiDat
      requires WellFormed() && CompValid()
    {
      drs.Head().(txnId := HeadEntry().txnId)
    }

    predicate CompHs(i: ClkIn) { CompValid() && i.compReady }

    predicate DrsLast()
      requires WellFormed() && CompValid()
    {
      drsBeat == (HeadEntry().len + BEAT_MOD - 1) % BEAT_MOD
    }

    function ReleaseA(i: ClkIn): Option<nat>
      requires WellFormed()
    {
      if CompRspHs(i) then Some(TagOf(ndr.Head().dbId)) else None
    }

    function ReleaseB(i: ClkIn): Option<nat>
      requires WellFormed()
    {
      if CompHs(i) && DrsLast() then Some(TagOf(drs.Head().txnId)) else None
    }

    function ClkHalf(cfg: Config, i: ClkIn, s: Samples): Bridge
      requires WellFormed()
    {
      if !ClkLive() then this.(clkReset := Shifted(clkReset))
      else
        var write := IsWrite(i.req.opcode);
        var hs := ReqHs(cfg, i);
        var item := if hs then Tagged(i) else i.req;
        this.(clkReset := Shifted(clkReset),
              posted := posted.WriteHalf(cfg.depth, hs && write, item, s.posted),
              np := np.WriteHalf(cfg.depth, hs && !write, item, s.np),
              dat := dat.WriteHalf(cfg.depth, i.wrValid && !dat.Full(cfg.depth), i.wr, s.dat),
              ndr := ndr.ReadHalf(CompRspHs(i), s.ndr),
              drs := drs.ReadHalf(CompHs(i), s.drs),
              rspInt := QueueEdge(rspInt, RSP_INT_DEPTH, hs && write, if hs then DbidResp(i) else ChiRsp(0, 0, 0, 0, 0),
                                  RspHs(i) && ndr.Empty()),
              tags := tags.Edge(N_TAGS, i.reqValid && i.open,
                                Entry(Beats(i.req.size), i.req.txnId, i.req.srcId), ReleaseA(i), ReleaseB(i)),
              drsBeat := if !CompHs(i) then drsBeat else if DrsLast() then 0 else (drsBeat + 1) % BEAT_MOD)
    }

    // ---- cxl_clk domain ----

    predicate CxlLive() { Released(cxlReset) }

    predicate ReqOutValid() { !np.Empty() }

    function ReqOutData(): CxlReq
      requires WellFormed() && ReqOutValid()
    {
      TranslateReq(np.Head(), TagOf(np.Head().txnId))
    }

    predicate ReqOutHs(i: CxlIn) { ReqOutValid() && i.reqReady }

    predicate RwdValid() { !posted.Empty() && !dat.Empty() }

    function RwdData(): CxlRwd
      requires WellFormed() && RwdValid()
    {
      TranslateWrite(posted.Head(), dat.Head(), TagOf(posted.Head().txnId))
    }

    predicate RwdHs(i: CxlIn) { RwdValid() && i.rwdReady }

    predicate RwdLast()
      requires WellFormed() && RwdValid()
    {
      rwdBeat == (Beats(posted.Head().size) + BEAT_MOD - 1) % BEAT_MOD
    }

    predicate NdrHs(cfg: Config, i: CxlIn) { i.ndrValid && i.open && !ndr.Full(cfg.depth) }

    predicate DrsHs(cfg: Config, i: CxlIn) { i.drsValid && i.open && !drs.Full(cfg.depth) }

    function CxlHalf(cfg: Config, i: CxlIn, s: Samples): Bridge
      requires WellFormed()
    {
      if !CxlLive() then this.(cxlReset := Shifted(cxlReset))
      else
        this.(cxlReset := Shifted(cxlReset),
              posted := posted.ReadHalf(RwdHs(i) && RwdLast(), s.posted),
              np := np.ReadHalf(ReqOutHs(i), s.np),
              dat := dat.ReadHalf(RwdHs(i), s.dat),
              ndr := ndr.WriteHalf(cfg.depth, NdrHs(cfg, i), TranslateNdr(i.ndr), s.ndr),
              drs := drs.WriteHalf(cfg.depth, DrsHs(cfg, i), TranslateDrs(i.drs, cfg.allBe), s.drs),
              rwdBeat := if !RwdHs(i) then rwdBeat else if RwdLast() then 0 else (rwdBeat + 1) % BEAT_MOD)
    }

    // ---- One instant ----

    /** The counts a synchronizer may catch: before the instant, or after it where the other
        domain's clock rises too. */
    function ClkSamples(cfg: Config, clk: Option<ClkIn>, cxl: Option<CxlIn>): Samples
      requires WellFormed()
    {
      var after := if cxl.Some? then CxlHalf(cfg, cxl.value, Samples(0, 0, 0, 0, 0)) else this;
      var l := if clk.Some? then clk.value.late else Late(false, false, false, false, false);
      Samples(if l.posted then after.posted.rcnt else posted.rcnt,
              if l.np then after.np.rcnt else np.rcnt,
              if l.dat then after.dat.rcnt else dat.rcnt,
              if l.ndr then |after.ndr.written| else |ndr.written|,
              if l.drs then |after.drs.written| else |drs.written|)
    }

    function CxlSamples(cfg: Config, clk: Option<ClkIn>, cxl: Option<CxlIn>): Samples
      requires WellFormed()
    {
      var after := if clk.Some? then ClkHalf(cfg, clk.value, Samples(0, 0, 0, 0, 0)) else this;
      var l := if cxl.Some? then cxl.value.late else Late(false, false, false, false, false);
      Samples(if l.posted then |after.posted.written| else |posted.written|,
              if l.np then |after.np.written| else |np.written|,
              if l.dat then |after.dat.written| else |dat.written|,
              if l.ndr then after.ndr.rcnt else ndr.rcnt,
              if l.drs then after.drs.rcnt else drs.rcnt)
    }

    function AfterClk(cfg: Config, clk: Option<ClkIn>, cxl: Option<CxlIn>): (b: Bridge)
      requires WellFormed() && Ordered(cfg.depth)
      ensures b.WellFormed()
    {
      if clk.Some? then ClkHalf(cfg, clk.value, ClkSamples(cfg, clk, cxl)) else this
    }

    /** A `clk` edge, a `cxl_clk` edge, or both at once. Each half reads only registers of its
        own domain, so taking them one after the other is taking them together. */
    function Instant(cfg: Config, clk: Option<ClkIn>, cxl: Option<CxlIn>): Bridge
      requires WellFormed() && Ordered(cfg.depth)
    {
      var b := AfterClk(cfg, clk, cxl);
      if cxl.Some? then b.CxlHalf(cfg, cxl.value, CxlSamples(cfg, clk, cxl)) else b
    }
  }

  /** What the reader may see is in the memory. */
  ghost predicate HeadKnown<T>(q: Queue<T>) {
    q.rcnt <= q.ws1 <= |q.written|
  }

  /** The state after assertion of `rst_n`; the state RAM keeps whatever it held. */
  function AfterReset(state: seq<Entry>): (b: Bridge)
    requires |state| == N_TAGS
    ensures b.WellFormed()
  {
    Bridge(Asserted(), Asserted(), Cleared(), Cleared(), Cleared(), Cleared(), Cleared(),
           [], Unfilled(state), 0, 0)
  }
}
