/**
 The write bursts and the merged response stream in every reachable state, stability of
 stalled flits over any number of edges, and the count of handshakes still owed.
 */
module Streams {
  import opened Options
  import opened FifoSpec
  import opened SyncFifo
  import opened TagManager
  import opened Flits
  import opened BridgeSpec
  import opened Ledger
  import opened ReadPath
  import opened WritePath
  import opened TagLedger
  import opened System
  import opened Runs
  import opened Pins

  // ---- Write bursts ----

  /** RwD is a prefix of the expansion of the accepted writes, paired with the WrData stream;
      `rwd_beat_q` says how far into the head command it is. */
  lemma WritesSent(cfg: Config, s: Sys)
    requires cfg.depth > 0 && Reachable(cfg, s)
    ensures var l, wrs := s.log, s.log.wrs;
            && s.b.posted.rcnt <= |wrs|
            && |l.rwdOut| == SumLen(wrs[..s.b.posted.rcnt]) + s.b.rwdBeat <= |Expansion(wrs)|
            && |l.rwdOut| <= |s.b.dat.written|
            && (forall j :: 0 <= j < |l.rwdOut| ==>
                  var (w, k) := Expansion(wrs)[j];
                  && w < |wrs| && l.rwdOut[j].write == w && l.rwdOut[j].beat == k
                  && IsRwdOf(wrs[w], s.b.dat.written[j], l.rwdOut[j].flit))
            && (s.b.posted.rcnt == s.b.posted.ws1 ==> s.b.rwdBeat == 0)
            && (s.b.posted.rcnt < s.b.posted.ws1 ==>
                s.b.posted.rcnt < |wrs| && s.b.rwdBeat < wrs[s.b.posted.rcnt].Len())
  {
    hide Reachable, ReadSide, TagSide, Commands, DbidsOwed, Completions, CompsSent, TranslateWrite, Expansion, SumLen,
         ResetQuiet, WithinCredit, IsRwdOf;
    ReachableInv(cfg, s);
    Encodings(cfg, s);
    RwdIsExpansion(s.b.posted, s.b.dat, s.log.wrs, s.log.rwdOut, s.b.rwdBeat);
    CommandCount(s.b.posted, s.log.wrs);
    assert |Expansion(s.log.wrs)| == SumLen(s.log.wrs);
  }

  lemma CommandCount(posted: Queue<ChiReq>, wrs: seq<WriteTxn>)
    requires Commands(posted, wrs)
    ensures |posted.written| == |wrs|
  {
  }

  // ---- Responses ----

  /** RSP merges two in-order streams: a DBIDResp per accepted write, at most four waiting and
      none lost, and a Comp per completion taken, with the TxnID of the write that owns the tag. */
  lemma ResponsesMerged(cfg: Config, s: Sys)
    requires cfg.depth > 0 && Reachable(cfg, s)
    ensures var l := s.log;
            && Dbids(l.rspOut) + s.b.rspInt == DbidResps(l.wrs)
            && |l.wrs| - |Dbids(l.rspOut)| == |s.b.rspInt| <= RSP_INT_DEPTH
            && |Comps(l.rspOut)| <= |l.ndrIn|
            && (forall j :: 0 <= j < |l.ndrIn| ==>
                l.ndrIn[j].write < |l.wrs| && l.ndrIn[j].flit.tag == l.wrs[l.ndrIn[j].write].tag)
            && (forall j :: 0 <= j < |Comps(l.rspOut)| ==>
                  && Comps(l.rspOut)[j].CompOut? && Comps(l.rspOut)[j].write == l.ndrIn[j].write
                  && IsCompOf(l.wrs[l.ndrIn[j].write], Comps(l.rspOut)[j].flit))
            && (forall i :: 0 <= i < |Dbids(l.rspOut)| ==> IsDbidRespOf(l.wrs[i], Dbids(l.rspOut)[i]))
            && (forall i :: 0 <= i < |l.wrs| ==> l.wrs[i].req.opcode in {0x1D, 0x1C, 0x19})
            && (forall i :: 0 <= i < |l.rds| ==> l.rds[i].req.opcode !in {0x1D, 0x1C, 0x19})
            && (forall j, k :: 0 <= j < k < |l.ndrIn| ==> l.ndrIn[j].write != l.ndrIn[k].write)
  {
    hide Reachable, ReadSide, TagSide, Commands, Bursts, Comps, Dbids, CompRsp, CountTaken, CountComped, ResetQuiet,
         WithinCredit, IsCompOf, IsDbidRespOf;
    ReachableInv(cfg, s);
    Encodings(cfg, s);
    var d := Dbids(s.log.rspOut);
    assert DbidResps(s.log.wrs)[..|d|] == d;
  }

  /** The response that is due: a Comp with the TxnID of the write that owns the tag, if a completion
      is visible, and otherwise the DBIDResp of the oldest accepted write that has had none. */
  ghost predicate Due(s: Sys, f: ChiRsp) {
    var l, c, d := s.log, s.b.ndr.rcnt, |Dbids(s.log.rspOut)|;
    if s.b.ndr.rcnt < s.b.ndr.ws1 then
      && c < |l.ndrIn| && l.ndrIn[c].write < |l.wrs| && l.wrs[l.ndrIn[c].write].Live()
      && IsCompOf(l.wrs[l.ndrIn[c].write], f)
    else
      d < |l.wrs| && IsDbidRespOf(l.wrs[d], f)
  }

  lemma ShownIsDue(cfg: Config, s: Sys)
    requires Inv(cfg, s) && s.b.RspValid()
    ensures Due(s, s.b.RspData())
  {
    hide ReadSide, Commands, Bursts, CompsSent, TagSide, Dbids, Comps, WithinCredit, ResetQuiet, CountTaken,
         CountComped;
    InvShape(cfg, s.b, s.log);
    if !s.b.ndr.Empty() {
      NdrRecovered(cfg, s.b, s.log);
    } else {
      assert (Dbids(s.log.rspOut) + s.b.rspInt)[|Dbids(s.log.rspOut)|] == s.b.rspInt[0];
    }
  }

  /** What an edge does to the two sources of RSP, and which flit it delivers. */
  ghost predicate SourcesMove(cfg: Config, s: Sys, m: Moment, s': Sys)
    requires s.b.WellFormed()
  {
    var go, shown := m.clk.Some? && s.b.clkReset[1], s.b.ndr.rcnt < s.b.ndr.ws1;
    var hs := go && m.clk.value.rspReady && (shown || |s.b.rspInt| > 0);
    var fromNdr, fromInt := hs && shown, hs && !shown;
    var pushes := go && m.clk.value.reqValid && m.clk.value.req.opcode in {0x1D, 0x1C, 0x19}
                  && TakesRequest(cfg, s.b, m.clk.value.open, m.clk.value.req.opcode);
    && (fromInt ==> s.b.rspInt != []) && (pushes ==> s.b.tags.pool != [])
    && s'.b.ndr.rcnt == s.b.ndr.rcnt + (if fromNdr then 1 else 0)
    && s'.b.rspInt == (if fromInt then s.b.rspInt[1..] else s.b.rspInt)
         + (if pushes then [ChiRsp(0, 3, m.clk.value.req.txnId, s.b.tags.pool[0], 0)] else [])
    && |s'.log.rspOut| == |s.log.rspOut| + (if hs then 1 else 0)
    && (fromNdr ==>
        s'.log.rspOut[|s.log.rspOut|].flit ==
        s.b.ndr.Head().(txnId := s.b.tags.state[TagOf(s.b.ndr.Head().dbId)].txnId))
    && (fromInt ==> s'.log.rspOut[|s.log.rspOut|].flit == s.b.rspInt[0])
    && (hs ==> Due(s, s'.log.rspOut[|s.log.rspOut|].flit))
  }

  /** The flit that the ledger records for a RSP handshake is the one shown. */
  lemma RspLogged(cfg: Config, s: Sys, m: Moment)
    requires Inv(cfg, s) && Allowed(cfg, s, m)
    ensures s.b.WellFormed()
    ensures var l, l' := s.log, Step(cfg, s, m).log;
            var hs := m.clk.Some? && s.b.ClkLive() && s.b.RspHs(m.clk.value);
            && |l'.rspOut| == |l.rspOut| + (if hs then 1 else 0)
            && (hs ==> l'.rspOut[|l.rspOut|].flit == s.b.RspData())
  {
    hide ReadSide, WriteSide, TagSide, DeviceOk, Bridge.ReqHs, Bridge.ReleaseA, Bridge.ReleaseB, Bridge.TagTaken,
         Bridge.Instant, Bridge.ClkHalf, IsWrite, Accepted, Got, ReadsAfter, WritesAfter, ResetQuiet, WithinCredit,
         Bridge.CompHs, Bridge.CompData, Bridge.RspData, Bridge.DrsLast, Bridge.RwdData;
    ClkPartKeeps(cfg, s, m);
    InvShape(cfg, s.b, s.log);
    assert Step(cfg, s, m).log.rspOut == ClkPart(cfg, s, m).log.rspOut;
  }

  /** A RSP handshake pops the ndr FIFO or the DBIDResp FIFO, never both, and nothing else pops
      either; an accepted write finds room for its DBIDResp. */
  lemma OneSourcePops(cfg: Config, s: Sys, m: Moment)
    requires cfg.depth > 0 && Inv(cfg, s) && Allowed(cfg, s, m)
    ensures SourcesMove(cfg, s, m, Step(cfg, s, m))
  {
    hide ReadSide, WriteSide, TagSide, DeviceOk, Bridge.ReqHs, Bridge.Instant, LogClk, LogCxl, ClkPart, IsWrite,
         Dbids, ResetQuiet, WithinCredit, Due, TakesRequest;
    if m.clk.Some? {
      ClkWires(cfg, s.b, m.clk.value);
    }
    RspLogged(cfg, s, m);
    InstantFifos(cfg, s.b, m.clk, m.Cxl());
    InstantDbids(cfg, s.b, m.clk, m.Cxl());
    if s.b.RspValid() {
      ShownIsDue(cfg, s);
    }
  }

  // ---- Stability ----

  datatype Channel = ReqChannel | RwdChannel | CompChannel

  datatype Shown = Nothing | ReqFlit(req: CxlReq) | RwdFlit(rwd: CxlRwd) | CompFlit(comp: ChiDat)

  /** What a channel drives: valid, and all its data. */
  function Drives(b: Bridge, ch: Channel): Shown
    requires b.WellFormed()
  {
    match ch
    case ReqChannel => if b.np.rcnt < b.np.ws1 then ReqFlit(b.ReqOutData()) else Nothing
    case RwdChannel => if b.posted.rcnt < b.posted.ws1 && b.dat.rcnt < b.dat.ws1 then RwdFlit(b.RwdData()) else Nothing
    case CompChannel => if b.drs.rcnt < b.drs.ws1 then CompFlit(b.CompData()) else Nothing
  }

  predicate Taken(b: Bridge, ch: Channel, m: Moment) {
    match ch
    case ReqChannel => m.cxl.Some? && b.cxlReset[1] && m.cxl.value.cxl.reqReady
    case RwdChannel => m.cxl.Some? && b.cxlReset[1] && m.cxl.value.cxl.rwdReady
    case CompChannel => m.clk.Some? && b.clkReset[1] && m.clk.value.compReady
  }

  lemma HeadStays<T>(q: Queue<T>, depth: nat, w: WritePort<T>, r: ReadPort)
    requires q.Ordered(depth) && !q.Empty()
    requires r.ReadTick? ==> !r.en
    ensures var q' := q.Edges(depth, w, r);
            !q'.Empty() && q'.rcnt == q.rcnt < |q'.written| && q.rcnt < |q.written| && q'.Head() == q.Head()
  {
  }

  lemma InstantTags(cfg: Config, b: Bridge, clk: Option<ClkIn>, cxl: Option<CxlIn>)
    requires b.WellFormed() && b.Ordered(cfg.depth)
    ensures b.Instant(cfg, clk, cxl).tags
         == if clk.Some? && b.ClkLive()
            then b.tags.Edge(N_TAGS, clk.value.reqValid && clk.value.open, EntryOf(clk.value.req),
                             b.ReleaseA(clk.value), b.ReleaseB(clk.value))
            else b.tags
  {
    hide Bridge.ReqHs, Bridge.CompHs, Bridge.CompRspHs, Bridge.RspHs, Bridge.NdrHs, Bridge.DrsHs, Bridge.RwdLast,
         Bridge.DrsLast, Bridge.Tagged, Bridge.DbidResp, Bridge.CompData, Tags.Edge, QueueEdge, IsWrite, TranslateDrs,
         TranslateNdr, Queue.WriteHalf, Queue.ReadHalf, Bridge.ClkSamples, Bridge.CxlSamples;
  }

  lemma StalledStep(cfg: Config, s: Sys, m: Moment, ch: Channel)
    requires cfg.depth > 0 && Inv(cfg, s) && Allowed(cfg, s, m)
    requires !Taken(s.b, ch, m)
    ensures Inv(cfg, Step(cfg, s, m))
    ensures Drives(s.b, ch) != Nothing ==> Drives(Step(cfg, s, m).b, ch) == Drives(s.b, ch)
  {
    hide ReadSide, WriteSide, TagSide, DeviceOk, Bridge.Instant, ResetQuiet, WithinCredit, TranslateReq,
         TranslateWrite, Tags.Edge, Bridge.DrsLast;
    StepKeeps(cfg, s, m);
    var clk, cxl := m.clk, m.Cxl();
    InstantFifos(cfg, s.b, clk, cxl);
    match ch {
      case ReqChannel =>
        if s.b.ReqOutValid() {
          HeadStays(s.b.np, cfg.depth, NpPorts(cfg, s.b, clk, cxl).w, NpPorts(cfg, s.b, clk, cxl).r);
        }
      case RwdChannel =>
        if s.b.RwdValid() {
          HeadStays(s.b.posted, cfg.depth, PostedPorts(cfg, s.b, clk, cxl).w, PostedPorts(cfg, s.b, clk, cxl).r);
          HeadStays(s.b.dat, cfg.depth, DatPorts(cfg, s.b, clk, cxl).w, DatPorts(cfg, s.b, clk, cxl).r);
        }
      case CompChannel =>
        if s.b.CompValid() {
          HeadStays(s.b.drs, cfg.depth, DrsPorts(cfg, s.b, clk, cxl).w, DrsPorts(cfg, s.b, clk, cxl).r);
          InstantTags(cfg, s.b, clk, cxl);
          HeadEntryStays(cfg, s, m);
        }
    }
  }

  /** The state RAM entry behind a waiting CompData beat cannot be overwritten: its tag is live,
      and allocation hands out only free tags. */
  lemma HeadEntryStays(cfg: Config, s: Sys, m: Moment)
    requires Inv(cfg, s) && s.b.CompValid()
    ensures var tag := TagOf(s.b.drs.Head().txnId);
            tag !in s.b.tags.pool
            && (m.clk.Some? ==>
                  forall e, a, v, x ::
                    (a == None || a == s.b.ReleaseA(m.clk.value)) && (v == None || v == s.b.ReleaseB(m.clk.value)) ==>
                      s.b.tags.Edge(N_TAGS, x, e, a, v).state[tag] == s.b.tags.state[tag])
  {
    hide ReadSide, WriteSide, Account, Remembered, ResetQuiet, WithinCredit, QueueEdge, Bridge.DrsLast,
         Bridge.CompData;
    InvShape(cfg, s.b, s.log);
    HeadRecovered(cfg, s.b, s.log);
    TagsExclusive(s.b.tags, s.log.rds, s.log.wrs, s.log.leaked, s.log.dropped);
  }

  ghost predicate NeverTaken(cfg: Config, s: Sys, ms: seq<Moment>, ch: Channel)
    requires cfg.depth > 0 && Inv(cfg, s) && Legal(cfg, s, ms)
    decreases |ms|
  {
    ms != [] ==> !Taken(s.b, ch, ms[0]) && (StepKeeps(cfg, s, ms[0]); NeverTaken(cfg, Step(cfg, s, ms[0]), ms[1..], ch))
  }

  /** A flit that is shown and not taken stays, with every bit, over any number of edges of
      both clocks. */
  lemma {:induction false} StalledFlitsStay(cfg: Config, s: Sys, ms: seq<Moment>, ch: Channel)
    requires cfg.depth > 0 && Inv(cfg, s) && Legal(cfg, s, ms) && NeverTaken(cfg, s, ms, ch)
    requires Drives(s.b, ch) != Nothing
    ensures Inv(cfg, Run(cfg, s, ms))
    ensures Drives(Run(cfg, s, ms).b, ch) == Drives(s.b, ch)
    decreases |ms|
  {
    hide Step, Allowed, Taken, Drives, DataInv, Bridge.Ordered, WithinCredit, ResetQuiet;
    if ms != [] {
      StepKeeps(cfg, s, ms[0]);
      StalledStep(cfg, s, ms[0], ch);
      StalledFlitsStay(cfg, Step(cfg, s, ms[0]), ms[1..], ch);
    }
  }
}
