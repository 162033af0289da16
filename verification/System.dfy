/**
 The bridge with its host and its device: the ledger kept alongside, the device's contract,
 the invariant, and its preservation by every instant.
 */
module System {
  import opened Options
  import opened ResetSync
  import opened FifoSpec
  import opened SyncFifo
  import opened TagManager
  import opened Flits
  import opened BridgeSpec
  import opened Ledger
  import opened ReadPath
  import opened WritePath
  import opened TagLedger

  /** Inputs at a `cxl_clk` edge, and which transactions the device answers. */
  datatype CxlStep = CxlStep(cxl: CxlIn, drsRead: nat, ndrWrite: nat)

  datatype Sys = Sys(b: Bridge, log: Log)

  datatype Moment = Moment(clk: Option<ClkIn>, cxl: Option<CxlStep>)
  {
    function Cxl(): Option<CxlIn> { if cxl.Some? then Some(cxl.value.cxl) else None }
  }

  ghost predicate ReadOk(cfg: Config, b: Bridge, l: Log) {
    ReadSide(b.np, b.drs, l.rds, l.reqOut, l.drsIn, l.compOut, b.drsBeat, cfg.allBe)
  }

  ghost predicate WriteOk(b: Bridge, l: Log) {
    WriteSide(b.posted, b.dat, b.ndr, b.rspInt, l.wrs, l.rwdOut, l.ndrIn, l.rspOut, b.rwdBeat)
  }

  ghost predicate TagsOk(b: Bridge, l: Log) {
    TagSide(b.tags, l.rds, l.wrs, l.leaked, l.dropped)
  }

  /** What each half keeps, whatever the synchronizers sample. */
  ghost predicate DataInv(cfg: Config, s: Sys) {
    s.b.WellFormed() && ReadOk(cfg, s.b, s.log) && WriteOk(s.b, s.log) && TagsOk(s.b, s.log)
  }

  ghost predicate WithinCredit(cfg: Config, b: Bridge) {
    b.posted.Occupancy() <= cfg.PostedLimit() && b.np.Occupancy() <= cfg.NpLimit()
  }

  /** A domain still in reset has all its registers at their reset values. */
  ghost predicate ResetQuiet(b: Bridge) {
    && Monotone(b.clkReset) && Monotone(b.cxlReset)
    && (!b.ClkLive() ==>
          && Unwritten(b.posted) && Unwritten(b.np) && Unwritten(b.dat) && Unread(b.ndr) && Unread(b.drs)
          && b.rspInt == [] && b.tags == Unfilled(b.tags.state) && b.drsBeat == 0)
    && (!b.CxlLive() ==>
          && Unread(b.posted) && Unread(b.np) && Unread(b.dat) && Unwritten(b.ndr) && Unwritten(b.drs)
          && b.rwdBeat == 0)
  }

  /** The invariant of the whole system. */
  ghost predicate Inv(cfg: Config, s: Sys) {
    DataInv(cfg, s) && s.b.Ordered(cfg.depth) && WithinCredit(cfg, s.b) && ResetQuiet(s.b)
  }

  // ---- The ledger's entries for one edge ----

  ghost predicate LogShape(b: Bridge, l: Log) {
    && b.WellFormed()
    && |l.drsIn| == |b.drs.written| && |l.ndrIn| == |b.ndr.written|
    && (forall j :: 0 <= j < |l.drsIn| ==> l.drsIn[j].read < |l.rds|)
    && (forall j :: 0 <= j < |l.ndrIn| ==> l.ndrIn[j].write < |l.wrs|)
  }

  function Got(b: Bridge, l: Log, i: ClkIn): Option<nat>
    requires LogShape(b, l)
  {
    if b.CompHs(i) then Some(l.drsIn[b.drs.rcnt].read) else None
  }

  function Comped(b: Bridge, l: Log, i: ClkIn): Option<nat>
    requires LogShape(b, l)
  {
    if b.CompRspHs(i) then Some(l.ndrIn[b.ndr.rcnt].write) else None
  }

  function Accepted(cfg: Config, b: Bridge, i: ClkIn): Option<ChiReq> {
    if b.ReqHs(cfg, i) then Some(i.req) else None
  }

  function HeadTag(b: Bridge): Tag
    requires b.WellFormed()
  {
    if b.tags.pool == [] then 0 else b.tags.pool[0]
  }

  function LogClk(cfg: Config, b: Bridge, l: Log, i: ClkIn): Log
    requires LogShape(b, l)
  {
    if !b.ClkLive() then l
    else
      var relB := b.ReleaseB(i);
      l.(rds := ReadsAfter(l.rds, Got(b, l, i), Accepted(cfg, b, i), HeadTag(b)),
         wrs := WritesAfter(l.wrs, Comped(b, l, i), Accepted(cfg, b, i), HeadTag(b)),
         leaked := l.leaked + (if b.TagTaken(i) && !b.ReqHs(cfg, i) then multiset{HeadTag(b) as nat} else multiset{}),
         dropped := l.dropped + (if b.ReleaseA(i).Some? then OneIf(relB) else multiset{}),
         rspOut := if b.CompRspHs(i) then l.rspOut + [CompOut(Comped(b, l, i).value, b.RspData())]
                   else if b.RspHs(i) then l.rspOut + [DbidOut(b.RspData())]
                   else l.rspOut,
         compOut := if b.CompHs(i) then l.compOut + [ReadBeat(Got(b, l, i).value, l.drsIn[b.drs.rcnt].beat,
                                                              b.CompData())]
                    else l.compOut)
  }

  /** The device's contract, on the flits it actually hands over at this edge. */
  ghost predicate DeviceOk(cfg: Config, b: Bridge, l: Log, e: CxlStep) {
    && (b.CxlLive() && b.DrsHs(cfg, e.cxl) ==> DrsAllowed(l.rds, l.reqOut, e.drsRead, e.cxl.drs))
    && (b.CxlLive() && b.NdrHs(cfg, e.cxl) ==> NdrAllowed(l.wrs, l.rwdOut, e.ndrWrite, e.cxl.ndr))
  }

  function LogCxl(cfg: Config, b: Bridge, l: Log, e: CxlStep): Log
    requires LogShape(b, l) && DeviceOk(cfg, b, l, e)
  {
    if !b.CxlLive() then l
    else
      var r, w := e.drsRead, e.ndrWrite;
      var drs, ndr := b.DrsHs(cfg, e.cxl), b.NdrHs(cfg, e.cxl);
      l.(rds := if drs then l.rds[r := l.rds[r].(returned := l.rds[r].returned + 1)] else l.rds,
         wrs := if ndr then l.wrs[w := l.wrs[w].(ndrTaken := true)] else l.wrs,
         reqOut := if b.ReqOutHs(e.cxl) then l.reqOut + [b.ReqOutData()] else l.reqOut,
         rwdOut := if b.RwdHs(e.cxl) then l.rwdOut + [WriteBeat(b.posted.rcnt, b.rwdBeat, b.RwdData())] else l.rwdOut,
         drsIn := if drs then l.drsIn + [ReadBeat(r, l.rds[r].returned, e.cxl.drs)] else l.drsIn,
         ndrIn := if ndr then l.ndrIn + [NdrTaken(w, e.cxl.ndr)] else l.ndrIn)
  }

  lemma InvShape(cfg: Config, b: Bridge, l: Log)
    requires b.WellFormed() && ReadOk(cfg, b, l) && WriteOk(b, l)
    ensures LogShape(b, l)
    ensures |l.reqOut| == b.np.rcnt && |l.compOut| == b.drs.rcnt && |l.rwdOut| == b.dat.rcnt
  {
    hide Delivered, CompsSent, DbidsOwed, Commands, Comps, TranslateDrs, TranslateNdr, TranslateReq, TranslateWrite,
         IsWrite;
  }

  // ---- The read side over one clk edge ----

  lemma ReadSideSame(np: Queue<ChiReq>, np': Queue<ChiReq>, drs: Queue<ChiDat>, drs': Queue<ChiDat>, rds: seq<ReadTxn>,
                     reqOut: seq<CxlReq>, drsIn: seq<ReadBeat<CxlDrs>>, compOut: seq<ReadBeat<ChiDat>>, drsBeat: nat,
                     allBe: nat)
    requires ReadSide(np, drs, rds, reqOut, drsIn, compOut, drsBeat, allBe)
    requires np'.written == np.written && np'.rcnt == np.rcnt
    requires drs'.written == drs.written && drs'.rcnt == drs.rcnt
    ensures ReadSide(np', drs', rds, reqOut, drsIn, compOut, drsBeat, allBe)
  {
    hide Contiguous, CounterAt, Delivered, TranslateReq, TranslateDrs, IsWrite;
  }

  /** The state RAM gives the right LEN and TxnID for the beat at the head. */
  lemma HeadRecovered(cfg: Config, b: Bridge, l: Log)
    requires b.WellFormed() && ReadOk(cfg, b, l) && TagsOk(b, l) && LogShape(b, l)
    requires b.CompValid()
    ensures var h := l.drsIn[b.drs.rcnt];
            var t := l.rds[h.read];
            && t.Live() && h.read < |l.reqOut| && h.beat == t.got == b.drsBeat < t.Len()
            && TagOf(b.drs.Head().txnId) == t.tag
            && b.HeadEntry() == EntryOf(t.req)
            && b.CompData() == CompFlit(h.flit, t.req.txnId, cfg.allBe)
            && (b.DrsLast() <==> t.got + 1 == t.Len())
  {
    hide Requests, Delivered, Account, Beatwise, Contiguous, CounterAt;
    HeadBeat(b.drs, l.rds, |l.reqOut|, l.drsIn, b.drsBeat, cfg.allBe);
  }

  lemma ClkReadSide(cfg: Config, b: Bridge, l: Log, i: ClkIn, s: Samples)
    requires DataInv(cfg, Sys(b, l)) && LogShape(b, l) && b.ClkLive()
    ensures ReadOk(cfg, b.ClkHalf(cfg, i, s), LogClk(cfg, b, l, i))
  {
    hide Account, Remembered, Requests, Beatwise, Contiguous, CounterAt, Delivered, CompFlit, IsWrite, Tags.Edge,
         QueueEdge, WriteSide, Exclusive;
    var b', l' := b.ClkHalf(cfg, i, s), LogClk(cfg, b, l, i);
    var rds1, out1, drs1, beat1 := l.rds, l.compOut, b.drs, b.drsBeat;
    if b.CompHs(i) {
      HeadRecovered(cfg, b, l);
      HeadBeat(b.drs, l.rds, |l.reqOut|, l.drsIn, b.drsBeat, cfg.allBe);
      DeliverComp(b.np, b.drs, b'.drs, l.rds, l.reqOut, l.drsIn, l.compOut, b.drsBeat, b'.drsBeat, cfg.allBe);
      var r := l.drsIn[b.drs.rcnt].read;
      rds1, out1, drs1, beat1 := l.rds[r := l.rds[r].(got := l.rds[r].got + 1)], l'.compOut, b'.drs, b'.drsBeat;
    }
    assert ReadSide(b.np, drs1, rds1, l.reqOut, l.drsIn, out1, beat1, cfg.allBe);
    if b.ReqHs(cfg, i) && !IsWrite(i.req.opcode) {
      AcceptRead(b.np, b'.np, drs1, rds1, l.reqOut, l.drsIn, out1, beat1, cfg.allBe, i.req, HeadTag(b));
      ReadSideSame(b'.np, b'.np, drs1, b'.drs, l'.rds, l'.reqOut, l'.drsIn, l'.compOut, b'.drsBeat, cfg.allBe);
    } else {
      ReadSideSame(b.np, b'.np, drs1, b'.drs, l'.rds, l'.reqOut, l'.drsIn, l'.compOut, b'.drsBeat, cfg.allBe);
    }
  }

  // ---- The write side over one clk edge ----

  lemma WriteSideSame(posted: Queue<ChiReq>, posted': Queue<ChiReq>, dat: Queue<ChiDat>, dat': Queue<ChiDat>,
                      ndr: Queue<ChiRsp>, ndr': Queue<ChiRsp>, rspInt: seq<ChiRsp>, wrs: seq<WriteTxn>,
                      rwdOut: seq<WriteBeat>, ndrIn: seq<NdrTaken>, rspOut: seq<RspOut>, rwdBeat: nat)
    requires WriteSide(posted, dat, ndr, rspInt, wrs, rwdOut, ndrIn, rspOut, rwdBeat)
    requires posted'.written == posted.written && posted'.rcnt == posted.rcnt && posted'.ws1 >= posted.ws1
    requires dat'.written == dat.written && dat'.rcnt == dat.rcnt
    requires ndr'.written == ndr.written && ndr'.rcnt == ndr.rcnt
    ensures WriteSide(posted', dat', ndr', rspInt, wrs, rwdOut, ndrIn, rspOut, rwdBeat)
  {
    hide CompsSent, Comps, DbidsOwed, TranslateNdr, CountTaken, CountComped, IsWrite, Position;
    forall j | 0 <= j < |rwdOut| ensures BeatAt(wrs, rwdOut, dat'.written, j) {
      assert BeatAt(wrs, rwdOut, dat.written, j);
    }
  }

  lemma NdrRecovered(cfg: Config, b: Bridge, l: Log)
    requires b.WellFormed() && WriteOk(b, l) && TagsOk(b, l) && LogShape(b, l)
    requires !b.ndr.Empty()
    ensures var h := l.ndrIn[b.ndr.rcnt];
            && l.wrs[h.write].Live()
            && TagOf(b.ndr.Head().dbId) == l.wrs[h.write].tag
            && b.RspData() == CompRsp(h.flit, l.wrs[h.write].req.txnId)
  {
    hide Commands, Bursts, CompsSent, DbidsOwed, Account, Completions;
    HeadNdr(b.ndr, l.wrs, b.posted.rcnt, l.ndrIn);
  }

  lemma ClkWriteSide(cfg: Config, b: Bridge, l: Log, i: ClkIn, s: Samples)
    requires DataInv(cfg, Sys(b, l)) && LogShape(b, l) && b.ClkLive()
    ensures WriteOk(b.ClkHalf(cfg, i, s), LogClk(cfg, b, l, i))
  {
    hide Account, Remembered, Commands, Bursts, Completions, CompsSent, DbidsOwed, CompRsp, IsWrite, Comps, Tags.Edge,
         ReadSide, Exclusive, Bridge.DrsLast, Bridge.CompData, Bridge.ReqReady, TranslateNdr;
    var b', l' := b.ClkHalf(cfg, i, s), LogClk(cfg, b, l, i);
    var wrs1, out1, ndr1, int1 := l.wrs, l.rspOut, b.ndr, b.rspInt;
    if b.CompRspHs(i) {
      NdrRecovered(cfg, b, l);
      SendComp(b.posted, b.dat, b.ndr, b'.ndr, b.rspInt, l.wrs, l.rwdOut, l.ndrIn, l.rspOut, b.rwdBeat);
      var w := l.ndrIn[b.ndr.rcnt].write;
      wrs1, out1, ndr1 := l.wrs[w := l.wrs[w].(comped := true)], l'.rspOut, b'.ndr;
    } else if b.RspHs(i) {
      SendDbid(b.posted, b.dat, b.ndr, b.rspInt, l.wrs, l.rwdOut, l.ndrIn, l.rspOut, b.rwdBeat);
      out1, int1 := l'.rspOut, b.rspInt[1..];
    }
    assert WriteSide(b.posted, b.dat, ndr1, int1, wrs1, l.rwdOut, l.ndrIn, out1, b.rwdBeat);
    TakeData(b.posted, b.dat, b'.dat, ndr1, int1, wrs1, l.rwdOut, l.ndrIn, out1, b.rwdBeat);
    if b.ReqHs(cfg, i) && IsWrite(i.req.opcode) {
      AcceptGates(cfg, b, i);
      AcceptWrite(b.posted, b'.posted, b'.dat, ndr1, int1, wrs1, l.rwdOut, l.ndrIn, out1, b.rwdBeat, i.req, HeadTag(b));
      WriteSideSame(b'.posted, b'.posted, b'.dat, b'.dat, ndr1, b'.ndr, b'.rspInt, l'.wrs, l'.rwdOut, l'.ndrIn,
                    l'.rspOut, b'.rwdBeat);
    } else {
      WriteSideSame(b.posted, b'.posted, b'.dat, b'.dat, ndr1, b'.ndr, b'.rspInt, l'.wrs, l'.rwdOut, l'.ndrIn,
                    l'.rspOut, b'.rwdBeat);
    }
  }

  lemma AcceptGates(cfg: Config, b: Bridge, i: ClkIn)
    requires b.ReqHs(cfg, i)
    ensures b.TagTaken(i) && b.tags.pool != []
    ensures IsWrite(i.req.opcode) ==> !b.posted.Full(cfg.depth) && |b.rspInt| != RSP_INT_DEPTH
    ensures !IsWrite(i.req.opcode) ==> !b.np.Full(cfg.depth)
  {
  }

  // ---- The tags over one clk edge ----

  lemma ClkReleases(cfg: Config, b: Bridge, l: Log, i: ClkIn)
    requires DataInv(cfg, Sys(b, l)) && LogShape(b, l)
    ensures ReleasesMatch(l.rds, l.wrs, Got(b, l, i), Comped(b, l, i), b.ReleaseA(i), b.ReleaseB(i))
  {
    hide ReadSide, WriteSide, TagSide, CompFlit, CompRsp, Bridge.DrsLast;
    if b.CompHs(i) { HeadRecovered(cfg, b, l); }
    if b.CompRspHs(i) { NdrRecovered(cfg, b, l); }
  }

  lemma ClkTags(cfg: Config, b: Bridge, l: Log, i: ClkIn, s: Samples)
    requires DataInv(cfg, Sys(b, l)) && LogShape(b, l) && b.ClkLive()
    ensures TagsOk(b.ClkHalf(cfg, i, s), LogClk(cfg, b, l, i))
  {
    hide ReadSide, WriteSide, TagSide, Bridge.DrsLast, Tags.Edge, QueueEdge, IsWrite, ReadsAfter, WritesAfter,
         ReleasesMatch;
    ClkReleases(cfg, b, l, i);
    if b.ReqHs(cfg, i) { AcceptGates(cfg, b, i); }
    ClkEdgeTags(b.tags, l.rds, l.wrs, l.leaked, l.dropped, i.reqValid && i.open, EntryOf(i.req),
                Got(b, l, i), Comped(b, l, i), b.ReleaseA(i), b.ReleaseB(i), Accepted(cfg, b, i), HeadTag(b));
  }

  lemma ClkHalfKeeps(cfg: Config, b: Bridge, l: Log, i: ClkIn, s: Samples)
    requires DataInv(cfg, Sys(b, l))
    requires b.ndr.ws0 <= |b.ndr.written| && b.drs.ws0 <= |b.drs.written|
    requires b.ndr.ws1 <= b.ndr.ws0 && b.drs.ws1 <= b.drs.ws0
    ensures LogShape(b, l)
    ensures DataInv(cfg, Sys(b.ClkHalf(cfg, i, s), LogClk(cfg, b, l, i)))
  {
    hide ReadSide, WriteSide, TagSide;
    InvShape(cfg, b, l);
    if b.ClkLive() {
      ClkReadSide(cfg, b, l, i, s);
      ClkWriteSide(cfg, b, l, i, s);
      ClkTags(cfg, b, l, i, s);
      ClkWellFormed(cfg, b, i, s);
    }
  }

  lemma ClkWellFormed(cfg: Config, b: Bridge, i: ClkIn, s: Samples)
    requires b.WellFormed()
    requires b.ndr.ws1 <= b.ndr.ws0 <= |b.ndr.written| && b.drs.ws1 <= b.drs.ws0 <= |b.drs.written|
    ensures b.ClkHalf(cfg, i, s).WellFormed()
  {
    hide IsWrite, Bridge.DrsLast, Bridge.CompData, Bridge.ReqReady;
  }

  // ---- One cxl_clk edge ----

  lemma CxlReadSide(cfg: Config, b: Bridge, l: Log, e: CxlStep, s: Samples)
    requires DataInv(cfg, Sys(b, l)) && LogShape(b, l) && b.CxlLive() && DeviceOk(cfg, b, l, e)
    ensures ReadOk(cfg, b.CxlHalf(cfg, e.cxl, s), LogCxl(cfg, b, l, e))
  {
    hide Account, Remembered, Beatwise, Contiguous, CounterAt, Delivered, IsWrite, WriteSide, TranslateReq,
         TranslateDrs, Bridge.RwdLast, DrsAllowed;
    var b', l' := b.CxlHalf(cfg, e.cxl, s), LogCxl(cfg, b, l, e);
    if b.DrsHs(cfg, e.cxl) {
      TakeDrs(b.np, b.drs, b'.drs, l.rds, l.reqOut, l.drsIn, l.compOut, b.drsBeat, cfg.allBe, e.drsRead, e.cxl.drs);
    } else {
      ReadSideSame(b.np, b.np, b.drs, b'.drs, l.rds, l.reqOut, l.drsIn, l.compOut, b.drsBeat, cfg.allBe);
    }
    assert ReadSide(b.np, b'.drs, l'.rds, l.reqOut, l'.drsIn, l.compOut, b.drsBeat, cfg.allBe);
    if b.ReqOutHs(e.cxl) {
      SendReq(b.np, b'.np, b'.drs, l'.rds, l.reqOut, l'.drsIn, l.compOut, b.drsBeat, cfg.allBe);
    } else {
      ReadSideSame(b.np, b'.np, b'.drs, b'.drs, l'.rds, l.reqOut, l'.drsIn, l.compOut, b.drsBeat, cfg.allBe);
    }
  }

  lemma CxlWriteSide(cfg: Config, b: Bridge, l: Log, e: CxlStep, s: Samples)
    requires DataInv(cfg, Sys(b, l)) && LogShape(b, l) && b.CxlLive() && DeviceOk(cfg, b, l, e)
    requires b.posted.ws1 <= b.posted.ws0
    ensures WriteOk(b.CxlHalf(cfg, e.cxl, s), LogCxl(cfg, b, l, e))
  {
    hide Account, Remembered, Commands, Bursts, Completions, CompsSent, DbidsOwed, IsWrite, ReadSide, Comps,
         TranslateWrite, TranslateNdr, NdrAllowed, DrsAllowed, Beats;
    var b', l' := b.CxlHalf(cfg, e.cxl, s), LogCxl(cfg, b, l, e);
    if b.NdrHs(cfg, e.cxl) {
      TakeNdr(b.posted, b.dat, b.ndr, b'.ndr, b.rspInt, l.wrs, l.rwdOut, l.ndrIn, l.rspOut, b.rwdBeat, e.ndrWrite,
              e.cxl.ndr);
    } else {
      WriteSideSame(b.posted, b.posted, b.dat, b.dat, b.ndr, b'.ndr, b.rspInt, l.wrs, l.rwdOut, l.ndrIn, l.rspOut,
                    b.rwdBeat);
    }
    assert WriteSide(b.posted, b.dat, b'.ndr, b.rspInt, l'.wrs, l.rwdOut, l'.ndrIn, l.rspOut, b.rwdBeat);
    if b.RwdHs(e.cxl) {
      RwdLastIs(b, l'.wrs, l.rwdOut);
      SendRwd(b.posted, b'.posted, b.dat, b'.dat, b'.ndr, b.rspInt, l'.wrs, l.rwdOut, l'.ndrIn, l.rspOut, b.rwdBeat);
    } else {
      WriteSideSame(b.posted, b'.posted, b.dat, b'.dat, b'.ndr, b'.ndr, b.rspInt, l'.wrs, l.rwdOut, l'.ndrIn, l.rspOut,
                    b.rwdBeat);
    }
  }

  lemma RwdLastIs(b: Bridge, wrs: seq<WriteTxn>, rwdOut: seq<WriteBeat>)
    requires b.WellFormed() && b.RwdValid()
    requires Commands(b.posted, wrs) && Bursts(b.posted, b.dat, wrs, rwdOut, b.rwdBeat)
    ensures b.RwdLast() <==> b.rwdBeat + 1 == Beats(b.posted.Head().size)
    ensures b.rwdBeat < Beats(b.posted.Head().size) <= MAX_BEATS
  {
    hide TranslateWrite, IsWrite;
    HeadWrite(b.posted, b.dat, wrs, rwdOut, b.rwdBeat);
  }

  lemma CxlTags(cfg: Config, b: Bridge, l: Log, e: CxlStep, s: Samples)
    requires DataInv(cfg, Sys(b, l)) && LogShape(b, l) && b.CxlLive() && DeviceOk(cfg, b, l, e)
    ensures TagsOk(b.CxlHalf(cfg, e.cxl, s), LogCxl(cfg, b, l, e))
  {
    hide Account, Remembered, ReadSide, WriteSide, ReadTags, WriteTags;
    var l' := LogCxl(cfg, b, l, e);
    SameClaims(l.rds, l.wrs, l'.rds, l'.wrs);
  }

  lemma CxlHalfKeeps(cfg: Config, b: Bridge, l: Log, e: CxlStep, s: Samples)
    requires DataInv(cfg, Sys(b, l)) && LogShape(b, l) && DeviceOk(cfg, b, l, e)
    requires HeadAhead(b.posted) && HeadAhead(b.np) && HeadAhead(b.dat)
    ensures DataInv(cfg, Sys(b.CxlHalf(cfg, e.cxl, s), LogCxl(cfg, b, l, e)))
  {
    hide ReadSide, WriteSide, TagSide, DeviceOk;
    if b.CxlLive() {
      CxlReadSide(cfg, b, l, e, s);
      CxlWriteSide(cfg, b, l, e, s);
      CxlTags(cfg, b, l, e, s);
      CxlWellFormed(cfg, b, e.cxl, s);
    }
  }

  ghost predicate HeadAhead<T>(q: Queue<T>) {
    q.ws1 <= q.ws0 <= |q.written|
  }

  lemma CxlWellFormed(cfg: Config, b: Bridge, i: CxlIn, s: Samples)
    requires b.WellFormed()
    requires HeadAhead(b.posted) && HeadAhead(b.np) && HeadAhead(b.dat)
    ensures b.CxlHalf(cfg, i, s).WellFormed()
  {
    hide Bridge.RwdLast, TranslateDrs, TranslateNdr;
  }

  // ---- One instant ----

  /** The ports through which a FIFO sees one instant. */
  datatype Ports<T> = Ports(w: WritePort<T>, r: ReadPort)

  function PostedPorts(cfg: Config, b: Bridge, clk: Option<ClkIn>, cxl: Option<CxlIn>): Ports<ChiReq>
    requires b.WellFormed()
  {
    Ports(if clk.Some? && b.ClkLive()
          then WriteTick(b.ReqHs(cfg, clk.value) && IsWrite(clk.value.req.opcode),
                         if b.ReqHs(cfg, clk.value) then b.Tagged(clk.value) else clk.value.req, clk.value.late.posted)
          else WriteIdle,
          if cxl.Some? && b.CxlLive() then ReadTick(b.RwdHs(cxl.value) && b.RwdLast(), cxl.value.late.posted)
            else ReadIdle)
  }

  function NpPorts(cfg: Config, b: Bridge, clk: Option<ClkIn>, cxl: Option<CxlIn>): Ports<ChiReq>
    requires b.WellFormed()
  {
    Ports(if clk.Some? && b.ClkLive()
          then WriteTick(b.ReqHs(cfg, clk.value) && !IsWrite(clk.value.req.opcode),
                         if b.ReqHs(cfg, clk.value) then b.Tagged(clk.value) else clk.value.req, clk.value.late.np)
          else WriteIdle,
          if cxl.Some? && b.CxlLive() then ReadTick(b.ReqOutHs(cxl.value), cxl.value.late.np) else ReadIdle)
  }

  function DatPorts(cfg: Config, b: Bridge, clk: Option<ClkIn>, cxl: Option<CxlIn>): Ports<ChiDat>
    requires b.WellFormed()
  {
    Ports(if clk.Some? && b.ClkLive()
          then WriteTick(clk.value.wrValid && !b.dat.Full(cfg.depth), clk.value.wr, clk.value.late.dat)
          else WriteIdle,
          if cxl.Some? && b.CxlLive() then ReadTick(b.RwdHs(cxl.value), cxl.value.late.dat) else ReadIdle)
  }

  function NdrPorts(cfg: Config, b: Bridge, clk: Option<ClkIn>, cxl: Option<CxlIn>): Ports<ChiRsp>
    requires b.WellFormed()
  {
    Ports(if cxl.Some? && b.CxlLive()
          then WriteTick(b.NdrHs(cfg, cxl.value), TranslateNdr(cxl.value.ndr), cxl.value.late.ndr)
          else WriteIdle,
          if clk.Some? && b.ClkLive() then ReadTick(b.CompRspHs(clk.value), clk.value.late.ndr) else ReadIdle)
  }

  function DrsPorts(cfg: Config, b: Bridge, clk: Option<ClkIn>, cxl: Option<CxlIn>): Ports<ChiDat>
    requires b.WellFormed()
  {
    Ports(if cxl.Some? && b.CxlLive()
          then WriteTick(b.DrsHs(cfg, cxl.value), TranslateDrs(cxl.value.drs, cfg.allBe), cxl.value.late.drs)
          else WriteIdle,
          if clk.Some? && b.ClkLive() then ReadTick(b.CompHs(clk.value), clk.value.late.drs) else ReadIdle)
  }

  /** The `cxl_clk` domain sees the same wires before and after a `clk` edge. */
  lemma CxlWiresKept(cfg: Config, b: Bridge, i: ClkIn, s: Samples, j: CxlIn)
    requires b.WellFormed() && b.Ordered(cfg.depth)
    ensures var b1 := b.ClkHalf(cfg, i, s);
            && b1.WellFormed() && b1.CxlLive() == b.CxlLive()
            && b1.ReqOutHs(j) == b.ReqOutHs(j) && b1.RwdHs(j) == b.RwdHs(j)
            && (b.RwdHs(j) ==> b1.RwdLast() == b.RwdLast())
            && b1.NdrHs(cfg, j) == b.NdrHs(cfg, j) && b1.DrsHs(cfg, j) == b.DrsHs(cfg, j)
  {
    hide IsWrite, Tags.Edge, QueueEdge, Bridge.DrsLast, Bridge.ReqReady, Bridge.CompData;
    ClkWellFormed(cfg, b, i, s);
  }

  /** What each half does to each FIFO. */
  lemma HalfFifos(cfg: Config, b: Bridge, clk: Option<ClkIn>, cxl: Option<CxlIn>, s: Samples)
    requires b.WellFormed()
    ensures clk.Some? && b.ClkLive() ==>
              var b' := b.ClkHalf(cfg, clk.value, s);
              && b'.posted == b.posted.WriteHalf(cfg.depth, PostedPorts(cfg, b, clk, cxl).w.en,
                                                 PostedPorts(cfg, b, clk, cxl).w.item, s.posted)
              && b'.np == b.np.WriteHalf(cfg.depth, NpPorts(cfg, b, clk, cxl).w.en, NpPorts(cfg, b, clk, cxl).w.item,
                                         s.np)
              && b'.dat == b.dat.WriteHalf(cfg.depth, DatPorts(cfg, b, clk, cxl).w.en, clk.value.wr, s.dat)
              && b'.ndr == b.ndr.ReadHalf(b.CompRspHs(clk.value), s.ndr)
              && b'.drs == b.drs.ReadHalf(b.CompHs(clk.value), s.drs)
    ensures cxl.Some? && b.CxlLive() ==>
              var b' := b.CxlHalf(cfg, cxl.value, s);
              && b'.posted == b.posted.ReadHalf(b.RwdHs(cxl.value) && b.RwdLast(), s.posted)
              && b'.np == b.np.ReadHalf(b.ReqOutHs(cxl.value), s.np)
              && b'.dat == b.dat.ReadHalf(b.RwdHs(cxl.value), s.dat)
              && b'.ndr == b.ndr.WriteHalf(cfg.depth, b.NdrHs(cfg, cxl.value), TranslateNdr(cxl.value.ndr), s.ndr)
              && b'.drs == b.drs.WriteHalf(cfg.depth, b.DrsHs(cfg, cxl.value), TranslateDrs(cxl.value.drs, cfg.allBe),
                                           s.drs)
  {
    hide IsWrite, Tags.Edge, QueueEdge, TranslateDrs, TranslateNdr, Bridge.DrsLast, Bridge.RwdLast, Bridge.ReqReady,
         Bridge.CompData, Queue.WriteHalf, Queue.ReadHalf;
  }

  /** Two halves in sequence, with samples from before or after, are one instant. */
  lemma HalvesAreEdges<T>(q: Queue<T>, depth: nat, w: WritePort<T>, r: ReadPort)
    requires q.Ordered(depth)
    ensures var wNew := if w.WriteTick? && q.Writes(depth, w.en) then |q.written| + 1 else |q.written|;
            var rNew := if r.ReadTick? && q.Reads(r.en) then q.rcnt + 1 else q.rcnt;
            var q1 := if w.WriteTick? then q.WriteHalf(depth, w.en, w.item, if w.late then rNew else q.rcnt) else q;
            var q2 := if r.ReadTick? then q.ReadHalf(r.en, if r.late then wNew else |q.written|) else q;
            && q.Edges(depth, w, r) == (if r.ReadTick? then q1.ReadHalf(r.en, if r.late then wNew else |q.written|)
                                        else q1)
            && q.Edges(depth, w, r) == (if w.WriteTick?
                                        then q2.WriteHalf(depth, w.en, w.item, if w.late then rNew else q.rcnt) else q2)
            && (w.WriteTick? ==> |q1.written| == wNew && q1.rcnt == q.rcnt)
            && (r.ReadTick? ==> q2.rcnt == rNew && q2.written == q.written)
  {
  }

  /** An instant of the bridge is an instant of each of its FIFOs. */
  lemma InstantFifos(cfg: Config, b: Bridge, clk: Option<ClkIn>, cxl: Option<CxlIn>)
    requires b.WellFormed() && b.Ordered(cfg.depth)
    ensures var b' := b.Instant(cfg, clk, cxl);
            && b'.posted == b.posted.Edges(cfg.depth, PostedPorts(cfg, b, clk, cxl).w, PostedPorts(cfg, b, clk, cxl).r)
            && b'.np == b.np.Edges(cfg.depth, NpPorts(cfg, b, clk, cxl).w, NpPorts(cfg, b, clk, cxl).r)
            && b'.dat == b.dat.Edges(cfg.depth, DatPorts(cfg, b, clk, cxl).w, DatPorts(cfg, b, clk, cxl).r)
            && b'.ndr == b.ndr.Edges(cfg.depth, NdrPorts(cfg, b, clk, cxl).w, NdrPorts(cfg, b, clk, cxl).r)
            && b'.drs == b.drs.Edges(cfg.depth, DrsPorts(cfg, b, clk, cxl).w, DrsPorts(cfg, b, clk, cxl).r)
  {
    hide Bridge.ClkHalf, Bridge.CxlHalf, Bridge.RwdLast, Bridge.RwdHs, Bridge.ReqOutHs, Bridge.NdrHs, Bridge.DrsHs,
         Bridge.ReqHs, Bridge.CompHs, Bridge.CompRspHs, Queue.WriteHalf, Queue.ReadHalf, Queue.Edges, Queue.Full,
         Queue.Ordered, Queue.Writes, Queue.Reads, IsWrite, TranslateDrs, TranslateNdr, Bridge.WellFormed,
         Bridge.Tagged;
    HalfCounts(cfg, b, clk, cxl);
    var zero := Samples(0, 0, 0, 0, 0);
    var b1 := b.AfterClk(cfg, clk, cxl);
    InResetHalves(cfg, b, clk, cxl, zero);
    HalfFifos(cfg, b, clk, cxl, zero);
    HalfFifos(cfg, b, clk, cxl, b.ClkSamples(cfg, clk, cxl));
    InResetHalves(cfg, b, clk, cxl, b.ClkSamples(cfg, clk, cxl));
    HalfFifos(cfg, b1, clk, cxl, b.CxlSamples(cfg, clk, cxl));
    InResetHalves(cfg, b1, clk, cxl, b.CxlSamples(cfg, clk, cxl));
    if clk.Some? && cxl.Some? {
      CxlWiresKept(cfg, b, clk.value, b.ClkSamples(cfg, clk, cxl), cxl.value);
    }
    HalvesAreEdges(b.posted, cfg.depth, PostedPorts(cfg, b, clk, cxl).w, PostedPorts(cfg, b, clk, cxl).r);
    HalvesAreEdges(b.np, cfg.depth, NpPorts(cfg, b, clk, cxl).w, NpPorts(cfg, b, clk, cxl).r);
    HalvesAreEdges(b.dat, cfg.depth, DatPorts(cfg, b, clk, cxl).w, DatPorts(cfg, b, clk, cxl).r);
    HalvesAreEdges(b.ndr, cfg.depth, NdrPorts(cfg, b, clk, cxl).w, NdrPorts(cfg, b, clk, cxl).r);
    HalvesAreEdges(b.drs, cfg.depth, DrsPorts(cfg, b, clk, cxl).w, DrsPorts(cfg, b, clk, cxl).r);
  }

  lemma HalfCounts(cfg: Config, b: Bridge, clk: Option<ClkIn>, cxl: Option<CxlIn>)
    requires b.WellFormed()
    ensures ReadCount(b.posted, PostedPorts(cfg, b, clk, cxl).r) && ReadCount(b.np, NpPorts(cfg, b, clk, cxl).r)
         && ReadCount(b.dat, DatPorts(cfg, b, clk, cxl).r) && ReadCount(b.ndr, NdrPorts(cfg, b, clk, cxl).r)
         && ReadCount(b.drs, DrsPorts(cfg, b, clk, cxl).r)
    ensures WriteCount(b.posted, cfg.depth, PostedPorts(cfg, b, clk, cxl).w)
         && WriteCount(b.np, cfg.depth, NpPorts(cfg, b, clk, cxl).w)
         && WriteCount(b.dat, cfg.depth, DatPorts(cfg, b, clk, cxl).w)
         && WriteCount(b.ndr, cfg.depth, NdrPorts(cfg, b, clk, cxl).w)
         && WriteCount(b.drs, cfg.depth, DrsPorts(cfg, b, clk, cxl).w)
  {
  }

  ghost predicate ReadCount<T>(q: Queue<T>, r: ReadPort) {
    r.ReadTick? ==> q.ReadHalf(r.en, 0).rcnt == if q.Reads(r.en) then q.rcnt + 1 else q.rcnt
  }

  ghost predicate WriteCount<T>(q: Queue<T>, depth: nat, w: WritePort<T>) {
    w.WriteTick? ==> |q.WriteHalf(depth, w.en, w.item, 0).written| == if q.Writes(depth, w.en) then |q.written| + 1
      else |q.written|
  }

  lemma InResetHalves(cfg: Config, b: Bridge, clk: Option<ClkIn>, cxl: Option<CxlIn>, s: Samples)
    requires b.WellFormed()
    ensures clk.Some? && !b.ClkLive() ==> SameFifos(b, b.ClkHalf(cfg, clk.value, s))
    ensures cxl.Some? && !b.CxlLive() ==> SameFifos(b, b.CxlHalf(cfg, cxl.value, s))
    ensures clk.Some? ==> b.ClkHalf(cfg, clk.value, s).cxlReset == b.cxlReset
  {
    hide IsWrite, Tags.Edge, QueueEdge, TranslateDrs, TranslateNdr, Bridge.DrsLast, Bridge.RwdLast, Bridge.ReqReady,
         Bridge.CompData, Queue.WriteHalf, Queue.ReadHalf;
  }

  ghost predicate SameFifos(b: Bridge, b': Bridge) {
    b'.posted == b.posted && b'.np == b.np && b'.dat == b.dat && b'.ndr == b.ndr && b'.drs == b.drs
  }
}
