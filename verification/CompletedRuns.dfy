/**
 Completed runs for the scoreboard: two reads accepted and served to the end, with any two
 TxnIDs. The scoreboard passes the run exactly when the two differ.
 */
module CompletedRuns {
  import opened Options
  import opened FifoSpec
  import opened Flits
  import opened BridgeSpec
  import opened Ledger
  import opened ReadPath
  import opened WritePath
  import opened TagLedger
  import opened System
  import opened Runs
  import opened Responder
  import opened DeviceRun
  import opened Drain
  import opened Progress
  import opened Scoreboard
  import opened GoldRun
  import opened Witnesses

  // ---- Requests stay on the ledger ----

  ghost predicate SameRequests(l: Log, l': Log) {
    && |l'.rds| == |l.rds| && |l'.wrs| == |l.wrs|
    && forall i :: 0 <= i < |l.rds| ==> l'.rds[i].req == l.rds[i].req
  }

  lemma ClkKeepsRequests(cfg: Config, b: Bridge, l: Log, i: ClkIn)
    requires LogShape(b, l) && (b.ClkLive() ==> !b.ReqHs(cfg, i))
    ensures SameRequests(l, LogClk(cfg, b, l, i))
  {
    hide Bridge.ReqHs, Bridge.DrsLast, Bridge.CompData, Bridge.RspData, IsWrite;
  }

  lemma CxlKeepsRequests(cfg: Config, b: Bridge, l: Log, e: CxlStep)
    requires LogShape(b, l) && DeviceOk(cfg, b, l, e)
    ensures SameRequests(l, LogCxl(cfg, b, l, e))
  {
    hide Bridge.RwdData, Bridge.ReqOutData;
  }

  lemma StepKeepsRequests(cfg: Config, data: Pattern, w: World, x: Stimulus)
    requires Good(cfg, data, w) && Allowed(cfg, w.s, MomentOf(w, x)) && AcceptsNone(cfg, w.s.b, MomentOf(w, x))
    ensures SameRequests(w.s.log, WorldStep(cfg, data, w, x).s.log)
  {
    hide ReadSide, WriteSide, TagSide, Tracks, WithinCredit, ResetQuiet, DeviceOk, LogClk, LogCxl, Bridge.ClkHalf,
         Bridge.CxlHalf, DeviceEdge, AimAfter, Bridge.ReqHs;
    var m := MomentOf(w, x);
    ClkPartKeeps(cfg, w.s, m);
    InvShape(cfg, w.s.b, w.s.log);
    var s1 := ClkPart(cfg, w.s, m);
    if x.clk.Some? {
      ClkKeepsRequests(cfg, w.s.b, w.s.log, x.clk.value);
    }
    if x.cxl.Some? {
      CxlKeepsRequests(cfg, s1.b, s1.log, m.cxl.value);
    }
  }

  lemma {:induction false} DrainKeepsRequests(cfg: Config, data: Pattern, w: World, xs: seq<Stimulus>)
    requires cfg.depth > 0 && Good(cfg, data, w) && Draining(cfg, data, w, xs)
    ensures SameRequests(w.s.log, Played(cfg, data, w, xs).s.log)
    decreases |xs|
  {
    hide Inv, Tracks, WorldStep, Allowed, AcceptsNone, Ready;
    if xs != [] {
      WorldAllowed(cfg, data, w, xs[0]);
      WorldStepGood(cfg, data, w, xs[0]);
      StepKeepsRequests(cfg, data, w, xs[0]);
      DrainKeepsRequests(cfg, data, WorldStep(cfg, data, w, xs[0]), xs[1..]);
    }
  }

  // ---- Two reads ----

  function ReadOf(txnId: nat): ChiReq { Request(CHI_REQ_READNOSNP, txnId) }

  /** The pool is full but for the tags of the reads accepted so far, all still in the np FIFO. */
  ghost predicate Asked(w: World, txns: seq<nat>) {
    var b, l := w.s.b, w.s.log;
    && b.clkReset == [true, true] && b.tags.initDone && |b.tags.pool| + |txns| == N_TAGS
    && |b.np.written| == |txns| && b.np.rs1 == b.np.rs0 == b.np.rcnt == 0
    && b.ndr == Cleared() && b.drs == Cleared()
    && l.wrs == [] && |l.rds| == |txns| && forall i :: 0 <= i < |txns| ==> l.rds[i].req == ReadOf(txns[i])
  }

  lemma AskLog(cfg: Config, data: Pattern, w: World, req: ChiReq)
    requires Good(cfg, data, w) && Allowed(cfg, w.s, MomentOf(w, HostEdge(Some(req), false)))
    requires w.s.b.ClkLive() && w.s.b.drs.Empty() && w.s.b.ndr.Empty() && !IsWrite(req.opcode)
    ensures w.s.b.WellFormed()
    ensures var l, l' := w.s.log, WorldStep(cfg, data, w, HostEdge(Some(req), false)).s.log;
            && l'.wrs == l.wrs
            && l'.rds == if w.s.b.ReqHs(cfg, Host(Some(req), false)) then l.rds + [ReadTxn(req, HeadTag(w.s.b), 0, 0)]
                 else l.rds
  {
    hide ReadSide, WriteSide, TagSide, Tracks, WithinCredit, ResetQuiet, DeviceOk, Bridge.ClkHalf, Bridge.ReqReady,
         Bridge.DrsLast, IsWrite, Bridge.RspData;
    InvShape(cfg, w.s.b, w.s.log);
  }

  lemma AskStep(cfg: Config, data: Pattern, w: World, txns: seq<nat>, txnId: nat)
    requires cfg.depth >= 2 && cfg.npCredits % 0x1_0000 >= 2 && |txns| < 2
    requires Good(cfg, data, w) && Allowed(cfg, w.s, MomentOf(w, HostEdge(Some(ReadOf(txnId)), false)))
             && Asked(w, txns)
    ensures Asked(WorldStep(cfg, data, w, HostEdge(Some(ReadOf(txnId)), false)), txns + [txnId])
  {
    hide Inv, Tracks, Allowed, WorldStep, Bridge.DrsLast;
    ClkAlone(cfg, data, w, Some(ReadOf(txnId)), false);
    AskLog(cfg, data, w, ReadOf(txnId));
  }

  function TwoReads(a: nat, b: nat): seq<Stimulus> {
    FillRun(19, 0) + [HostEdge(Some(ReadOf(a)), false)] + [HostEdge(Some(ReadOf(b)), false)]
  }

  lemma FilledAsked(cfg: Config, data: Pattern, w: World)
    requires Good(cfg, data, w) && PoolFilling(w, 19, 0)
    ensures Asked(w, [])
  {
    hide TagSide, Tracks, WithinCredit, ResetQuiet, Contiguous, CounterAt, Delivered, Beatwise, Bursts, DbidsOwed,
         Completions, CompsSent, IsWrite;
  }

  lemma BothAsked(cfg: Config, data: Pattern, a: nat, b: nat)
    requires cfg.depth >= 2 && cfg.npCredits % 0x1_0000 >= 2
    ensures Asked(At(cfg, data, TwoReads(a, b)), [a, b])
  {
    hide Good, Allowed, At, WorldStep, Asked, PoolFilling, FillRun, HostEdge, ReadOf;
    var xs := FillRun(19, 0);
    Fills(cfg, data, 19, 0);
    AtNext(cfg, data, xs, HostEdge(Some(ReadOf(a)), false));
    FilledAsked(cfg, data, At(cfg, data, xs));
    AskStep(cfg, data, At(cfg, data, xs), [], a);
    var ys := xs + [HostEdge(Some(ReadOf(a)), false)];
    AtNext(cfg, data, ys, HostEdge(Some(ReadOf(b)), false));
    assert [] + [a] == [a];
    AskStep(cfg, data, At(cfg, data, ys), [a], b);
    assert [a] + [b] == [a, b];
  }

  // ---- What the bench sees of it ----

  function DroveRead(txnId: nat): Driven { Driven(CHI_REQ_READNOSNP, 0x40, txnId, 0, 1) }

  function Seen(data: Pattern, w: World, a: nat, b: nat): Observed {
    Observed([DroveRead(a), DroveRead(b)], w.d.reqs, w.d.rwds, CompTxns(w.s.log.rspOut), CompBeats(w.s.log.compOut),
             data, data)
  }

  lemma SeenIsRecorded(data: Pattern, w: World, a: nat, b: nat)
    requires Quiet(w.s) && w.s.log.wrs == [] && |w.s.log.rds| == 2
    requires w.s.log.rds[0].req == ReadOf(a) && w.s.log.rds[1].req == ReadOf(b)
    ensures Recorded(Seen(data, w, a, b), data, w)
    ensures TxnIdsDistinct(w.s.log.rds) <==> a != b
  {
    var driven := [DroveRead(a), DroveRead(b)];
    assert driven[..1] == [DroveRead(a)] && [DroveRead(a)][..0] == [];
    assert Chosen([DroveRead(a)], false) == [DroveRead(a)] && Chosen([DroveRead(a)], true) == [];
    assert Chosen(driven, false) == driven && Chosen(driven, true) == [];
  }

  /** Whatever the two TxnIDs, the run completes, with both reads served, and the scoreboard
      accepts it exactly when they differ. */
  lemma TwoReadsComplete(cfg: Config, data: Pattern, a: nat, b: nat) returns (xs: seq<Stimulus>, o: Observed)
    requires cfg.depth >= 2 && cfg.npCredits % 0x1_0000 >= 2
    ensures var w := At(cfg, data, xs);
            && Quiet(w.s) && Recorded(o, data, w)
            && |w.s.log.rds| == 2 && w.s.log.rds[0].req == ReadOf(a) && w.s.log.rds[1].req == ReadOf(b)
    ensures Passes(o) <==> a != b
  {
    hide Good, Quiet, Draining, Played, Recorded, Passes, TxnIdsDistinct, ReadOf, Fresh, Junk, TwoReads, Seen;
    var before := TwoReads(a, b);
    BothAsked(cfg, data, a, b);
    var n := CanDrain(cfg, data, Junk(), before);
    xs := before + Serving(n);
    var w0, w := At(cfg, data, before), At(cfg, data, xs);
    EndGood(cfg, data, Junk(), before);
    ServingDrains(cfg, data, w0, n);
    DrainKeepsRequests(cfg, data, w0, Serving(n));
    FreshGood(cfg, data, Junk());
    PlayedConcat(cfg, data, Fresh(Junk()), before, Serving(n));
    o := Seen(data, w, a, b);
    SeenIsRecorded(data, w, a, b);
    QuietRunPasses(cfg, data, Junk(), xs, o);
    DroveSomething(data, w, a, b);
  }

  lemma DroveSomething(data: Pattern, w: World, a: nat, b: nat)
    ensures Seen(data, w, a, b).driven != []
  {
  }
}
