/**
 Runs from reset that show what can happen: tags lost in both ways, all sixteen of them at
 every parameter set, and completed runs that the scoreboard passes and fails.
 */
module Witnesses {
  import opened Options
  import opened FifoSpec
  import opened SyncFifo
  import opened TagManager
  import opened Flits
  import opened BridgeSpec
  import opened ReadPath
  import opened WritePath
  import opened TagLedger
  import opened System
  import opened Runs
  import opened Theorems
  import opened Responder
  import opened DeviceRun
  import opened Progress

  const ON_TIME: Late := Late(false, false, false, false, false)

  function Request(opcode: nat, txnId: nat): ChiReq { ChiReq(0, 0, 0, txnId, opcode, 0x40, 1, 0, 0) }

  const WRITE: ChiReq := Request(CHI_REQ_WRITENOSNPFULL, 0)

  /** A `clk` edge: the host offers `req`, with a data beat if it is a write, and takes
      responses or not. */
  function Host(req: Option<ChiReq>, take: bool): ClkIn {
    var write := req.Some? && IsWrite(req.value.opcode);
    ClkIn(req.Some?, req.GetOr(WRITE), write, ChiDat(0, 0, 0, 0, 0, 0, 0, 0), true, take, take, ON_TIME)
  }

  function HostEdge(req: Option<ChiReq>, take: bool): Stimulus { Stimulus(Some(Host(req, take)), None) }

  const LINK_EDGE: Stimulus := Stimulus(None, Some(CxlEnv(true, ON_TIME)))

  function Junk(): (state: seq<Entry>)
    ensures |state| == N_TAGS
  {
    seq(N_TAGS, _ => Entry(0, 0, 0))
  }

  function At(cfg: Config, data: Pattern, xs: seq<Stimulus>): World
    requires cfg.depth > 0
  {
    End(cfg, data, Junk(), xs)
  }

  lemma AtNext(cfg: Config, data: Pattern, xs: seq<Stimulus>, x: Stimulus)
    requires cfg.depth > 0
    ensures var w := At(cfg, data, xs);
            && Good(cfg, data, w) && Allowed(cfg, w.s, MomentOf(w, x))
            && At(cfg, data, xs + [x]) == WorldStep(cfg, data, w, x)
            && Good(cfg, data, At(cfg, data, xs + [x]))
  {
    hide Inv, Tracks, Allowed, WorldStep, Fresh, Junk;
    var state := Junk();
    EndGood(cfg, data, state, xs);
    EndGood(cfg, data, state, xs + [x]);
    FreshGood(cfg, data, state);
    PlayedConcat(cfg, data, Fresh(state), xs, [x]);
    var w := At(cfg, data, xs);
    WorldAllowed(cfg, data, w, x);
    WorldStepGood(cfg, data, w, x);
    assert [x][1..] == [];
  }

  lemma AtReachable(cfg: Config, data: Pattern, xs: seq<Stimulus>)
    requires cfg.depth > 0
    ensures Reachable(cfg, At(cfg, data, xs).s)
  {
    hide Good, End, Reachable, Junk;
    DeviceRunsAreReachable(cfg, data, Junk(), xs);
  }

  // ---- One clock at a time ----

  function ClkTimely(b: Bridge): Samples {
    Samples(b.posted.rcnt, b.np.rcnt, b.dat.rcnt, |b.ndr.written|, |b.drs.written|)
  }

  function CxlTimely(b: Bridge): Samples {
    Samples(|b.posted.written|, |b.np.written|, |b.dat.written|, b.ndr.rcnt, b.drs.rcnt)
  }

  ghost predicate ClkAloneIs(cfg: Config, w: World, w': World, i: ClkIn)
    requires w.s.b.WellFormed()
  {
    w'.s.b == w.s.b.ClkHalf(cfg, i, ClkTimely(w.s.b)) && w'.d == w.d && w'.a == w.a
  }

  lemma ClkAlone(cfg: Config, data: Pattern, w: World, req: Option<ChiReq>, take: bool)
    requires cfg.depth > 0 && Good(cfg, data, w) && Allowed(cfg, w.s, MomentOf(w, HostEdge(req, take)))
    ensures w.s.b.WellFormed()
    ensures ClkAloneIs(cfg, w, WorldStep(cfg, data, w, HostEdge(req, take)), Host(req, take))
  {
    hide ReadSide, WriteSide, TagSide, Tracks, WithinCredit, ResetQuiet, LogClk, Bridge.ClkHalf, DeviceOk;
  }

  ghost predicate CxlAloneIs(cfg: Config, data: Pattern, w: World, w': World)
    requires w.s.b.WellFormed()
  {
    && w'.s.b == w.s.b.CxlHalf(cfg, DeviceIn(w.d, true, ON_TIME), CxlTimely(w.s.b))
    && w'.d == DeviceEdge(cfg, w.s.b, w.d, data, true)
  }

  lemma CxlAlone(cfg: Config, data: Pattern, w: World)
    requires cfg.depth > 0 && Good(cfg, data, w) && Allowed(cfg, w.s, MomentOf(w, LINK_EDGE))
    ensures w.s.b.WellFormed()
    ensures CxlAloneIs(cfg, data, w, WorldStep(cfg, data, w, LINK_EDGE))
  {
    hide ReadSide, WriteSide, TagSide, Tracks, WithinCredit, ResetQuiet, LogCxl, Bridge.CxlHalf, DeviceOk, DeviceEdge,
         AimAfter;
  }

  // ---- Filling the pool ----

  /** After `k` edges of `clk` and then `c` of `cxl_clk`, with nothing offered. */
  ghost predicate PoolFilling(w: World, k: nat, c: nat) {
    var b := w.s.b;
    && b.posted == Cleared() && b.np == Cleared() && b.dat == Cleared() && b.ndr == Cleared() && b.drs == Cleared()
    && b.clkReset == [k >= 1, k >= 2] && b.cxlReset == [c >= 1, c >= 2]
    && b.rspInt == [] && b.drsBeat == 0 && b.rwdBeat == 0
    && b.tags.initCnt == (if k <= 2 then 0 else if k <= 18 then k - 2 else N_TAGS)
    && (b.tags.initDone <==> k >= 19)
    && |b.tags.pool| == b.tags.initCnt
    && w.d == IDLE && |w.s.log.leaked| == 0 && |w.s.log.dropped| == 0
  }

  function FillRun(k: nat, c: nat): seq<Stimulus> {
    if c > 0 then FillRun(k, c - 1) + [LINK_EDGE] else if k > 0 then FillRun(k - 1, 0) + [HostEdge(None, false)] else []
  }

  lemma {:induction false} Fills(cfg: Config, data: Pattern, k: nat, c: nat)
    requires cfg.depth > 0 && k <= 19 && (c == 0 || k == 19) && c <= 2
    ensures PoolFilling(At(cfg, data, FillRun(k, c)), k, c)
    decreases k, c
  {
    hide Good, Allowed, At, WorldStep, PoolFilling;
    if c > 0 {
      Fills(cfg, data, k, c - 1);
      AtNext(cfg, data, FillRun(k, c - 1), LINK_EDGE);
      FillCxl(cfg, data, At(cfg, data, FillRun(k, c - 1)), c - 1);
    } else if k > 0 {
      Fills(cfg, data, k - 1, 0);
      AtNext(cfg, data, FillRun(k - 1, 0), HostEdge(None, false));
      FillClk(cfg, data, At(cfg, data, FillRun(k - 1, 0)), k - 1);
    } else {
      FillStart(cfg, data);
    }
  }

  lemma FillStart(cfg: Config, data: Pattern)
    requires cfg.depth > 0
    ensures PoolFilling(At(cfg, data, []), 0, 0)
  {
    hide Good;
  }

  lemma FillClk(cfg: Config, data: Pattern, w: World, k: nat)
    requires cfg.depth > 0 && Good(cfg, data, w) && Allowed(cfg, w.s, MomentOf(w, HostEdge(None, false)))
    requires PoolFilling(w, k, 0) && k < 19
    ensures PoolFilling(WorldStep(cfg, data, w, HostEdge(None, false)), k + 1, 0)
  {
    hide Good, Allowed, WorldStep, IsWrite;
    ClkAlone(cfg, data, w, None, false);
    NoLoss(cfg, data, w, HostEdge(None, false));
  }

  lemma FillCxl(cfg: Config, data: Pattern, w: World, c: nat)
    requires cfg.depth > 0 && Good(cfg, data, w) && Allowed(cfg, w.s, MomentOf(w, LINK_EDGE))
    requires PoolFilling(w, 19, c) && c < 2
    ensures PoolFilling(WorldStep(cfg, data, w, LINK_EDGE), 19, c + 1)
  {
    hide Good, Allowed, WorldStep;
    CxlAlone(cfg, data, w);
    NoLoss(cfg, data, w, LINK_EDGE);
  }

  /** What an instant adds to the losses. */
  lemma NoLoss(cfg: Config, data: Pattern, w: World, x: Stimulus)
    requires cfg.depth > 0 && Good(cfg, data, w) && Allowed(cfg, w.s, MomentOf(w, x))
    ensures w.s.b.WellFormed()
    ensures var l, l' := w.s.log, WorldStep(cfg, data, w, x).s.log;
            && |l'.leaked| == |l.leaked| + LeaksAt(cfg, w.s, MomentOf(w, x))
            && |l'.dropped| == |l.dropped| + DropsAt(w.s, MomentOf(w, x))
  {
    hide DataInv, Tracks, WithinCredit, ResetQuiet, Allowed, Step, ClkPart, AimAfter, DeviceEdge, LeaksAt, DropsAt;
    WellFormedGood(cfg, data, w);
    LossesCounted(cfg, w.s, MomentOf(w, x));
  }

  // ---- One write, and with it one read ----

  /** How far the counters of a FIFO are apart: items unread, items the reader's two stages have
      not seen, reads the writer's two stages have not seen. */
  datatype Lags = Lags(unread: nat, ws0: nat, ws1: nat, rs0: nat, rs1: nat)

  const LEVEL: Lags := Lags(0, 0, 0, 0, 0)

  ghost predicate Lagging<T>(q: Queue<T>, l: Lags) {
    && |q.written| == q.rcnt + l.unread
    && |q.written| == q.ws0 + l.ws0 && |q.written| == q.ws1 + l.ws1
    && q.rcnt == q.rs0 + l.rs0 && q.rcnt == q.rs1 + l.rs1
  }

  /** One item goes through: written in step `at`, seen two reader edges later, read, and the
      read seen by the writer. */
  function Down(i: nat, at: nat): Lags {
    if i < at then LEVEL
    else if i <= 2 then Lags(1, 1, 1, 0, 0)
    else if i == 3 then Lags(1, 0, 1, 0, 0)
    else if i == 4 then Lags(1, 0, 0, 0, 0)
    else if i <= 6 then Lags(0, 0, 0, 1, 1)
    else if i == 7 then Lags(0, 0, 0, 0, 1)
    else LEVEL
  }

  function Up(i: nat): Lags {
    if i <= 5 then LEVEL
    else if i == 6 then Lags(1, 1, 1, 0, 0)
    else if i == 7 then Lags(1, 0, 1, 0, 0)
    else if i == 8 then Lags(1, 0, 0, 0, 0)
    else if i == 9 then Lags(0, 0, 0, 1, 1)
    else if i == 10 then Lags(0, 0, 0, 0, 1)
    else LEVEL
  }

  /** The write, perhaps a read, four edges of the link clock, two of `clk` with the host not
      ready, one with it ready, and two of the link clock. */
  function Trip(read: bool, i: nat): Stimulus {
    if i == 0 then HostEdge(Some(WRITE), false)
    else if i == 1 then HostEdge(if read then Some(Request(CHI_REQ_READNOSNP, 0)) else None, false)
    else if i <= 5 then LINK_EDGE
    else if i <= 7 then HostEdge(None, false)
    else if i == 8 then HostEdge(None, true)
    else LINK_EDGE
  }

  ghost predicate OneBeat(q: Queue<ChiReq>) { forall k :: 0 <= k < |q.written| ==> q.written[k].size == 1 }

  ghost predicate DeviceAt(d: Device, drs: nat, ndr: nat) {
    && |d.drsQ| == drs && |d.ndrQ| == ndr
    && (d.drsValid <==> drs > 0) && (d.ndrValid <==> ndr > 0)
  }

  ghost predicate FifosOnTrip(b: Bridge, read: bool, i: nat) {
    && Lagging(b.posted, Down(i, 1)) && Lagging(b.dat, Down(i, 1)) && Lagging(b.np, if read then Down(i, 2) else LEVEL)
    && Lagging(b.ndr, Up(i)) && Lagging(b.drs, if read then Up(i) else LEVEL)
    && OneBeat(b.posted) && OneBeat(b.np)
  }

  /** After `i` steps, with `n` DBIDResps waiting at the start. */
  ghost predicate OnTrip(w: World, read: bool, n: nat, i: nat) {
    var b := w.s.b;
    && b.clkReset == [true, true] && b.cxlReset == [true, true] && b.tags.initDone && b.rwdBeat == 0
    && |b.rspInt| == (if i >= 1 then n + 1 else n)
    && FifosOnTrip(b, read, i)
    && |b.tags.pool| == (if i == 0 || i >= 9 then N_TAGS else if read && i >= 2 then N_TAGS - 2 else N_TAGS - 1)
    && DeviceAt(w.d, if read && i == 5 then 1 else 0, if i == 5 then 1 else 0)
    && |w.s.log.leaked| == 0 && |w.s.log.dropped| == 0
  }

  /** Parameters under which this is possible. */
  predicate Lets(cfg: Config, read: bool) {
    cfg.depth > 0 && cfg.postedCredits % 0x1_0000 > 0 && (read ==> cfg.npCredits % 0x1_0000 > 0)
  }

  lemma TripClkFifos(cfg: Config, w: World, w': World, read: bool, n: nat, i: nat, req: Option<ChiReq>)
    requires Lets(cfg, read) && OnTrip(w, read, n, i) && n < RSP_INT_DEPTH && Trip(read, i).clk.Some?
             && (read ==> i < 8)
    requires req == (if i == 0 then Some(WRITE) else if i == 1 && read then Some(Request(CHI_REQ_READNOSNP, 0))
                     else None)
    requires w.s.b.WellFormed() && ClkAloneIs(cfg, w, w', Host(req, i == 8))
    ensures FifosOnTrip(w'.s.b, read, i + 1)
  {
    hide Bridge.DrsLast, Tags.Edge, QueueEdge, Bridge.ReleaseA, Bridge.ReleaseB;
  }

  lemma TripClk(cfg: Config, data: Pattern, w: World, read: bool, n: nat, i: nat)
    requires Lets(cfg, read) && Good(cfg, data, w) && Allowed(cfg, w.s, MomentOf(w, Trip(read, i)))
    requires OnTrip(w, read, n, i) && n < RSP_INT_DEPTH && Trip(read, i).clk.Some? && (read ==> i < 8)
    ensures OnTrip(WorldStep(cfg, data, w, Trip(read, i)), read, n, i + 1)
  {
    hide Inv, Tracks, Allowed, WorldStep, Bridge.DrsLast, Queue.WriteHalf, Queue.ReadHalf;
    var req := if i == 0 then Some(WRITE) else if i == 1 && read then Some(Request(CHI_REQ_READNOSNP, 0)) else None;
    ClkAlone(cfg, data, w, req, i == 8);
    NoLoss(cfg, data, w, Trip(read, i));
    TripClkFifos(cfg, w, WorldStep(cfg, data, w, Trip(read, i)), read, n, i, req);
  }

  lemma TripCxlFifos(cfg: Config, data: Pattern, w: World, w': World, read: bool, n: nat, i: nat)
    requires Lets(cfg, read) && OnTrip(w, read, n, i) && Trip(read, i).cxl.Some? && i <= 10 && (read ==> i < 8)
    requires w.s.b.WellFormed() && CxlAloneIs(cfg, data, w, w')
    ensures FifosOnTrip(w'.s.b, read, i + 1) && w'.s.b.rwdBeat == 0
  {
    hide DeviceEdge, IsWrite, TranslateDrs, TranslateNdr;
  }

  lemma TripDevice(cfg: Config, data: Pattern, w: World, read: bool, n: nat, i: nat)
    requires Lets(cfg, read) && OnTrip(w, read, n, i) && Trip(read, i).cxl.Some? && i <= 10 && (read ==> i < 8)
    requires w.s.b.WellFormed() && forall t: nat :: BeatsSeen(w.d.rwdSeen, t) == 0
    ensures DeviceAt(DeviceEdge(cfg, w.s.b, w.d, data, true), if read && i == 4 then 1 else 0, if i == 4 then 1 else 0)
  {
    hide BeatsSeen, TagOf, DrsFlit, NdrFlit, ReadMemOp, WriteMemOp;
  }

  lemma NothingSeen(cfg: Config, data: Pattern, w: World)
    requires Good(cfg, data, w) && w.s.b.rwdBeat == 0
    ensures forall t: nat :: BeatsSeen(w.d.rwdSeen, t) == 0
  {
    hide Inv, ReadsOwed, Told, LastSent, BeatsSeen;
  }

  lemma TripCxl(cfg: Config, data: Pattern, w: World, read: bool, n: nat, i: nat)
    requires Lets(cfg, read) && Good(cfg, data, w) && Allowed(cfg, w.s, MomentOf(w, Trip(read, i)))
    requires OnTrip(w, read, n, i) && Trip(read, i).cxl.Some? && i <= 10 && (read ==> i < 8)
    ensures OnTrip(WorldStep(cfg, data, w, Trip(read, i)), read, n, i + 1)
  {
    hide Inv, Tracks, Allowed, WorldStep, FifosOnTrip, DeviceEdge, DeviceAt, Bridge.RwdLast;
    CxlAlone(cfg, data, w);
    NoLoss(cfg, data, w, LINK_EDGE);
    var w' := WorldStep(cfg, data, w, LINK_EDGE);
    TripCxlFifos(cfg, data, w, w', read, n, i);
    NothingSeen(cfg, data, w);
    TripDevice(cfg, data, w, read, n, i);
  }

  function TripRun(read: bool, i: nat): seq<Stimulus> {
    if i == 0 then [] else TripRun(read, i - 1) + [Trip(read, i - 1)]
  }

  lemma {:induction false} TripGoes(cfg: Config, data: Pattern, before: seq<Stimulus>, read: bool, n: nat, i: nat)
    requires Lets(cfg, read) && n < RSP_INT_DEPTH && i <= 11 && (read ==> i <= 8)
    requires OnTrip(At(cfg, data, before), read, n, 0)
    ensures OnTrip(At(cfg, data, before + TripRun(read, i)), read, n, i)
  {
    hide Good, Allowed, At, WorldStep, OnTrip, Trip;
    if i == 0 {
      assert before + [] == before;
    } else {
      TripGoes(cfg, data, before, read, n, i - 1);
      var xs := before + TripRun(read, i - 1);
      AtNext(cfg, data, xs, Trip(read, i - 1));
      assert before + TripRun(read, i) == xs + [Trip(read, i - 1)];
      TripKind(read, i - 1);
      if Trip(read, i - 1).clk.Some? {
        TripClk(cfg, data, At(cfg, data, xs), read, n, i - 1);
      } else {
        TripCxl(cfg, data, At(cfg, data, xs), read, n, i - 1);
      }
    }
  }

  lemma TripKind(read: bool, i: nat)
    ensures Trip(read, i).clk.Some? || Trip(read, i).cxl.Some?
  {
  }

  lemma TripEnds(w: World, n: nat)
    ensures OnTrip(w, false, n, 11) ==> OnTrip(w, false, n + 1, 0)
    ensures OnTrip(w, false, n, 0) <==> OnTrip(w, true, n, 0)
  {
  }

  lemma FilledIsReady(w: World)
    requires PoolFilling(w, 19, 2)
    ensures OnTrip(w, false, 0, 0)
  {
    hide Cleared, Lagging;
    ClearedLevel(w.s.b.posted);
    ClearedLevel(w.s.b.np);
    ClearedLevel(w.s.b.dat);
    ClearedLevel(w.s.b.ndr);
    ClearedLevel(w.s.b.drs);
  }

  lemma ClearedLevel<T>(q: Queue<T>)
    requires q == Cleared()
    ensures q.written == [] && Lagging(q, LEVEL)
  {
  }

  // ---- Both ports release at once ----

  lemma HeadsMeet(cfg: Config, data: Pattern, w: World)
    requires Good(cfg, data, w) && OnTrip(w, true, 0, 8)
    ensures w.s.b.WellFormed() && DropsAt(w.s, MomentOf(w, HostEdge(None, true))) == 1
  {
    hide WriteSide, Beatwise, Contiguous, CounterAt, Delivered, TagSide, Tracks, WithinCredit, ResetQuiet,
         Bridge.Ordered, Bridge.DrsLast, IsWrite;
    var b, l := w.s.b, w.s.log;
    InvShape(cfg, b, l);
    HeadRecovered(cfg, b, l);
    var r := l.drsIn[b.drs.rcnt].read;
    assert b.np.written[r].size == l.rds[r].req.size;
  }

  /** A write and a read whose responses wait together: the host takes both in one cycle, and
      the read's tag is gone. This happens under all parameters that accept both. */
  lemma DoubleReleaseDropsTag(cfg: Config)
    requires Lets(cfg, true)
    ensures exists s :: Reachable(cfg, s) && |s.log.dropped| == 1 && s.log.leaked == multiset{}
  {
    hide Good, Allowed, At, End, WorldStep, OnTrip, Trip, FillRun, TripRun, PoolFilling, Reachable, DropsAt;
    var data := (addr: nat, beat: nat) => 0;
    var before := FillRun(19, 2);
    Fills(cfg, data, 19, 2);
    FilledIsReady(At(cfg, data, before));
    TripEnds(At(cfg, data, before), 0);
    TripGoes(cfg, data, before, true, 0, 8);
    var xs := before + TripRun(true, 8);
    var w, x := At(cfg, data, xs), HostEdge(None, true);
    AtNext(cfg, data, xs, x);
    HeadsMeet(cfg, data, w);
    NoLoss(cfg, data, w, x);
    NothingLost(w, cfg, 8);
    AtReachable(cfg, data, xs + [x]);
  }

  lemma NothingLost(w: World, cfg: Config, i: nat)
    requires OnTrip(w, true, 0, i)
    ensures |w.s.log.leaked| == |w.s.log.dropped| == 0
    ensures LeaksAt(cfg, w.s, MomentOf(w, HostEdge(None, true))) == 0
  {
  }

  // ---- All tags lost ----

  /** No write can be accepted, and `q` of them have been refused. */
  ghost predicate Refusing(cfg: Config, w: World, n: nat, q: nat) {
    var b := w.s.b;
    && (n == RSP_INT_DEPTH || cfg.postedCredits % 0x1_0000 == 0)
    && b.clkReset == [true, true] && b.tags.initDone && |b.rspInt| == n
    && Lagging(b.posted, LEVEL) && Lagging(b.ndr, LEVEL) && Lagging(b.drs, LEVEL)
    && |b.tags.pool| + q == N_TAGS
    && |w.s.log.leaked| == q && |w.s.log.dropped| == 0
  }

  lemma RefuseStep(cfg: Config, data: Pattern, w: World, n: nat, q: nat)
    requires cfg.depth > 0 && Good(cfg, data, w) && Allowed(cfg, w.s, MomentOf(w, HostEdge(Some(WRITE), false)))
    requires Refusing(cfg, w, n, q) && q < N_TAGS
    ensures Refusing(cfg, WorldStep(cfg, data, w, HostEdge(Some(WRITE), false)), n, q + 1)
  {
    hide Inv, Tracks, Allowed, WorldStep;
    ClkAlone(cfg, data, w, Some(WRITE), false);
    NoLoss(cfg, data, w, HostEdge(Some(WRITE), false));
  }

  function Insisting(q: nat): seq<Stimulus> {
    if q == 0 then [] else Insisting(q - 1) + [HostEdge(Some(WRITE), false)]
  }

  lemma {:induction false} Refuses(cfg: Config, data: Pattern, before: seq<Stimulus>, n: nat, q: nat)
    requires cfg.depth > 0 && q <= N_TAGS && Refusing(cfg, At(cfg, data, before), n, 0)
    ensures Refusing(cfg, At(cfg, data, before + Insisting(q)), n, q)
  {
    hide Good, Allowed, At, WorldStep, Refusing;
    if q == 0 {
      assert before + [] == before;
    } else {
      Refuses(cfg, data, before, n, q - 1);
      var xs := before + Insisting(q - 1);
      AtNext(cfg, data, xs, HostEdge(Some(WRITE), false));
      assert before + Insisting(q) == xs + [HostEdge(Some(WRITE), false)];
      RefuseStep(cfg, data, At(cfg, data, xs), n, q - 1);
    }
  }

  /** Writes one after the other, of which the host takes the Comp but not the DBIDResp. */
  function Trips(n: nat): seq<Stimulus> {
    if n == 0 then FillRun(19, 2) else Trips(n - 1) + TripRun(false, 11)
  }

  lemma {:induction false} TripsGo(cfg: Config, data: Pattern, n: nat)
    requires cfg.depth > 0 && n <= RSP_INT_DEPTH && (n > 0 ==> cfg.postedCredits % 0x1_0000 > 0)
    ensures OnTrip(At(cfg, data, Trips(n)), false, n, 0)
  {
    hide At, OnTrip, FillRun, TripRun, PoolFilling;
    if n == 0 {
      Fills(cfg, data, 19, 2);
      FilledIsReady(At(cfg, data, FillRun(19, 2)));
    } else {
      TripsGo(cfg, data, n - 1);
      TripGoes(cfg, data, Trips(n - 1), false, n - 1, 11);
      TripEnds(At(cfg, data, Trips(n)), n - 1);
    }
  }

  lemma BlockedRefuses(cfg: Config, w: World, n: nat)
    requires OnTrip(w, false, n, 0) && (n == RSP_INT_DEPTH || cfg.postedCredits % 0x1_0000 == 0)
    ensures Refusing(cfg, w, n, 0)
  {
  }

  /** Under all parameters the bridge can lose all sixteen tags: with four DBIDResps waiting,
      or no posted credit at all, a held write is refused in every cycle and takes a tag in
      every cycle. */
  lemma AllTagsCanBeLost(cfg: Config)
    requires cfg.depth > 0
    ensures exists s :: Reachable(cfg, s) && |s.log.leaked| == N_TAGS && s.b.tags.initDone && s.b.tags.pool == []
  {
    hide Good, At, End, OnTrip, Trips, Insisting, Reachable, Junk;
    var data := (addr: nat, beat: nat) => 0;
    var n: nat := if cfg.postedCredits % 0x1_0000 == 0 then 0 else RSP_INT_DEPTH;
    TripsGo(cfg, data, n);
    BlockedRefuses(cfg, At(cfg, data, Trips(n)), n);
    Refuses(cfg, data, Trips(n), n, N_TAGS);
    AtReachable(cfg, data, Trips(n) + Insisting(N_TAGS));
  }
}
