/**
 A drain does end: with a device and a host that take every flit, an open bridge and write data
 supplied as long as it is owed, work gets done in every three laps of the clocks while there
 is any, whatever the order of the edges and whatever the synchronizers catch.
 */
module Progress {
  import opened Options
  import opened ResetSync
  import opened FifoSpec
  import opened TagManager
  import opened Flits
  import opened BridgeSpec
  import opened Ledger
  import opened ReadPath
  import opened WritePath
  import opened TagLedger
  import opened System
  import opened Runs
  import opened Pins
  import opened Drain
  import opened Responder
  import opened DeviceRun

  // ---- Instants at which nothing is handed over ----

  /** No request is accepted, */
  ghost predicate AcceptsNone(cfg: Config, b: Bridge, m: Moment) {
    m.clk.Some? && b.ClkLive() ==> !b.ReqHs(cfg, m.clk.value)
  }

  /** and no other flit crosses either. */
  ghost predicate Idle(cfg: Config, b: Bridge, m: Moment) {
    && AcceptsNone(cfg, b, m)
    && (m.clk.Some? && b.ClkLive() ==> !b.RspHs(m.clk.value) && !b.CompHs(m.clk.value))
    && (m.cxl.Some? && b.CxlLive() ==>
          && !b.ReqOutHs(m.cxl.value.cxl) && !b.RwdHs(m.cxl.value.cxl)
          && !b.NdrHs(cfg, m.cxl.value.cxl) && !b.DrsHs(cfg, m.cxl.value.cxl))
  }

  lemma IdleIsNoHandshake(cfg: Config, b: Bridge, m: Moment)
    ensures Idle(cfg, b, m) <==> AcceptsNone(cfg, b, m) && HandshakesAt(cfg, b, m) == 0
    ensures AcceptsNone(cfg, b, m) ==> AcceptedCost(cfg, b, m) == 0
  {
    hide Bridge.RspHs, Bridge.CompHs, Bridge.ReqOutHs, Bridge.RwdHs, Bridge.NdrHs, Bridge.DrsHs, Bridge.ReqHs;
  }

  /** The host takes every response and has write data as long as some is owed; the link is open. */
  ghost predicate Ready(w: World, x: Stimulus) {
    && (x.clk.Some? ==>
          && x.clk.value.rspReady && x.clk.value.compReady
          && (|w.s.b.dat.written| < SumLen(w.s.log.wrs) ==> x.clk.value.wrValid))
    && (x.cxl.Some? ==> x.cxl.value.open)
  }

  /** A FIFO that is neither written nor read, over an instant. */
  ghost predicate Still<T>(q: Queue<T>, q': Queue<T>, wt: bool, rt: bool) {
    && q'.written == q.written && q'.rcnt == q.rcnt
    && q'.rs0 == (if wt then q.rcnt else q.rs0) && q'.rs1 == (if wt then q.rs0 else q.rs1)
    && q'.ws0 == (if rt then |q.written| else q.ws0) && q'.ws1 == (if rt then q.ws0 else q.ws1)
  }

  lemma StillIfUnused<T>(q: Queue<T>, depth: nat, w: WritePort<T>, r: ReadPort)
    requires w.WriteTick? ==> !w.en
    requires r.ReadTick? ==> !r.en
    ensures Still(q, q.Edges(depth, w, r), w.WriteTick?, r.ReadTick?)
  {
  }

  /** The data FIFO meanwhile: not read, and written when there is room and write data is owed. */
  ghost predicate Filling<T>(q: Queue<T>, q': Queue<T>, depth: nat, wt: bool, rt: bool, en: bool) {
    && |q'.written| >= |q.written| && q'.rcnt == q.rcnt
    && (wt && en && !q.Full(depth) ==> |q'.written| > |q.written|)
    && q'.rs0 == (if wt then q.rcnt else q.rs0) && q'.rs1 == (if wt then q.rs0 else q.rs1)
    && (if rt then q'.ws0 >= |q.written| else q'.ws0 == q.ws0) && q'.ws1 == (if rt then q.ws0 else q.ws1)
  }

  lemma FillingIfUnread<T>(q: Queue<T>, depth: nat, w: WritePort<T>, r: ReadPort)
    requires r.ReadTick? ==> !r.en
    ensures Filling(q, q.Edges(depth, w, r), depth, w.WriteTick?, r.ReadTick?, w.WriteTick? && w.en)
  {
  }

  ghost predicate IdleFifos(cfg: Config, b: Bridge, b': Bridge, clk: bool, cxl: bool, wrValid: bool) {
    && Still(b.posted, b'.posted, clk, cxl) && Still(b.np, b'.np, clk, cxl)
    && Still(b.ndr, b'.ndr, cxl, clk) && Still(b.drs, b'.drs, cxl, clk)
    && Filling(b.dat, b'.dat, cfg.depth, clk, cxl, wrValid)
  }

  lemma IdleMoves(cfg: Config, b: Bridge, m: Moment)
    requires b.WellFormed() && b.Ordered(cfg.depth) && b.ClkLive() && Idle(cfg, b, m)
    ensures IdleFifos(cfg, b, b.Instant(cfg, m.clk, m.Cxl()), m.clk.Some?, m.cxl.Some? && b.CxlLive(),
                      m.clk.Some? && m.clk.value.wrValid)
  {
    hide Bridge.Instant, Bridge.RwdLast, Bridge.Ordered, Queue.Edges, Still, Filling, IsWrite, Queue.Full,
         Bridge.ReqHs, Bridge.RwdHs;
    var clk, cxl := m.clk, m.Cxl();
    InstantFifos(cfg, b, clk, cxl);
    StillIfUnused(b.posted, cfg.depth, PostedPorts(cfg, b, clk, cxl).w, PostedPorts(cfg, b, clk, cxl).r);
    StillIfUnused(b.np, cfg.depth, NpPorts(cfg, b, clk, cxl).w, NpPorts(cfg, b, clk, cxl).r);
    StillIfUnused(b.ndr, cfg.depth, NdrPorts(cfg, b, clk, cxl).w, NdrPorts(cfg, b, clk, cxl).r);
    StillIfUnused(b.drs, cfg.depth, DrsPorts(cfg, b, clk, cxl).w, DrsPorts(cfg, b, clk, cxl).r);
    FillingIfUnread(b.dat, cfg.depth, DatPorts(cfg, b, clk, cxl).w, DatPorts(cfg, b, clk, cxl).r);
    FillingSame(b.dat, b.Instant(cfg, clk, cxl).dat, cfg.depth, clk.Some?, cxl.Some? && b.CxlLive(),
                DatPorts(cfg, b, clk, cxl).w.WriteTick? && DatPorts(cfg, b, clk, cxl).w.en,
                clk.Some? && clk.value.wrValid);
  }

  lemma FillingSame<T>(q: Queue<T>, q': Queue<T>, depth: nat, wt: bool, rt: bool, en: bool, valid: bool)
    requires Filling(q, q', depth, wt, rt, en) && (en == (valid && !q.Full(depth)) || !wt)
    ensures Filling(q, q', depth, wt, rt, valid)
  {
  }

  ghost predicate IdleRegisters(b: Bridge, b': Bridge, clk: bool, cxl: bool) {
    && b'.ClkLive() && b'.rspInt == b.rspInt
    && b'.cxlReset == (if cxl then Shifted(b.cxlReset) else b.cxlReset)
  }

  lemma IdleKeeps(cfg: Config, b: Bridge, m: Moment)
    requires b.WellFormed() && b.Ordered(cfg.depth) && ResetQuiet(b) && b.ClkLive() && Idle(cfg, b, m)
    ensures IdleRegisters(b, b.Instant(cfg, m.clk, m.Cxl()), m.clk.Some?, m.cxl.Some?)
  {
    hide Bridge.Instant, Bridge.Ordered, Bridge.ReqHs, Bridge.RspHs, IsWrite, Bridge.DbidResp;
    InstantRegisters(cfg, b, m.clk, m.Cxl());
    InstantDbids(cfg, b, m.clk, m.Cxl());
    ReleasedStays(b.clkReset);
  }

  /** The device meanwhile: what it has to offer it offers. */
  ghost predicate Offering(d: Device, d': Device) {
    && d'.drsQ == d.drsQ && d'.ndrQ == d.ndrQ
    && (d'.drsQ != [] ==> d'.drsValid) && (d'.ndrQ != [] ==> d'.ndrValid)
  }

  lemma DeviceOffers(cfg: Config, data: Pattern, w: World, x: Stimulus)
    requires Good(cfg, data, w) && Idle(cfg, w.s.b, MomentOf(w, x)) && x.cxl.Some?
    ensures Offering(w.d, DeviceEdge(cfg, w.s.b, w.d, data, x.cxl.value.open))
  {
    hide ReadSide, WriteSide, TagSide, WithinCredit, Bridge.Ordered, Outstanding, LastSent, Midway, DrsFlit, NdrFlit,
         Told, Queue.Full, BeatsSeen, Replies;
    var b := w.s.b;
    if !b.CxlLive() {
      ResetTracked(cfg, data, b, w.s.log, w.d, w.a, x.cxl.value.open);
    }
  }

  /** What an instant without a handshake does, */
  ghost predicate Effects(cfg: Config, w: World, w': World, x: Stimulus) {
    && IdleFifos(cfg, w.s.b, w'.s.b, x.clk.Some?, x.cxl.Some? && w.s.b.CxlLive(), x.clk.Some? && x.clk.value.wrValid)
    && IdleRegisters(w.s.b, w'.s.b, x.clk.Some?, x.cxl.Some?)
    && if x.cxl.Some? then Offering(w.d, w'.d) else w'.d == w.d
  }

  /** and what it says about the state it happened in, when host and device were ready. */
  ghost predicate Stuck(cfg: Config, w: World, x: Stimulus) {
    var b := w.s.b;
    && (x.clk.Some? ==> b.ndr.Empty() && b.drs.Empty() && b.rspInt == [])
    && (x.cxl.Some? && b.CxlLive() ==>
          && b.np.Empty() && (b.posted.Empty() || b.dat.Empty())
          && (w.d.drsValid ==> b.drs.Full(cfg.depth)) && (w.d.ndrValid ==> b.ndr.Full(cfg.depth)))
  }

  lemma IdleStep(cfg: Config, data: Pattern, w: World, x: Stimulus)
    requires Good(cfg, data, w) && w.s.b.ClkLive() && Ready(w, x) && Idle(cfg, w.s.b, MomentOf(w, x))
             && Allowed(cfg, w.s, MomentOf(w, x))
    ensures Effects(cfg, w, WorldStep(cfg, data, w, x), x) && Stuck(cfg, w, x)
  {
    hide DataInv, Tracks, WithinCredit, ResetQuiet, Bridge.Ordered, Bridge.Instant, DeviceEdge, Idle, IdleFifos,
         IdleRegisters, Offering, DeviceOk, ClkPart, AimAfter;
    WellFormedGood(cfg, data, w);
    IdleMoves(cfg, w.s.b, MomentOf(w, x));
    IdleKeeps(cfg, w.s.b, MomentOf(w, x));
    if x.cxl.Some? {
      DeviceOffers(cfg, data, w, x);
    }
    IdleStuck(cfg, w, x);
  }

  lemma WellFormedGood(cfg: Config, data: Pattern, w: World)
    requires Good(cfg, data, w)
    ensures w.s.b.WellFormed() && w.s.b.Ordered(cfg.depth) && ResetQuiet(w.s.b)
  {
  }

  lemma IdleStuck(cfg: Config, w: World, x: Stimulus)
    requires w.s.b.ClkLive() && Ready(w, x) && Idle(cfg, w.s.b, MomentOf(w, x))
    ensures Stuck(cfg, w, x)
  {
    hide Queue.Full, Queue.Empty, SumLen, Bridge.ReqHs;
  }

  /** Write data is owed to every write whose burst is not over. */
  lemma DataOwed(b: Bridge, l: Log)
    requires WriteOk(b, l)
    ensures b.dat.rcnt <= |b.dat.written|
    ensures Drained(b.posted) || b.dat.rcnt < SumLen(l.wrs)
  {
    hide DbidsOwed, Completions, CompsSent, Comps, SumLen, IsWrite, Position, Beats, TranslateWrite;
    RwdIsExpansion(b.posted, b.dat, l.wrs, l.rwdOut, b.rwdBeat);
    SumLenPrefix(l.wrs, b.posted.rcnt);
    if !Drained(b.posted) {
      var n := b.posted.rcnt;
      SumLenPrefix(l.wrs, n + 1);
      assert l.wrs[..n + 1][..n] == l.wrs[..n];
      SumLenSnoc(l.wrs, n);
    }
  }

  lemma SumLenSnoc(wrs: seq<WriteTxn>, n: nat)
    requires n < |wrs|
    ensures SumLen(wrs[..n + 1]) == SumLen(wrs[..n]) + wrs[n].Len()
  {
    assert wrs[..n + 1][..n] == wrs[..n];
  }

  // ---- What two laps without a handshake settle ----

  ghost predicate DataSupplied(b: Bridge) { Drained(b.posted) || |b.dat.written| > b.dat.rcnt }

  /** The synchronizers of a FIFO that stands still, after so many edges of its two clocks. */
  ghost predicate Settled<T>(q: Queue<T>, wt: int, rt: int) {
    && (wt >= 1 ==> q.rs0 == q.rcnt) && (wt >= 2 ==> q.rs1 == q.rcnt)
    && (rt >= 1 ==> q.ws0 == |q.written|) && (rt >= 2 ==> q.ws1 == |q.written|)
  }

  ghost predicate Offers(d: Device) {
    (d.drsQ != [] ==> d.drsValid) && (d.ndrQ != [] ==> d.ndrValid)
  }

  /** In the first lap, after `k` edges of `clk` and `c` of `cxl_clk`, two of which may go into
      the release of reset, */
  ghost predicate FirstLap(w: World, k: nat, c: nat) {
    var b := w.s.b;
    && b.ClkLive()
    && (c >= 1 ==> b.cxlReset[0]) && (c >= 2 ==> b.CxlLive())
    && Settled(b.np, k, c - 2) && Settled(b.posted, k, c - 2) && Settled(b.drs, c - 2, k) && Settled(b.ndr, c - 2, k)
    && (k >= 1 ==> b.dat.rs0 == b.dat.rcnt && b.rspInt == []) && (k >= 2 ==> b.dat.rs1 == b.dat.rcnt)
    && (k >= 3 ==> Drained(b.drs) && Drained(b.ndr) && DataSupplied(b))
    && (c >= 5 ==> Drained(b.np))
    && (c >= 1 ==> Offers(w.d))
  }

  lemma FirstLapStep(cfg: Config, w: World, w': World, x: Stimulus, k: nat, c: nat)
    requires cfg.depth > 0 && FirstLap(w, k, c) && Effects(cfg, w, w', x) && Stuck(cfg, w, x) && Ready(w, x)
    requires w.s.b.dat.rcnt <= |w.s.b.dat.written| && (Drained(w.s.b.posted) || w.s.b.dat.rcnt < SumLen(w.s.log.wrs))
    ensures FirstLap(w', if x.clk.Some? then k + 1 else k, if x.cxl.Some? then c + 1 else c)
  {
    hide SumLen;
  }

  /** and in the second, after `c` edges of `cxl_clk`. */
  ghost predicate SecondLap(w: World, c: nat) {
    var b := w.s.b;
    && b.ClkLive() && b.CxlLive() && b.cxlReset[0] && b.rspInt == []
    && Drained(b.np) && Drained(b.drs) && Drained(b.ndr) && DataSupplied(b)
    && Settled(b.drs, 2, 0) && Settled(b.ndr, 2, 0) && Settled(b.posted, 0, 2)
    && Offers(w.d)
    && (c >= 1 ==> w.d.drsQ == [] && w.d.ndrQ == [])
    && (Drained(b.posted) || ((c >= 1 ==> b.dat.ws0 > b.dat.rcnt) && (c >= 2 ==> b.dat.ws1 > b.dat.rcnt) && c < 3))
  }

  lemma LapsMeet(w: World)
    requires FirstLap(w, 5, 5)
    ensures SecondLap(w, 0)
  {
  }

  lemma SecondLapStep(cfg: Config, w: World, w': World, x: Stimulus, c: nat)
    requires cfg.depth > 0 && SecondLap(w, c) && Effects(cfg, w, w', x) && Stuck(cfg, w, x)
    ensures SecondLap(w', if x.cxl.Some? then c + 1 else c)
  {
  }

  // ---- Where that leaves the system ----

  lemma {:induction false} AllReturned(rds: seq<ReadTxn>)
    requires forall i :: 0 <= i < |rds| ==> rds[i].returned == rds[i].Len()
    ensures SumReturned(rds) == SumReadLen(rds)
  {
    hide Beats;
    if rds != [] {
      AllReturned(rds[..|rds| - 1]);
    }
  }

  lemma {:induction false} AllTaken(wrs: seq<WriteTxn>)
    requires forall i :: 0 <= i < |wrs| ==> wrs[i].ndrTaken
    ensures CountTaken(wrs) == |wrs|
  {
    if wrs != [] {
      AllTaken(wrs[..|wrs| - 1]);
    }
  }

  lemma ReadsOver(cfg: Config, data: Pattern, b: Bridge, l: Log, d: Device, a: Aim)
    requires b.WellFormed() && ReadOk(cfg, b, l) && ReadsOwed(d, data, l.rds, l.reqOut, a)
    requires Drained(b.np) && Drained(b.drs) && d.drsQ == []
    ensures |l.reqOut| == |l.rds| && forall r :: 0 <= r < |l.rds| ==> l.rds[r].got == l.rds[r].Len()
  {
    hide Contiguous, CounterAt, BeatsOf, TranslateDrs, TranslateReq, IsWrite, SumReadLen, SumReturned, SumGot, Beats,
         Outstanding;
    ReqsSent(b, l);
    OutstandingNext(l.reqOut, data, a.read, a.beat);
    AllReturned(l.rds);
    ReadSums(l.rds);
  }

  lemma WritesOver(b: Bridge, l: Log, d: Device, a: Aim)
    requires WriteOk(b, l) && WritesOwed(d, l.wrs, l.rwdOut, b.posted.rcnt, b.rwdBeat, a)
    requires Drained(b.posted) && Drained(b.ndr) && d.ndrQ == []
    ensures |l.rwdOut| == SumLen(l.wrs) && forall w :: 0 <= w < |l.wrs| ==> l.wrs[w].comped
  {
    hide CompsSent, Dbids, Comps, SumLen, CountTaken, CountComped, TranslateNdr, IsWrite, Midway, LastSent;
    RwdIsExpansion(b.posted, b.dat, l.wrs, l.rwdOut, b.rwdBeat);
    assert l.wrs[..|l.wrs|] == l.wrs;
    AllTaken(l.wrs);
    WriteCounts(l.wrs);
  }

  lemma LapsOver(cfg: Config, data: Pattern, w: World, c: nat)
    requires Good(cfg, data, w) && SecondLap(w, c) && c >= 3
    ensures Quiet(w.s)
  {
    hide ReadSide, WriteSide, TagSide, ReadsOwed, WritesOwed, Told, WithinCredit, ResetQuiet, Bridge.Ordered, SumLen;
    ReadsOver(cfg, data, w.s.b, w.s.log, w.d, w.a);
    WritesOver(w.s.b, w.s.log, w.d, w.a);
  }

  // ---- Draining ----

  const LAP: nat := 5

  /** Laps in a run: one ends when each clock has had five edges since the last one ended.
      `k` and `c` of them have been seen. */
  function Laps(xs: seq<Stimulus>, k: nat, c: nat): nat {
    if xs == [] then 0
    else
      var k', c' := if xs[0].clk.Some? then k + 1 else k, if xs[0].cxl.Some? then c + 1 else c;
      if k' >= LAP && c' >= LAP then 1 + Laps(xs[1..], 0, 0) else Laps(xs[1..], k', c')
  }

  /** Host, device and link ready at every instant, and no request accepted. */
  ghost predicate Draining(cfg: Config, data: Pattern, w: World, xs: seq<Stimulus>)
    requires cfg.depth > 0 && Good(cfg, data, w)
    decreases |xs|
  {
    xs != [] ==>
      && Ready(w, xs[0]) && AcceptsNone(cfg, w.s.b, MomentOf(w, xs[0]))
      && (WorldAllowed(cfg, data, w, xs[0]);
          WorldStepGood(cfg, data, w, xs[0]);
          Draining(cfg, data, WorldStep(cfg, data, w, xs[0]), xs[1..]))
  }

  /** What is known `laps` lap ends after the last handshake. */
  ghost predicate Since(w: World, laps: nat, k: nat, c: nat) {
    laps <= 2 && (Owed(w.s) == 0 || laps == 0 || (laps == 1 && FirstLap(w, k, c)) || (laps == 2 && SecondLap(w, c)))
  }

  lemma LiveIfOwed(cfg: Config, data: Pattern, w: World)
    requires Good(cfg, data, w)
    ensures Owed(w.s) >= 0 && (Owed(w.s) == 0 <==> Quiet(w.s))
    ensures w.s.b.ClkLive() || Owed(w.s) == 0
    ensures w.s.b.dat.rcnt <= |w.s.b.dat.written|
    ensures Drained(w.s.b.posted) || w.s.b.dat.rcnt < SumLen(w.s.log.wrs)
  {
    hide ReadSide, WriteSide, TagSide, Tracks, WithinCredit, Bridge.Ordered, Owed, SumLen;
    OwedMeansInFlight(cfg, w.s);
    DataOwed(w.s.b, w.s.log);
    if !w.s.b.ClkLive() {
      NothingAccepted(cfg, w.s.b, w.s.log);
    }
  }

  lemma NothingAccepted(cfg: Config, b: Bridge, l: Log)
    requires b.WellFormed() && ReadOk(cfg, b, l) && WriteOk(b, l) && ResetQuiet(b) && !b.ClkLive()
    ensures Quiet(Sys(b, l))
  {
    hide Beatwise, Contiguous, CounterAt, Delivered, CompsSent, Dbids, Comps, CountTaken, CountComped, IsWrite,
         TranslateReq, TranslateWrite, TranslateNdr;
    assert l.rds == [] && l.wrs == [];
  }

  /** One instant of a drain. */
  lemma DrainStep(cfg: Config, data: Pattern, w: World, x: Stimulus, laps: nat, k: nat, c: nat)
    requires cfg.depth > 0 && Good(cfg, data, w) && Ready(w, x) && AcceptsNone(cfg, w.s.b, MomentOf(w, x))
             && Allowed(cfg, w.s, MomentOf(w, x))
    requires Since(w, laps, k, c)
    ensures var w' := WorldStep(cfg, data, w, x);
            var k', c' := if x.clk.Some? then k + 1 else k, if x.cxl.Some? then c + 1 else c;
            && Good(cfg, data, w')
            && 0 <= Owed(w'.s) <= Owed(w.s)
            && (Owed(w'.s) < Owed(w.s) || Owed(w.s) == 0 || Since(w', laps, k', c'))
  {
    hide Inv, Tracks, Idle, HandshakesAt, AcceptedCost, Owed, Quiet, WorldStep, Step, Allowed, FirstLap, SecondLap,
         Effects, Stuck, Ready, AcceptsNone, SumLen;
    WorldStepGood(cfg, data, w, x);
    var w' := WorldStep(cfg, data, w, x);
    LiveIfOwed(cfg, data, w);
    LiveIfOwed(cfg, data, w');
    IdleIsNoHandshake(cfg, w.s.b, MomentOf(w, x));
    OwedAfter(cfg, data, w, x);
    if Owed(w'.s) == Owed(w.s) && Owed(w.s) > 0 {
      IdleStep(cfg, data, w, x);
      if laps == 1 { FirstLapStep(cfg, w, w', x, k, c); }
      if laps == 2 { SecondLapStep(cfg, w, w', x, c); }
    }
  }

  lemma OwedAfter(cfg: Config, data: Pattern, w: World, x: Stimulus)
    requires cfg.depth > 0 && Good(cfg, data, w) && Allowed(cfg, w.s, MomentOf(w, x))
             && AcceptedCost(cfg, w.s.b, MomentOf(w, x)) == 0
    ensures Owed(WorldStep(cfg, data, w, x).s) == Owed(w.s) - HandshakesAt(cfg, w.s.b, MomentOf(w, x))
  {
    hide Inv, Owed, HandshakesAt, AcceptedCost, Tracks, Step, ClkPart, DeviceEdge, AimAfter, Allowed;
    OwedStep(cfg, w.s, MomentOf(w, x));
  }

  /** The end of a lap. */
  lemma LapEnds(cfg: Config, data: Pattern, w: World, laps: nat, k: nat, c: nat)
    requires Good(cfg, data, w) && Since(w, laps, k, c) && k >= LAP && c >= LAP
    ensures Owed(w.s) == 0 || (laps < 2 && Since(w, laps + 1, 0, 0))
  {
    hide Good, Owed, Quiet;
    LiveIfOwed(cfg, data, w);
    if laps == 2 && SecondLap(w, c) {
      LapsOver(cfg, data, w, c);
    }
  }

  lemma {:induction false} DrainRun(cfg: Config, data: Pattern, w: World, xs: seq<Stimulus>, laps: nat, k: nat, c: nat)
    requires cfg.depth > 0 && Good(cfg, data, w) && Draining(cfg, data, w, xs) && Since(w, laps, k, c)
    requires Laps(xs, k, c) + laps >= 3 * Owed(w.s)
    ensures Quiet(Played(cfg, data, w, xs).s)
    decreases |xs|
  {
    hide Inv, Tracks, Owed, Quiet, WorldStep, Step, Allowed, FirstLap, SecondLap, Ready, AcceptsNone;
    LiveIfOwed(cfg, data, w);
    if xs != [] {
      var x := xs[0];
      WorldAllowed(cfg, data, w, x);
      DrainStep(cfg, data, w, x, laps, k, c);
      var w' := WorldStep(cfg, data, w, x);
      var k', c' := if x.clk.Some? then k + 1 else k, if x.cxl.Some? then c + 1 else c;
      var ends := k' >= LAP && c' >= LAP;
      if Owed(w'.s) < Owed(w.s) || Owed(w.s) == 0 {
        DrainRun(cfg, data, w', xs[1..], 0, if ends then 0 else k', if ends then 0 else c');
      } else if ends {
        LapEnds(cfg, data, w', laps, k', c');
        DrainRun(cfg, data, w', xs[1..], if Owed(w'.s) == 0 then 0 else laps + 1, 0, 0);
      } else {
        DrainRun(cfg, data, w', xs[1..], laps, k', c');
      }
    }
  }

  lemma {:induction false} PlayedConcat(cfg: Config, data: Pattern, w: World, xs: seq<Stimulus>, ys: seq<Stimulus>)
    requires cfg.depth > 0 && Good(cfg, data, w)
    ensures Good(cfg, data, Played(cfg, data, w, xs))
    ensures Played(cfg, data, w, xs + ys) == Played(cfg, data, Played(cfg, data, w, xs), ys)
    decreases |xs|
  {
    hide Inv, Tracks, WorldStep, Allowed;
    if xs == [] {
      assert xs + ys == ys;
    } else {
      WorldAllowed(cfg, data, w, xs[0]);
      WorldStepGood(cfg, data, w, xs[0]);
      PlayedConcat(cfg, data, WorldStep(cfg, data, w, xs[0]), xs[1..], ys);
      assert (xs + ys)[0] == xs[0] && (xs + ys)[1..] == xs[1..] + ys;
    }
  }

  /** From any state that the bridge and the device reach with any host, three laps for each
      handshake owed empty the system, if no request is accepted meanwhile. */
  lemma DrainsInLaps(cfg: Config, data: Pattern, state: seq<Entry>, before: seq<Stimulus>, xs: seq<Stimulus>)
    requires cfg.depth > 0 && |state| == N_TAGS
    requires (EndGood(cfg, data, state, before); Draining(cfg, data, End(cfg, data, state, before), xs))
    requires Laps(xs, 0, 0) >= 3 * Owed(End(cfg, data, state, before).s)
    ensures Quiet(End(cfg, data, state, before + xs).s)
  {
    hide Good, Owed, Quiet, Played, Draining, Laps, FirstLap, SecondLap, Fresh;
    EndGood(cfg, data, state, before);
    FreshGood(cfg, data, state);
    PlayedConcat(cfg, data, Fresh(state), before, xs);
    DrainRun(cfg, data, End(cfg, data, state, before), xs, 0, 0, 0);
  }

  // ---- A drain is always possible ----

  const SERVE: Stimulus :=
    Stimulus(Some(ClkIn(false, ChiReq(0, 0, 0, 0, 0, 0, 0, 0, 0), true, ChiDat(0, 0, 0, 0, 0, 0, 0, 0), true, true,
                        true, Late(false, false, false, false, false))),
             Some(CxlEnv(true, Late(false, false, false, false, false))))

  /** Both clocks rise together, `n` times, with everybody ready. */
  function Serving(n: nat): (xs: seq<Stimulus>)
    ensures |xs| == n && forall i :: 0 <= i < n ==> xs[i] == SERVE
  {
    seq(n, _ => SERVE)
  }

  lemma {:induction false} ServingLaps(n: nat, k: nat)
    requires k < LAP
    ensures Laps(Serving(n), k, k) == (n + k) / LAP
    decreases n
  {
    if n > 0 {
      assert Serving(n)[1..] == Serving(n - 1);
      ServingLaps(n - 1, if k + 1 == LAP then 0 else k + 1);
    }
  }

  lemma {:induction false} ServingDrains(cfg: Config, data: Pattern, w: World, n: nat)
    requires cfg.depth > 0 && Good(cfg, data, w)
    ensures Draining(cfg, data, w, Serving(n))
    decreases n
  {
    hide Inv, Tracks, WorldStep, Allowed, SumLen;
    if n > 0 {
      assert Serving(n)[1..] == Serving(n - 1);
      WorldAllowed(cfg, data, w, SERVE);
      WorldStepGood(cfg, data, w, SERVE);
      ServingDrains(cfg, data, WorldStep(cfg, data, w, SERVE), n - 1);
    }
  }

  /** So from every state the system can be emptied, with any loss of tags behind it. */
  lemma CanDrain(cfg: Config, data: Pattern, state: seq<Entry>, before: seq<Stimulus>) returns (n: nat)
    requires cfg.depth > 0 && |state| == N_TAGS
    ensures Quiet(End(cfg, data, state, before + Serving(n)).s)
  {
    hide Good, Owed, Quiet, Draining, Laps, End;
    EndGood(cfg, data, state, before);
    var w := End(cfg, data, state, before);
    LiveIfOwed(cfg, data, w);
    n := 15 * Owed(w.s);
    ServingLaps(n, 0);
    ServingDrains(cfg, data, w, n);
    DrainsInLaps(cfg, data, state, before, Serving(n));
  }
}
