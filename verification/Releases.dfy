/**
 When a read's tag is freed: by port B, on the edge that delivers its last beat, and on no
 other; and where the tags in use are, in the hardware's own FIFOs.
 */
module Releases {
  import opened Options
  import opened TagManager
  import opened Flits
  import opened BridgeSpec
  import opened Ledger
  import opened ReadPath
  import opened WritePath
  import opened TagLedger
  import opened System
  import opened Runs
  import opened Pins
  import opened Theorems

  lemma ReachableShape(cfg: Config, s: Sys)
    requires cfg.depth > 0 && Reachable(cfg, s)
    ensures LogShape(s.b, s.log)
  {
    hide Reachable, ReadSide, WriteSide, TagSide, ResetQuiet, WithinCredit, LogShape;
    ReachableInv(cfg, s);
    InvShape(cfg, s.b, s.log);
  }

  /** The release of port B, in terms of the read whose beat is delivered. */
  function ReleaseDue(l: Log, got: Option<nat>): Option<nat>
    requires got.Some? ==> got.value < |l.rds|
  {
    if got.Some? && l.rds[got.value].got + 1 == l.rds[got.value].Len() then Some(l.rds[got.value].tag) else None
  }

  lemma ReleaseDueInv(cfg: Config, s: Sys, i: ClkIn)
    requires Inv(cfg, s) && LogShape(s.b, s.log)
    ensures Got(s.b, s.log, i).Some? ==>
            Got(s.b, s.log, i).value < |s.log.rds| && s.log.rds[Got(s.b, s.log, i).value].Live()
    ensures s.b.ReleaseB(i) == ReleaseDue(s.log, Got(s.b, s.log, i))
  {
    hide ReadSide, WriteSide, TagSide, ResetQuiet, WithinCredit, LogShape, Bridge.ReleaseA, Comped;
    ClkReleases(cfg, s.b, s.log, i);
  }

  lemma InvPins(cfg: Config, s: Sys)
    requires Inv(cfg, s)
    ensures s.b.WellFormed() && s.b.Ordered(cfg.depth)
  {
  }

  /** A CompData handshake frees a tag exactly when it delivers the last of the LEN beats of the
      read at the head, and it frees that read's tag. */
  lemma FreedOnLastBeat(cfg: Config, s: Sys, i: ClkIn)
    requires cfg.depth > 0 && Reachable(cfg, s)
    ensures (ReachableShape(cfg, s); Got(s.b, s.log, i).Some? <==> s.b.drs.rcnt < s.b.drs.ws1 && i.compReady)
    ensures (ReachableShape(cfg, s); Got(s.b, s.log, i).Some? ==> Got(s.b, s.log, i).value < |s.log.rds|)
    ensures (ReachableShape(cfg, s); s.b.ReleaseB(i) == ReleaseDue(s.log, Got(s.b, s.log, i)))
  {
    hide Inv, Reachable, LogShape, Bridge.ReleaseB, ReleaseDue, Bridge.CompHs;
    ReachableInv(cfg, s);
    InvPins(cfg, s);
    ClkWires(cfg, s.b, i);
    ReachableShape(cfg, s);
    ReleaseDueInv(cfg, s, i);
  }

  /** A tag in the free pool belongs to no read that still waits for beats. */
  lemma PooledMeansServed(cfg: Config, s: Sys, r: nat)
    requires cfg.depth > 0 && Reachable(cfg, s)
    requires r < |s.log.rds| && s.log.rds[r].tag in s.b.tags.pool
    ensures |BeatsOf(s.log.compOut, r)| == s.log.rds[r].Len()
  {
    hide Reachable, BeatsOf, Remembered;
    TagsNeverShared(cfg, s);
    ReadsServed(cfg, s);
    assert ReadServed(cfg, s.log, r);
  }

  // ---- Over a run ----

  /** The edge frees read `r`'s tag through port B. */
  predicate FreesAt(s: Sys, m: Moment, r: nat)
    requires LogShape(s.b, s.log)
  {
    && m.clk.Some? && s.b.ClkLive() && r < |s.log.rds|
    && Got(s.b, s.log, m.clk.value) == Some(r) && s.b.ReleaseB(m.clk.value) == Some(s.log.rds[r].tag)
  }

  function FreedOver(cfg: Config, s: Sys, ms: seq<Moment>, r: nat): nat
    requires cfg.depth > 0 && Inv(cfg, s) && Legal(cfg, s, ms)
    decreases |ms|
  {
    if ms == [] then 0
    else
      StepKeeps(cfg, s, ms[0]);
      InvShape(cfg, s.b, s.log);
      (if FreesAt(s, ms[0], r) then 1 else 0) + FreedOver(cfg, Step(cfg, s, ms[0]), ms[1..], r)
  }

  function Served(l: Log, r: nat): nat {
    if r < |l.rds| && l.rds[r].got == l.rds[r].Len() then 1 else 0
  }

  lemma GotServes(rds: seq<ReadTxn>, got: Option<nat>, acc: Option<ChiReq>, tag: Tag, l: Log, r: nat)
    requires got.Some? ==> got.value < |rds| && rds[got.value].Live()
    requires l.rds == rds
    ensures var l' := l.(rds := ReadsAfter(rds, got, acc, tag));
            Served(l', r) == Served(l, r) + (if got == Some(r) && ReleaseDue(l, got).Some? then 1 else 0)
  {
    hide IsWrite, Beats;
  }

  lemma ServedSame(l: Log, l': Log, r: nat)
    requires |l'.rds| == |l.rds| && forall q :: 0 <= q < |l.rds| ==>
             l'.rds[q].got == l.rds[q].got && l'.rds[q].req == l.rds[q].req
    ensures Served(l', r) == Served(l, r)
  {
    hide Beats;
  }

  lemma ClkServes(cfg: Config, s: Sys, i: ClkIn, r: nat)
    requires Inv(cfg, s) && LogShape(s.b, s.log) && s.b.ClkLive()
    ensures Served(LogClk(cfg, s.b, s.log, i), r) == Served(s.log, r)
            + (if FreesAt(s, Moment(Some(i), None), r) then 1 else 0)
  {
    hide Inv, Got, Bridge.ReleaseB, ReadsAfter, WritesAfter, Bridge.CompHs, Bridge.RspHs, Bridge.ReqHs,
         Bridge.ReleaseA, Comped, Served;
    ReleaseDueInv(cfg, s, i);
    var l' := LogClk(cfg, s.b, s.log, i);
    GotServes(s.log.rds, Got(s.b, s.log, i), Accepted(cfg, s.b, i), HeadTag(s.b), s.log, r);
    SameReads(s.log.(rds := l'.rds), l', r);
  }

  lemma SameReads(l: Log, l': Log, r: nat)
    requires l'.rds == l.rds
    ensures Served(l', r) == Served(l, r)
  {
  }

  lemma CxlServes(cfg: Config, b: Bridge, l: Log, e: CxlStep, r: nat)
    requires LogShape(b, l) && DeviceOk(cfg, b, l, e)
    ensures Served(LogCxl(cfg, b, l, e), r) == Served(l, r)
  {
    hide Served, Bridge.RwdData, Bridge.ReqOutData;
    ServedSame(l, LogCxl(cfg, b, l, e), r);
  }

  lemma StepServes(cfg: Config, s: Sys, m: Moment, r: nat)
    requires Inv(cfg, s) && Allowed(cfg, s, m) && LogShape(s.b, s.log)
    ensures Served(Step(cfg, s, m).log, r) == Served(s.log, r) + (if FreesAt(s, m, r) then 1 else 0)
  {
    hide Inv, LogShape, Served, DeviceOk, DataInv, LogClk, LogCxl, Got, Bridge.ReleaseB, Bridge.Instant,
         Bridge.ClkHalf;
    ClkPartKeeps(cfg, s, m);
    var s1 := ClkPart(cfg, s, m);
    if m.clk.Some? && s.b.ClkLive() {
      ClkServes(cfg, s, m.clk.value, r);
    }
    if m.clk.Some? && !s.b.ClkLive() {
      ClkInResetLog(cfg, s.b, s.log, m.clk.value);
    }
    if m.cxl.Some? {
      CxlServes(cfg, s1.b, s1.log, m.cxl.value, r);
    }
  }

  lemma ClkInResetLog(cfg: Config, b: Bridge, l: Log, i: ClkIn)
    requires LogShape(b, l) && !b.ClkLive()
    ensures LogClk(cfg, b, l, i) == l
  {
  }

  lemma {:induction false} FreedAddsUp(cfg: Config, s: Sys, ms: seq<Moment>, r: nat)
    requires cfg.depth > 0 && Inv(cfg, s) && Legal(cfg, s, ms)
    ensures Served(Run(cfg, s, ms).log, r) == Served(s.log, r) + FreedOver(cfg, s, ms, r)
    decreases |ms|
  {
    hide Inv, Step, Allowed, FreesAt, Served;
    if ms != [] {
      StepKeeps(cfg, s, ms[0]);
      ShapeFromInv(cfg, s);
      StepServes(cfg, s, ms[0], r);
      FreedAddsUp(cfg, Step(cfg, s, ms[0]), ms[1..], r);
    }
  }

  lemma ShapeFromInv(cfg: Config, s: Sys)
    requires Inv(cfg, s)
    ensures LogShape(s.b, s.log)
  {
    hide ReadSide, WriteSide, TagSide, ResetQuiet, WithinCredit, LogShape;
    InvShape(cfg, s.b, s.log);
  }

  /** Over every run from reset port B frees a read's tag once if all its beats have been
      delivered, and not at all otherwise. */
  lemma FreedOnce(cfg: Config, state: seq<Entry>, ms: seq<Moment>, r: nat)
    requires cfg.depth > 0 && |state| == N_TAGS
    requires (ResetInv(cfg, state); Legal(cfg, Sys(AfterReset(state), EMPTY_LOG), ms))
    ensures (ResetInv(cfg, state);
             var s := Run(cfg, Sys(AfterReset(state), EMPTY_LOG), ms);
             var served := r < |s.log.rds| && |BeatsOf(s.log.compOut, r)| == s.log.rds[r].Len();
             FreedOver(cfg, Sys(AfterReset(state), EMPTY_LOG), ms, r) == if served then 1 else 0)
  {
    hide Inv, Run, Legal, AfterReset, FreedOver, BeatsOf;
    ResetInv(cfg, state);
    var s0 := Sys(AfterReset(state), EMPTY_LOG);
    FreedAddsUp(cfg, s0, ms, r);
    var s := Run(cfg, s0, ms);
    assert Reachable(cfg, s);
    ReadsServed(cfg, s);
    if r < |s.log.rds| {
      assert ReadServed(cfg, s.log, r);
    }
  }

  // ---- Where the tags are ----

  datatype Place = PostedFifo | NpFifo | NdrFifo | DrsFifo

  /** Item `i` of a FIFO, if it has been written and not yet read. */
  predicate Waiting(b: Bridge, p: Place, i: nat) {
    match p
    case PostedFifo => b.posted.rcnt <= i < |b.posted.written|
    case NpFifo => b.np.rcnt <= i < |b.np.written|
    case NdrFifo => b.ndr.rcnt <= i < |b.ndr.written|
    case DrsFifo => b.drs.rcnt <= i < |b.drs.written|
  }

  /** The tag that the waiting item carries, in the field where the RTL keeps it. */
  function TagAt(b: Bridge, p: Place, i: nat): Tag
    requires Waiting(b, p, i)
  {
    match p
    case PostedFifo => TagOf(b.posted.written[i].txnId)
    case NpFifo => TagOf(b.np.written[i].txnId)
    case NdrFifo => TagOf(b.ndr.written[i].dbId)
    case DrsFifo => TagOf(b.drs.written[i].txnId)
  }

  /** The transaction that the waiting item belongs to. */
  datatype Owner = ReadOwner(read: nat) | WriteOwner(write: nat)

  function OwnerAt(b: Bridge, l: Log, p: Place, i: nat): Owner
    requires LogShape(b, l) && Waiting(b, p, i)
  {
    match p
    case PostedFifo => WriteOwner(i)
    case NpFifo => ReadOwner(i)
    case NdrFifo => WriteOwner(l.ndrIn[i].write)
    case DrsFifo => ReadOwner(l.drsIn[i].read)
  }

  predicate OwnerLive(l: Log, o: Owner) {
    match o
    case ReadOwner(r) => r < |l.rds| && l.rds[r].Live()
    case WriteOwner(w) => w < |l.wrs| && l.wrs[w].Live()
  }

  function OwnerTag(l: Log, o: Owner): Tag
    requires OwnerLive(l, o)
  {
    match o
    case ReadOwner(r) => l.rds[r].tag
    case WriteOwner(w) => l.wrs[w].tag
  }

  lemma WaitingOwned(cfg: Config, b: Bridge, l: Log, p: Place, i: nat)
    requires DataInv(cfg, Sys(b, l)) && LogShape(b, l) && Waiting(b, p, i)
    ensures OwnerLive(l, OwnerAt(b, l, p, i)) && TagAt(b, p, i) == OwnerTag(l, OwnerAt(b, l, p, i))
  {
    hide TagSide, Contiguous, CounterAt, Delivered, Bursts, CompsSent, Comps, Dbids, DbidsOwed, CountTaken,
         CountComped, IsWrite, Beats;
  }

  /** Two waiting items of one transaction are beats of one burst on its way back. */
  lemma OwnersDiffer(cfg: Config, b: Bridge, l: Log, p: Place, i: nat, q: Place, j: nat)
    requires DataInv(cfg, Sys(b, l)) && LogShape(b, l) && Waiting(b, p, i) && Waiting(b, q, j)
    requires (p, i) != (q, j) && OwnerAt(b, l, p, i) == OwnerAt(b, l, q, j)
    ensures p == q == DrsFifo
  {
    hide TagSide, Contiguous, CounterAt, Delivered, Bursts, CompsSent, Comps, Dbids, DbidsOwed, CountTaken,
         CountComped, IsWrite, Beats, TranslateDrs, TranslateNdr;
  }

  /** In every reachable state a tag on its way through the hardware is not in the free pool, and
      no two waiting items carry the same tag but for the beats of one read's burst. */
  lemma TagInOnePlace(cfg: Config, s: Sys, p: Place, i: nat, q: Place, j: nat)
    requires cfg.depth > 0 && Reachable(cfg, s) && Waiting(s.b, p, i) && Waiting(s.b, q, j)
    ensures TagAt(s.b, p, i) !in s.b.tags.pool
    ensures (ReachableShape(cfg, s);
             TagAt(s.b, p, i) == TagAt(s.b, q, j) ==>
               (p, i) == (q, j) || (p == q == DrsFifo && s.log.drsIn[i].read == s.log.drsIn[j].read))
  {
    hide Inv, Reachable, Remembered, LogShape, Waiting, OwnerLive;
    ReachableInv(cfg, s);
    ReachableShape(cfg, s);
    TagsNeverShared(cfg, s);
    InvData(cfg, s);
    WaitingOwned(cfg, s.b, s.log, p, i);
    WaitingOwned(cfg, s.b, s.log, q, j);
    var o, o' := OwnerAt(s.b, s.log, p, i), OwnerAt(s.b, s.log, q, j);
    SameTagSameOwner(s, o, o');
    if o == o' && (p, i) != (q, j) {
      OwnersDiffer(cfg, s.b, s.log, p, i, q, j);
    }
  }

  lemma InvData(cfg: Config, s: Sys)
    requires Inv(cfg, s)
    ensures DataInv(cfg, Sys(s.b, s.log))
  {
  }

  lemma SameTagSameOwner(s: Sys, o: Owner, o': Owner)
    requires Exclusive(s.b.tags, s.log.rds, s.log.wrs) && OwnerLive(s.log, o) && OwnerLive(s.log, o')
    ensures OwnerTag(s.log, o) !in s.b.tags.pool
    ensures OwnerTag(s.log, o) == OwnerTag(s.log, o') ==> o == o'
  {
    hide ReadTxn.Live, WriteTxn.Live;
  }
}
