/**
 The main results, stated for every state reachable from reset and every run that starts
 in one.
 */
module Guarantees {
  import opened TagManager
  import opened Flits
  import opened BridgeSpec
  import opened Ledger
  import opened ReadPath
  import opened WritePath
  import opened TagLedger
  import opened System
  import opened ResetSync
  import opened Runs
  import opened Pins
  import opened Theorems
  import opened Streams
  import opened Drain
  import Losses
  import Witnesses

  // ---- Reachability is closed under steps and runs ----

  lemma {:induction false} RunSnoc(cfg: Config, s: Sys, ms: seq<Moment>, m: Moment)
    requires cfg.depth > 0 && Inv(cfg, s) && Legal(cfg, s, ms)
    requires (RunInv(cfg, s, ms); Allowed(cfg, Run(cfg, s, ms), m))
    ensures Inv(cfg, Run(cfg, s, ms))
    ensures Legal(cfg, s, ms + [m]) && Run(cfg, s, ms + [m]) == Step(cfg, Run(cfg, s, ms), m)
    decreases |ms|
  {
    hide Inv, Step, Allowed;
    RunInv(cfg, s, ms);
    if ms == [] {
      assert (ms + [m])[1..] == [];
      StepKeeps(cfg, s, m);
    } else {
      StepKeeps(cfg, s, ms[0]);
      RunSnoc(cfg, Step(cfg, s, ms[0]), ms[1..], m);
      assert (ms + [m])[1..] == ms[1..] + [m];
    }
  }

  lemma ReachableStep(cfg: Config, s: Sys, m: Moment)
    requires cfg.depth > 0 && Reachable(cfg, s)
    requires (ReachableInv(cfg, s); Allowed(cfg, s, m))
    ensures (ReachableInv(cfg, s); Reachable(cfg, Step(cfg, s, m)))
  {
    hide Inv, Run, Legal, AfterReset, Step, Allowed;
    ReachableInv(cfg, s);
    var state: seq<Entry>, ms: seq<Moment> :|
      && |state| == N_TAGS
      && (ResetInv(cfg, state); Legal(cfg, Sys(AfterReset(state), EMPTY_LOG), ms))
      && s == Run(cfg, Sys(AfterReset(state), EMPTY_LOG), ms);
    ResetInv(cfg, state);
    RunSnoc(cfg, Sys(AfterReset(state), EMPTY_LOG), ms, m);
  }

  // ---- Release from reset ----

  function ClkEdges(ms: seq<Moment>): nat {
    if ms == [] then 0 else (if ms[0].clk.Some? then 1 else 0) + ClkEdges(ms[1..])
  }

  function CxlEdges(ms: seq<Moment>): nat {
    if ms == [] then 0 else (if ms[0].cxl.Some? then 1 else 0) + CxlEdges(ms[1..])
  }

  lemma {:induction false} ResetsClocked(cfg: Config, s: Sys, ms: seq<Moment>, k: nat, c: nat)
    requires cfg.depth > 0 && Inv(cfg, s) && Legal(cfg, s, ms)
    requires s.b.clkReset == AfterEdges(k) && s.b.cxlReset == AfterEdges(c)
    ensures Run(cfg, s, ms).b.clkReset == AfterEdges(k + ClkEdges(ms))
    ensures Run(cfg, s, ms).b.cxlReset == AfterEdges(c + CxlEdges(ms))
    decreases |ms|
  {
    hide Inv, Step, Allowed, Shifted, AfterEdges;
    if ms != [] {
      StepKeeps(cfg, s, ms[0]);
      ResetStep(cfg, s, ms[0], k, c);
      ResetsClocked(cfg, Step(cfg, s, ms[0]), ms[1..], if ms[0].clk.Some? then k + 1 else k,
                    if ms[0].cxl.Some? then c + 1 else c);
    }
  }

  lemma ResetStep(cfg: Config, s: Sys, m: Moment, k: nat, c: nat)
    requires cfg.depth > 0 && Inv(cfg, s) && Allowed(cfg, s, m)
    requires s.b.clkReset == AfterEdges(k) && s.b.cxlReset == AfterEdges(c)
    ensures Step(cfg, s, m).b.clkReset == AfterEdges(if m.clk.Some? then k + 1 else k)
    ensures Step(cfg, s, m).b.cxlReset == AfterEdges(if m.cxl.Some? then c + 1 else c)
  {
    hide ReadSide, WriteSide, TagSide, ResetQuiet, WithinCredit, DeviceOk, Bridge.Instant, LogClk, LogCxl, ClkPart;
    InstantRegisters(cfg, s.b, m.clk, m.Cxl());
  }

  /** Each domain is released by its own second edge, not before, and stays released: until then
      nothing crosses its pins. */
  lemma ReleasedByTwoEdges(cfg: Config, state: seq<Entry>, ms: seq<Moment>)
    requires cfg.depth > 0 && |state| == N_TAGS
    requires (ResetInv(cfg, state); Legal(cfg, Sys(AfterReset(state), EMPTY_LOG), ms))
    ensures (ResetInv(cfg, state);
             var b := Run(cfg, Sys(AfterReset(state), EMPTY_LOG), ms).b;
             && (b.clkReset[1] <==> ClkEdges(ms) >= 2) && (b.cxlReset[1] <==> CxlEdges(ms) >= 2))
  {
    hide Inv, Run, Legal;
    ResetInv(cfg, state);
    ResetsClocked(cfg, Sys(AfterReset(state), EMPTY_LOG), ms, 0, 0);
    ReleasedAfterTwo(ClkEdges(ms));
    ReleasedAfterTwo(CxlEdges(ms));
  }

  // ---- Routing ----

  lemma {:induction false} SelectedMembers(s: seq<ChiReq>)
    ensures |Selected(s, true)| + |Selected(s, false)| == |s|
    ensures forall q :: q in s ==> q in Selected(s, q.opcode in {0x1D, 0x1C, 0x19})
  {
    if s != [] {
      SelectedMembers(s[..|s| - 1]);
      assert s == s[..|s| - 1] + [s[|s| - 1]];
    }
  }

  /** Over every run from reset, on the pins alone: a request with one of the three write opcodes
      has its DBIDResp delivered or waiting, in order, and leaves on RwD; every other one leaves
      on Req, in order, the two known reads as MemRd and MemRdData and only unknown opcodes as
      MemInv. */
  lemma RoutedByOpcode(cfg: Config, state: seq<Entry>, ms: seq<Moment>)
    requires cfg.depth > 0 && |state| == N_TAGS
    requires (ResetInv(cfg, state); Legal(cfg, Sys(AfterReset(state), EMPTY_LOG), ms))
    ensures (ResetInv(cfg, state);
             var s0 := Sys(AfterReset(state), EMPTY_LOG);
             var t, s := TrafficOver(cfg, s0, ms), Run(cfg, s0, ms);
             Routed(t.req, Selected(t.req, false), Selected(t.req, true), t, s))
  {
    hide Inv, Run, Legal, AfterReset, TrafficOver, Routed, Reachable, ReadsEncoded, WritesEncoded, EntriesEncoded;
    ResetInv(cfg, state);
    var s0 := Sys(AfterReset(state), EMPTY_LOG);
    var t, s := TrafficOver(cfg, s0, ms), Run(cfg, s0, ms);
    LedgerIsTraffic(cfg, state, ms);
    assert Reachable(cfg, s) by { ReachableByRun(cfg, state, ms); }
    FlitsEncoded(cfg, s);
    ResponsesMerged(cfg, s);
    SelectedMembers(t.req);
    RoutedFrom(cfg, s, t);
  }

  ghost predicate Routed(reqs: seq<ChiReq>, r: seq<ChiReq>, w: seq<ChiReq>, t: Traffic, s: Sys) {
    var answered := Dbids(s.log.rspOut) + s.b.rspInt;
    && |w| + |r| == |reqs| && (forall q :: q in reqs ==> q in if q.opcode in {0x1D, 0x1C, 0x19} then w else r)
    && |answered| == |w|
    && (forall i :: 0 <= i < |w| ==> answered[i].opcode == 3 && answered[i].txnId == w[i].txnId)
    && |t.m2sReq| <= |r|
    && (forall i :: 0 <= i < |t.m2sReq| ==>
          && t.m2sReq[i].addr == r[i].addr
          && t.m2sReq[i].memOp == (if r[i].opcode == 0x04 then 1 else if r[i].opcode == 0x03 then 2 else 5)
          && (r[i].opcode in {0x04, 0x03, 0x1D, 0x1C, 0x19} ==> t.m2sReq[i].memOp in {1, 2}))
    && |t.m2sRwd| == |s.log.rwdOut|
    && (forall j :: 0 <= j < |t.m2sRwd| ==>
          var k := s.log.rwdOut[j].write;
          && k < |w| && t.m2sRwd[j].addr == w[k].addr
          && t.m2sRwd[j].memOp == (if w[k].opcode == 0x1C then 4 else 3))
  }

  lemma RoutedFrom(cfg: Config, s: Sys, t: Traffic)
    requires Shows(s, t) && ReadsEncoded(cfg, s.log) && WritesEncoded(s.b, s.log)
    requires |s.log.wrs| - |Dbids(s.log.rspOut)| == |s.b.rspInt|
    requires DbidResps(s.log.wrs) == Dbids(s.log.rspOut) + s.b.rspInt
    requires |Selected(t.req, true)| + |Selected(t.req, false)| == |t.req|
    requires forall q :: q in t.req ==> q in Selected(t.req, q.opcode in {0x1D, 0x1C, 0x19})
    ensures Routed(t.req, Selected(t.req, false), Selected(t.req, true), t, s)
  {
    hide Selected, Dbids, Comps;
    var r, w := Selected(t.req, false), Selected(t.req, true);
    assert forall i :: 0 <= i < |r| ==> r[i] == s.log.rds[i].req;
    assert forall i :: 0 <= i < |w| ==> w[i] == s.log.wrs[i].req;
    assert forall j :: 0 <= j < |t.m2sRwd| ==> t.m2sRwd[j] == s.log.rwdOut[j].flit;
  }

  lemma ReachableByRun(cfg: Config, state: seq<Entry>, ms: seq<Moment>)
    requires cfg.depth > 0 && |state| == N_TAGS
    requires (ResetInv(cfg, state); Legal(cfg, Sys(AfterReset(state), EMPTY_LOG), ms))
    ensures (ResetInv(cfg, state); Reachable(cfg, Run(cfg, Sys(AfterReset(state), EMPTY_LOG), ms)))
  {
    hide Inv, Run, Legal, AfterReset;
    ResetInv(cfg, state);
  }

  // ---- Credit ----

  /** Reported occupancy never understates what is in a request FIFO and never passes the
      credit limit, whatever the limit. */
  lemma OccupancyHonest(cfg: Config, s: Sys)
    requires cfg.depth > 0 && Reachable(cfg, s)
    ensures s.b.WellFormed()
    ensures |s.b.posted.Contents()| <= |s.b.posted.written| - s.b.posted.rs1 <= cfg.depth
    ensures |s.b.np.Contents()| <= |s.b.np.written| - s.b.np.rs1 <= cfg.depth
    ensures |s.b.posted.written| - s.b.posted.rs1 <= cfg.postedCredits % 65536 <= cfg.postedCredits
    ensures |s.b.np.written| - s.b.np.rs1 <= cfg.npCredits % 65536 <= cfg.npCredits
    ensures |s.b.dat.Contents()| <= cfg.depth && |s.b.ndr.Contents()| <= cfg.depth && |s.b.drs.Contents()| <= cfg.depth
  {
    hide Reachable, ReadSide, WriteSide, TagSide, ResetQuiet;
    ReachableInv(cfg, s);
  }

  // ---- The pins ----

  /** At every instant the ledger and the FIFOs move by what the pins hand over: each channel by
      the flit that was valid while ready, and by nothing else. */
  lemma CrossingMoves(cfg: Config, s: Sys, m: Moment)
    requires cfg.depth > 0 && Reachable(cfg, s)
    requires (ReachableInv(cfg, s); Allowed(cfg, s, m))
    ensures s.b.WellFormed()
    ensures (ReachableInv(cfg, s); Moves(s, Step(cfg, s, m), Crossing(cfg, s.b, m)))
  {
    hide Inv, Reachable, Step, Allowed, Moves, Crossing;
    ReachableInv(cfg, s);
    CrossingMovesInv(cfg, s, m);
  }

  /** A request is taken exactly when it is offered with the link open, a tag free and room where
      its opcode sends it, whatever the other side holds; it gets the tag at the head of the pool,
      and a write its DBIDResp at once. */
  lemma RequestTaken(cfg: Config, s: Sys, m: Moment)
    requires cfg.depth > 0 && Reachable(cfg, s)
    requires (ReachableInv(cfg, s); Allowed(cfg, s, m)) && m.clk.Some?
    ensures (ReachableInv(cfg, s); Takes(cfg, s, m.clk.value, Step(cfg, s, m)))
  {
    hide Inv, Reachable, Step, Allowed, Takes;
    ReachableInv(cfg, s);
    TakesInv(cfg, s, m);
  }

  /** In every reachable state each flit sent carries what the encodings say for its transaction,
      and the state RAM describes the transactions that hold a tag. */
  lemma FlitsEncoded(cfg: Config, s: Sys)
    requires cfg.depth > 0 && Reachable(cfg, s)
    ensures ReadsEncoded(cfg, s.log) && WritesEncoded(s.b, s.log) && EntriesEncoded(s.b, s.log)
  {
    hide Inv, Reachable, ReadsEncoded, WritesEncoded, EntriesEncoded;
    ReachableInv(cfg, s);
    Encodings(cfg, s);
  }

  // ---- Tags over whole runs ----

  /** Edges that lose a tag: the pool gives one out and the request is refused, or both ports
      release at once. */
  function LossesOver(cfg: Config, s: Sys, ms: seq<Moment>): nat
    requires cfg.depth > 0 && Inv(cfg, s) && Legal(cfg, s, ms)
    decreases |ms|
  {
    if ms == [] then 0
    else
      StepKeeps(cfg, s, ms[0]);
      LeaksAt(cfg, s, ms[0]) + DropsAt(s, ms[0]) + LossesOver(cfg, Step(cfg, s, ms[0]), ms[1..])
  }

  lemma {:induction false} LossesAddUp(cfg: Config, s: Sys, ms: seq<Moment>)
    requires cfg.depth > 0 && Inv(cfg, s) && Legal(cfg, s, ms)
    ensures var p := Run(cfg, s, ms);
            |p.log.leaked| + |p.log.dropped| == |s.log.leaked| + |s.log.dropped| + LossesOver(cfg, s, ms)
    decreases |ms|
  {
    hide Inv, Step, Allowed, LeaksAt, DropsAt;
    if ms != [] {
      StepKeeps(cfg, s, ms[0]);
      LossesCounted(cfg, s, ms[0]);
      LossesAddUp(cfg, Step(cfg, s, ms[0]), ms[1..]);
    }
  }

  /** Once the pool has been filled, free tags, tags of live transactions and losing edges make
      up the sixteen; so no tag is missing exactly when no edge of the run lost one. */
  lemma TagsConserved(cfg: Config, state: seq<Entry>, ms: seq<Moment>)
    requires cfg.depth > 0 && |state| == N_TAGS
    requires (ResetInv(cfg, state); Legal(cfg, Sys(AfterReset(state), EMPTY_LOG), ms))
    ensures (ResetInv(cfg, state);
             var s := Run(cfg, Sys(AfterReset(state), EMPTY_LOG), ms);
             var lost := LossesOver(cfg, Sys(AfterReset(state), EMPTY_LOG), ms);
             var present := |s.b.tags.pool| + |ReadTags(s.log.rds)| + |WriteTags(s.log.wrs)|;
             s.b.tags.initDone ==> present + lost == N_TAGS && (present == N_TAGS <==> lost == 0))
  {
    hide Inv, Run, Legal, AfterReset, LossesOver, ReadTags, WriteTags;
    ResetInv(cfg, state);
    var s0 := Sys(AfterReset(state), EMPTY_LOG);
    LossesAddUp(cfg, s0, ms);
    var s := Run(cfg, s0, ms);
    assert Reachable(cfg, s);
    if s.b.tags.initDone {
      TagsAccounted(cfg, s);
    }
  }

  /** An edge loses a tag exactly when the wires say so, and a returned tag always finds room. */
  lemma TagsLostOnlySo(cfg: Config, s: Sys, m: Moment)
    requires cfg.depth > 0 && Reachable(cfg, s)
    requires (ReachableInv(cfg, s); Allowed(cfg, s, m))
    ensures (ReachableInv(cfg, s); ReachableWellFormed(cfg, s);
             var s' := Step(cfg, s, m);
             |s'.log.leaked| == |s.log.leaked| + LeaksAt(cfg, s, m)
               && |s'.log.dropped| == |s.log.dropped| + DropsAt(s, m))
    ensures s.b.WellFormed()
    ensures m.clk.Some? && s.b.ClkLive() ==>
              (s.b.tags.Returned(N_TAGS, s.b.ReleaseA(m.clk.value), s.b.ReleaseB(m.clk.value)).Some? ==>
               |s.b.tags.pool| < N_TAGS)
  {
    hide Inv, Reachable, Step, Allowed;
    ReachableInv(cfg, s);
    LossesCounted(cfg, s, m);
    ReachableWellFormed(cfg, s);
  }

  lemma ReachableWellFormed(cfg: Config, s: Sys)
    requires Inv(cfg, s)
    ensures s.b.WellFormed()
  {
  }

  /** When all tags are lost no request is accepted in any later state. */
  lemma AllLostNeverRecovers(cfg: Config, s: Sys, ms: seq<Moment>, open: bool, opcode: nat)
    requires cfg.depth > 0 && Reachable(cfg, s) && |s.log.leaked| + |s.log.dropped| == N_TAGS
    requires (ReachableInv(cfg, s); Legal(cfg, s, ms))
    ensures (ReachableInv(cfg, s); !TakesRequest(cfg, Run(cfg, s, ms).b, open, opcode))
  {
    hide Inv, Reachable, Run, Legal;
    ReachableInv(cfg, s);
    Losses.AllLostIsForever(cfg, s, ms, open, opcode);
  }

  /** No later state accepts any request. */
  ghost predicate Blocked(cfg: Config, s: Sys)
    requires cfg.depth > 0 && Inv(cfg, s)
  {
    forall ms, open, opcode :: Legal(cfg, s, ms) ==>
      (RunInv(cfg, s, ms); !TakesRequest(cfg, Run(cfg, s, ms).b, open, opcode))
  }

  /** Such states can be reached, whatever the parameters. */
  lemma CanBlockForever(cfg: Config)
    requires cfg.depth > 0
    ensures exists s :: Reachable(cfg, s) && (ReachableInv(cfg, s); Blocked(cfg, s))
  {
    hide Inv, Reachable, Run, Legal, TakesRequest;
    Witnesses.AllTagsCanBeLost(cfg);
    var s :| Reachable(cfg, s) && |s.log.leaked| == N_TAGS && s.b.tags.initDone && s.b.tags.pool == [];
    ReachableInv(cfg, s);
    Losses.LossBound(cfg, s);
    forall ms, open, opcode | Legal(cfg, s, ms) ensures !TakesRequest(cfg, Run(cfg, s, ms).b, open, opcode) {
      AllLostNeverRecovers(cfg, s, ms, open, opcode);
    }
  }

  // ---- Responses ----

  /** Each RSP handshake pops one source, the ndr FIFO if it shows a completion and the DBIDResp
      FIFO otherwise, and delivers its head, which is the response that is due; nothing else pops
      either, and each accepted write finds room for its DBIDResp. */
  lemma RspPopsOneSource(cfg: Config, s: Sys, m: Moment)
    requires cfg.depth > 0 && Reachable(cfg, s)
    requires (ReachableInv(cfg, s); Allowed(cfg, s, m))
    ensures (ReachableInv(cfg, s); ReachableWellFormed(cfg, s); SourcesMove(cfg, s, m, Step(cfg, s, m)))
  {
    hide Inv, Reachable, Step, Allowed, SourcesMove;
    ReachableInv(cfg, s);
    OneSourcePops(cfg, s, m);
  }

  // ---- Stability ----

  /** A Req, RwD or CompData flit that is shown and not taken stays, with every bit, over any
      number of edges of both clocks. */
  lemma StalledFlitsHold(cfg: Config, s: Sys, ms: seq<Moment>, ch: Channel)
    requires cfg.depth > 0 && Reachable(cfg, s)
    requires (ReachableInv(cfg, s); Legal(cfg, s, ms) && NeverTaken(cfg, s, ms, ch) && Drives(s.b, ch) != Nothing)
    ensures (ReachableInv(cfg, s); RunInv(cfg, s, ms); Drives(Run(cfg, s, ms).b, ch) == Drives(s.b, ch))
  {
    hide Inv, Reachable, Run, Legal, NeverTaken, Drives;
    ReachableInv(cfg, s);
    StalledFlitsStay(cfg, s, ms, ch);
  }

  // ---- Work owed ----

  /** Accepting a request adds its cost to the work owed, every later handshake takes one off,
      and nothing else changes it. */
  lemma WorkOwedStep(cfg: Config, s: Sys, m: Moment)
    requires cfg.depth > 0 && Reachable(cfg, s)
    requires (ReachableInv(cfg, s); Allowed(cfg, s, m))
    ensures s.b.WellFormed()
    ensures (ReachableInv(cfg, s);
             var x := Crossing(cfg, s.b, m);
             Owed(Step(cfg, s, m)) == Owed(s) + CostsOf(x.req) - Flow(x))
  {
    hide Inv, Reachable, Step, Allowed, Owed, AcceptedCost, HandshakesAt, Crossing, CostsOf, Flow;
    ReachableInv(cfg, s);
    HandshakesCross(cfg, s, m);
    OwedStep(cfg, s, m);
  }

  /** A drain ends after exactly as many handshakes as were owed when it began, and then all
      FIFOs are empty, the counters at rest and no tag in use. */
  lemma DrainEnds(cfg: Config, s: Sys, ms: seq<Moment>)
    requires cfg.depth > 0 && Reachable(cfg, s)
    requires (ReachableInv(cfg, s); Legal(cfg, s, ms) && TrafficOver(cfg, s, ms).req == [])
    ensures Inv(cfg, s)
    ensures Owed(s) >= 0 && Flow(TrafficOver(cfg, s, ms)) <= Owed(s)
    ensures Quiet(Run(cfg, s, ms)) <==> Flow(TrafficOver(cfg, s, ms)) == Owed(s)
    ensures Quiet(Run(cfg, s, ms)) ==> AtRest(Run(cfg, s, ms))
  {
    hide Inv, Reachable, Run, Legal, AcceptsNothing, HandshakesOver, Owed, Quiet, AtRest, TrafficOver, Flow;
    ReachableInv(cfg, s);
    HandshakesFlow(cfg, s, ms);
    OwedMeansInFlight(cfg, s);
    DrainExact(cfg, s, ms);
    RunInv(cfg, s, ms);
    if Quiet(Run(cfg, s, ms)) {
      QuietRests(cfg, Run(cfg, s, ms));
    }
  }

  ghost predicate AtRest(s: Sys) {
    && Drained(s.b.posted) && Drained(s.b.np) && Drained(s.b.ndr) && Drained(s.b.drs)
    && s.b.rwdBeat == 0 && s.b.drsBeat == 0
    && ReadTags(s.log.rds) == multiset{} && WriteTags(s.log.wrs) == multiset{}
  }

  lemma QuietRests(cfg: Config, s: Sys)
    requires Inv(cfg, s) && Quiet(s)
    ensures AtRest(s)
  {
    hide ReadSide, WriteSide, TagSide, Quiet, ResetQuiet, WithinCredit, ReadTags, WriteTags;
    QuietIsEmpty(cfg, s);
  }
}
