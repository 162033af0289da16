/**
 What holds in every state reachable from reset, and over every step from one: end-to-end
 TxnID and data recovery, the tag account, the two response streams, the write bursts,
 stability of stalled flits, and the work still owed.
 */
module Theorems {
  import opened Options
  import opened TagManager
  import opened Flits
  import opened BridgeSpec
  import opened Ledger
  import opened ReadPath
  import opened WritePath
  import opened TagLedger
  import opened System
  import opened Runs
  import opened Pins

  // ---- Reads, end to end ----

  lemma {:induction false} BeatsOfPrefix<F>(s: seq<ReadBeat<F>>, n: nat, r: nat)
    requires n <= |s|
    ensures BeatsOf(s[..n], r) <= BeatsOf(s, r)
  {
    if n == |s| {
      assert s[..n] == s;
    } else {
      BeatsOfPrefix(s[..|s| - 1], n, r);
      assert s[..|s| - 1][..n] == s[..n];
    }
  }

  /** The beats delivered for a read are the beats taken for it, flit for flit. */
  lemma {:induction false} DeliveredInOrder(rds: seq<ReadTxn>, drsIn: seq<ReadBeat<CxlDrs>>,
                                            compOut: seq<ReadBeat<ChiDat>>, allBe: nat, n: nat, r: nat)
    requires n <= |compOut| <= |drsIn| && r < |rds|
    requires forall j :: 0 <= j < |compOut| ==>
               && drsIn[j].read < |rds|
               && compOut[j] == ReadBeat(drsIn[j].read, drsIn[j].beat,
                                         CompFlit(drsIn[j].flit, rds[drsIn[j].read].req.txnId, allBe))
    ensures var c, d := BeatsOf(compOut[..n], r), BeatsOf(drsIn[..n], r);
            |c| == |d| && forall k :: 0 <= k < |c| ==> c[k].flit == CompFlit(d[k].flit, rds[r].req.txnId, allBe)
  {
    hide CompFlit;
    if n > 0 {
      DeliveredInOrder(rds, drsIn, compOut, allBe, n - 1, r);
      assert compOut[..n] == compOut[..n - 1] + [compOut[n - 1]];
      assert drsIn[..n] == drsIn[..n - 1] + [drsIn[n - 1]];
      BeatsOfSnoc(compOut[..n - 1], compOut[n - 1], r);
      BeatsOfSnoc(drsIn[..n - 1], drsIn[n - 1], r);
    }
  }

  /** What read `r` has received: beats 0, 1, ... of what the device returned for its request,
      under its own TxnID, at most LEN of them. */
  ghost predicate ReadServed(cfg: Config, l: Log, r: nat)
    requires r < |l.rds|
  {
    var t := l.rds[r];
    var c, d := BeatsOf(l.compOut, r), BeatsOf(l.drsIn, r);
    && |c| == t.got <= |d| == t.returned <= t.Len()
    && (forall k :: 0 <= k < |c| ==>
          c[k].beat == k && c[k].flit == ChiDat(4, t.req.txnId, 0, 0, 0, d[k].flit.poison, cfg.allBe, d[k].flit.data))
    && (forall k :: 0 <= k < |d| ==> d[k].beat == k)
  }

  lemma CompFlitIs(allBe: nat)
    ensures forall f, txnId :: CompFlit(f, txnId, allBe) == ChiDat(4, txnId, 0, 0, 0, f.poison, allBe, f.data)
  {
  }

  lemma ReadsServed(cfg: Config, s: Sys)
    requires cfg.depth > 0 && Reachable(cfg, s)
    ensures forall r :: 0 <= r < |s.log.rds| ==> ReadServed(cfg, s.log, r)
    ensures forall j :: 0 <= j < |s.log.compOut| ==> s.log.compOut[j].read < |s.log.rds|
    ensures s.b.WellFormed() && (s.b.CompValid() ==> s.b.drsBeat < s.b.HeadEntry().len)
  {
    hide Reachable, BeatsOf, CompFlit;
    ReachableInv(cfg, s);
    InvShape(cfg, s.b, s.log);
    ReadsServedInv(cfg, s);
    if s.b.CompValid() {
      HeadRecovered(cfg, s.b, s.log);
    }
  }

  lemma ReadsServedInv(cfg: Config, s: Sys)
    requires Inv(cfg, s)
    ensures forall r :: 0 <= r < |s.log.rds| ==> ReadServed(cfg, s.log, r)
    ensures forall j :: 0 <= j < |s.log.compOut| ==> s.log.compOut[j].read < |s.log.rds|
  {
    hide BeatsOf, CompFlit, Requests, Contiguous, CounterAt, WriteSide, TagSide, SumReturned, SumGot;
    var l := s.log;
    forall r | 0 <= r < |l.rds| ensures ReadServed(cfg, l, r) {
      DeliveredInOrder(l.rds, l.drsIn, l.compOut, cfg.allBe, |l.compOut|, r);
      BeatsOfPrefix(l.drsIn, |l.compOut|, r);
      assert l.compOut[..|l.compOut|] == l.compOut;
      assert Numbered(BeatsOf(l.drsIn, r), l.rds[r].returned);
      assert Numbered(BeatsOf(l.compOut, r), l.rds[r].got);
      CompFlitIs(cfg.allBe);
    }
  }

  // ---- Tags ----

  lemma TagsNeverShared(cfg: Config, s: Sys)
    requires cfg.depth > 0 && Reachable(cfg, s)
    ensures Exclusive(s.b.tags, s.log.rds, s.log.wrs)
    ensures Remembered(s.b.tags.state, s.log.rds, s.log.wrs)
  {
    hide Reachable, ReadSide, WriteSide, Account, Remembered;
    ReachableInv(cfg, s);
    TagsExclusive(s.b.tags, s.log.rds, s.log.wrs, s.log.leaked, s.log.dropped);
  }

  /** Pool, live transactions, leaked and dropped tags make up the sixteen; a tag is missing
      from pool and transactions exactly when one was leaked or dropped. */
  lemma TagsAccounted(cfg: Config, s: Sys)
    requires cfg.depth > 0 && Reachable(cfg, s) && s.b.tags.initDone
    ensures var live := |ReadTags(s.log.rds)| + |WriteTags(s.log.wrs)|;
            && |s.b.tags.pool| + live + |s.log.leaked| + |s.log.dropped| == N_TAGS
            && (|s.b.tags.pool| + live == N_TAGS <==> s.log.leaked == multiset{} && s.log.dropped == multiset{})
  {
    hide Reachable, ReadSide, WriteSide, Account, Remembered, ReadTags, WriteTags;
    ReachableInv(cfg, s);
    ExactAccount(s.b.tags, s.log.rds, s.log.wrs, s.log.leaked, s.log.dropped);
  }

  /** On the pins: a request is offered with the link open and a tag free, and not taken. */
  function LeaksAt(cfg: Config, s: Sys, m: Moment): nat {
    if m.clk.Some? && s.b.clkReset[1] && m.clk.value.reqValid && m.clk.value.open && s.b.tags.initDone
       && |s.b.tags.pool| > 0 && !TakesRequest(cfg, s.b, m.clk.value.open, m.clk.value.req.opcode) then 1 else 0
  }

  /** A Comp and the last beat of a read are taken together. */
  function DropsAt(s: Sys, m: Moment): nat
    requires s.b.WellFormed()
  {
    if m.clk.Some? && s.b.clkReset[1] && m.clk.value.rspReady && s.b.ndr.rcnt < s.b.ndr.ws1
       && m.clk.value.compReady && s.b.drs.rcnt < s.b.drs.ws1
       && s.b.drsBeat + 1 == s.b.tags.state[s.b.drs.written[s.b.drs.rcnt].txnId % 16].len then 1 else 0
  }

  lemma LossWires(cfg: Config, s: Sys, i: ClkIn)
    requires Inv(cfg, s) && LogShape(s.b, s.log)
    ensures var m := Moment(Some(i), None);
            && (LeaksAt(cfg, s, m) == 1 <==> s.b.ClkLive() && s.b.TagTaken(i) && !s.b.ReqHs(cfg, i))
            && (DropsAt(s, m) == 1 <==> s.b.ClkLive() && s.b.ReleaseA(i).Some? && s.b.ReleaseB(i).Some?)
  {
    hide ReadSide, WriteSide, TagSide, ResetQuiet, WithinCredit, TakesRequest, Bridge.ReqHs, Bridge.DrsLast, Beats;
    ClkWires(cfg, s.b, i);
    if s.b.CompValid() {
      HeadRecovered(cfg, s.b, s.log);
    }
  }

  /** The two loss columns count cycles: an allocate handshake without a request handshake
      leaks a tag, a double release drops one, and nothing else moves either column. A tag
      that comes back always finds room in the pool. */
  lemma LossesCounted(cfg: Config, s: Sys, m: Moment)
    requires cfg.depth > 0 && Inv(cfg, s) && Allowed(cfg, s, m)
    ensures var s' := Step(cfg, s, m);
            && |s'.log.leaked| == |s.log.leaked| + LeaksAt(cfg, s, m)
            && |s'.log.dropped| == |s.log.dropped| + DropsAt(s, m)
    ensures m.clk.Some? && s.b.ClkLive() ==>
              (s.b.tags.Returned(N_TAGS, s.b.ReleaseA(m.clk.value), s.b.ReleaseB(m.clk.value)).Some? ==>
               |s.b.tags.pool| < N_TAGS)
  {
    hide ReadSide, WriteSide, Account, Remembered, DeviceOk, Bridge.ReqHs, Bridge.ReleaseA, Bridge.ReleaseB,
         Bridge.TagTaken, Bridge.Instant, Bridge.ClkHalf, LogCxl, IsWrite, Accepted, Got, Comped, ReadsAfter,
         WritesAfter, ReadTags, WriteTags, TakesRequest;
    ClkPartKeeps(cfg, s, m);
    var s1 := ClkPart(cfg, s, m);
    if m.cxl.Some? {
      CxlLossesSame(cfg, s1.b, s1.log, m.cxl.value);
    }
    InvShape(cfg, s.b, s.log);
    if m.clk.Some? {
      LossWires(cfg, s, m.clk.value);
    }
    if m.clk.Some? && s.b.ClkLive() {
      ClkReleases(cfg, s.b, s.log, m.clk.value);
      AcceptedGates(cfg, s.b, m.clk.value);
      ClkEdgeTags(s.b.tags, s.log.rds, s.log.wrs, s.log.leaked, s.log.dropped, m.clk.value.reqValid && m.clk.value.open,
                  EntryOf(m.clk.value.req), Got(s.b, s.log, m.clk.value), Comped(s.b, s.log, m.clk.value),
                  s.b.ReleaseA(m.clk.value), s.b.ReleaseB(m.clk.value), Accepted(cfg, s.b, m.clk.value), HeadTag(s.b));
    }
  }

  lemma CxlLossesSame(cfg: Config, b: Bridge, l: Log, e: CxlStep)
    requires LogShape(b, l) && DeviceOk(cfg, b, l, e)
    ensures LogCxl(cfg, b, l, e).leaked == l.leaked && LogCxl(cfg, b, l, e).dropped == l.dropped
  {
  }

  lemma AcceptedGates(cfg: Config, b: Bridge, i: ClkIn)
    ensures Accepted(cfg, b, i).Some? ==>
            i.reqValid && i.open && b.tags.AllocRdy() && Accepted(cfg, b, i).value == i.req
  {
  }
}
