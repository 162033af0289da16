/**
 The scoreboard at the end of a run of the bridge with the device: once nothing is in flight
 it finds an error exactly when nothing was driven or two reads shared a TxnID.
 */
module GoldRun {
  import opened TagManager
  import opened Flits
  import opened BridgeSpec
  import opened Ledger
  import opened ReadPath
  import opened WritePath
  import opened TagLedger
  import opened System
  import opened Responder
  import opened DeviceRun
  import Theorems
  import Drain
  import opened Scoreboard

  // ---- What the monitors record of a run ----

  /** TxnIDs of the Comps among the RSP handshakes. */
  function CompTxns(s: seq<RspOut>): seq<nat> {
    if s == [] then []
    else CompTxns(s[..|s| - 1]) + (if s[|s| - 1].flit.opcode == CHI_RSP_COMP then [s[|s| - 1].flit.txnId] else [])
  }

  function CompBeats(s: seq<ReadBeat<ChiDat>>): (r: seq<CompBeat>)
    ensures |r| == |s|
    ensures forall j :: 0 <= j < |s| ==> r[j] == CompBeat(s[j].flit.txnId, s[j].flit.data)
  {
    seq(|s|, j requires 0 <= j < |s| => CompBeat(s[j].flit.txnId, s[j].flit.data))
  }

  ghost predicate Drove(d: Driven, req: ChiReq) {
    d.op == req.opcode && d.addr == req.addr && d.txnId == req.txnId && d.beats == Beats(req.size)
  }

  /** The driver published each accepted request, and drove the pattern's data for each write. */
  ghost predicate Published(o: Observed, b: Bridge, l: Log) {
    var rds, wrs := Chosen(o.driven, false), Chosen(o.driven, true);
    && |rds| == |l.rds| && (forall i :: 0 <= i < |rds| ==> Drove(rds[i], l.rds[i].req))
    && |wrs| == |l.wrs| && (forall i :: 0 <= i < |wrs| ==> Drove(wrs[i], l.wrs[i].req))
    && |l.rwdOut| <= |b.dat.written| && |l.rwdOut| <= |Expansion(l.wrs)|
    && (forall j :: 0 <= j < |l.rwdOut| ==> BeatDriven(o, wrs, l.wrs, b.dat.written, j))
  }

  ghost predicate BeatDriven(o: Observed, drove: seq<Driven>, wrs: seq<WriteTxn>, dat: seq<ChiDat>, j: nat)
    requires j < |dat| && j < |Expansion(wrs)|
  {
    var (w, k) := Expansion(wrs)[j];
    w < |drove| && dat[j].data == o.writeData(drove[w].data, k)
  }

  ghost predicate Recorded(o: Observed, data: Pattern, w: World) {
    && o.readData == data
    && o.m2sReq == w.d.reqs && o.m2sRwd == w.d.rwds
    && o.comps == CompTxns(w.s.log.rspOut)
    && o.compData == CompBeats(w.s.log.compOut)
    && Published(o, w.s.b, w.s.log)
  }

  ghost predicate TxnIdsDistinct(rds: seq<ReadTxn>) {
    forall i, j :: 0 <= i < j < |rds| ==> rds[i].req.txnId != rds[j].req.txnId
  }

  // ---- Read data by TxnID ----

  ghost predicate UnderOwnTxn(out: seq<ReadBeat<ChiDat>>, rds: seq<ReadTxn>) {
    forall j :: 0 <= j < |out| ==> out[j].read < |rds| && out[j].flit.txnId == rds[out[j].read].req.txnId
  }

  lemma {:induction false} GroupOfRead(out: seq<ReadBeat<ChiDat>>, rds: seq<ReadTxn>, r: nat, n: nat)
    requires UnderOwnTxn(out, rds) && TxnIdsDistinct(rds) && r < |rds| && n <= |out|
    ensures var g, c := Group(CompBeats(out)[..n], rds[r].req.txnId), BeatsOf(out[..n], r);
            |g| == |c| && forall k :: 0 <= k < |g| ==> g[k] == c[k].flit.data
  {
    if n > 0 {
      GroupOfRead(out, rds, r, n - 1);
      assert CompBeats(out)[..n][..n - 1] == CompBeats(out)[..n - 1] && out[..n][..n - 1] == out[..n - 1];
    }
  }

  lemma {:induction false} GroupOfTwo(out: seq<ReadBeat<ChiDat>>, rds: seq<ReadTxn>, r: nat, q: nat, n: nat)
    requires UnderOwnTxn(out, rds) && r < |rds| && q < |rds| && r != q && rds[r].req.txnId == rds[q].req.txnId
             && n <= |out|
    ensures |Group(CompBeats(out)[..n], rds[r].req.txnId)| >= |BeatsOf(out[..n], r)| + |BeatsOf(out[..n], q)|
  {
    if n > 0 {
      GroupOfTwo(out, rds, r, q, n - 1);
      assert CompBeats(out)[..n][..n - 1] == CompBeats(out)[..n - 1] && out[..n][..n - 1] == out[..n - 1];
    }
  }

  /** Every beat of a read is one of the stream's beats for it. */
  lemma {:induction false} BeatsComeFrom<F>(s: seq<ReadBeat<F>>, r: nat, k: nat) returns (j: nat)
    requires k < |BeatsOf(s, r)|
    ensures j < |s| && s[j] == BeatsOf(s, r)[k] && s[j].read == r
  {
    var front := BeatsOf(s[..|s| - 1], r);
    if k < |front| {
      j := BeatsComeFrom(s[..|s| - 1], r, k);
    } else {
      j := |s| - 1;
    }
  }

  lemma OwnTxns(cfg: Config, b: Bridge, l: Log)
    requires ReadOk(cfg, b, l)
    ensures UnderOwnTxn(l.compOut, l.rds)
    ensures forall r :: 0 <= r < |l.rds| ==> |BeatsOf(l.compOut, r)| == l.rds[r].got
  {
    hide Beatwise, Contiguous, CounterAt, Requests, SumReturned, SumGot, BeatsOf, TranslateDrs;
    forall r | 0 <= r < |l.rds| ensures |BeatsOf(l.compOut, r)| == l.rds[r].got {
      assert Numbered(BeatsOf(l.compOut, r), l.rds[r].got);
    }
  }

  /** With distinct TxnIDs each read's group is its own LEN beats of the pattern. */
  lemma DataOfRead(cfg: Config, data: Pattern, w: World, r: nat)
    requires Good(cfg, data, w) && r < |w.s.log.rds| && TxnIdsDistinct(w.s.log.rds)
    ensures var t := w.s.log.rds[r];
            var g := Group(CompBeats(w.s.log.compOut), t.req.txnId);
            && |g| == t.got
            && forall k :: 0 <= k < |g| ==> g[k] == data(t.req.addr, k)
  {
    hide ReadSide, WriteSide, TagSide, ReadsOwed, WritesOwed, BeatsOf, Group, CompFlit, ToldReqs, ToldRwds,
         TxnIdsDistinct, UnderOwnTxn, ResetQuiet, WithinCredit;
    var l := w.s.log;
    OwnTxns(cfg, w.s.b, l);
    GroupOfRead(l.compOut, l.rds, r, |l.compOut|);
    assert CompBeats(l.compOut)[..|l.compOut|] == CompBeats(l.compOut) && l.compOut[..|l.compOut|] == l.compOut;
    Theorems.ReadsServedInv(cfg, w.s);
    assert Theorems.ReadServed(cfg, l, r);
    var c, d := BeatsOf(l.compOut, r), BeatsOf(l.drsIn, r);
    forall k | 0 <= k < |c| ensures r < |l.reqOut| && c[k].flit.data == data(l.reqOut[r].addr, k) {
      var j := BeatsComeFrom(l.drsIn, r, k);
    }
    AddressKept(w.s.b, l, cfg);
  }

  lemma AddressKept(b: Bridge, l: Log, cfg: Config)
    requires ReadOk(cfg, b, l)
    ensures |l.reqOut| <= |l.rds|
    ensures forall i :: 0 <= i < |l.reqOut| ==> l.reqOut[i] == TranslateReq(l.rds[i].req, l.rds[i].tag)
    ensures forall i :: 0 <= i < |l.reqOut| ==> l.reqOut[i].addr == l.rds[i].req.addr
  {
    hide Beatwise, Contiguous, CounterAt, Delivered, IsWrite, Beats, ReadMemOp;
  }

  lemma ReadsOfRun(cfg: Config, data: Pattern, w: World, o: Observed)
    requires Good(cfg, data, w) && Drain.Quiet(w.s) && Recorded(o, data, w)
    ensures ReadsRight(o) <==> TxnIdsDistinct(w.s.log.rds)
  {
    hide ReadSide, WriteSide, TagSide, ReadsOwed, WritesOwed, ToldRwds, DataOf, ResetQuiet, WithinCredit, Group,
         Chosen, Beats, ReadMemOp, ExpectedReqMemOp, SumLen, BeatDriven, IsWrite, CompTxns;
    var l, rds := w.s.log, Chosen(o.driven, false);
    AddressKept(w.s.b, l, cfg);
    forall i | 0 <= i < |rds| ensures i < |o.m2sReq| && ReqRight(rds[i], o.m2sReq[i]) {
      assert o.m2sReq[i] == SeenReqOf(l.reqOut[i]);
      ExpectationsAgree(rds[i].op);
    }
    if TxnIdsDistinct(l.rds) {
      forall i | 0 <= i < |rds| ensures ReadRight(o, rds, i) {
        DataOfRead(cfg, data, w, i);
      }
    }
    OwnTxns(cfg, w.s.b, l);
    forall i, j | 0 <= i < j < |rds| && l.rds[i].req.txnId == l.rds[j].req.txnId ensures !ReadRight(o, rds, i) {
      GroupOfTwo(l.compOut, l.rds, i, j, |l.compOut|);
      assert CompBeats(l.compOut)[..|l.compOut|] == CompBeats(l.compOut) && l.compOut[..|l.compOut|] == l.compOut;
    }
  }

  // ---- Writes ----

  function Below(n: nat): (s: set<nat>)
    ensures |s| == n && forall k: nat :: k in s <==> k < n
  {
    if n == 0 then {} else Below(n - 1) + {n - 1}
  }

  function Members(s: seq<nat>): (m: set<nat>)
    ensures forall k :: k in m <==> k in s
  {
    if s == [] then {}
    else
      assert s == s[..|s| - 1] + [s[|s| - 1]];
      Members(s[..|s| - 1]) + {s[|s| - 1]}
  }

  lemma {:induction false} MembersSize(s: seq<nat>)
    requires forall i, j :: 0 <= i < j < |s| ==> s[i] != s[j]
    ensures |Members(s)| == |s|
  {
    if s != [] {
      MembersSize(s[..|s| - 1]);
      assert s[|s| - 1] !in s[..|s| - 1];
    }
  }

  /** A list of n different numbers below n has them all. */
  lemma Pigeonhole(s: seq<nat>, n: nat, w: nat)
    requires |s| == n && w < n
    requires (forall j :: 0 <= j < n ==> s[j] < n) && forall i, j :: 0 <= i < j < n ==> s[i] != s[j]
    ensures w in s
  {
    if w !in s {
      MembersSize(s);
      SubsetSize(Members(s), Below(n) - {w});
    }
  }

  lemma {:induction false} SubsetSize(a: set<nat>, b: set<nat>)
    requires a <= b
    ensures |a| <= |b|
  {
    if a != {} {
      var x :| x in a;
      SubsetSize(a - {x}, b - {x});
    }
  }

  lemma {:induction false} CompInTxns(s: seq<RspOut>, x: RspOut)
    requires x in Comps(s) && x.flit.opcode == CHI_RSP_COMP
    ensures x.flit.txnId in CompTxns(s)
  {
    var last := s[|s| - 1];
    if last != x {
      CompInTxns(s[..|s| - 1], x);
    }
  }

  /** When every write has had its Comp, every write's TxnID is among the Comps. */
  lemma CompsOfRun(b: Bridge, l: Log, w: nat)
    requires WriteOk(b, l) && w < |l.wrs| && forall i :: 0 <= i < |l.wrs| ==> l.wrs[i].comped
    ensures l.wrs[w].req.txnId in CompTxns(l.rspOut)
  {
    hide Commands, Bursts, DbidsOwed, Comps, CompTxns, CountTaken, CountComped, TranslateNdr, CompRsp;
    Drain.WriteCounts(l.wrs);
    var s := seq(b.ndr.rcnt, j requires 0 <= j < b.ndr.rcnt => l.ndrIn[j].write);
    Pigeonhole(s, |l.wrs|, w);
    var j :| 0 <= j < |s| && s[j] == w;
    var x := Comps(l.rspOut)[j];
    assert x == CompOut(w, CompRsp(l.ndrIn[j].flit, l.wrs[w].req.txnId));
    CompRspIs(l.ndrIn[j].flit, l.wrs[w].req.txnId);
    CompInTxns(l.rspOut, x);
  }

  lemma CompRspIs(f: CxlNdr, txnId: nat)
    ensures CompRsp(f, txnId).opcode == CHI_RSP_COMP && CompRsp(f, txnId).txnId == txnId
  {
  }

  lemma {:induction false} SumsAgree(drove: seq<Driven>, wrs: seq<WriteTxn>)
    requires |drove| == |wrs| && forall i :: 0 <= i < |wrs| ==> Drove(drove[i], wrs[i].req)
    ensures SumBeats(drove) == SumLen(wrs)
  {
    hide Beats;
    if wrs != [] {
      SumsAgree(drove[..|wrs| - 1], wrs[..|wrs| - 1]);
    }
  }

  lemma BeatOfRun(o: Observed, b: Bridge, l: Log, drove: seq<Driven>, i: nat, k: nat)
    requires WriteOk(b, l) && |l.rwdOut| == SumLen(l.wrs) <= |b.dat.written|
    requires ToldRwds(o.m2sRwd, l.rwdOut)
    requires |drove| == |l.wrs| && forall i :: 0 <= i < |drove| ==> Drove(drove[i], l.wrs[i].req)
    requires forall j :: 0 <= j < |l.rwdOut| ==> BeatDriven(o, drove, l.wrs, b.dat.written, j)
    requires i < |drove| && k < drove[i].beats
    ensures BeatRight(o, drove, i, k)
  {
    hide Commands, DbidsOwed, Completions, CompsSent, Comps, Bursts, Expansion, SumLen, SumBeats, Beats, WriteMemOp,
         ExpectedRwdMemOp;
    SumsAgree(drove[..i], l.wrs[..i]);
    ExpectationsAgree(drove[i].op);
    ExpansionAt(l.wrs, i, k);
    var j := SumLen(l.wrs[..i]) + k;
    RwdIsExpansion(b.posted, b.dat, l.wrs, l.rwdOut, b.rwdBeat);
    assert BeatDriven(o, drove, l.wrs, b.dat.written, j);
    assert l.rwdOut[j] == WriteBeat(i, k, TranslateWrite(l.wrs[i].req, b.dat.written[j], l.wrs[i].tag));
    assert o.m2sRwd[j] == SeenRwdOf(l.rwdOut[j]);
  }

  lemma WritesOfRun(cfg: Config, data: Pattern, w: World, o: Observed)
    requires Good(cfg, data, w) && Drain.Quiet(w.s) && Recorded(o, data, w)
    ensures WritesRight(o)
  {
    hide ReadSide, WriteSide, TagSide, ReadsOwed, WritesOwed, ToldRwds, ToldReqs, DataOf, ResetQuiet, WithinCredit,
         Group, Chosen, Beats, SumLen, BeatDriven, IsWrite, CompTxns, SumBeats, BeatRight, Expansion, CompBeats;
    var l, drove := w.s.log, Chosen(o.driven, true);
    SumsAgree(drove, l.wrs);
    ToldLength(w.d.rwds, l.rwdOut);
    forall i | 0 <= i < |drove| ensures WriteRight(o, drove, i) {
      CompsOfRun(w.s.b, l, i);
      forall k | 0 <= k < drove[i].beats ensures BeatRight(o, drove, i, k) {
        BeatOfRun(o, w.s.b, l, drove, i, k);
      }
    }
  }

  lemma ToldLength(rwds: seq<SeenRwd>, rwdOut: seq<WriteBeat>)
    requires ToldRwds(rwds, rwdOut)
    ensures |rwds| == |rwdOut|
  {
  }

  /** At the end of a run with nothing left in flight the scoreboard passes exactly when
      something was driven and no two reads had the same TxnID. */
  lemma QuietRunPasses(cfg: Config, data: Pattern, state: seq<Entry>, xs: seq<Stimulus>, o: Observed)
    requires cfg.depth > 0 && |state| == N_TAGS
    requires Drain.Quiet(End(cfg, data, state, xs).s) && Recorded(o, data, End(cfg, data, state, xs))
    ensures Passes(o) <==> o.driven != [] && TxnIdsDistinct(End(cfg, data, state, xs).s.log.rds)
  {
    hide Good, End, Drain.Quiet, Recorded, ReadsRight, WritesRight, TxnIdsDistinct;
    EndGood(cfg, data, state, xs);
    var w := End(cfg, data, state, xs);
    ReadsOfRun(cfg, data, w, o);
    WritesOfRun(cfg, data, w, o);
  }
}
