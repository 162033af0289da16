/**
 The bridge with `CxlResponder` on its `cxl_clk` side and any host on the other: the device
 keeps its contract at every step, so every such run is one of the runs that the theorems
 about reachable states speak of.
 */
module DeviceRun {
  import opened Options
  import opened SyncFifo
  import opened TagManager
  import opened Flits
  import opened BridgeSpec
  import opened Ledger
  import opened ReadPath
  import opened WritePath
  import opened TagLedger
  import opened System
  import opened Runs
  import opened Responder

  /** The read and beat that the device returns next, and the write it completes next. */
  datatype Aim = Aim(read: nat, beat: nat, write: nat)

  // ---- What the device still owes on DRS ----

  function Answer(f: CxlReq, data: Pattern): (r: seq<Pending>)
    ensures |r| == f.len
  {
    Replies(f, data, f.len)
  }

  function Answers(reqOut: seq<CxlReq>, data: Pattern): seq<Pending> {
    if reqOut == [] then [] else Answer(reqOut[0], data) + Answers(reqOut[1..], data)
  }

  ghost predicate AimsAt(reqOut: seq<CxlReq>, read: nat, beat: nat) {
    read <= |reqOut| && if read < |reqOut| then beat < reqOut[read].len else beat == 0
  }

  /** The rest of the answer at which the device aims, and all later answers. */
  function Outstanding(reqOut: seq<CxlReq>, data: Pattern, read: nat, beat: nat): seq<Pending>
    requires AimsAt(reqOut, read, beat)
  {
    if read < |reqOut| then Answer(reqOut[read], data)[beat..] + Answers(reqOut[read + 1..], data) else []
  }

  lemma {:induction false} AnswersSnoc(reqOut: seq<CxlReq>, f: CxlReq, data: Pattern)
    ensures Answers(reqOut + [f], data) == Answers(reqOut, data) + Answer(f, data)
  {
    hide Replies;
    if reqOut == [] {
      assert [f][1..] == [];
      assert Answers([f], data) == Answer(f, data) + Answers([], data);
    } else {
      AnswersSnoc(reqOut[1..], f, data);
      assert (reqOut + [f])[1..] == reqOut[1..] + [f];
    }
  }

  lemma OutstandingSnoc(reqOut: seq<CxlReq>, f: CxlReq, data: Pattern, read: nat, beat: nat)
    requires AimsAt(reqOut, read, beat) && f.len >= 1
    ensures AimsAt(reqOut + [f], read, beat)
    ensures Outstanding(reqOut + [f], data, read, beat) == Outstanding(reqOut, data, read, beat) + Answer(f, data)
  {
    hide Answer;
    if read < |reqOut| {
      AnswersSnoc(reqOut[read + 1..], f, data);
      assert (reqOut + [f])[read + 1..] == reqOut[read + 1..] + [f];
    } else {
      assert (reqOut + [f])[read + 1..] == [];
      assert Answers([], data) == [];
    }
  }

  function NextRead(reqOut: seq<CxlReq>, read: nat, beat: nat): (nat, nat)
    requires read < |reqOut|
  {
    if beat + 1 == reqOut[read].len then (read + 1, 0) else (read, beat + 1)
  }

  lemma OutstandingNext(reqOut: seq<CxlReq>, data: Pattern, read: nat, beat: nat)
    requires AimsAt(reqOut, read, beat)
    requires forall i :: 0 <= i < |reqOut| ==> reqOut[i].len >= 1
    ensures Outstanding(reqOut, data, read, beat) == [] <==> read == |reqOut|
    ensures read < |reqOut| ==>
              var (r, k) := NextRead(reqOut, read, beat);
              && AimsAt(reqOut, r, k)
              && Outstanding(reqOut, data, read, beat)[0] ==
                   Pending(TagOf(reqOut[read].tag), data(reqOut[read].addr, beat))
              && Outstanding(reqOut, data, read, beat)[1..] == Outstanding(reqOut, data, r, k)
  {
    hide TagOf;
    if read < |reqOut| {
      var rest := Answers(reqOut[read + 1..], data);
      var part := Answer(reqOut[read], data)[beat..];
      assert (part + rest)[1..] == part[1..] + rest;
      if beat + 1 == reqOut[read].len {
        assert part[1..] == [];
        if read + 1 < |reqOut| {
          assert reqOut[read + 1..][0] == reqOut[read + 1] && reqOut[read + 1..][1..] == reqOut[read + 2..];
          assert Answer(reqOut[read + 1], data)[0..] == Answer(reqOut[read + 1], data);
        }
      }
    }
  }

  // ---- The device against the ledger ----

  ghost predicate ReadsOwed(d: Device, data: Pattern, rds: seq<ReadTxn>, reqOut: seq<CxlReq>, a: Aim) {
    && |reqOut| <= |rds|
    && AimsAt(reqOut, a.read, a.beat)
    && (forall q :: 0 <= q < |rds| ==>
          rds[q].returned == if q < a.read then reqOut[q].len else if q == a.read then a.beat else 0)
    && d.drsQ == Outstanding(reqOut, data, a.read, a.beat)
    && (d.drsValid ==> d.drsQ != [] && d.drs == DrsFlit(d.drsQ[0]))
  }

  ghost predicate LastSent(rwdOut: seq<WriteBeat>, w: nat, tag: Tag) {
    exists j :: 0 <= j < |rwdOut| && rwdOut[j].write == w && rwdOut[j].beat + 1 == rwdOut[j].flit.len
      && rwdOut[j].flit.tag == tag
  }

  /** Only the write that the RwD stream is in has beats seen and not all of them. */
  ghost predicate Midway(seen: map<nat, nat>, wrs: seq<WriteTxn>, done: nat, rwdBeat: nat)
    requires rwdBeat > 0 ==> done < |wrs|
  {
    forall t: nat :: BeatsSeen(seen, t) == if rwdBeat > 0 && t == wrs[done].tag then rwdBeat else 0
  }

  ghost predicate WritesOwed(d: Device, wrs: seq<WriteTxn>, rwdOut: seq<WriteBeat>, done: nat, rwdBeat: nat, a: Aim) {
    && a.write <= done <= |wrs|
    && (rwdBeat > 0 ==> done < |wrs|)
    && (forall w :: 0 <= w < |wrs| ==> (wrs[w].ndrTaken <==> w < a.write))
    && |d.ndrQ| == done - a.write
    && (forall i :: 0 <= i < |d.ndrQ| ==> d.ndrQ[i] == wrs[a.write + i].tag)
    && (forall w :: 0 <= w < done ==> LastSent(rwdOut, w, wrs[w].tag))
    && Midway(d.rwdSeen, wrs, done, rwdBeat)
    && (d.ndrValid ==> d.ndrQ != [] && d.ndr == NdrFlit(d.ndrQ[0]))
  }

  /** What the device has published, */
  ghost predicate ToldReqs(reqs: seq<SeenReq>, reqOut: seq<CxlReq>) {
    && |reqs| == |reqOut|
    && forall i :: 0 <= i < |reqs| ==> reqs[i] == SeenReqOf(reqOut[i])
  }

  ghost predicate ToldRwds(rwds: seq<SeenRwd>, rwdOut: seq<WriteBeat>) {
    && |rwds| == |rwdOut|
    && forall i :: 0 <= i < |rwds| ==> rwds[i] == SeenRwdOf(rwdOut[i])
  }

  /** and the data it returned. */
  ghost predicate DataOf(data: Pattern, reqOut: seq<CxlReq>, drsIn: seq<ReadBeat<CxlDrs>>) {
    forall j :: 0 <= j < |drsIn| ==>
      drsIn[j].read < |reqOut| && drsIn[j].flit.data == data(reqOut[drsIn[j].read].addr, drsIn[j].beat)
  }

  ghost predicate Told(d: Device, data: Pattern, l: Log) {
    ToldReqs(d.reqs, l.reqOut) && ToldRwds(d.rwds, l.rwdOut) && DataOf(data, l.reqOut, l.drsIn)
  }

  function SeenReqOf(f: CxlReq): SeenReq { SeenReq(f.memOp, f.addr, f.tag, f.len) }

  function SeenRwdOf(x: WriteBeat): SeenRwd {
    SeenRwd(x.flit.memOp, x.flit.addr, x.flit.tag, x.flit.data, x.beat, x.flit.len)
  }

  ghost predicate Tracks(data: Pattern, b: Bridge, l: Log, d: Device, a: Aim) {
    && ReadsOwed(d, data, l.rds, l.reqOut, a)
    && WritesOwed(d, l.wrs, l.rwdOut, b.posted.rcnt, b.rwdBeat, a)
    && Told(d, data, l)
  }

  // ---- What each event does to the device ----

  lemma ReqTracked(d: Device, data: Pattern, rds: seq<ReadTxn>, reqOut: seq<CxlReq>, a: Aim, f: CxlReq)
    requires ReadsOwed(d, data, rds, reqOut, a) && |reqOut| < |rds| && f.len >= 1
    ensures ReadsOwed(d.AfterReq(f, data), data, rds, reqOut + [f], a)
  {
    hide Replies, Outstanding, DrsFlit;
    OutstandingSnoc(reqOut, f, data, a.read, a.beat);
  }

  lemma DrsTracked(d: Device, data: Pattern, rds: seq<ReadTxn>, reqOut: seq<CxlReq>, a: Aim, ready: bool)
    requires ReadsOwed(d, data, rds, reqOut, a)
    requires forall i :: 0 <= i < |reqOut| ==> reqOut[i].len >= 1
    ensures d.drsValid && ready ==>
              && a.read < |reqOut| <= |rds| && a.beat < reqOut[a.read].len
              && d.drs == CxlDrs(0, 0, 0, TagOf(reqOut[a.read].tag), 0, 0, data(reqOut[a.read].addr, a.beat))
              && rds[a.read].returned == a.beat
              && var (r, k) := NextRead(reqOut, a.read, a.beat);
                 ReadsOwed(d.AfterDrs(ready), data, rds[a.read := rds[a.read].(returned := rds[a.read].returned + 1)],
                           reqOut, Aim(r, k, a.write))
    ensures !(d.drsValid && ready) ==> ReadsOwed(d.AfterDrs(ready), data, rds, reqOut, a)
  {
    hide Outstanding, TagOf;
    OutstandingNext(reqOut, data, a.read, a.beat);
  }

  lemma NdrTracked(d: Device, wrs: seq<WriteTxn>, rwdOut: seq<WriteBeat>, done: nat, rwdBeat: nat, a: Aim, ready: bool)
    requires WritesOwed(d, wrs, rwdOut, done, rwdBeat, a)
    ensures d.ndrValid && ready ==>
              && a.write < done && d.ndr == CxlNdr(0, 0, 0, wrs[a.write].tag, 0) && !wrs[a.write].ndrTaken
                 && LastSent(rwdOut, a.write, wrs[a.write].tag)
              && WritesOwed(d.AfterNdr(ready), wrs[a.write := wrs[a.write].(ndrTaken := true)], rwdOut, done, rwdBeat,
                            Aim(a.read, a.beat, a.write + 1))
    ensures !(d.ndrValid && ready) ==> WritesOwed(d.AfterNdr(ready), wrs, rwdOut, done, rwdBeat, a)
  {
    hide LastSent;
  }

  lemma LastSentGrows(rwdOut: seq<WriteBeat>, x: WriteBeat, w: nat, tag: Tag)
    ensures LastSent(rwdOut, w, tag) ==> LastSent(rwdOut + [x], w, tag)
    ensures x.write == w && x.beat + 1 == x.flit.len && x.flit.tag == tag ==> LastSent(rwdOut + [x], w, tag)
  {
    var out := rwdOut + [x];
    assert out[|rwdOut|] == x;
    if LastSent(rwdOut, w, tag) {
      var j :| 0 <= j < |rwdOut| && rwdOut[j].write == w && rwdOut[j].beat + 1 == rwdOut[j].flit.len
        && rwdOut[j].flit.tag == tag;
      assert out[j] == rwdOut[j];
    }
  }

  lemma MidwayNext(seen: map<nat, nat>, wrs: seq<WriteTxn>, done: nat, rwdBeat: nat, len: nat)
    requires done < |wrs| && Midway(seen, wrs, done, rwdBeat) && rwdBeat < len
    ensures BeatsSeen(seen, wrs[done].tag) == rwdBeat
    ensures rwdBeat + 1 == len ==> Midway(seen[wrs[done].tag as nat := 0], wrs, done + 1, 0)
    ensures rwdBeat + 1 < len ==> Midway(seen[wrs[done].tag as nat := rwdBeat + 1], wrs, done, rwdBeat + 1)
  {
    var tag: nat := wrs[done].tag;
    var ended, further := seen[tag := 0], seen[tag := rwdBeat + 1];
    forall t: nat ensures BeatsSeen(ended, t) == 0 {
      assert BeatsSeen(seen, t) == if t == tag then rwdBeat else 0;
    }
    forall t: nat ensures BeatsSeen(further, t) == if t == tag then rwdBeat + 1 else 0 {
      assert BeatsSeen(seen, t) == if t == tag then rwdBeat else 0;
    }
  }

  lemma RwdTracked(d: Device, wrs: seq<WriteTxn>, rwdOut: seq<WriteBeat>, done: nat, rwdBeat: nat, a: Aim, f: CxlRwd)
    requires WritesOwed(d, wrs, rwdOut, done, rwdBeat, a)
    requires done < |wrs| && f.tag == wrs[done].tag && f.len == wrs[done].Len() && rwdBeat < f.len
    ensures BeatsSeen(d.rwdSeen, f.tag) == rwdBeat
    ensures var last := rwdBeat + 1 == f.len;
            WritesOwed(d.AfterRwd(f), wrs, rwdOut + [WriteBeat(done, rwdBeat, f)],
                       if last then done + 1 else done, if last then 0 else rwdBeat + 1, a)
  {
    hide LastSent, NdrFlit, Beats, Midway, BeatsSeen;
    forall w | 0 <= w < |wrs| ensures
      && (LastSent(rwdOut, w, wrs[w].tag) ==> LastSent(rwdOut + [WriteBeat(done, rwdBeat, f)], w, wrs[w].tag))
      && (w == done && rwdBeat + 1 == f.len ==> LastSent(rwdOut + [WriteBeat(done, rwdBeat, f)], w, wrs[w].tag))
    {
      LastSentGrows(rwdOut, WriteBeat(done, rwdBeat, f), w, wrs[w].tag);
    }
    assert TagOf(f.tag) == wrs[done].tag;
    MidwayNext(d.rwdSeen, wrs, done, rwdBeat, f.len);
  }

  // ---- One cxl_clk edge ----

  /** The pins of the bridge that the device drives; it always accepts. */
  function DeviceIn(d: Device, open: bool, late: Late): CxlIn {
    CxlIn(true, true, d.ndrValid, d.ndr, d.drsValid, d.drs, open, late)
  }

  function StepOf(d: Device, a: Aim, open: bool, late: Late): CxlStep {
    CxlStep(DeviceIn(d, open, late), a.read, a.write)
  }

  function ReqTaken(b: Bridge): Option<CxlReq>
    requires b.WellFormed()
  {
    if b.ReqOutValid() then Some(b.ReqOutData()) else None
  }

  function RwdTaken(b: Bridge): Option<CxlRwd>
    requires b.WellFormed()
  {
    if b.RwdValid() then Some(b.RwdData()) else None
  }

  function DeviceEdge(cfg: Config, b: Bridge, d: Device, data: Pattern, open: bool): Device
    requires b.WellFormed()
  {
    d.Edge(ReqTaken(b), RwdTaken(b), data, open && !b.drs.Full(cfg.depth), open && !b.ndr.Full(cfg.depth))
  }

  function AimAfter(cfg: Config, b: Bridge, l: Log, a: Aim, e: CxlStep): Aim {
    var (r, k) := if b.DrsHs(cfg, e.cxl) && a.read < |l.reqOut| then NextRead(l.reqOut, a.read, a.beat)
        else (a.read, a.beat);
    Aim(r, k, if b.NdrHs(cfg, e.cxl) then a.write + 1 else a.write)
  }

  lemma ReqsSent(b: Bridge, l: Log)
    requires Requests(b.np, l.rds, l.reqOut) && HeadKnown(b.np)
    ensures forall i :: 0 <= i < |l.reqOut| ==>
            l.reqOut[i].len >= 1 && l.reqOut[i].tag < N_TAGS && l.reqOut[i].len == l.rds[i].Len()
    ensures b.ReqOutValid() ==>
            |l.reqOut| < |l.rds| && b.np.Head() == l.rds[|l.reqOut|].req.(txnId := l.rds[|l.reqOut|].tag)
  {
    hide IsWrite, ReadMemOp;
  }

  /** The device keeps its contract, */
  lemma EdgeAllowed(cfg: Config, data: Pattern, b: Bridge, l: Log, d: Device, a: Aim, open: bool, late: Late)
    requires DataInv(cfg, Sys(b, l)) && Tracks(data, b, l, d, a)
    ensures DeviceOk(cfg, b, l, StepOf(d, a, open, late))
    ensures b.DrsHs(cfg, DeviceIn(d, open, late)) ==>
            a.read < |l.reqOut| && d.drs.data == data(l.reqOut[a.read].addr, a.beat) && l.rds[a.read].returned == a.beat
  {
    hide Beatwise, Contiguous, CounterAt, Delivered, WriteSide, TagSide, Outstanding, Answers, LastSent, Beats;
    ReqsSent(b, l);
    DrsTracked(d, data, l.rds, l.reqOut, a, open && !b.drs.Full(cfg.depth));
    NdrTracked(d, l.wrs, l.rwdOut, b.posted.rcnt, b.rwdBeat, a, open && !b.ndr.Full(cfg.depth));
    assert LastSent(l.rwdOut, a.write, d.ndr.tag) ==> NdrSeen(l.rwdOut, a.write, d.ndr) by {
      LastIsSeen(l.rwdOut, a.write, d.ndr);
    }
  }

  ghost predicate NdrSeen(rwdOut: seq<WriteBeat>, w: nat, f: CxlNdr) {
    exists j :: 0 <= j < |rwdOut| && rwdOut[j].write == w && rwdOut[j].beat + 1 == rwdOut[j].flit.len
      && rwdOut[j].flit.tag == f.tag
  }

  lemma LastIsSeen(rwdOut: seq<WriteBeat>, w: nat, f: CxlNdr)
    ensures LastSent(rwdOut, w, f.tag) ==> NdrSeen(rwdOut, w, f)
  {
  }

  lemma ReadsOwedSame(d: Device, d': Device, data: Pattern, rds: seq<ReadTxn>, reqOut: seq<CxlReq>, a: Aim, a': Aim)
    requires ReadsOwed(d, data, rds, reqOut, a)
    requires d'.drsQ == d.drsQ && d'.drsValid == d.drsValid && d'.drs == d.drs && a'.read == a.read && a'.beat == a.beat
    ensures ReadsOwed(d', data, rds, reqOut, a')
  {
    hide Outstanding, DrsFlit;
  }

  lemma WritesOwedSame(d: Device, d': Device, wrs: seq<WriteTxn>, rwdOut: seq<WriteBeat>, done: nat, rwdBeat: nat,
                       a: Aim, a': Aim)
    requires WritesOwed(d, wrs, rwdOut, done, rwdBeat, a)
    requires d'.ndrQ == d.ndrQ && d'.ndrValid == d.ndrValid && d'.ndr == d.ndr && d'.rwdSeen == d.rwdSeen
             && a'.write == a.write
    ensures WritesOwed(d', wrs, rwdOut, done, rwdBeat, a')
  {
    hide LastSent, Midway, NdrFlit;
  }

  function Sent<F>(out: seq<F>, f: Option<F>): seq<F> {
    if f.Some? then out + [f.value] else out
  }

  /** The read half of an edge: a Req may come, a DRS beat may go. */
  lemma ReadsEdge(d: Device, data: Pattern, rds: seq<ReadTxn>, reqOut: seq<CxlReq>, a: Aim,
                  req: Option<CxlReq>, rwd: Option<CxlRwd>, drsReady: bool, ndrReady: bool)
    requires ReadsOwed(d, data, rds, reqOut, a)
    requires forall i :: 0 <= i < |reqOut| ==> reqOut[i].len >= 1
    requires req.Some? ==> |reqOut| < |rds| && req.value.len >= 1
    ensures d.drsValid && drsReady ==>
              && a.read < |reqOut| <= |rds|
              && var (r, k) := NextRead(reqOut, a.read, a.beat);
                 ReadsOwed(d.Edge(req, rwd, data, drsReady, ndrReady), data,
                           rds[a.read := rds[a.read].(returned := rds[a.read].returned + 1)], Sent(reqOut, req),
                           Aim(r, k, a.write))
    ensures !(d.drsValid && drsReady) ==> ReadsOwed(d.Edge(req, rwd, data, drsReady, ndrReady), data, rds,
                                                    Sent(reqOut, req), a)
  {
    hide ReadsOwed, Replies, DrsFlit, NdrFlit, BeatsSeen, TagOf;
    DrsTracked(d, data, rds, reqOut, a, drsReady);
    if req.Some? {
      ReqTracked(d, data, rds, reqOut, a, req.value);
    }
    var d1 := if req.Some? then d.AfterReq(req.value, data) else d;
    var d2 := if rwd.Some? then d1.AfterRwd(rwd.value) else d1;
    ReadsOwedSame(d1, d2, data, rds, Sent(reqOut, req), a, a);
    DrsTracked(d2, data, rds, Sent(reqOut, req), a, drsReady);
    var d3 := d2.AfterDrs(drsReady);
    if d.drsValid && drsReady {
      var (r, k) := NextRead(reqOut, a.read, a.beat);
      ReadsOwedSame(d3, d3.AfterNdr(ndrReady), data, rds[a.read := rds[a.read].(returned := rds[a.read].returned + 1)],
                    Sent(reqOut, req), Aim(r, k, a.write), Aim(r, k, a.write));
    } else {
      ReadsOwedSame(d3, d3.AfterNdr(ndrReady), data, rds, Sent(reqOut, req), a, a);
    }
  }

  /** The write half: an RwD beat may come, an NDR may go. */
  lemma WritesEdge(d: Device, data: Pattern, wrs: seq<WriteTxn>, rwdOut: seq<WriteBeat>, done: nat, rwdBeat: nat,
                   a: Aim, req: Option<CxlReq>, rwd: Option<CxlRwd>, drsReady: bool, ndrReady: bool)
    requires WritesOwed(d, wrs, rwdOut, done, rwdBeat, a)
    requires rwd.Some? ==>
             done < |wrs| && rwd.value.tag == wrs[done].tag && rwd.value.len == wrs[done].Len()
             && rwdBeat < rwd.value.len
    ensures var last := rwd.Some? && rwdBeat + 1 == rwd.value.len;
            var done' := if last then done + 1 else done;
            var rwdBeat' := if rwd.None? then rwdBeat else if last then 0 else rwdBeat + 1;
            var rwdOut' := if rwd.Some? then rwdOut + [WriteBeat(done, rwdBeat, rwd.value)] else rwdOut;
            && (d.ndrValid && ndrReady ==>
                  && a.write < |wrs|
                  && WritesOwed(d.Edge(req, rwd, data, drsReady, ndrReady),
                                wrs[a.write := wrs[a.write].(ndrTaken := true)], rwdOut', done', rwdBeat',
                                Aim(a.read, a.beat, a.write + 1)))
            && (!(d.ndrValid && ndrReady) ==> WritesOwed(d.Edge(req, rwd, data, drsReady, ndrReady), wrs, rwdOut',
                                                         done', rwdBeat', a))
  {
    hide WritesOwed, Replies, DrsFlit, NdrFlit, BeatsSeen, TagOf, Beats;
    var d1 := if req.Some? then d.AfterReq(req.value, data) else d;
    WritesOwedSame(d, d1, wrs, rwdOut, done, rwdBeat, a, a);
    if rwd.Some? {
      RwdTracked(d1, wrs, rwdOut, done, rwdBeat, a, rwd.value);
    }
    var last := rwd.Some? && rwdBeat + 1 == rwd.value.len;
    var done' := if last then done + 1 else done;
    var rwdBeat' := if rwd.None? then rwdBeat else if last then 0 else rwdBeat + 1;
    var rwdOut' := if rwd.Some? then rwdOut + [WriteBeat(done, rwdBeat, rwd.value)] else rwdOut;
    var d2 := if rwd.Some? then d1.AfterRwd(rwd.value) else d1;
    var d3 := d2.AfterDrs(drsReady);
    WritesOwedSame(d2, d3, wrs, rwdOut', done', rwdBeat', a, a);
    NdrTracked(d3, wrs, rwdOut', done', rwdBeat', a, ndrReady);
    InRange(d3, wrs, rwdOut', done', rwdBeat', a);
  }

  lemma InRange(d: Device, wrs: seq<WriteTxn>, rwdOut: seq<WriteBeat>, done: nat, rwdBeat: nat, a: Aim)
    requires WritesOwed(d, wrs, rwdOut, done, rwdBeat, a)
    ensures a.write <= done <= |wrs|
  {
  }

  /** What an edge publishes. */
  lemma EdgeTells(d: Device, data: Pattern, req: Option<CxlReq>, rwd: Option<CxlRwd>, drsReady: bool, ndrReady: bool)
    ensures var d' := d.Edge(req, rwd, data, drsReady, ndrReady);
            && d'.reqs == (if req.Some? then d.reqs + [SeenReqOf(req.value)] else d.reqs)
            && d'.rwds == (if rwd.Some? then d.rwds + [SeenRwd(rwd.value.memOp, rwd.value.addr, rwd.value.tag,
                                                               rwd.value.data, BeatsSeen(d.rwdSeen, rwd.value.tag),
                                                               rwd.value.len)]
                           else d.rwds)
  {
    hide Replies, BeatsSeen, DrsFlit, NdrFlit, TagOf;
  }

  lemma ToldEdge(d: Device, data: Pattern, l: Log, l': Log, req: Option<CxlReq>, rwd: Option<CxlRwd>, x: WriteBeat,
                 y: Option<ReadBeat<CxlDrs>>, drsReady: bool, ndrReady: bool)
    requires Told(d, data, l)
    requires l'.reqOut == Sent(l.reqOut, req)
    requires rwd.Some? ==> x.flit == rwd.value && x.beat == BeatsSeen(d.rwdSeen, rwd.value.tag)
    requires l'.rwdOut == if rwd.Some? then l.rwdOut + [x] else l.rwdOut
    requires l'.drsIn == Sent(l.drsIn, y)
    requires y.Some? ==>
             y.value.read < |l.reqOut| && y.value.flit.data == data(l.reqOut[y.value.read].addr, y.value.beat)
    ensures Told(d.Edge(req, rwd, data, drsReady, ndrReady), data, l')
  {
    hide Device.Edge, BeatsSeen;
    EdgeTells(d, data, req, rwd, drsReady, ndrReady);
  }

  // ---- The bridge and the device together ----

  lemma CxlReadsTracked(cfg: Config, data: Pattern, b: Bridge, l: Log, d: Device, a: Aim, open: bool, late: Late)
    requires b.WellFormed() && ReadOk(cfg, b, l) && LogShape(b, l) && ReadsOwed(d, data, l.rds, l.reqOut, a)
             && b.CxlLive() && DeviceOk(cfg, b, l, StepOf(d, a, open, late))
    ensures var e := StepOf(d, a, open, late);
            var l' := LogCxl(cfg, b, l, e);
            && l'.reqOut == Sent(l.reqOut, ReqTaken(b))
            && ReadsOwed(DeviceEdge(cfg, b, d, data, open), data, l'.rds, l'.reqOut, AimAfter(cfg, b, l, a, e))
  {
    hide Beatwise, Contiguous, CounterAt, Delivered, ReadsOwed, NdrAllowed, DrsAllowed, Device.Edge, IsWrite,
         TranslateReq, Bridge.RwdData;
    var e := StepOf(d, a, open, late);
    var l' := LogCxl(cfg, b, l, e);
    ReqsSent(b, l);
    ReqLen(b, l);
    ReadsEdge(d, data, l.rds, l.reqOut, a, ReqTaken(b), RwdTaken(b), open && !b.drs.Full(cfg.depth),
              open && !b.ndr.Full(cfg.depth));
    var d', a' := DeviceEdge(cfg, b, d, data, open), AimAfter(cfg, b, l, a, e);
    assert ReadsOwed(d', data, l'.rds, l'.reqOut, Aim(a'.read, a'.beat, a.write));
    ReadsOwedSame(d', d', data, l'.rds, l'.reqOut, Aim(a'.read, a'.beat, a.write), a');
  }

  lemma CxlWritesTracked(cfg: Config, data: Pattern, b: Bridge, l: Log, d: Device, a: Aim, open: bool, late: Late,
                         s: Samples)
    requires b.WellFormed() && WriteOk(b, l) && LogShape(b, l) && b.CxlLive()
             && DeviceOk(cfg, b, l, StepOf(d, a, open, late))
    requires WritesOwed(d, l.wrs, l.rwdOut, b.posted.rcnt, b.rwdBeat, a)
    ensures var e := StepOf(d, a, open, late);
            var l' := LogCxl(cfg, b, l, e);
            var b' := b.CxlHalf(cfg, e.cxl, s);
            && l'.rwdOut == (if b.RwdValid() then l.rwdOut + [WriteBeat(b.posted.rcnt, b.rwdBeat, b.RwdData())]
                             else l.rwdOut)
            && (b.RwdValid() ==> b.rwdBeat == BeatsSeen(d.rwdSeen, b.RwdData().tag))
            && WritesOwed(DeviceEdge(cfg, b, d, data, open), l'.wrs, l'.rwdOut, b'.posted.rcnt, b'.rwdBeat,
                          AimAfter(cfg, b, l, a, e))
  {
    hide WritesOwed, NdrAllowed, DrsAllowed, Device.Edge, Completions, DbidsOwed, CompsSent, Comps, TranslateNdr,
         TranslateDrs, IsWrite, NextRead, BeatsSeen, TranslateWrite, Beats, Bridge.ReqOutData;
    var e := StepOf(d, a, open, late);
    var l' := LogCxl(cfg, b, l, e);
    RwdHead(b, l, d, a);
    WritesEdge(d, data, l.wrs, l.rwdOut, b.posted.rcnt, b.rwdBeat, a, ReqTaken(b), RwdTaken(b),
               open && !b.drs.Full(cfg.depth), open && !b.ndr.Full(cfg.depth));
    var b', d', a' := b.CxlHalf(cfg, e.cxl, s), DeviceEdge(cfg, b, d, data, open), AimAfter(cfg, b, l, a, e);
    assert WritesOwed(d', l'.wrs, l'.rwdOut, b'.posted.rcnt, b'.rwdBeat, Aim(a.read, a.beat, a'.write));
    WritesOwedSame(d', d', l'.wrs, l'.rwdOut, b'.posted.rcnt, b'.rwdBeat, Aim(a.read, a.beat, a'.write), a');
  }

  /** At an edge out of reset, whatever the host does at the same instant. */
  lemma CxlTracked(cfg: Config, data: Pattern, b: Bridge, l: Log, d: Device, a: Aim, open: bool, late: Late, s: Samples)
    requires DataInv(cfg, Sys(b, l)) && LogShape(b, l) && Tracks(data, b, l, d, a) && b.CxlLive()
             && DeviceOk(cfg, b, l, StepOf(d, a, open, late))
    requires b.DrsHs(cfg, DeviceIn(d, open, late)) ==>
             a.read < |l.reqOut| && d.drs.data == data(l.reqOut[a.read].addr, a.beat)
             && l.rds[a.read].returned == a.beat
    ensures var e := StepOf(d, a, open, late);
            Tracks(data, b.CxlHalf(cfg, e.cxl, s), LogCxl(cfg, b, l, e), DeviceEdge(cfg, b, d, data, open),
                   AimAfter(cfg, b, l, a, e))
  {
    hide ReadSide, WriteSide, TagSide, ReadsOwed, WritesOwed, Told, NdrAllowed, Device.Edge, AimAfter, TranslateNdr,
         TranslateDrs, BeatsSeen, Bridge.RwdData, Bridge.ReqOutData, Bridge.CxlHalf;
    var e := StepOf(d, a, open, late);
    var l' := LogCxl(cfg, b, l, e);
    CxlReadsTracked(cfg, data, b, l, d, a, open, late);
    CxlWritesTracked(cfg, data, b, l, d, a, open, late, s);
    var x := if b.RwdValid() then WriteBeat(b.posted.rcnt, b.rwdBeat, b.RwdData())
        else WriteBeat(0, 0, CxlRwd(0, 0, 0, 0, 0, 0, 0, 0, 0));
    var y := if b.DrsHs(cfg, e.cxl) then Some(ReadBeat(a.read, l.rds[a.read].returned, d.drs)) else None;
    ToldEdge(d, data, l, l', ReqTaken(b), RwdTaken(b), x, y, open && !b.drs.Full(cfg.depth),
             open && !b.ndr.Full(cfg.depth));
  }

  lemma ReqLen(b: Bridge, l: Log)
    requires b.WellFormed() && Requests(b.np, l.rds, l.reqOut)
    ensures b.ReqOutValid() ==> b.ReqOutData().len >= 1
  {
    hide ReadMemOp;
  }

  /** The flit on RwD is the beat the device expects. */
  lemma RwdHead(b: Bridge, l: Log, d: Device, a: Aim)
    requires b.WellFormed() && Commands(b.posted, l.wrs) && Bursts(b.posted, b.dat, l.wrs, l.rwdOut, b.rwdBeat)
    requires WritesOwed(d, l.wrs, l.rwdOut, b.posted.rcnt, b.rwdBeat, a)
    ensures b.RwdValid() ==>
              var f := b.RwdData();
              && b.posted.rcnt < |l.wrs| && f.tag == l.wrs[b.posted.rcnt].tag && f.len == l.wrs[b.posted.rcnt].Len()
                 && b.rwdBeat < f.len
              && BeatsSeen(d.rwdSeen, f.tag) == b.rwdBeat
              && (b.RwdLast() <==> b.rwdBeat + 1 == f.len)
  {
    hide Beats, LastSent, IsWrite, BeatsSeen, WriteMemOp;
    if b.RwdValid() {
      HeadWrite(b.posted, b.dat, l.wrs, l.rwdOut, b.rwdBeat);
      RwdLastIs(b, l.wrs, l.rwdOut);
    }
  }

  ghost predicate SameReturns(rds: seq<ReadTxn>, rds': seq<ReadTxn>) {
    && |rds| <= |rds'|
    && forall q :: 0 <= q < |rds'| ==> rds'[q].returned == if q < |rds| then rds[q].returned else 0
  }

  ghost predicate SameTakings(wrs: seq<WriteTxn>, wrs': seq<WriteTxn>) {
    && |wrs| <= |wrs'|
    && (forall w :: 0 <= w < |wrs| ==> wrs'[w].tag == wrs[w].tag && wrs'[w].ndrTaken == wrs[w].ndrTaken)
    && forall w :: |wrs| <= w < |wrs'| ==> !wrs'[w].ndrTaken
  }

  lemma ReadsKept(d: Device, data: Pattern, rds: seq<ReadTxn>, rds': seq<ReadTxn>, reqOut: seq<CxlReq>, a: Aim)
    requires ReadsOwed(d, data, rds, reqOut, a) && SameReturns(rds, rds')
    ensures ReadsOwed(d, data, rds', reqOut, a)
  {
    hide Outstanding, DrsFlit;
  }

  lemma WritesKept(d: Device, wrs: seq<WriteTxn>, wrs': seq<WriteTxn>, rwdOut: seq<WriteBeat>, done: nat, rwdBeat: nat,
                   a: Aim)
    requires WritesOwed(d, wrs, rwdOut, done, rwdBeat, a) && SameTakings(wrs, wrs')
    ensures WritesOwed(d, wrs', rwdOut, done, rwdBeat, a)
  {
    hide LastSent, Midway, NdrFlit;
    if rwdBeat > 0 {
      MidwayKept(d.rwdSeen, wrs, wrs', done, rwdBeat);
    } else {
      MidwayNone(d.rwdSeen, wrs, wrs', done);
    }
  }

  lemma LogClkKeeps(cfg: Config, b: Bridge, l: Log, i: ClkIn)
    requires LogShape(b, l)
    ensures var l' := LogClk(cfg, b, l, i);
            && SameReturns(l.rds, l'.rds) && SameTakings(l.wrs, l'.wrs)
            && l'.reqOut == l.reqOut && l'.rwdOut == l.rwdOut && l'.drsIn == l.drsIn
  {
    hide Bridge.ReqHs, Bridge.DrsLast, Bridge.CompData, Bridge.RspData, IsWrite;
  }

  lemma ClkHalfKeepsCounts(cfg: Config, b: Bridge, i: ClkIn, s: Samples)
    requires b.WellFormed()
    ensures b.ClkHalf(cfg, i, s).posted.rcnt == b.posted.rcnt && b.ClkHalf(cfg, i, s).rwdBeat == b.rwdBeat
  {
    hide Bridge.ReqHs, Bridge.DrsLast, Bridge.CompData, IsWrite, Tags.Edge, QueueEdge;
  }

  /** A `clk` edge changes nothing the device looks at, */
  lemma ClkTracked(cfg: Config, data: Pattern, b: Bridge, l: Log, d: Device, a: Aim, i: ClkIn, s: Samples)
    requires b.WellFormed() && LogShape(b, l) && Tracks(data, b, l, d, a)
    ensures Tracks(data, b.ClkHalf(cfg, i, s), LogClk(cfg, b, l, i), d, a)
  {
    hide LogShape, ReadsOwed, WritesOwed, Told, LogClk, Bridge.ClkHalf, SameReturns, SameTakings, Bridge.WellFormed;
    var l' := LogClk(cfg, b, l, i);
    LogClkKeeps(cfg, b, l, i);
    ClkHalfKeepsCounts(cfg, b, i, s);
    ReadsKept(d, data, l.rds, l'.rds, l.reqOut, a);
    WritesKept(d, l.wrs, l'.wrs, l.rwdOut, b.posted.rcnt, b.rwdBeat, a);
    ToldKept(d, data, l, l');
  }

  lemma ToldKept(d: Device, data: Pattern, l: Log, l': Log)
    requires Told(d, data, l) && l'.reqOut == l.reqOut && l'.rwdOut == l.rwdOut && l'.drsIn == l.drsIn
    ensures Told(d, data, l')
  {
  }

  lemma MidwayKept(seen: map<nat, nat>, wrs: seq<WriteTxn>, wrs': seq<WriteTxn>, done: nat, rwdBeat: nat)
    requires done < |wrs| && done < |wrs'| && wrs'[done].tag == wrs[done].tag && Midway(seen, wrs, done, rwdBeat)
    ensures Midway(seen, wrs', done, rwdBeat)
  {
  }

  lemma MidwayNone(seen: map<nat, nat>, wrs: seq<WriteTxn>, wrs': seq<WriteTxn>, done: nat)
    requires Midway(seen, wrs, done, 0)
    ensures Midway(seen, wrs', done, 0)
  {
  }

  /** so the device sees the same wires before and after it. */
  lemma WiresKept(cfg: Config, b: Bridge, i: ClkIn, s: Samples, d: Device, data: Pattern, open: bool)
    requires b.WellFormed() && b.Ordered(cfg.depth)
    ensures var b1 := b.ClkHalf(cfg, i, s);
            b1.WellFormed() && DeviceEdge(cfg, b1, d, data, open) == DeviceEdge(cfg, b, d, data, open)
  {
    hide IsWrite, Tags.Edge, QueueEdge, Bridge.DrsLast, Bridge.ReqReady, Bridge.CompData, Device.Edge, TranslateReq,
         TranslateWrite;
    ClkWellFormed(cfg, b, i, s);
  }

  /** In reset there is nothing to see and nothing to say. */
  lemma ResetTracked(cfg: Config, data: Pattern, b: Bridge, l: Log, d: Device, a: Aim, open: bool)
    requires b.WellFormed() && ReadOk(cfg, b, l) && ResetQuiet(b) && Tracks(data, b, l, d, a) && !b.CxlLive()
    ensures DeviceEdge(cfg, b, d, data, open) == d && d.drsQ == [] && d.ndrQ == []
  {
    hide Beatwise, Contiguous, CounterAt, Delivered, Told, LastSent, Midway, DrsFlit, NdrFlit, BeatsSeen;
    assert |l.reqOut| == 0;
    assert d.drsQ == [] && d.ndrQ == [];
  }

  // ---- Runs ----

  /** The bridge, its ledger and the device. */
  datatype World = World(s: Sys, d: Device, a: Aim)

  datatype CxlEnv = CxlEnv(open: bool, late: Late)

  /** Which clocks rise, and what the rest of the world does: the host's pins, `bridge_open`,
      and what the synchronizers catch. */
  datatype Stimulus = Stimulus(clk: Option<ClkIn>, cxl: Option<CxlEnv>)

  function MomentOf(w: World, x: Stimulus): Moment {
    Moment(x.clk, if x.cxl.Some? then Some(StepOf(w.d, w.a, x.cxl.value.open, x.cxl.value.late)) else None)
  }

  ghost predicate Good(cfg: Config, data: Pattern, w: World) {
    Inv(cfg, w.s) && Tracks(data, w.s.b, w.s.log, w.d, w.a)
  }

  function WorldStep(cfg: Config, data: Pattern, w: World, x: Stimulus): World
    requires Inv(cfg, w.s) && Allowed(cfg, w.s, MomentOf(w, x))
  {
    var m := MomentOf(w, x);
    var s1 := ClkPart(cfg, w.s, m);
    World(Step(cfg, w.s, m),
          if x.cxl.Some? then DeviceEdge(cfg, w.s.b, w.d, data, x.cxl.value.open) else w.d,
          if x.cxl.Some? && w.s.b.CxlLive() then AimAfter(cfg, s1.b, s1.log, w.a, m.cxl.value) else w.a)
  }

  lemma WorldAllowed(cfg: Config, data: Pattern, w: World, x: Stimulus)
    requires Good(cfg, data, w)
    ensures Allowed(cfg, w.s, MomentOf(w, x))
  {
    hide DataInv, Tracks, DeviceOk, WithinCredit, ResetQuiet;
    if x.cxl.Some? {
      EdgeAllowed(cfg, data, w.s.b, w.s.log, w.d, w.a, x.cxl.value.open, x.cxl.value.late);
    }
  }

  lemma ClkPartTracked(cfg: Config, data: Pattern, w: World, x: Stimulus)
    requires Good(cfg, data, w) && Allowed(cfg, w.s, MomentOf(w, x))
    ensures var s1 := ClkPart(cfg, w.s, MomentOf(w, x));
            && Tracks(data, s1.b, s1.log, w.d, w.a)
            && s1.b.WellFormed()
            && (x.cxl.Some? ==>
                DeviceEdge(cfg, s1.b, w.d, data, x.cxl.value.open) ==
                DeviceEdge(cfg, w.s.b, w.d, data, x.cxl.value.open))
            && s1.b.cxlReset == w.s.b.cxlReset
  {
    hide ReadSide, WriteSide, TagSide, Tracks, DeviceOk, WithinCredit, ResetQuiet, Bridge.ClkHalf, LogClk, DeviceEdge;
    InvShape(cfg, w.s.b, w.s.log);
    if x.clk.Some? {
      var m := MomentOf(w, x);
      var smp := w.s.b.ClkSamples(cfg, m.clk, m.Cxl());
      ClkTracked(cfg, data, w.s.b, w.s.log, w.d, w.a, x.clk.value, smp);
      InResetHalves(cfg, w.s.b, m.clk, m.Cxl(), smp);
      if x.cxl.Some? {
        WiresKept(cfg, w.s.b, x.clk.value, smp, w.d, data, x.cxl.value.open);
      }
    }
  }

  lemma CxlInReset(cfg: Config, data: Pattern, b: Bridge, l: Log, d: Device, a: Aim, e: CxlStep, s: Samples)
    requires LogShape(b, l) && DeviceOk(cfg, b, l, e) && !b.CxlLive() && Tracks(data, b, l, d, a)
    ensures Tracks(data, b.CxlHalf(cfg, e.cxl, s), LogCxl(cfg, b, l, e), d, a)
  {
    hide ReadsOwed, WritesOwed, Told;
  }

  lemma StepIs(cfg: Config, data: Pattern, w: World, x: Stimulus)
    requires Inv(cfg, w.s) && Allowed(cfg, w.s, MomentOf(w, x))
    ensures var m := MomentOf(w, x);
            var s1 := ClkPart(cfg, w.s, m);
            var s' := Step(cfg, w.s, m);
            && s1.b.WellFormed()
            && (x.cxl.None? ==> s' == s1)
            && (x.cxl.Some? ==>
                  && LogShape(s1.b, s1.log) && DeviceOk(cfg, s1.b, s1.log, m.cxl.value)
                  && s'.b == s1.b.CxlHalf(cfg, m.cxl.value.cxl, w.s.b.CxlSamples(cfg, m.clk, m.Cxl()))
                     && s'.log == LogCxl(cfg, s1.b, s1.log, m.cxl.value))
            && DataInv(cfg, s1)
  {
    hide ReadSide, WriteSide, TagSide, DeviceOk, WithinCredit, ResetQuiet, Bridge.ClkHalf, Bridge.CxlHalf, LogClk,
         LogCxl, LogShape;
    ClkPartKeeps(cfg, w.s, MomentOf(w, x));
  }

  /** and the two stay in step. */
  lemma WorldStepGood(cfg: Config, data: Pattern, w: World, x: Stimulus)
    requires cfg.depth > 0 && Good(cfg, data, w) && Allowed(cfg, w.s, MomentOf(w, x))
    ensures Good(cfg, data, WorldStep(cfg, data, w, x))
  {
    hide ReadSide, WriteSide, TagSide, Tracks, DeviceOk, WithinCredit, ResetQuiet, Bridge.ClkHalf, Bridge.CxlHalf,
         LogClk, LogCxl, LogShape, DeviceEdge, AimAfter, Bridge.WellFormed, Bridge.Ordered, Step, ClkPart, StepOf,
         DeviceIn;
    var m := MomentOf(w, x);
    StepKeeps(cfg, w.s, m);
    ClkPartTracked(cfg, data, w, x);
    StepIs(cfg, data, w, x);
    var s1 := ClkPart(cfg, w.s, m);
    if x.cxl.Some? {
      var smp := w.s.b.CxlSamples(cfg, m.clk, m.Cxl());
      if w.s.b.CxlLive() {
        EdgeAllowed(cfg, data, s1.b, s1.log, w.d, w.a, x.cxl.value.open, x.cxl.value.late);
        CxlTracked(cfg, data, s1.b, s1.log, w.d, w.a, x.cxl.value.open, x.cxl.value.late, smp);
      } else {
        ResetTracked(cfg, data, w.s.b, w.s.log, w.d, w.a, x.cxl.value.open);
        CxlInReset(cfg, data, s1.b, s1.log, w.d, w.a, m.cxl.value, smp);
      }
    }
  }

  /** A run of the bridge with the device, and the moments it consists of. */
  function Played(cfg: Config, data: Pattern, w: World, xs: seq<Stimulus>): World
    requires cfg.depth > 0 && Good(cfg, data, w)
    decreases |xs|
  {
    if xs == [] then w
    else
      WorldAllowed(cfg, data, w, xs[0]);
      WorldStepGood(cfg, data, w, xs[0]);
      Played(cfg, data, WorldStep(cfg, data, w, xs[0]), xs[1..])
  }

  function Moments(cfg: Config, data: Pattern, w: World, xs: seq<Stimulus>): seq<Moment>
    requires cfg.depth > 0 && Good(cfg, data, w)
    decreases |xs|
  {
    if xs == [] then []
    else
      WorldAllowed(cfg, data, w, xs[0]);
      WorldStepGood(cfg, data, w, xs[0]);
      [MomentOf(w, xs[0])] + Moments(cfg, data, WorldStep(cfg, data, w, xs[0]), xs[1..])
  }

  lemma {:induction false} PlayedIsLegal(cfg: Config, data: Pattern, w: World, xs: seq<Stimulus>)
    requires cfg.depth > 0 && Good(cfg, data, w)
    ensures Good(cfg, data, Played(cfg, data, w, xs))
    ensures var ms := Moments(cfg, data, w, xs);
            Legal(cfg, w.s, ms) && Run(cfg, w.s, ms) == Played(cfg, data, w, xs).s
    decreases |xs|
  {
    hide Inv, Tracks, Step, Allowed, ClkPart, DeviceEdge, AimAfter, StepOf;
    if xs != [] {
      WorldAllowed(cfg, data, w, xs[0]);
      WorldStepGood(cfg, data, w, xs[0]);
      var w1 := WorldStep(cfg, data, w, xs[0]);
      PlayedIsLegal(cfg, data, w1, xs[1..]);
      var ms := Moments(cfg, data, w, xs);
      assert ms[1..] == Moments(cfg, data, w1, xs[1..]);
    }
  }

  function Fresh(state: seq<Entry>): World
    requires |state| == N_TAGS
  {
    World(Sys(AfterReset(state), EMPTY_LOG), IDLE, Aim(0, 0, 0))
  }

  lemma FreshGood(cfg: Config, data: Pattern, state: seq<Entry>)
    requires |state| == N_TAGS
    ensures Good(cfg, data, Fresh(state))
  {
    hide Inv;
    ResetInv(cfg, state);
    assert Midway(map[], [], 0, 0);
  }

  /** Where a run from reset ends. */
  function End(cfg: Config, data: Pattern, state: seq<Entry>, xs: seq<Stimulus>): World
    requires cfg.depth > 0 && |state| == N_TAGS
  {
    FreshGood(cfg, data, state);
    Played(cfg, data, Fresh(state), xs)
  }

  lemma EndGood(cfg: Config, data: Pattern, state: seq<Entry>, xs: seq<Stimulus>)
    requires cfg.depth > 0 && |state| == N_TAGS
    ensures Good(cfg, data, End(cfg, data, state, xs))
  {
    hide Good, Fresh, Played;
    FreshGood(cfg, data, state);
    PlayedIsLegal(cfg, data, Fresh(state), xs);
  }

  /** Whatever the host does, `bridge_open` included, the device keeps its contract at every
      step from reset, so the state it leads to is one of those that the theorems speak of. */
  lemma DeviceRunsAreReachable(cfg: Config, data: Pattern, state: seq<Entry>, xs: seq<Stimulus>)
    requires cfg.depth > 0 && |state| == N_TAGS
    ensures Reachable(cfg, End(cfg, data, state, xs).s)
  {
    hide Inv, Tracks, Legal, Run, Played, Moments, AfterReset;
    FreshGood(cfg, data, state);
    PlayedIsLegal(cfg, data, Fresh(state), xs);
    ResetInv(cfg, state);
    var ms := Moments(cfg, data, Fresh(state), xs);
    assert Legal(cfg, Sys(AfterReset(state), EMPTY_LOG), ms);
  }
}
