/**
 The read side of the bridge: requests through the np FIFO, DRS beats back through the drs
 FIFO, the beat counter `drs_beat_q`, and the CompData beats delivered. Each lemma is one
 event of the read side and keeps the three predicates below.
 */
module ReadPath {
  import opened FifoSpec
  import opened Flits
  import opened Ledger

  /** The np FIFO holds the accepted reads, tagged, and its read end is the Req channel. */
  ghost predicate Requests(np: Queue<ChiReq>, rds: seq<ReadTxn>, reqOut: seq<CxlReq>) {
    && |np.written| == |rds|
    && np.rcnt == |reqOut| <= |rds|
    && (forall i :: 0 <= i < |rds| ==> np.written[i] == rds[i].req.(txnId := rds[i].tag) && !IsWrite(rds[i].req.opcode))
    && forall i :: 0 <= i < |reqOut| ==> reqOut[i] == TranslateReq(rds[i].req, rds[i].tag)
  }

  /** Beats are counted against their own read and every beat taken is in the drs FIFO. */
  ghost predicate Beatwise(drs: Queue<ChiDat>, rds: seq<ReadTxn>, sent: nat, drsIn: seq<ReadBeat<CxlDrs>>, allBe: nat) {
    && |drsIn| == |drs.written|
    && drs.rcnt <= |drsIn|
    && (forall i :: 0 <= i < |rds| ==>
        rds[i].got <= rds[i].returned <= rds[i].Len() && (rds[i].returned > 0 ==> i < sent))
    && (forall j :: 0 <= j < |drsIn| ==>
          && drsIn[j].read < |rds|
          && drsIn[j].beat < rds[drsIn[j].read].returned
          && drsIn[j].flit.tag == rds[drsIn[j].read].tag
          && drs.written[j] == TranslateDrs(drsIn[j].flit, allBe))
    && (forall j :: 0 <= j < |drsIn| ==> (drsIn[j].beat < rds[drsIn[j].read].got <==> j < drs.rcnt))
  }

  /** The bursts are contiguous: a burst is never interrupted, and starts at beat 0. */
  ghost predicate Contiguous(rds: seq<ReadTxn>, drsIn: seq<ReadBeat<CxlDrs>>) {
    Resuming(rds, drsIn) && Ascending(drsIn) && OpenBurst(rds, drsIn)
  }

  ghost predicate Resuming(rds: seq<ReadTxn>, drsIn: seq<ReadBeat<CxlDrs>>) {
    && (forall j :: 0 <= j < |drsIn| ==> drsIn[j].read < |rds|)
    && (forall j {:trigger ResumesAt(rds, drsIn, j)} :: 0 <= j < |drsIn| ==> ResumesAt(rds, drsIn, j))
  }

  ghost predicate ResumesAt(rds: seq<ReadTxn>, drsIn: seq<ReadBeat<CxlDrs>>, j: nat)
    requires j < |drsIn|
    requires j > 0 ==> drsIn[j - 1].read < |rds|
  {
    && Resumes(rds, drsIn, j, drsIn[j].beat)
    && (drsIn[j].beat > 0 ==> j > 0 && drsIn[j].read == drsIn[j - 1].read)
  }

  ghost predicate Ascending(drsIn: seq<ReadBeat<CxlDrs>>) {
    forall j, k :: 0 <= j < k < |drsIn| && drsIn[j].read == drsIn[k].read ==> drsIn[j].beat < drsIn[k].beat
  }

  /** Only the read of the last beat may have part of its burst outstanding. */
  ghost predicate OpenBurst(rds: seq<ReadTxn>, drsIn: seq<ReadBeat<CxlDrs>>) {
    && (drsIn != [] ==>
        drsIn[|drsIn| - 1].read < |rds| && rds[drsIn[|drsIn| - 1].read].returned == drsIn[|drsIn| - 1].beat + 1)
    && (forall i :: 0 <= i < |rds| && 0 < rds[i].returned < rds[i].Len() ==>
        drsIn != [] && drsIn[|drsIn| - 1].read == i)
  }

  /** The beat number that position `j` of the DRS stream must carry. */
  ghost predicate Resumes(rds: seq<ReadTxn>, drsIn: seq<ReadBeat<CxlDrs>>, j: nat, beat: nat)
    requires j <= |drsIn|
    requires j > 0 ==> drsIn[j - 1].read < |rds|
  {
    beat == if j == 0 || drsIn[j - 1].beat + 1 == rds[drsIn[j - 1].read].Len() then 0 else drsIn[j - 1].beat + 1
  }

  /** `drs_beat_q` is the beat number of the next beat to be delivered. */
  ghost predicate CounterAt(rds: seq<ReadTxn>, drsIn: seq<ReadBeat<CxlDrs>>, rcnt: nat, drsBeat: nat) {
    && rcnt <= |drsIn|
    && (rcnt > 0 ==> drsIn[rcnt - 1].read < |rds|)
    && Resumes(rds, drsIn, rcnt, drsBeat)
  }

  /** What the k-th CompData beat of a read must be. */
  function CompFlit(f: CxlDrs, txnId: nat, allBe: nat): ChiDat {
    TranslateDrs(f, allBe).(txnId := txnId)
  }

  ghost predicate Delivered(rds: seq<ReadTxn>, drsIn: seq<ReadBeat<CxlDrs>>, compOut: seq<ReadBeat<ChiDat>>,
                            allBe: nat) {
    && |compOut| <= |drsIn|
    && (forall j :: 0 <= j < |compOut| ==>
          && drsIn[j].read < |rds|
          && compOut[j] == ReadBeat(drsIn[j].read, drsIn[j].beat,
                                    CompFlit(drsIn[j].flit, rds[drsIn[j].read].req.txnId, allBe)))
    && (forall r :: 0 <= r < |rds| ==>
        Numbered(BeatsOf(drsIn, r), rds[r].returned) && Numbered(BeatsOf(compOut, r), rds[r].got))
    && SumReturned(rds) == |drsIn| && SumGot(rds) == |compOut|
  }

  /** Beats 0, 1, ..., n-1. */
  ghost predicate Numbered<F>(s: seq<ReadBeat<F>>, n: nat) {
    |s| == n && forall k :: 0 <= k < n ==> s[k].beat == k
  }

  function SumReturned(rds: seq<ReadTxn>): nat {
    if rds == [] then 0 else SumReturned(rds[..|rds| - 1]) + rds[|rds| - 1].returned
  }

  function SumGot(rds: seq<ReadTxn>): nat {
    if rds == [] then 0 else SumGot(rds[..|rds| - 1]) + rds[|rds| - 1].got
  }

  lemma SumsSnoc(rds: seq<ReadTxn>, t: ReadTxn)
    ensures SumReturned(rds + [t]) == SumReturned(rds) + t.returned
    ensures SumGot(rds + [t]) == SumGot(rds) + t.got
  {
    assert (rds + [t])[..|rds|] == rds;
  }

  lemma {:induction false} SumsUpdate(rds: seq<ReadTxn>, r: nat, t: ReadTxn)
    requires r < |rds|
    ensures SumReturned(rds[r := t]) == SumReturned(rds) - rds[r].returned + t.returned
    ensures SumGot(rds[r := t]) == SumGot(rds) - rds[r].got + t.got
  {
    var n := |rds| - 1;
    if r < n {
      SumsUpdate(rds[..n], r, t);
      assert rds[r := t][..n] == rds[..n][r := t];
    } else {
      assert rds[r := t][..n] == rds[..n];
    }
  }

  /** Everything the read side keeps. */
  ghost predicate ReadSide(np: Queue<ChiReq>, drs: Queue<ChiDat>, rds: seq<ReadTxn>, reqOut: seq<CxlReq>,
                           drsIn: seq<ReadBeat<CxlDrs>>, compOut: seq<ReadBeat<ChiDat>>, drsBeat: nat, allBe: nat) {
    && Requests(np, rds, reqOut)
    && Beatwise(drs, rds, |reqOut|, drsIn, allBe)
    && Contiguous(rds, drsIn)
    && CounterAt(rds, drsIn, drs.rcnt, drsBeat)
    && |compOut| == drs.rcnt
    && Delivered(rds, drsIn, compOut, allBe)
  }

  // ---- A read is accepted ----

  lemma AcceptReadRequests(np: Queue<ChiReq>, np': Queue<ChiReq>, rds: seq<ReadTxn>, reqOut: seq<CxlReq>, req: ChiReq,
                           tag: Tag)
    requires Requests(np, rds, reqOut) && !IsWrite(req.opcode)
    requires np'.written == np.written + [req.(txnId := tag)] && np'.rcnt == np.rcnt
    ensures Requests(np', rds + [ReadTxn(req, tag, 0, 0)], reqOut)
  {
    hide TranslateReq, IsWrite;
  }

  lemma AcceptReadBeats(drs: Queue<ChiDat>, rds: seq<ReadTxn>, sent: nat, drsIn: seq<ReadBeat<CxlDrs>>, allBe: nat,
                        t: ReadTxn)
    requires Beatwise(drs, rds, sent, drsIn, allBe)
    requires t.got == t.returned == 0
    ensures Beatwise(drs, rds + [t], sent, drsIn, allBe)
  {
    hide TranslateDrs, Beats;
  }

  lemma AcceptReadContiguous(rds: seq<ReadTxn>, drsIn: seq<ReadBeat<CxlDrs>>, rcnt: nat, drsBeat: nat, t: ReadTxn)
    requires Contiguous(rds, drsIn) && CounterAt(rds, drsIn, rcnt, drsBeat)
    requires t.got == t.returned == 0
    ensures Contiguous(rds + [t], drsIn) && CounterAt(rds + [t], drsIn, rcnt, drsBeat)
  {
    hide Beats;
    var rds' := rds + [t];
    forall j | 0 <= j < |drsIn| ensures ResumesAt(rds', drsIn, j) {
      assert ResumesAt(rds, drsIn, j);
    }
  }

  lemma ReadsInRange(rds: seq<ReadTxn>, drsIn: seq<ReadBeat<CxlDrs>>)
    requires Contiguous(rds, drsIn)
    ensures forall j :: 0 <= j < |drsIn| ==> drsIn[j].read < |rds|
  {
  }

  lemma NoneNumbered<F>(s: seq<ReadBeat<F>>, r: nat)
    requires BeatsOf(s, r) == []
    ensures Numbered(BeatsOf(s, r), 0)
  {
  }

  lemma AcceptReadDelivered(rds: seq<ReadTxn>, drsIn: seq<ReadBeat<CxlDrs>>, compOut: seq<ReadBeat<ChiDat>>, allBe: nat,
                            t: ReadTxn)
    requires Delivered(rds, drsIn, compOut, allBe)
    requires Contiguous(rds, drsIn)
    requires t.got == t.returned == 0
    ensures Delivered(rds + [t], drsIn, compOut, allBe)
  {
    hide BeatsOf, SumReturned, SumGot, CompFlit, Contiguous, Numbered;
    ReadsInRange(rds, drsIn);
    SumsSnoc(rds, t);
    BeatsOfNone(drsIn, |rds|);
    BeatsOfNone(compOut, |rds|);
    assert Numbered(BeatsOf(drsIn, |rds|), 0) && Numbered(BeatsOf(compOut, |rds|), 0) by {
      NoneNumbered(drsIn, |rds|);
      NoneNumbered(compOut, |rds|);
    }
  }

  lemma AcceptRead(np: Queue<ChiReq>, np': Queue<ChiReq>, drs: Queue<ChiDat>, rds: seq<ReadTxn>, reqOut: seq<CxlReq>,
                   drsIn: seq<ReadBeat<CxlDrs>>, compOut: seq<ReadBeat<ChiDat>>, drsBeat: nat, allBe: nat, req: ChiReq,
                   tag: Tag)
    requires ReadSide(np, drs, rds, reqOut, drsIn, compOut, drsBeat, allBe)
    requires !IsWrite(req.opcode)
    requires np'.written == np.written + [req.(txnId := tag)] && np'.rcnt == np.rcnt
    ensures ReadSide(np', drs, rds + [ReadTxn(req, tag, 0, 0)], reqOut, drsIn, compOut, drsBeat, allBe)
  {
    hide Requests, Beatwise, Contiguous, CounterAt, Delivered, IsWrite;
    var t := ReadTxn(req, tag, 0, 0);
    AcceptReadRequests(np, np', rds, reqOut, req, tag);
    AcceptReadBeats(drs, rds, |reqOut|, drsIn, allBe, t);
    AcceptReadContiguous(rds, drsIn, drs.rcnt, drsBeat, t);
    AcceptReadDelivered(rds, drsIn, compOut, allBe, t);
  }

  // ---- A read request leaves ----

  lemma SendReq(np: Queue<ChiReq>, np': Queue<ChiReq>, drs: Queue<ChiDat>, rds: seq<ReadTxn>, reqOut: seq<CxlReq>,
                drsIn: seq<ReadBeat<CxlDrs>>, compOut: seq<ReadBeat<ChiDat>>, drsBeat: nat, allBe: nat)
    requires ReadSide(np, drs, rds, reqOut, drsIn, compOut, drsBeat, allBe)
    requires np.rcnt < |np.written|
    requires np'.written == np.written && np'.rcnt == np.rcnt + 1
    ensures var head := np.written[np.rcnt];
            ReadSide(np', drs, rds, reqOut + [TranslateReq(head, TagOf(head.txnId))], drsIn, compOut, drsBeat, allBe)
  {
    hide Contiguous, CounterAt, Delivered, IsWrite, TranslateDrs;
  }

  // ---- The device returns a beat ----

  /** The device offers the next beat of a read it has the request of, without interrupting a burst. */
  ghost predicate DrsAllowed(rds: seq<ReadTxn>, reqOut: seq<CxlReq>, r: nat, f: CxlDrs) {
    && r < |reqOut| <= |rds|
    && rds[r].returned < reqOut[r].len
    && f.tag == reqOut[r].tag
    && forall q :: 0 <= q < |reqOut| && q != r ==> rds[q].returned == 0 || rds[q].returned == reqOut[q].len
  }

  /** The same in terms of the transactions. */
  ghost predicate NextBeatOf(rds: seq<ReadTxn>, sent: nat, r: nat, f: CxlDrs) {
    && r < sent <= |rds|
    && rds[r].returned < rds[r].Len()
    && f.tag == rds[r].tag
    && forall q :: 0 <= q < |rds| && q != r ==> q < sent ==> rds[q].returned == 0 || rds[q].returned == rds[q].Len()
  }

  lemma AllowedIsNext(np: Queue<ChiReq>, rds: seq<ReadTxn>, reqOut: seq<CxlReq>, r: nat, f: CxlDrs)
    requires Requests(np, rds, reqOut) && DrsAllowed(rds, reqOut, r, f)
    ensures NextBeatOf(rds, |reqOut|, r, f)
  {
    hide Beats, IsWrite, ReadMemOp;
  }

  lemma TakeDrsRequests(np: Queue<ChiReq>, rds: seq<ReadTxn>, reqOut: seq<CxlReq>, r: nat, n: nat, g: nat)
    requires Requests(np, rds, reqOut) && r < |rds|
    ensures Requests(np, rds[r := rds[r].(returned := n, got := g)], reqOut)
  {
    hide TranslateReq, IsWrite;
  }

  lemma TakeDrsBeats(drs: Queue<ChiDat>, drs': Queue<ChiDat>, rds: seq<ReadTxn>, sent: nat,
                     drsIn: seq<ReadBeat<CxlDrs>>, allBe: nat, r: nat, f: CxlDrs)
    requires Beatwise(drs, rds, sent, drsIn, allBe) && NextBeatOf(rds, sent, r, f)
    requires drs'.written == drs.written + [TranslateDrs(f, allBe)] && drs'.rcnt == drs.rcnt
    ensures Beatwise(drs', rds[r := rds[r].(returned := rds[r].returned + 1)], sent,
                     drsIn + [ReadBeat(r, rds[r].returned, f)], allBe)
  {
    hide TranslateDrs;
  }

  lemma TakeDrsContiguous(drs: Queue<ChiDat>, rds: seq<ReadTxn>, sent: nat, drsIn: seq<ReadBeat<CxlDrs>>, allBe: nat,
                          rcnt: nat, drsBeat: nat, r: nat, f: CxlDrs)
    requires Contiguous(rds, drsIn) && CounterAt(rds, drsIn, rcnt, drsBeat)
    requires Beatwise(drs, rds, sent, drsIn, allBe) && NextBeatOf(rds, sent, r, f)
    ensures var rds', drsIn' := rds[r := rds[r].(returned := rds[r].returned + 1)],
            drsIn + [ReadBeat(r, rds[r].returned, f)];
            Contiguous(rds', drsIn') && CounterAt(rds', drsIn', rcnt, drsBeat)
  {
    hide Resuming, Ascending, OpenBurst, Beatwise, NextBeatOf, CounterAt;
    TakeDrsResuming(drs, rds, sent, drsIn, allBe, r, f);
    TakeDrsAscending(drs, rds, sent, drsIn, allBe, r, f);
    TakeDrsCounter(rds, drsIn, rcnt, drsBeat, r, f);
  }

  /** No burst is open, or it is the burst of read `r`. */
  ghost predicate MayTake(rds: seq<ReadTxn>, drsIn: seq<ReadBeat<CxlDrs>>, r: nat) {
    && r < |rds| && rds[r].returned < rds[r].Len()
    && (drsIn != [] ==> drsIn[|drsIn| - 1].read < |rds|)
    && Resumes(rds, drsIn, |drsIn|, rds[r].returned)
    && (rds[r].returned > 0 ==> drsIn != [] && drsIn[|drsIn| - 1].read == r)
    && (forall q :: 0 <= q < |rds| && q != r ==> rds[q].returned == 0 || rds[q].returned == rds[q].Len())
  }

  lemma MayTakeNext(drs: Queue<ChiDat>, rds: seq<ReadTxn>, sent: nat, drsIn: seq<ReadBeat<CxlDrs>>, allBe: nat, r: nat,
                    f: CxlDrs)
    requires OpenBurst(rds, drsIn)
    requires Beatwise(drs, rds, sent, drsIn, allBe) && NextBeatOf(rds, sent, r, f)
    ensures MayTake(rds, drsIn, r)
  {
    hide TranslateDrs;
  }

  lemma TakeDrsResuming(drs: Queue<ChiDat>, rds: seq<ReadTxn>, sent: nat, drsIn: seq<ReadBeat<CxlDrs>>, allBe: nat,
                        r: nat, f: CxlDrs)
    requires Resuming(rds, drsIn) && OpenBurst(rds, drsIn)
    requires Beatwise(drs, rds, sent, drsIn, allBe) && NextBeatOf(rds, sent, r, f)
    ensures r < |rds|
    ensures var rds', drsIn' := rds[r := rds[r].(returned := rds[r].returned + 1)],
            drsIn + [ReadBeat(r, rds[r].returned, f)];
            Resuming(rds', drsIn') && OpenBurst(rds', drsIn')
  {
    hide Beatwise, NextBeatOf, OpenBurst, Resuming;
    MayTakeNext(drs, rds, sent, drsIn, allBe, r, f);
    AppendResuming(rds, drsIn, r, f);
    AppendOpen(rds, drsIn, r, f);
  }

  lemma AppendResuming(rds: seq<ReadTxn>, drsIn: seq<ReadBeat<CxlDrs>>, r: nat, f: CxlDrs)
    requires Resuming(rds, drsIn) && MayTake(rds, drsIn, r)
    ensures Resuming(rds[r := rds[r].(returned := rds[r].returned + 1)], drsIn + [ReadBeat(r, rds[r].returned, f)])
  {
    hide Beats;
    var rds' := rds[r := rds[r].(returned := rds[r].returned + 1)];
    var drsIn' := drsIn + [ReadBeat(r, rds[r].returned, f)];
    forall j | 0 <= j < |drsIn'| ensures ResumesAt(rds', drsIn', j) {
      assert j < |drsIn| ==> ResumesAt(rds, drsIn, j);
    }
  }

  lemma AppendOpen(rds: seq<ReadTxn>, drsIn: seq<ReadBeat<CxlDrs>>, r: nat, f: CxlDrs)
    requires MayTake(rds, drsIn, r)
    ensures OpenBurst(rds[r := rds[r].(returned := rds[r].returned + 1)], drsIn + [ReadBeat(r, rds[r].returned, f)])
  {
    hide Beats, Resumes;
  }

  lemma TakeDrsAscending(drs: Queue<ChiDat>, rds: seq<ReadTxn>, sent: nat, drsIn: seq<ReadBeat<CxlDrs>>, allBe: nat,
                         r: nat, f: CxlDrs)
    requires Ascending(drsIn) && r < |rds|
    requires Beatwise(drs, rds, sent, drsIn, allBe)
    ensures Ascending(drsIn + [ReadBeat(r, rds[r].returned, f)])
  {
    hide TranslateDrs;
  }

  lemma TakeDrsCounter(rds: seq<ReadTxn>, drsIn: seq<ReadBeat<CxlDrs>>, rcnt: nat, drsBeat: nat, r: nat, f: CxlDrs)
    requires CounterAt(rds, drsIn, rcnt, drsBeat) && r < |rds|
    ensures CounterAt(rds[r := rds[r].(returned := rds[r].returned + 1)], drsIn + [ReadBeat(r, rds[r].returned, f)],
                      rcnt, drsBeat)
  {
  }

  lemma TakeDrsDelivered(rds: seq<ReadTxn>, drsIn: seq<ReadBeat<CxlDrs>>, compOut: seq<ReadBeat<ChiDat>>, allBe: nat,
                         r: nat, f: CxlDrs)
    requires Delivered(rds, drsIn, compOut, allBe) && r < |rds|
    ensures Delivered(rds[r := rds[r].(returned := rds[r].returned + 1)], drsIn + [ReadBeat(r, rds[r].returned, f)],
                      compOut, allBe)
  {
    hide BeatsOf, SumReturned, SumGot, CompFlit;
    var x, t := ReadBeat(r, rds[r].returned, f), rds[r].(returned := rds[r].returned + 1);
    SumsUpdate(rds, r, t);
    forall q | 0 <= q < |rds| ensures Numbered(BeatsOf(drsIn + [x], q), rds[r := t][q].returned) {
      BeatsOfSnoc(drsIn, x, q);
    }
  }

  lemma TakeDrs(np: Queue<ChiReq>, drs: Queue<ChiDat>, drs': Queue<ChiDat>, rds: seq<ReadTxn>, reqOut: seq<CxlReq>,
                drsIn: seq<ReadBeat<CxlDrs>>, compOut: seq<ReadBeat<ChiDat>>, drsBeat: nat, allBe: nat, r: nat,
                f: CxlDrs)
    requires ReadSide(np, drs, rds, reqOut, drsIn, compOut, drsBeat, allBe)
    requires DrsAllowed(rds, reqOut, r, f)
    requires drs'.written == drs.written + [TranslateDrs(f, allBe)] && drs'.rcnt == drs.rcnt
    ensures ReadSide(np, drs', rds[r := rds[r].(returned := rds[r].returned + 1)], reqOut,
                     drsIn + [ReadBeat(r, rds[r].returned, f)], compOut, drsBeat, allBe)
  {
    hide Requests, Beatwise, Contiguous, CounterAt, Delivered, TranslateDrs, DrsAllowed, NextBeatOf;
    AllowedIsNext(np, rds, reqOut, r, f);
    NextInRange(rds, |reqOut|, r, f);
    TakeDrsRequests(np, rds, reqOut, r, rds[r].returned + 1, rds[r].got);
    TakeDrsBeats(drs, drs', rds, |reqOut|, drsIn, allBe, r, f);
    TakeDrsContiguous(drs, rds, |reqOut|, drsIn, allBe, drs.rcnt, drsBeat, r, f);
    TakeDrsDelivered(rds, drsIn, compOut, allBe, r, f);
  }

  lemma NextInRange(rds: seq<ReadTxn>, sent: nat, r: nat, f: CxlDrs)
    requires NextBeatOf(rds, sent, r, f)
    ensures r < |rds|
  {
  }

  // ---- A beat is delivered ----

  /** The head of the drs FIFO is the next beat of a live read, and the counter says which. */
  lemma HeadBeat(drs: Queue<ChiDat>, rds: seq<ReadTxn>, sent: nat, drsIn: seq<ReadBeat<CxlDrs>>, drsBeat: nat,
                 allBe: nat)
    requires Beatwise(drs, rds, sent, drsIn, allBe) && Contiguous(rds, drsIn)
             && CounterAt(rds, drsIn, drs.rcnt, drsBeat)
    requires drs.rcnt < |drs.written|
    ensures var h := drsIn[drs.rcnt];
            && h.read < |rds| && h.read < sent && drs.Head() == TranslateDrs(h.flit, allBe)
               && h.flit.tag == rds[h.read].tag
            && drsBeat == h.beat == rds[h.read].got < rds[h.read].Len()
  {
    hide TranslateDrs;
    var j := drs.rcnt;
    var h := drsIn[j];
    assert ResumesAt(rds, drsIn, j);
    if h.beat > 0 {
      assert drsIn[j - 1].read == h.read;
    }
  }

  lemma DeliverBeats(drs: Queue<ChiDat>, drs': Queue<ChiDat>, rds: seq<ReadTxn>, sent: nat,
                     drsIn: seq<ReadBeat<CxlDrs>>, allBe: nat)
    requires Beatwise(drs, rds, sent, drsIn, allBe) && Ascending(drsIn)
    requires drs.rcnt < |drs.written|
    requires drsIn[drs.rcnt].beat == rds[drsIn[drs.rcnt].read].got
    requires drs'.written == drs.written && drs'.rcnt == drs.rcnt + 1
    ensures var r := drsIn[drs.rcnt].read;
            Beatwise(drs', rds[r := rds[r].(got := rds[r].got + 1)], sent, drsIn, allBe)
  {
    hide TranslateDrs;
  }

  lemma ContiguousAscends(rds: seq<ReadTxn>, drsIn: seq<ReadBeat<CxlDrs>>)
    requires Contiguous(rds, drsIn)
    ensures Ascending(drsIn)
  {
  }

  lemma DeliverContiguous(rds: seq<ReadTxn>, drsIn: seq<ReadBeat<CxlDrs>>, rcnt: nat, drsBeat: nat, drsBeat': nat)
    requires Contiguous(rds, drsIn)
    requires rcnt < |drsIn| && drsBeat == drsIn[rcnt].beat
    requires drsBeat' == if drsBeat + 1 == rds[drsIn[rcnt].read].Len() then 0 else drsBeat + 1
    ensures var r := drsIn[rcnt].read;
            var rds' := rds[r := rds[r].(got := rds[r].got + 1)];
            Contiguous(rds', drsIn) && CounterAt(rds', drsIn, rcnt + 1, drsBeat')
  {
    hide Ascending, Beats;
    var r := drsIn[rcnt].read;
    var rds' := rds[r := rds[r].(got := rds[r].got + 1)];
    assert forall i :: 0 <= i < |rds| ==> rds'[i].Len() == rds[i].Len() && rds'[i].returned == rds[i].returned;
    forall j | 0 <= j < |drsIn| ensures ResumesAt(rds', drsIn, j) {
      assert ResumesAt(rds, drsIn, j);
    }
  }

  lemma DeliverLogged(rds: seq<ReadTxn>, drsIn: seq<ReadBeat<CxlDrs>>, compOut: seq<ReadBeat<ChiDat>>, allBe: nat)
    requires Delivered(rds, drsIn, compOut, allBe) && |compOut| < |drsIn|
    requires var h := drsIn[|compOut|]; h.read < |rds| && h.beat == rds[h.read].got
    ensures var h := drsIn[|compOut|];
            var x := ReadBeat(h.read, h.beat, CompFlit(h.flit, rds[h.read].req.txnId, allBe));
            Delivered(rds[h.read := rds[h.read].(got := rds[h.read].got + 1)], drsIn, compOut + [x], allBe)
  {
    hide BeatsOf, SumReturned, SumGot, CompFlit;
    var h := drsIn[|compOut|];
    var x := ReadBeat(h.read, h.beat, CompFlit(h.flit, rds[h.read].req.txnId, allBe));
    var t := rds[h.read].(got := rds[h.read].got + 1);
    SumsUpdate(rds, h.read, t);
    forall q | 0 <= q < |rds| ensures Numbered(BeatsOf(compOut + [x], q), rds[h.read := t][q].got) {
      BeatsOfSnoc(compOut, x, q);
    }
  }

  lemma DeliverComp(np: Queue<ChiReq>, drs: Queue<ChiDat>, drs': Queue<ChiDat>, rds: seq<ReadTxn>, reqOut: seq<CxlReq>,
                    drsIn: seq<ReadBeat<CxlDrs>>, compOut: seq<ReadBeat<ChiDat>>, drsBeat: nat, drsBeat': nat,
                    allBe: nat)
    requires ReadSide(np, drs, rds, reqOut, drsIn, compOut, drsBeat, allBe)
    requires drs.rcnt < |drs.written|
    requires drs'.written == drs.written && drs'.rcnt == drs.rcnt + 1
    requires drsBeat' == if drsBeat + 1 == rds[drsIn[drs.rcnt].read].Len() then 0 else drsBeat + 1
    ensures var h := drsIn[drs.rcnt];
            var x := ReadBeat(h.read, h.beat, CompFlit(h.flit, rds[h.read].req.txnId, allBe));
            ReadSide(np, drs', rds[h.read := rds[h.read].(got := rds[h.read].got + 1)], reqOut, drsIn, compOut + [x],
                     drsBeat', allBe)
  {
    hide Requests, Contiguous, Ascending, CounterAt, Delivered, CompFlit, TranslateDrs;
    HeadBeat(drs, rds, |reqOut|, drsIn, drsBeat, allBe);
    TakeDrsRequests(np, rds, reqOut, drsIn[drs.rcnt].read, rds[drsIn[drs.rcnt].read].returned,
                    rds[drsIn[drs.rcnt].read].got + 1);
    assert Ascending(drsIn) by {
      ContiguousAscends(rds, drsIn);
    }
    DeliverBeats(drs, drs', rds, |reqOut|, drsIn, allBe);
    DeliverContiguous(rds, drsIn, drs.rcnt, drsBeat, drsBeat');
    DeliverLogged(rds, drsIn, compOut, allBe);
  }
}
