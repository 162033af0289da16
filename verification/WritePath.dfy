/**
 The write side of the bridge: commands through the posted FIFO, paired with the data FIFO
 into RwD bursts, the DBIDResp owed to each accepted write, and the completions that come
 back through the ndr FIFO. Each lemma is one event and keeps the predicates below.
 */
module WritePath {
  import opened FifoSpec
  import opened Flits
  import opened Ledger

  /** The posted FIFO holds the accepted writes, tagged. */
  ghost predicate Commands(posted: Queue<ChiReq>, wrs: seq<WriteTxn>) {
    && |posted.written| == |wrs|
    && posted.rcnt <= |wrs|
    && forall i :: 0 <= i < |wrs| ==>
       posted.written[i] == wrs[i].req.(txnId := wrs[i].tag) && IsWrite(wrs[i].req.opcode)
  }

  /** Where the RwD stream stands after `j` beats: which write, and which of its beats is next. */
  function Position(wrs: seq<WriteTxn>, rwdOut: seq<WriteBeat>, j: nat): (p: (nat, nat))
    requires j <= |rwdOut|
    requires j > 0 ==> rwdOut[j - 1].write < |wrs|
  {
    if j == 0 then (0, 0)
    else
      var x := rwdOut[j - 1];
      if x.beat + 1 == wrs[x.write].Len() then (x.write + 1, 0) else (x.write, x.beat + 1)
  }

  ghost predicate BeatAt(wrs: seq<WriteTxn>, rwdOut: seq<WriteBeat>, dat: seq<ChiDat>, j: nat)
    requires j < |rwdOut| <= |dat|
    requires j > 0 ==> rwdOut[j - 1].write < |wrs|
  {
    var x := rwdOut[j];
    && (x.write, x.beat) == Position(wrs, rwdOut, j)
    && x.write < |wrs| && x.beat < wrs[x.write].Len()
    && x.flit == TranslateWrite(wrs[x.write].req, dat[j], wrs[x.write].tag)
  }

  /** The RwD stream so far, and the registers that say how it goes on. */
  ghost predicate Bursts(posted: Queue<ChiReq>, dat: Queue<ChiDat>, wrs: seq<WriteTxn>, rwdOut: seq<WriteBeat>,
                         rwdBeat: nat) {
    && |rwdOut| == dat.rcnt <= |dat.written|
    && (forall j :: 0 <= j < |rwdOut| ==> rwdOut[j].write < |wrs|)
    && (forall j {:trigger BeatAt(wrs, rwdOut, dat.written, j)} :: 0 <= j < |rwdOut| ==>
        BeatAt(wrs, rwdOut, dat.written, j))
    && (posted.rcnt, rwdBeat) == Position(wrs, rwdOut, |rwdOut|)
    && posted.rcnt <= |wrs|
    && (rwdBeat > 0 ==> posted.rcnt < posted.ws1 && posted.rcnt < |wrs| && rwdBeat < wrs[posted.rcnt].Len())
  }

  /** One DBIDResp per accepted write, delivered or waiting, in order. */
  ghost predicate DbidsOwed(rspInt: seq<ChiRsp>, wrs: seq<WriteTxn>, rspOut: seq<RspOut>) {
    Dbids(rspOut) + rspInt == DbidResps(wrs)
  }

  /** The completions taken from the device, each for its own write, whose burst has left. */
  ghost predicate Completions(ndr: Queue<ChiRsp>, wrs: seq<WriteTxn>, done: nat, ndrIn: seq<NdrTaken>) {
    && |ndrIn| == |ndr.written|
    && ndr.rcnt <= |ndrIn|
    && (forall j :: 0 <= j < |ndrIn| ==>
          && ndrIn[j].write < |wrs|
          && wrs[ndrIn[j].write].ndrTaken
          && ndrIn[j].flit.tag == wrs[ndrIn[j].write].tag
          && ndr.written[j] == TranslateNdr(ndrIn[j].flit)
          && (wrs[ndrIn[j].write].comped <==> j < ndr.rcnt))
    && (forall j, k :: 0 <= j < k < |ndrIn| ==> ndrIn[j].write != ndrIn[k].write)
    && (forall w :: 0 <= w < |wrs| ==> (wrs[w].comped ==> wrs[w].ndrTaken) && (wrs[w].ndrTaken ==> w < done))
    && CountTaken(wrs) == |ndrIn| && CountComped(wrs) == ndr.rcnt
  }

  function CompRsp(f: CxlNdr, txnId: nat): ChiRsp {
    TranslateNdr(f).(txnId := txnId)
  }

  /** One Comp per completion, in the order taken, with the TxnID of the write that owns the tag. */
  ghost predicate CompsSent(wrs: seq<WriteTxn>, ndrIn: seq<NdrTaken>, rspOut: seq<RspOut>) {
    && |Comps(rspOut)| <= |ndrIn|
    && forall j :: 0 <= j < |Comps(rspOut)| ==>
         && ndrIn[j].write < |wrs|
         && Comps(rspOut)[j] == CompOut(ndrIn[j].write, CompRsp(ndrIn[j].flit, wrs[ndrIn[j].write].req.txnId))
  }

  /** Everything the write side keeps. */
  ghost predicate WriteSide(posted: Queue<ChiReq>, dat: Queue<ChiDat>, ndr: Queue<ChiRsp>, rspInt: seq<ChiRsp>,
                            wrs: seq<WriteTxn>, rwdOut: seq<WriteBeat>, ndrIn: seq<NdrTaken>, rspOut: seq<RspOut>,
                            rwdBeat: nat) {
    && Commands(posted, wrs)
    && Bursts(posted, dat, wrs, rwdOut, rwdBeat)
    && DbidsOwed(rspInt, wrs, rspOut)
    && Completions(ndr, wrs, posted.rcnt, ndrIn)
    && |Comps(rspOut)| == ndr.rcnt
    && CompsSent(wrs, ndrIn, rspOut)
  }

  function CountTaken(wrs: seq<WriteTxn>): nat {
    if wrs == [] then 0 else CountTaken(wrs[..|wrs| - 1]) + (if wrs[|wrs| - 1].ndrTaken then 1 else 0)
  }

  function CountComped(wrs: seq<WriteTxn>): nat {
    if wrs == [] then 0 else CountComped(wrs[..|wrs| - 1]) + (if wrs[|wrs| - 1].comped then 1 else 0)
  }

  lemma CountsSnoc(wrs: seq<WriteTxn>, t: WriteTxn)
    ensures CountTaken(wrs + [t]) == CountTaken(wrs) + (if t.ndrTaken then 1 else 0)
    ensures CountComped(wrs + [t]) == CountComped(wrs) + (if t.comped then 1 else 0)
  {
    assert (wrs + [t])[..|wrs|] == wrs;
  }

  lemma {:induction false} CountsUpdate(wrs: seq<WriteTxn>, w: nat, t: WriteTxn)
    requires w < |wrs|
    ensures CountTaken(wrs[w := t]) == CountTaken(wrs) - (if wrs[w].ndrTaken then 1 else 0)
            + (if t.ndrTaken then 1 else 0)
    ensures CountComped(wrs[w := t]) == CountComped(wrs) - (if wrs[w].comped then 1 else 0)
            + (if t.comped then 1 else 0)
  {
    var n := |wrs| - 1;
    if w < n {
      CountsUpdate(wrs[..n], w, t);
      assert wrs[w := t][..n] == wrs[..n][w := t];
    } else {
      assert wrs[w := t][..n] == wrs[..n];
    }
  }

  /** `wrs'` has the same requests and tags as `wrs`, and possibly more transactions. */
  ghost predicate Extends(wrs: seq<WriteTxn>, wrs': seq<WriteTxn>) {
    && |wrs| <= |wrs'|
    && forall i :: 0 <= i < |wrs| ==> wrs'[i].req == wrs[i].req && wrs'[i].tag == wrs[i].tag
  }

  lemma BurstsExtend(posted: Queue<ChiReq>, posted': Queue<ChiReq>, dat: Queue<ChiDat>, dat': Queue<ChiDat>,
                     wrs: seq<WriteTxn>, wrs': seq<WriteTxn>, rwdOut: seq<WriteBeat>, rwdBeat: nat)
    requires Bursts(posted, dat, wrs, rwdOut, rwdBeat) && Extends(wrs, wrs')
    requires posted'.rcnt == posted.rcnt && posted'.ws1 == posted.ws1
    requires dat'.rcnt == dat.rcnt && dat.written <= dat'.written
    ensures Bursts(posted', dat', wrs', rwdOut, rwdBeat)
  {
    hide Beats, TranslateWrite;
    forall j | 0 <= j < |rwdOut| ensures BeatAt(wrs', rwdOut, dat'.written, j) {
      assert BeatAt(wrs, rwdOut, dat.written, j);
    }
  }

  // ---- A write is accepted ----

  lemma AcceptWriteCommands(posted: Queue<ChiReq>, posted': Queue<ChiReq>, wrs: seq<WriteTxn>, req: ChiReq, tag: Tag)
    requires Commands(posted, wrs) && IsWrite(req.opcode)
    requires posted'.written == posted.written + [req.(txnId := tag)] && posted'.rcnt == posted.rcnt
    ensures Commands(posted', wrs + [WriteTxn(req, tag, false, false)])
  {
    hide IsWrite;
  }

  lemma AcceptWriteCompletions(ndr: Queue<ChiRsp>, wrs: seq<WriteTxn>, done: nat, ndrIn: seq<NdrTaken>,
                               rspOut: seq<RspOut>, req: ChiReq, tag: Tag)
    requires Completions(ndr, wrs, done, ndrIn) && CompsSent(wrs, ndrIn, rspOut)
    ensures var wrs' := wrs + [WriteTxn(req, tag, false, false)];
            Completions(ndr, wrs', done, ndrIn) && CompsSent(wrs', ndrIn, rspOut)
  {
    hide CountTaken, CountComped, TranslateNdr, CompRsp, Comps;
    CountsSnoc(wrs, WriteTxn(req, tag, false, false));
  }

  lemma AcceptWrite(posted: Queue<ChiReq>, posted': Queue<ChiReq>, dat: Queue<ChiDat>, ndr: Queue<ChiRsp>,
                    rspInt: seq<ChiRsp>, wrs: seq<WriteTxn>, rwdOut: seq<WriteBeat>, ndrIn: seq<NdrTaken>,
                    rspOut: seq<RspOut>, rwdBeat: nat, req: ChiReq, tag: Tag)
    requires WriteSide(posted, dat, ndr, rspInt, wrs, rwdOut, ndrIn, rspOut, rwdBeat)
    requires IsWrite(req.opcode)
    requires posted'.written == posted.written + [req.(txnId := tag)] && posted'.rcnt == posted.rcnt
             && posted'.ws1 == posted.ws1
    ensures WriteSide(posted', dat, ndr, rspInt + [ChiRsp(0, CHI_RSP_DBIDRESP, req.txnId, tag, CHI_RESPERR_OK)],
                      wrs + [WriteTxn(req, tag, false, false)], rwdOut, ndrIn, rspOut, rwdBeat)
  {
    hide Commands, Bursts, Completions, CompsSent, Comps, Dbids, IsWrite;
    var wrs' := wrs + [WriteTxn(req, tag, false, false)];
    AcceptWriteCommands(posted, posted', wrs, req, tag);
    BurstsExtend(posted, posted', dat, dat, wrs, wrs', rwdOut, rwdBeat);
    AcceptWriteCompletions(ndr, wrs, posted.rcnt, ndrIn, rspOut, req, tag);
    assert DbidResps(wrs') == DbidResps(wrs) + [ChiRsp(0, CHI_RSP_DBIDRESP, req.txnId, tag, CHI_RESPERR_OK)];
  }

  // ---- A data beat is written ----

  lemma TakeData(posted: Queue<ChiReq>, dat: Queue<ChiDat>, dat': Queue<ChiDat>, ndr: Queue<ChiRsp>,
                 rspInt: seq<ChiRsp>, wrs: seq<WriteTxn>, rwdOut: seq<WriteBeat>, ndrIn: seq<NdrTaken>,
                 rspOut: seq<RspOut>, rwdBeat: nat)
    requires WriteSide(posted, dat, ndr, rspInt, wrs, rwdOut, ndrIn, rspOut, rwdBeat)
    requires dat'.rcnt == dat.rcnt && dat.written <= dat'.written
    ensures WriteSide(posted, dat', ndr, rspInt, wrs, rwdOut, ndrIn, rspOut, rwdBeat)
  {
    hide Commands, Bursts, Completions, CompsSent, Comps, DbidsOwed;
    BurstsExtend(posted, posted, dat, dat', wrs, wrs, rwdOut, rwdBeat);
  }

  // ---- An RwD beat leaves ----

  /** What the egress shows is the next beat of the write the counter stands at. */
  lemma HeadWrite(posted: Queue<ChiReq>, dat: Queue<ChiDat>, wrs: seq<WriteTxn>, rwdOut: seq<WriteBeat>, rwdBeat: nat)
    requires Commands(posted, wrs) && Bursts(posted, dat, wrs, rwdOut, rwdBeat)
    requires posted.rcnt < |posted.written| && dat.rcnt < |dat.written|
    ensures var t := wrs[posted.rcnt];
            && Beats(posted.Head().size) == t.Len() && rwdBeat < t.Len()
            && TranslateWrite(posted.Head(), dat.Head(), TagOf(posted.Head().txnId)) ==
                 TranslateWrite(t.req, dat.Head(), t.tag)
  {
    hide IsWrite;
  }

  lemma SendRwdBursts(posted: Queue<ChiReq>, posted': Queue<ChiReq>, dat: Queue<ChiDat>, dat': Queue<ChiDat>,
                      wrs: seq<WriteTxn>, rwdOut: seq<WriteBeat>, rwdBeat: nat)
    requires Bursts(posted, dat, wrs, rwdOut, rwdBeat)
    requires posted.rcnt < |wrs| && posted.rcnt < posted.ws1 && dat.rcnt < |dat.written|
    requires rwdBeat < wrs[posted.rcnt].Len()
    requires dat'.rcnt == dat.rcnt + 1 && dat'.written == dat.written
    requires posted'.ws1 >= posted.ws1
    requires posted'.rcnt == if rwdBeat + 1 == wrs[posted.rcnt].Len() then posted.rcnt + 1 else posted.rcnt
    ensures var t := wrs[posted.rcnt];
            var x := WriteBeat(posted.rcnt, rwdBeat, TranslateWrite(t.req, dat.Head(), t.tag));
            Bursts(posted', dat', wrs, rwdOut + [x], if rwdBeat + 1 == t.Len() then 0 else rwdBeat + 1)
  {
    hide Beats, TranslateWrite;
    var t := wrs[posted.rcnt];
    var x := WriteBeat(posted.rcnt, rwdBeat, TranslateWrite(t.req, dat.Head(), t.tag));
    var out' := rwdOut + [x];
    forall j | 0 <= j < |out'| ensures BeatAt(wrs, out', dat'.written, j) {
      assert j < |rwdOut| ==> BeatAt(wrs, rwdOut, dat.written, j);
    }
  }

  lemma DoneGrows(ndr: Queue<ChiRsp>, wrs: seq<WriteTxn>, done: nat, done': nat, ndrIn: seq<NdrTaken>)
    requires Completions(ndr, wrs, done, ndrIn) && done <= done'
    ensures Completions(ndr, wrs, done', ndrIn)
  {
    hide CountTaken, CountComped, TranslateNdr;
  }

  lemma SendRwd(posted: Queue<ChiReq>, posted': Queue<ChiReq>, dat: Queue<ChiDat>, dat': Queue<ChiDat>,
                ndr: Queue<ChiRsp>, rspInt: seq<ChiRsp>, wrs: seq<WriteTxn>, rwdOut: seq<WriteBeat>,
                ndrIn: seq<NdrTaken>, rspOut: seq<RspOut>, rwdBeat: nat)
    requires WriteSide(posted, dat, ndr, rspInt, wrs, rwdOut, ndrIn, rspOut, rwdBeat)
    requires posted.rcnt < posted.ws1 && posted.rcnt < |posted.written| && dat.rcnt < |dat.written|
    requires dat'.rcnt == dat.rcnt + 1 && dat'.written == dat.written
    requires posted'.ws1 >= posted.ws1 && posted'.written == posted.written
    requires posted'.rcnt == if rwdBeat + 1 == Beats(posted.Head().size) then posted.rcnt + 1 else posted.rcnt
    ensures var x := WriteBeat(posted.rcnt, rwdBeat,
                               TranslateWrite(posted.Head(), dat.Head(), TagOf(posted.Head().txnId)));
            WriteSide(posted', dat', ndr, rspInt, wrs, rwdOut + [x], ndrIn, rspOut,
                      if rwdBeat + 1 == Beats(posted.Head().size) then 0 else rwdBeat + 1)
  {
    hide Bursts, Completions, CompsSent, Comps, DbidsOwed, TranslateWrite, Beats, IsWrite;
    HeadWrite(posted, dat, wrs, rwdOut, rwdBeat);
    SendRwdBursts(posted, posted', dat, dat', wrs, rwdOut, rwdBeat);
    DoneGrows(ndr, wrs, posted.rcnt, posted'.rcnt, ndrIn);
  }

  // ---- The device completes a write ----

  /** The device completes, once, a write whose last RwD beat it has received, with that beat's tag. */
  ghost predicate NdrAllowed(wrs: seq<WriteTxn>, rwdOut: seq<WriteBeat>, w: nat, f: CxlNdr) {
    && w < |wrs| && !wrs[w].ndrTaken
    && exists j ::
         && 0 <= j < |rwdOut| && rwdOut[j].write == w
         && rwdOut[j].beat + 1 == rwdOut[j].flit.len && rwdOut[j].flit.tag == f.tag
  }

  lemma AllowedIsDone(posted: Queue<ChiReq>, dat: Queue<ChiDat>, wrs: seq<WriteTxn>, rwdOut: seq<WriteBeat>,
                      rwdBeat: nat, w: nat, f: CxlNdr)
    requires Bursts(posted, dat, wrs, rwdOut, rwdBeat) && NdrAllowed(wrs, rwdOut, w, f)
    ensures w < |wrs| && !wrs[w].ndrTaken && w < posted.rcnt && f.tag == wrs[w].tag
  {
    hide Beats;
    var j :| 0 <= j < |rwdOut| && rwdOut[j].write == w && rwdOut[j].beat + 1 == rwdOut[j].flit.len
      && rwdOut[j].flit.tag == f.tag;
    assert BeatAt(wrs, rwdOut, dat.written, j);
    BeatsAdvance(posted, dat, wrs, rwdOut, rwdBeat, j, |rwdOut|);
  }

  /** Once the last beat of a write has gone, the stream stands past that write. */
  lemma {:induction false} BeatsAdvance(posted: Queue<ChiReq>, dat: Queue<ChiDat>, wrs: seq<WriteTxn>,
                                        rwdOut: seq<WriteBeat>, rwdBeat: nat, j: nat, k: nat)
    requires Bursts(posted, dat, wrs, rwdOut, rwdBeat)
    requires j < k <= |rwdOut| && rwdOut[j].beat + 1 == wrs[rwdOut[j].write].Len()
    ensures Position(wrs, rwdOut, k).0 > rwdOut[j].write
  {
    hide Beats, TranslateWrite;
    if j + 1 < k {
      BeatsAdvance(posted, dat, wrs, rwdOut, rwdBeat, j, k - 1);
      assert BeatAt(wrs, rwdOut, dat.written, k - 1);
    }
  }

  lemma TakeNdrCompletions(ndr: Queue<ChiRsp>, ndr': Queue<ChiRsp>, wrs: seq<WriteTxn>, done: nat, ndrIn: seq<NdrTaken>,
                           rspOut: seq<RspOut>, w: nat, f: CxlNdr)
    requires Completions(ndr, wrs, done, ndrIn) && CompsSent(wrs, ndrIn, rspOut)
    requires w < |wrs| && w < done && !wrs[w].ndrTaken && f.tag == wrs[w].tag
    requires ndr'.written == ndr.written + [TranslateNdr(f)] && ndr'.rcnt == ndr.rcnt
    ensures var wrs', ndrIn' := wrs[w := wrs[w].(ndrTaken := true)], ndrIn + [NdrTaken(w, f)];
            Completions(ndr', wrs', done, ndrIn') && CompsSent(wrs', ndrIn', rspOut)
  {
    hide CountTaken, CountComped, TranslateNdr, CompRsp, Comps;
    CountsUpdate(wrs, w, wrs[w].(ndrTaken := true));
  }

  lemma CommandsExtend(posted: Queue<ChiReq>, wrs: seq<WriteTxn>, wrs': seq<WriteTxn>)
    requires Commands(posted, wrs) && Extends(wrs, wrs') && |wrs'| == |wrs|
    ensures Commands(posted, wrs')
    ensures DbidResps(wrs') == DbidResps(wrs)
  {
    hide IsWrite;
  }

  lemma TakeNdr(posted: Queue<ChiReq>, dat: Queue<ChiDat>, ndr: Queue<ChiRsp>, ndr': Queue<ChiRsp>, rspInt: seq<ChiRsp>,
                wrs: seq<WriteTxn>, rwdOut: seq<WriteBeat>, ndrIn: seq<NdrTaken>, rspOut: seq<RspOut>, rwdBeat: nat,
                w: nat, f: CxlNdr)
    requires WriteSide(posted, dat, ndr, rspInt, wrs, rwdOut, ndrIn, rspOut, rwdBeat)
    requires NdrAllowed(wrs, rwdOut, w, f)
    requires ndr'.written == ndr.written + [TranslateNdr(f)] && ndr'.rcnt == ndr.rcnt
    ensures w < |wrs|
    ensures WriteSide(posted, dat, ndr', rspInt, wrs[w := wrs[w].(ndrTaken := true)], rwdOut, ndrIn + [NdrTaken(w, f)],
                      rspOut, rwdBeat)
  {
    hide Commands, Bursts, Completions, CompsSent, Comps, Dbids, NdrAllowed, TranslateNdr;
    AllowedIsDone(posted, dat, wrs, rwdOut, rwdBeat, w, f);
    var wrs' := wrs[w := wrs[w].(ndrTaken := true)];
    CommandsExtend(posted, wrs, wrs');
    BurstsExtend(posted, posted, dat, dat, wrs, wrs', rwdOut, rwdBeat);
    TakeNdrCompletions(ndr, ndr', wrs, posted.rcnt, ndrIn, rspOut, w, f);
  }

  // ---- An RSP flit is delivered ----

  lemma SendDbid(posted: Queue<ChiReq>, dat: Queue<ChiDat>, ndr: Queue<ChiRsp>, rspInt: seq<ChiRsp>,
                 wrs: seq<WriteTxn>, rwdOut: seq<WriteBeat>, ndrIn: seq<NdrTaken>, rspOut: seq<RspOut>, rwdBeat: nat)
    requires WriteSide(posted, dat, ndr, rspInt, wrs, rwdOut, ndrIn, rspOut, rwdBeat)
    requires rspInt != []
    ensures WriteSide(posted, dat, ndr, rspInt[1..], wrs, rwdOut, ndrIn, rspOut + [DbidOut(rspInt[0])], rwdBeat)
  {
    hide Commands, Bursts, Completions, Comps, Dbids;
    RspSnoc(rspOut, DbidOut(rspInt[0]));
    assert Dbids(rspOut) + rspInt == (Dbids(rspOut) + [rspInt[0]]) + rspInt[1..];
  }

  /** The head of the ndr FIFO completes a live write, by its tag. */
  lemma HeadNdr(ndr: Queue<ChiRsp>, wrs: seq<WriteTxn>, done: nat, ndrIn: seq<NdrTaken>)
    requires Completions(ndr, wrs, done, ndrIn) && ndr.rcnt < |ndr.written|
    ensures var h := ndrIn[ndr.rcnt];
            && h.write < |wrs| && wrs[h.write].Live() && ndr.Head() == TranslateNdr(h.flit)
               && h.flit.tag == wrs[h.write].tag
            && TagOf(ndr.Head().dbId) == wrs[h.write].tag
  {
  }

  lemma SendCompCompletions(ndr: Queue<ChiRsp>, ndr': Queue<ChiRsp>, wrs: seq<WriteTxn>, done: nat,
                            ndrIn: seq<NdrTaken>, rspOut: seq<RspOut>)
    requires Completions(ndr, wrs, done, ndrIn) && CompsSent(wrs, ndrIn, rspOut)
    requires ndr.rcnt < |ndr.written|
    requires ndr'.written == ndr.written && ndr'.rcnt == ndr.rcnt + 1
    ensures var w := ndrIn[ndr.rcnt].write;
            var wrs' := wrs[w := wrs[w].(comped := true)];
            Completions(ndr', wrs', done, ndrIn) && CompsSent(wrs', ndrIn, rspOut)
  {
    hide CountTaken, CountComped, TranslateNdr, CompRsp, Comps;
    CountsUpdate(wrs, ndrIn[ndr.rcnt].write, wrs[ndrIn[ndr.rcnt].write].(comped := true));
  }

  lemma CompsSentSnoc(wrs: seq<WriteTxn>, ndrIn: seq<NdrTaken>, rspOut: seq<RspOut>)
    requires CompsSent(wrs, ndrIn, rspOut) && |Comps(rspOut)| < |ndrIn|
    requires ndrIn[|Comps(rspOut)|].write < |wrs|
    ensures var h := ndrIn[|Comps(rspOut)|];
            CompsSent(wrs, ndrIn, rspOut + [CompOut(h.write, CompRsp(h.flit, wrs[h.write].req.txnId))])
  {
    hide Comps, CompRsp;
    var h := ndrIn[|Comps(rspOut)|];
    RspSnoc(rspOut, CompOut(h.write, CompRsp(h.flit, wrs[h.write].req.txnId)));
  }

  lemma SendComp(posted: Queue<ChiReq>, dat: Queue<ChiDat>, ndr: Queue<ChiRsp>, ndr': Queue<ChiRsp>,
                 rspInt: seq<ChiRsp>, wrs: seq<WriteTxn>, rwdOut: seq<WriteBeat>, ndrIn: seq<NdrTaken>,
                 rspOut: seq<RspOut>, rwdBeat: nat)
    requires WriteSide(posted, dat, ndr, rspInt, wrs, rwdOut, ndrIn, rspOut, rwdBeat)
    requires ndr.rcnt < |ndr.written|
    requires ndr'.written == ndr.written && ndr'.rcnt == ndr.rcnt + 1
    ensures |ndrIn| == |ndr.written| && ndrIn[ndr.rcnt].write < |wrs|
    ensures var h := ndrIn[ndr.rcnt];
            WriteSide(posted, dat, ndr', rspInt, wrs[h.write := wrs[h.write].(comped := true)], rwdOut, ndrIn,
                      rspOut + [CompOut(h.write, CompRsp(h.flit, wrs[h.write].req.txnId))], rwdBeat)
  {
    HeadNdr(ndr, wrs, posted.rcnt, ndrIn);
    hide Commands, Bursts, CompsSent, Comps, Dbids, CompRsp, TranslateNdr;
    var h := ndrIn[ndr.rcnt];
    var wrs' := wrs[h.write := wrs[h.write].(comped := true)];
    CommandsExtend(posted, wrs, wrs');
    BurstsExtend(posted, posted, dat, dat, wrs, wrs', rwdOut, rwdBeat);
    SendCompCompletions(ndr, ndr', wrs, posted.rcnt, ndrIn, rspOut);
    CompsSentSnoc(wrs', ndrIn, rspOut);
    RspSnoc(rspOut, CompOut(h.write, CompRsp(h.flit, wrs[h.write].req.txnId)));
  }

  // ---- The expansion of the accepted writes ----

  function SumLen(wrs: seq<WriteTxn>): nat {
    if wrs == [] then 0 else SumLen(wrs[..|wrs| - 1]) + wrs[|wrs| - 1].Len()
  }

  /** The (write, beat) pairs of all accepted writes, in order. */
  function Expansion(wrs: seq<WriteTxn>): (e: seq<(nat, nat)>)
    ensures |e| == SumLen(wrs)
  {
    if wrs == [] then []
    else
      var w := |wrs| - 1;
      Expansion(wrs[..w]) + seq(wrs[w].Len(), k => (w, k))
  }

  lemma {:induction false} ExpansionAt(wrs: seq<WriteTxn>, w: nat, k: nat)
    requires w < |wrs| && k < wrs[w].Len()
    ensures SumLen(wrs[..w]) + k < SumLen(wrs)
    ensures Expansion(wrs)[SumLen(wrs[..w]) + k] == (w, k)
  {
    var n := |wrs| - 1;
    if w < n {
      ExpansionAt(wrs[..n], w, k);
      assert wrs[..n][..w] == wrs[..w];
    }
  }

  lemma SumLenStep(wrs: seq<WriteTxn>, w: nat)
    requires w < |wrs|
    ensures SumLen(wrs[..w + 1]) == SumLen(wrs[..w]) + wrs[w].Len()
  {
    assert wrs[..w + 1][..w] == wrs[..w];
  }

  lemma {:induction false} BeatIndex(posted: Queue<ChiReq>, dat: Queue<ChiDat>, wrs: seq<WriteTxn>,
                                     rwdOut: seq<WriteBeat>, rwdBeat: nat, j: nat)
    requires Bursts(posted, dat, wrs, rwdOut, rwdBeat) && j <= |rwdOut|
    ensures var p := Position(wrs, rwdOut, j);
            p.0 <= |wrs| && SumLen(wrs[..p.0]) + p.1 == j
  {
    hide Beats, TranslateWrite;
    if j > 0 {
      BeatIndex(posted, dat, wrs, rwdOut, rwdBeat, j - 1);
      assert BeatAt(wrs, rwdOut, dat.written, j - 1);
      SumLenStep(wrs, rwdOut[j - 1].write);
    } else {
      assert wrs[..0] == [];
    }
  }

  /** The RwD stream is a prefix of the expansion of the accepted writes, each beat paired with
      the WrData beat of the same position; the registers say exactly how much of it is gone. */
  lemma RwdIsExpansion(posted: Queue<ChiReq>, dat: Queue<ChiDat>, wrs: seq<WriteTxn>, rwdOut: seq<WriteBeat>,
                       rwdBeat: nat)
    requires Bursts(posted, dat, wrs, rwdOut, rwdBeat)
    ensures |rwdOut| <= SumLen(wrs) && |rwdOut| <= |dat.written|
    ensures forall j :: 0 <= j < |rwdOut| ==>
              var (w, k) := Expansion(wrs)[j];
              w < |wrs| && rwdOut[j] == WriteBeat(w, k, TranslateWrite(wrs[w].req, dat.written[j], wrs[w].tag))
    ensures |rwdOut| == SumLen(wrs[..posted.rcnt]) + rwdBeat
  {
    hide TranslateWrite, Expansion, SumLen, Beats;
    BeatIndex(posted, dat, wrs, rwdOut, rwdBeat, |rwdOut|);
    forall j | 0 <= j < |rwdOut|
      ensures j < SumLen(wrs)
      ensures var (w, k) := Expansion(wrs)[j];
              w < |wrs| && rwdOut[j] == WriteBeat(w, k, TranslateWrite(wrs[w].req, dat.written[j], wrs[w].tag))
    {
      assert BeatAt(wrs, rwdOut, dat.written, j);
      BeatIndex(posted, dat, wrs, rwdOut, rwdBeat, j);
      ExpansionAt(wrs, rwdOut[j].write, rwdOut[j].beat);
    }
  }
}
