/**
 What an observer writes down about a run: the accepted requests and the flits that
 crossed each interface, each with the transaction it belongs to. Nothing in the bridge
 depends on the ledger.
 */
module Ledger {
  import opened Flits

  /** An accepted request of the read class. `returned` counts the DRS beats taken for it,
      `got` the CompData beats delivered. */
  datatype ReadTxn = ReadTxn(req: ChiReq, tag: Tag, returned: nat, got: nat)
  {
    function Len(): (n: nat)
      ensures 1 <= n <= MAX_BEATS
    {
      Beats(req.size)
    }

    predicate Live() { got < Len() }
  }

  /** An accepted write. */
  datatype WriteTxn = WriteTxn(req: ChiReq, tag: Tag, ndrTaken: bool, comped: bool)
  {
    function Len(): (n: nat)
      ensures 1 <= n <= MAX_BEATS
    {
      Beats(req.size)
    }

    predicate Live() { !comped }
  }

  /** Beat `beat` of read `read`, as taken on DRS or delivered on CompData. */
  datatype ReadBeat<F> = ReadBeat(read: nat, beat: nat, flit: F)

  /** Beat `beat` of write `write` on RwD. */
  datatype WriteBeat = WriteBeat(write: nat, beat: nat, flit: CxlRwd)

  datatype NdrTaken = NdrTaken(write: nat, flit: CxlNdr)

  datatype RspOut = DbidOut(flit: ChiRsp) | CompOut(write: nat, flit: ChiRsp)

  datatype Log = Log(
    rds: seq<ReadTxn>, wrs: seq<WriteTxn>,
    leaked: multiset<nat>, dropped: multiset<nat>,
    reqOut: seq<CxlReq>, rwdOut: seq<WriteBeat>,
    drsIn: seq<ReadBeat<CxlDrs>>, ndrIn: seq<NdrTaken>,
    rspOut: seq<RspOut>, compOut: seq<ReadBeat<ChiDat>>)

  const EMPTY_LOG: Log := Log([], [], multiset{}, multiset{}, [], [], [], [], [], [])

  /** The beats of read `r` among `s`, in order. */
  function BeatsOf<F>(s: seq<ReadBeat<F>>, r: nat): seq<ReadBeat<F>> {
    if s == [] then []
    else
      var front := BeatsOf(s[..|s| - 1], r);
      if s[|s| - 1].read == r then front + [s[|s| - 1]] else front
  }

  lemma BeatsOfSnoc<F>(s: seq<ReadBeat<F>>, x: ReadBeat<F>, r: nat)
    ensures BeatsOf(s + [x], r) == if x.read == r then BeatsOf(s, r) + [x] else BeatsOf(s, r)
  {
    assert (s + [x])[..|s|] == s;
  }

  lemma {:induction false} BeatsOfNone<F>(s: seq<ReadBeat<F>>, r: nat)
    requires forall j :: 0 <= j < |s| ==> s[j].read != r
    ensures BeatsOf(s, r) == []
  {
    if s != [] {
      BeatsOfNone(s[..|s| - 1], r);
    }
  }

  /** The DBIDResp handshakes among the RSP handshakes, in order. */
  function Dbids(s: seq<RspOut>): seq<ChiRsp> {
    if s == [] then []
    else
      var front := Dbids(s[..|s| - 1]);
      if s[|s| - 1].DbidOut? then front + [s[|s| - 1].flit] else front
  }

  function Comps(s: seq<RspOut>): seq<RspOut> {
    if s == [] then []
    else
      var front := Comps(s[..|s| - 1]);
      if s[|s| - 1].CompOut? then front + [s[|s| - 1]] else front
  }

  lemma RspSnoc(s: seq<RspOut>, x: RspOut)
    ensures Dbids(s + [x]) == if x.DbidOut? then Dbids(s) + [x.flit] else Dbids(s)
    ensures Comps(s + [x]) == if x.CompOut? then Comps(s) + [x] else Comps(s)
  {
    assert (s + [x])[..|s|] == s;
  }

  /** The DBIDResp owed to each accepted write, in order. */
  function DbidResps(wrs: seq<WriteTxn>): (d: seq<ChiRsp>)
    ensures |d| == |wrs|
    ensures forall i :: 0 <= i < |d| ==>
            d[i] == ChiRsp(0, CHI_RSP_DBIDRESP, wrs[i].req.txnId, wrs[i].tag, CHI_RESPERR_OK)
  {
    seq(|wrs|, i requires 0 <= i < |wrs| => ChiRsp(0, CHI_RSP_DBIDRESP, wrs[i].req.txnId, wrs[i].tag, CHI_RESPERR_OK))
  }

  // ---- Live tags ----

  /** A transaction's claim on its tag. */
  datatype Use = Use(live: bool, tag: nat)
  {
    function Tags(): multiset<nat> { if live then multiset{tag} else multiset{} }
  }

  function ReadUses(rds: seq<ReadTxn>): (u: seq<Use>)
    ensures |u| == |rds|
    ensures forall i :: 0 <= i < |u| ==> u[i] == Use(rds[i].Live(), rds[i].tag)
  {
    seq(|rds|, i requires 0 <= i < |rds| => Use(rds[i].Live(), rds[i].tag))
  }

  function WriteUses(wrs: seq<WriteTxn>): (u: seq<Use>)
    ensures |u| == |wrs|
    ensures forall i :: 0 <= i < |u| ==> u[i] == Use(wrs[i].Live(), wrs[i].tag)
  {
    seq(|wrs|, i requires 0 <= i < |wrs| => Use(wrs[i].Live(), wrs[i].tag))
  }

  function LiveTags(u: seq<Use>): multiset<nat> {
    if u == [] then multiset{} else LiveTags(u[..|u| - 1]) + u[|u| - 1].Tags()
  }

  lemma LiveTagsSnoc(u: seq<Use>, x: Use)
    ensures LiveTags(u + [x]) == LiveTags(u) + x.Tags()
  {
    assert (u + [x])[..|u|] == u;
  }

  lemma {:induction false} LiveTagsConcat(u: seq<Use>, v: seq<Use>)
    ensures LiveTags(u + v) == LiveTags(u) + LiveTags(v)
  {
    hide LiveTags, Use.Tags;
    if v == [] {
      LiveTagsNil(v);
      assert u + v == u;
    } else {
      var front, x := v[..|v| - 1], v[|v| - 1];
      LiveTagsConcat(u, front);
      LiveTagsSplit(u, front, x);
      assert v == front + [x];
    }
  }

  lemma LiveTagsNil(v: seq<Use>)
    requires v == []
    ensures LiveTags(v) == multiset{}
  {
  }

  lemma LiveTagsSplit(u: seq<Use>, front: seq<Use>, x: Use)
    requires LiveTags(u + front) == LiveTags(u) + LiveTags(front)
    ensures LiveTags(u + (front + [x])) == LiveTags(u) + LiveTags(front + [x])
  {
    hide LiveTags, Use.Tags;
    assert u + (front + [x]) == (u + front) + [x];
    LiveTagsSnoc(u + front, x);
    LiveTagsSnoc(front, x);
  }

  lemma LiveTagsAt(u: seq<Use>, i: nat)
    requires i < |u|
    ensures LiveTags(u) == LiveTags(u[..i]) + u[i].Tags() + LiveTags(u[i + 1..])
  {
    hide LiveTags;
    assert u == (u[..i] + [u[i]]) + u[i + 1..];
    LiveTagsConcat(u[..i] + [u[i]], u[i + 1..]);
    LiveTagsSnoc(u[..i], u[i]);
  }

  lemma LiveTagsUpdate(u: seq<Use>, i: nat, x: Use)
    requires i < |u|
    ensures LiveTags(u[i := x]) + u[i].Tags() == LiveTags(u) + x.Tags()
  {
    LiveTagsAt(u, i);
    LiveTagsAt(u[i := x], i);
    assert u[i := x][..i] == u[..i] && u[i := x][i + 1..] == u[i + 1..];
  }

  /** Every live transaction's tag is among the live tags, twice if two share it. */
  lemma LiveTagsMembers(u: seq<Use>)
    ensures forall i :: 0 <= i < |u| && u[i].live ==> u[i].tag in LiveTags(u)
    ensures forall i, j :: 0 <= i < j < |u| && u[i].live && u[j].live && u[i].tag == u[j].tag ==>
            LiveTags(u)[u[i].tag] >= 2
  {
    forall i | 0 <= i < |u| && u[i].live ensures u[i].tag in LiveTags(u) {
      LiveTagsAt(u, i);
    }
    forall i, j | 0 <= i < j < |u| && u[i].live && u[j].live && u[i].tag == u[j].tag
      ensures LiveTags(u)[u[i].tag] >= 2
    {
      LiveTagsAt(u, j);
      LiveTagsAt(u[..j], i);
    }
  }
}
