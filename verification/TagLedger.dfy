/**
 Where every tag is: in the free pool, held by a live transaction, leaked by a request that
 took a tag and was then refused, or dropped when both release ports fired at once.
 */
module TagLedger {
  import opened Options
  import opened Flits
  import opened TagManager
  import opened Ledger

  function ReadTags(rds: seq<ReadTxn>): multiset<nat> { LiveTags(ReadUses(rds)) }

  function WriteTags(wrs: seq<WriteTxn>): multiset<nat> { LiveTags(WriteUses(wrs)) }

  function Held(rds: seq<ReadTxn>, wrs: seq<WriteTxn>, leaked: multiset<nat>, dropped: multiset<nat>): multiset<nat> {
    ReadTags(rds) + WriteTags(wrs) + leaked + dropped
  }

  /** The state RAM still describes the transaction that owns each live tag. */
  ghost predicate Remembered(state: seq<Entry>, rds: seq<ReadTxn>, wrs: seq<WriteTxn>) {
    && |state| == N_TAGS
    && (forall r :: 0 <= r < |rds| && rds[r].Live() ==> state[rds[r].tag] == EntryOf(rds[r].req))
    && (forall w :: 0 <= w < |wrs| && wrs[w].Live() ==> state[wrs[w].tag] == EntryOf(wrs[w].req))
  }

  function EntryOf(req: ChiReq): Entry {
    Entry(Beats(req.size), req.txnId, req.srcId)
  }

  ghost predicate TagSide(tags: Tags, rds: seq<ReadTxn>, wrs: seq<WriteTxn>, leaked: multiset<nat>,
                          dropped: multiset<nat>) {
    && Account(tags, N_TAGS, Held(rds, wrs, leaked, dropped))
    && Remembered(tags.state, rds, wrs)
  }

  /** Live transactions have distinct tags, none of them in the pool. */
  ghost predicate Exclusive(tags: Tags, rds: seq<ReadTxn>, wrs: seq<WriteTxn>) {
    && (forall r :: 0 <= r < |rds| && rds[r].Live() ==> rds[r].tag !in tags.pool)
    && (forall w :: 0 <= w < |wrs| && wrs[w].Live() ==> wrs[w].tag !in tags.pool)
    && (forall r, q :: 0 <= r < q < |rds| && rds[r].Live() && rds[q].Live() ==> rds[r].tag != rds[q].tag)
    && (forall w, v :: 0 <= w < v < |wrs| && wrs[w].Live() && wrs[v].Live() ==> wrs[w].tag != wrs[v].tag)
    && (forall r, w :: 0 <= r < |rds| && 0 <= w < |wrs| && rds[r].Live() && wrs[w].Live() ==> rds[r].tag != wrs[w].tag)
    && (forall i, j :: 0 <= i < j < |tags.pool| ==> tags.pool[i] != tags.pool[j])
  }

  lemma LiveReadHeld(rds: seq<ReadTxn>, wrs: seq<WriteTxn>, leaked: multiset<nat>, dropped: multiset<nat>, r: nat)
    requires r < |rds| && rds[r].Live()
    ensures rds[r].tag in ReadTags(rds) && rds[r].tag in Held(rds, wrs, leaked, dropped)
  {
    LiveTagsMembers(ReadUses(rds));
    assert ReadUses(rds)[r].live;
  }

  lemma LiveWriteHeld(rds: seq<ReadTxn>, wrs: seq<WriteTxn>, leaked: multiset<nat>, dropped: multiset<nat>, w: nat)
    requires w < |wrs| && wrs[w].Live()
    ensures wrs[w].tag in WriteTags(wrs) && wrs[w].tag in Held(rds, wrs, leaked, dropped)
  {
    LiveTagsMembers(WriteUses(wrs));
    assert WriteUses(wrs)[w].live;
  }

  lemma TagsExclusive(tags: Tags, rds: seq<ReadTxn>, wrs: seq<WriteTxn>, leaked: multiset<nat>, dropped: multiset<nat>)
    requires TagSide(tags, rds, wrs, leaked, dropped)
    ensures Exclusive(tags, rds, wrs)
  {
    hide LiveTags, Account, Remembered;
    var held := Held(rds, wrs, leaked, dropped);
    HeldAreDistinct(tags, N_TAGS, held);
    LiveTagsMembers(ReadUses(rds));
    LiveTagsMembers(WriteUses(wrs));
    forall x: nat ensures ReadTags(rds)[x] + WriteTags(wrs)[x] <= held[x] {
    }
    forall r | 0 <= r < |rds| && rds[r].Live() ensures rds[r].tag in ReadTags(rds) {
      LiveReadHeld(rds, wrs, leaked, dropped, r);
    }
    forall w | 0 <= w < |wrs| && wrs[w].Live() ensures wrs[w].tag in WriteTags(wrs) {
      LiveWriteHeld(rds, wrs, leaked, dropped, w);
    }
    forall r, q | 0 <= r < q < |rds| && rds[r].Live() && rds[q].Live() ensures rds[r].tag != rds[q].tag {
      assert ReadUses(rds)[r].live && ReadUses(rds)[q].live;
    }
    forall w, v | 0 <= w < v < |wrs| && wrs[w].Live() && wrs[v].Live() ensures wrs[w].tag != wrs[v].tag {
      assert WriteUses(wrs)[w].live && WriteUses(wrs)[v].live;
    }
  }

  /** The exact account after the fill: every tag is somewhere, once. */
  lemma ExactAccount(tags: Tags, rds: seq<ReadTxn>, wrs: seq<WriteTxn>, leaked: multiset<nat>, dropped: multiset<nat>)
    requires TagSide(tags, rds, wrs, leaked, dropped) && tags.initDone
    ensures |tags.pool| + |ReadTags(rds)| + |WriteTags(wrs)| + |leaked| + |dropped| == N_TAGS
  {
    HeldAreDistinct(tags, N_TAGS, Held(rds, wrs, leaked, dropped));
  }

  // ---- One clk edge ----

  function OneIf(o: Option<nat>): multiset<nat> {
    if o.Some? then multiset{o.value} else multiset{}
  }

  lemma GotOne(rds: seq<ReadTxn>, r: nat)
    requires r < |rds| && rds[r].Live()
    ensures var rds' := rds[r := rds[r].(got := rds[r].got + 1)];
            ReadTags(rds') + (if rds[r].got + 1 == rds[r].Len() then multiset{rds[r].tag as nat} else multiset{}) ==
              ReadTags(rds)
  {
    hide LiveTags;
    var t := rds[r].(got := rds[r].got + 1);
    var u, x := ReadUses(rds), Use(t.Live(), t.tag);
    LiveTagsUpdate(u, r, x);
    assert ReadUses(rds[r := t]) == u[r := x];
    if t.Live() {
      assert u[r := x] == u;
    }
  }

  lemma CompedOne(wrs: seq<WriteTxn>, w: nat)
    requires w < |wrs| && wrs[w].Live()
    ensures WriteTags(wrs[w := wrs[w].(comped := true)]) + multiset{wrs[w].tag as nat} == WriteTags(wrs)
  {
    hide LiveTags;
    LiveTagsUpdate(WriteUses(wrs), w, Use(false, wrs[w].tag));
    assert WriteUses(wrs[w := wrs[w].(comped := true)]) == WriteUses(wrs)[w := Use(false, wrs[w].tag)];
  }

  lemma ReadAccepted(rds: seq<ReadTxn>, req: ChiReq, tag: Tag)
    ensures ReadTags(rds + [ReadTxn(req, tag, 0, 0)]) == ReadTags(rds) + multiset{tag as nat}
  {
    hide LiveTags;
    LiveTagsSnoc(ReadUses(rds), Use(true, tag));
    assert ReadUses(rds + [ReadTxn(req, tag, 0, 0)]) == ReadUses(rds) + [Use(true, tag)];
  }

  lemma WriteAccepted(wrs: seq<WriteTxn>, req: ChiReq, tag: Tag)
    ensures WriteTags(wrs + [WriteTxn(req, tag, false, false)]) == WriteTags(wrs) + multiset{tag as nat}
  {
    hide LiveTags;
    LiveTagsSnoc(WriteUses(wrs), Use(true, tag));
    assert WriteUses(wrs + [WriteTxn(req, tag, false, false)]) == WriteUses(wrs) + [Use(true, tag)];
  }

  /** A returned or completion count that is not a delivery leaves every claim as it is. */
  lemma SameClaims(rds: seq<ReadTxn>, wrs: seq<WriteTxn>, rds': seq<ReadTxn>, wrs': seq<WriteTxn>)
    requires |rds'| == |rds| && forall r :: 0 <= r < |rds| ==>
             rds'[r].req == rds[r].req && rds'[r].tag == rds[r].tag && rds'[r].got == rds[r].got
    requires |wrs'| == |wrs| && forall w :: 0 <= w < |wrs| ==>
             wrs'[w].req == wrs[w].req && wrs'[w].tag == wrs[w].tag && wrs'[w].comped == wrs[w].comped
    ensures ReadTags(rds') == ReadTags(rds) && WriteTags(wrs') == WriteTags(wrs)
    ensures forall state :: Remembered(state, rds, wrs) ==> Remembered(state, rds', wrs')
  {
    assert ReadUses(rds') == ReadUses(rds);
    assert WriteUses(wrs') == WriteUses(wrs);
  }

  /** What a `clk` edge does to the transactions: at most one beat of read `got`, at most one
      completion of write `comped`, and at most one accepted request `acc`. */
  function ReadsAfter(rds: seq<ReadTxn>, got: Option<nat>, acc: Option<ChiReq>, tag: Tag): seq<ReadTxn>
    requires got.Some? ==> got.value < |rds|
  {
    var rds1 := if got.Some? then rds[got.value := rds[got.value].(got := rds[got.value].got + 1)] else rds;
    if acc.Some? && !IsWrite(acc.value.opcode) then rds1 + [ReadTxn(acc.value, tag, 0, 0)] else rds1
  }

  function WritesAfter(wrs: seq<WriteTxn>, comped: Option<nat>, acc: Option<ChiReq>, tag: Tag): seq<WriteTxn>
    requires comped.Some? ==> comped.value < |wrs|
  {
    var wrs1 := if comped.Some? then wrs[comped.value := wrs[comped.value].(comped := true)] else wrs;
    if acc.Some? && IsWrite(acc.value.opcode) then wrs1 + [WriteTxn(acc.value, tag, false, false)] else wrs1
  }

  ghost predicate ReleasesMatch(rds: seq<ReadTxn>, wrs: seq<WriteTxn>, got: Option<nat>, comped: Option<nat>,
                                relA: Option<nat>, relB: Option<nat>) {
    && (got.Some? ==> got.value < |rds| && rds[got.value].Live())
    && (comped.Some? ==> comped.value < |wrs| && wrs[comped.value].Live())
    && relA == (if comped.Some? then Some(wrs[comped.value].tag as nat) else None)
    && relB == (if got.Some? && rds[got.value].got + 1 == rds[got.value].Len() then Some(rds[got.value].tag as nat)
                else None)
  }

  lemma ReadsAfterTags(rds: seq<ReadTxn>, got: Option<nat>, relB: Option<nat>, acc: Option<ChiReq>, tag: Tag)
    requires got.Some? ==> got.value < |rds| && rds[got.value].Live()
    requires relB == if got.Some? && rds[got.value].got + 1 == rds[got.value].Len() then Some(rds[got.value].tag as nat)
             else None
    ensures ReadTags(ReadsAfter(rds, got, acc, tag)) + OneIf(relB)
         == ReadTags(rds) + (if acc.Some? && !IsWrite(acc.value.opcode) then multiset{tag as nat} else multiset{})
  {
    hide ReadTags, IsWrite;
    if got.Some? {
      GotOne(rds, got.value);
    }
    if acc.Some? {
      ReadAccepted(ReadsAfter(rds, got, None, tag), acc.value, tag);
    }
  }

  lemma WritesAfterTags(wrs: seq<WriteTxn>, comped: Option<nat>, relA: Option<nat>, acc: Option<ChiReq>, tag: Tag)
    requires comped.Some? ==> comped.value < |wrs| && wrs[comped.value].Live()
    requires relA == if comped.Some? then Some(wrs[comped.value].tag as nat) else None
    ensures WriteTags(WritesAfter(wrs, comped, acc, tag)) + OneIf(relA)
         == WriteTags(wrs) + (if acc.Some? && IsWrite(acc.value.opcode) then multiset{tag as nat} else multiset{})
  {
    hide WriteTags, IsWrite;
    if comped.Some? {
      CompedOne(wrs, comped.value);
    }
    if acc.Some? {
      WriteAccepted(WritesAfter(wrs, comped, None, tag), acc.value, tag);
    }
  }

  /** Multiset bookkeeping: tokens move between the ledger's columns and nothing is lost. */
  lemma HeldMoves(t: Tags, allocVld: bool, accepted: bool, relA: Option<nat>, relB: Option<nat>, write: bool, tag: nat,
                  r: multiset<nat>, w: multiset<nat>, r': multiset<nat>, w': multiset<nat>, leaked: multiset<nat>,
                  dropped: multiset<nat>)
    requires accepted ==> allocVld && t.AllocRdy()
    requires t.AllocRdy() ==> tag == t.AllocTag()
    requires r' + OneIf(relB) == r + (if accepted && !write then multiset{tag} else multiset{})
    requires w' + OneIf(relA) == w + (if accepted && write then multiset{tag} else multiset{})
    requires relA.Some? ==> relA.value in w
    requires relB.Some? ==> relB.value in r
    ensures HeldAfter(t, r + w + leaked + dropped, allocVld, relA, relB)
         == r' + w' + (leaked + (if allocVld && t.AllocRdy() && !accepted then multiset{tag} else multiset{}))
            + (dropped + (if relA.Some? then OneIf(relB) else multiset{}))
  {
    hide HeldAfter, OneIf;
    var held := r + w + leaked + dropped;
    var moved := if allocVld && t.AllocRdy() && !accepted then multiset{tag} else multiset{};
    var lost := if relA.Some? then OneIf(relB) else multiset{};
    var held' := r' + w' + (leaked + moved) + (dropped + lost);
    forall x: nat ensures HeldAfter(t, held, allocVld, relA, relB)[x] == held'[x] {
      HeldAfterAt(t, held, allocVld, relA, relB, x);
      assert (r' + OneIf(relB))[x] == r'[x] + OneIf(relB)[x];
      assert (w' + OneIf(relA))[x] == w'[x] + OneIf(relA)[x];
      assert held'[x] == r'[x] + w'[x] + leaked[x] + moved[x] + dropped[x] + lost[x];
      OneIfNone(relA);
    }
  }

  lemma OneIfNone(o: Option<nat>)
    ensures o.None? ==> OneIf(o) == multiset{}
  {
  }

  lemma HeldAfterAt(t: Tags, held: multiset<nat>, allocVld: bool, relA: Option<nat>, relB: Option<nat>, x: nat)
    requires relA.Some? ==> relA.value in held
    requires relB.Some? ==> relB.value in held
    ensures HeldAfter(t, held, allocVld, relA, relB)[x]
         == held[x] - (if relA.Some? then OneIf(relA)[x] else OneIf(relB)[x])
            + (if allocVld && t.AllocRdy() then multiset{t.AllocTag()}[x] else 0)
  {
  }

  lemma RememberedAfter(tags: Tags, rds: seq<ReadTxn>, wrs: seq<WriteTxn>, got: Option<nat>, comped: Option<nat>,
                        acc: Option<ChiReq>, tag: Tag, taken: bool, e: Entry)
    requires Remembered(tags.state, rds, wrs) && Exclusive(tags, rds, wrs)
    requires got.Some? ==> got.value < |rds|
    requires comped.Some? ==> comped.value < |wrs|
    requires acc.Some? ==> taken && e == EntryOf(acc.value)
    requires taken ==> tag in tags.pool
    ensures Remembered(if taken then tags.state[tag := e] else tags.state,
                       ReadsAfter(rds, got, acc, tag), WritesAfter(wrs, comped, acc, tag))
  {
    hide EntryOf, IsWrite, Beats;
    var state' := if taken then tags.state[tag := e] else tags.state;
    var rds', wrs' := ReadsAfter(rds, got, acc, tag), WritesAfter(wrs, comped, acc, tag);
    forall r | 0 <= r < |rds'| && rds'[r].Live() ensures state'[rds'[r].tag] == EntryOf(rds'[r].req) {
      if r < |rds| {
        assert rds[r].Live() && rds'[r].tag == rds[r].tag;
      }
    }
    forall w | 0 <= w < |wrs'| && wrs'[w].Live() ensures state'[wrs'[w].tag] == EntryOf(wrs'[w].req) {
      if w < |wrs| {
        assert wrs[w].Live() && wrs'[w].tag == wrs[w].tag;
      }
    }
  }

  /** A `clk` edge keeps the tag ledger: a refused request leaks the tag it took, and port B's
      tag is dropped when port A releases in the same cycle. No returned tag finds the pool full. */
  lemma ClkEdgeTags(tags: Tags, rds: seq<ReadTxn>, wrs: seq<WriteTxn>, leaked: multiset<nat>, dropped: multiset<nat>,
                    allocVld: bool, e: Entry, got: Option<nat>, comped: Option<nat>, relA: Option<nat>,
                    relB: Option<nat>, acc: Option<ChiReq>, tag: Tag)
    requires TagSide(tags, rds, wrs, leaked, dropped)
    requires ReleasesMatch(rds, wrs, got, comped, relA, relB)
    requires acc.Some? ==> allocVld && tags.AllocRdy() && e == EntryOf(acc.value)
    requires tags.AllocRdy() ==> tag == tags.AllocTag()
    ensures relA.Some? ==> relA.value < N_TAGS
    ensures relB.Some? ==> relB.value < N_TAGS
    ensures TagSide(tags.Edge(N_TAGS, allocVld, e, relA, relB), ReadsAfter(rds, got, acc, tag),
                    WritesAfter(wrs, comped, acc, tag),
                    leaked + (if allocVld && tags.AllocRdy() && acc.None? then multiset{tag as nat} else multiset{}),
                    dropped + (if relA.Some? then OneIf(relB) else multiset{}))
    ensures tags.Returned(N_TAGS, relA, relB).Some? ==> |tags.pool| < N_TAGS
  {
    hide ReadTags, WriteTags, Account, Remembered, Exclusive, IsWrite;
    TagsExclusive(tags, rds, wrs, leaked, dropped);
    if got.Some? { LiveReadHeld(rds, wrs, leaked, dropped, got.value); }
    if comped.Some? { LiveWriteHeld(rds, wrs, leaked, dropped, comped.value); }
    EdgeAccount(tags, N_TAGS, Held(rds, wrs, leaked, dropped), allocVld, e, relA, relB);
    ReadsAfterTags(rds, got, relB, acc, tag);
    WritesAfterTags(wrs, comped, relA, acc, tag);
    HeldMoves(tags, allocVld, acc.Some?, relA, relB, acc.Some? && IsWrite(acc.value.opcode), tag,
              ReadTags(rds), WriteTags(wrs), ReadTags(ReadsAfter(rds, got, acc, tag)),
              WriteTags(WritesAfter(wrs, comped, acc, tag)), leaked, dropped);
    RememberedAfter(tags, rds, wrs, got, comped, acc, tag, allocVld && tags.AllocRdy(), e);
  }
}
