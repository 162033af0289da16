/**
 The tag manager: a circular pool of free tags, filled one tag per cycle after reset, and a
 RAM with the {LEN, TxnID, SrcID} of the transaction that last took each tag.
 */
module TagManager {
  import opened BitVec
  import opened SyncFifo
  import opened Options

  datatype Entry = Entry(len: nat, txnId: nat, srcId: nat)

  datatype Tags = Tags(pool: seq<nat>, initCnt: nat, initDone: bool, state: seq<Entry>)
  {
    ghost predicate WellFormed(n: nat) {
      && |state| == n > 0
      && |pool| <= n
      && initCnt <= n
      && forall i :: 0 <= i < |pool| ==> pool[i] < n
    }

    predicate AllocRdy() { initDone && pool != [] }

    function AllocTag(): nat
      requires pool != []
    {
      pool[0]
    }

    /** The pool write of this cycle; port A wins over port B. */
    function Returned(n: nat, relA: Option<nat>, relB: Option<nat>): Option<nat> {
      if !initDone then
        if initCnt < n then Some(initCnt) else if relA.Some? || relB.Some? then Some(0) else None
      else if relA.Some? then relA
      else relB
    }

    function Edge(n: nat, allocVld: bool, e: Entry, relA: Option<nat>, relB: Option<nat>): (t: Tags)
      requires WellFormed(n)
      requires relA.Some? ==> relA.value < n
      requires relB.Some? ==> relB.value < n
      ensures t.WellFormed(n)
    {
      var ret := Returned(n, relA, relB);
      var alloc := allocVld && AllocRdy();
      Tags(QueueEdge(pool, n, ret.Some?, ret.GetOr(0), alloc),
           if !initDone && initCnt < n then initCnt + 1 else initCnt,
           initDone || initCnt == n,
           if alloc then state[pool[0] := e] else state)
    }
  }

  function Unfilled(state: seq<Entry>): Tags {
    Tags([], 0, false, state)
  }

  // ---- Token account ----

  /** Each of the tags 0 .. n-1 once. */
  ghost function AllTags(n: nat): multiset<nat> {
    if n == 0 then multiset{} else AllTags(n - 1) + multiset{n - 1}
  }

  lemma {:induction false} AllTagsOnce(n: nat)
    ensures |AllTags(n)| == n
    ensures forall t: nat :: AllTags(n)[t] == if t < n then 1 else 0
  {
    if n > 0 {
      AllTagsOnce(n - 1);
    }
  }

  /** Every tag is in the pool or held outside it, once in all; before the fill ends the
      pool holds the tags counted so far and none is held. */
  ghost predicate Account(t: Tags, n: nat, held: multiset<nat>) {
    && t.WellFormed(n)
    && if t.initDone then multiset(t.pool) + held == AllTags(n)
       else held == multiset{} && |t.pool| == t.initCnt && multiset(t.pool) == AllTags(t.initCnt)
  }

  /** What is held after an edge: a tag leaves on allocation and comes back on release, but
      when both ports release, port B's tag does not come back. */
  ghost function HeldAfter(t: Tags, held: multiset<nat>, allocVld: bool, relA: Option<nat>,
                           relB: Option<nat>): multiset<nat> {
    var kept := if relA.Some? then held - multiset{relA.value}
                else if relB.Some? then held - multiset{relB.value}
                else held;
    if allocVld && t.AllocRdy() then kept + multiset{t.AllocTag()} else kept
  }

  /** The account is exact on every edge, and no pool write is refused for a full pool. */
  lemma EdgeAccount(t: Tags, n: nat, held: multiset<nat>, allocVld: bool, e: Entry, relA: Option<nat>,
                    relB: Option<nat>)
    requires Account(t, n, held)
    requires relA.Some? ==> relA.value in held
    requires relB.Some? ==> relB.value in held
    ensures relA.Some? ==> relA.value < n
    ensures relB.Some? ==> relB.value < n
    ensures Account(t.Edge(n, allocVld, e, relA, relB), n, HeldAfter(t, held, allocVld, relA, relB))
    ensures t.Returned(n, relA, relB).Some? ==> |t.pool| < n
  {
    hide AllTags, QueueEdge;
    if t.initDone {
      RunningAccount(t, n, held, allocVld, e, relA, relB);
    } else {
      FillingAccount(t, n, allocVld, e);
    }
  }

  lemma FillingAccount(t: Tags, n: nat, allocVld: bool, e: Entry)
    requires Account(t, n, multiset{}) && !t.initDone
    ensures Account(t.Edge(n, allocVld, e, None, None), n, multiset{})
    ensures t.Returned(n, None, None).Some? ==> |t.pool| < n
  {
    hide AllTags;
    AllTagsGrow(t.initCnt);
  }

  lemma RunningAccount(t: Tags, n: nat, held: multiset<nat>, allocVld: bool, e: Entry, relA: Option<nat>,
                       relB: Option<nat>)
    requires Account(t, n, held) && t.initDone
    requires relA.Some? ==> relA.value in held
    requires relB.Some? ==> relB.value in held
    ensures relA.Some? ==> relA.value < n
    ensures relB.Some? ==> relB.value < n
    ensures Account(t.Edge(n, allocVld, e, relA, relB), n, HeldAfter(t, held, allocVld, relA, relB))
    ensures t.Returned(n, relA, relB).Some? ==> |t.pool| < n
  {
    hide AllTags, QueueEdge;
    AllTagsOnce(n);
    forall x: nat | x in held ensures x < n {
      assert AllTags(n)[x] >= 1;
    }
    assert |multiset(t.pool)| + |held| == n;
    PoolTokens(t.pool, n, held, allocVld && t.AllocRdy(), t.Returned(n, relA, relB));
  }

  lemma AllTagsGrow(n: nat)
    ensures AllTags(n + 1) == AllTags(n) + multiset{n}
  {
  }

  lemma PoolTokens(pool: seq<nat>, n: nat, held: multiset<nat>, alloc: bool, ret: Option<nat>)
    requires |pool| + |held| == n
    requires alloc ==> pool != []
    requires ret.Some? ==> ret.value in held
    ensures ret.Some? ==> |pool| < n
    ensures var pool' := QueueEdge(pool, n, ret.Some?, ret.GetOr(0), alloc);
            var kept := if ret.Some? then held - multiset{ret.value} else held;
            var held' := if alloc then kept + multiset{pool[0]} else kept;
            multiset(pool') + held' == multiset(pool) + held
  {
    if ret.Some? {
      assert held == held - multiset{ret.value} + multiset{ret.value};
      assert |held| >= 1;
    }
    if alloc {
      assert pool == [pool[0]] + pool[1..];
    }
  }

  lemma HeldAreDistinct(t: Tags, n: nat, held: multiset<nat>)
    requires Account(t, n, held)
    ensures forall x: nat :: held[x] <= 1 && (x in held ==> x !in t.pool && x < n)
    ensures forall i, j :: 0 <= i < j < |t.pool| ==> t.pool[i] != t.pool[j]
    ensures t.initDone ==> |t.pool| + |held| == n
  {
    var all := multiset(t.pool) + held;
    AllTagsOnce(if t.initDone then n else t.initCnt);
    assert forall x: nat :: all[x] == multiset(t.pool)[x] + held[x] && all[x] <= 1;
    assert forall x: nat :: all[x] == 1 ==> x < n;
    assert |all| == |t.pool| + |held|;
    RepeatsCount(t.pool);
  }

  lemma RepeatsCount(s: seq<nat>)
    ensures forall i, j :: 0 <= i < j < |s| && s[i] == s[j] ==> multiset(s)[s[i]] >= 2
  {
    forall i, j | 0 <= i < j < |s| && s[i] == s[j] ensures multiset(s)[s[i]] >= 2 {
      assert s == s[..j] + [s[j]] + s[j + 1..];
      assert s[i] in s[..j];
    }
  }

  // ---- The module itself ----

  class TagManager {
    const tagW: nat
    const pool: SyncFifo<nat>
    const stateMem: array<Entry>
    var initCnt: nat
    var initDone: bool

    function NTags(): nat { Pow2(tagW) }

    ghost function Model(): Tags
      reads this, pool, pool.mem, stateMem
    {
      Tags(pool.contents, initCnt, initDone, stateMem[..])
    }

    ghost predicate Valid()
      reads this, pool, pool.mem, stateMem
    {
      && pool.Valid() && pool.addrW == tagW
      && stateMem as object != pool.mem
      && Model().WellFormed(NTags())
    }

    constructor (tagW: nat, junk: Entry)
      ensures Valid() && fresh(pool) && fresh(pool.mem) && fresh(stateMem) && this.tagW == tagW
      ensures Model() == Unfilled(stateMem[..])
    {
      this.tagW := tagW;
      pool := new SyncFifo<nat>(tagW);
      stateMem := new Entry[Pow2(tagW)](_ => junk);
      initCnt, initDone := 0, false;
    }

    method AsyncReset()
      requires Valid()
      modifies this, pool, pool.mem, stateMem
      ensures Valid()
      ensures Model() == Unfilled(old(Model().state))
    {
      pool.AsyncReset();
      initCnt, initDone := 0, false;
    }

    predicate AllocRdy()
      requires Valid()
      reads this, pool, pool.mem, stateMem
      ensures AllocRdy() == Model().AllocRdy()
    {
      initDone && !pool.Empty()
    }

    function AllocTag(): nat
      requires Valid()
      reads this, pool, pool.mem, stateMem
      ensures Model().pool != [] ==> AllocTag() == Model().AllocTag()
    {
      pool.RdData()
    }

    /** The combinational lookup, the same for both ports. */
    function Lookup(tag: nat): Entry
      requires Valid() && tag < NTags()
      reads this, pool, pool.mem, stateMem
      ensures Lookup(tag) == Model().state[tag]
    {
      stateMem[tag]
    }

    method Edge(allocVld: bool, e: Entry, relA: Option<nat>, relB: Option<nat>)
      requires Valid()
      requires relA.Some? ==> relA.value < NTags()
      requires relB.Some? ==> relB.value < NTags()
      modifies this, pool, pool.mem, stateMem
      ensures Valid()
      ensures Model() == old(Model()).Edge(NTags(), allocVld, e, relA, relB)
    {
      hide Pow2, Holds, SyncFifo.Valid;
      var initializing := !initDone;
      var wr := (initializing && initCnt < NTags()) || relA.Some? || relB.Some?;
      var wdata := if initializing then (if initCnt < NTags() then initCnt else 0)
                   else if relA.Some? then relA.value else relB.GetOr(0);
      var rd := allocVld && AllocRdy();
      if rd {
        stateMem[AllocTag()] := e;
      }
      pool.Edge(wr, wdata, rd);
      if initializing {
        if initCnt == NTags() {
          initDone := true;
        } else {
          initCnt := initCnt + 1;
        }
      }
    }
  }
}
