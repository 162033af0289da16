/**
 What the dual-clock FIFO promises, without its Gray codes: an unbounded history of the
 items written, a count of the items read, and the two stages of each pointer
 synchronizer as plain counts. Class `AsyncFifo` is proved to follow this model.
 */
module FifoSpec {
  import opened ResetSync

  /** What the write clock brings: nothing, or an edge. `late` says that the synchronizer,
      sampling at the instant of a read edge, already caught the new read pointer. */
  datatype WritePort<T> = WriteIdle | WriteTick(en: bool, item: T, late: bool)
  datatype ReadPort = ReadIdle | ReadTick(en: bool, late: bool)

  datatype Queue<T> = Queue(
    written: seq<T>,  // every item accepted since reset
    rcnt: nat,        // how many of them have been read
    rs0: nat, rs1: nat,  // the read count in the write domain's synchronizer
    ws0: nat, ws1: nat)  // the write count in the read domain's synchronizer
  {
    ghost predicate Ordered(depth: nat) {
      rs1 <= rs0 <= rcnt <= ws1 <= ws0 <= |written| <= rs1 + depth
    }

    predicate Full(depth: nat) { |written| - rs1 == depth }

    function Occupancy(): int { |written| - rs1 }

    predicate Empty() { rcnt == ws1 }

    function Head(): T
      requires rcnt < |written|
    {
      written[rcnt]
    }

    function Contents(): seq<T>
      requires rcnt <= |written|
    {
      written[rcnt..]
    }

    predicate Writes(depth: nat, en: bool) { en && !Full(depth) }

    predicate Reads(en: bool) { en && !Empty() }

    /** A write-clock edge, whose synchronizer samples the read count `sample`. */
    function WriteHalf(depth: nat, en: bool, item: T, sample: nat): Queue<T> {
      this.(written := if Writes(depth, en) then written + [item] else written, rs0 := sample, rs1 := rs0)
    }

    /** A read-clock edge, whose synchronizer samples the write count `sample`. */
    function ReadHalf(en: bool, sample: nat): Queue<T> {
      this.(rcnt := if Reads(en) then rcnt + 1 else rcnt, ws0 := sample, ws1 := ws0)
    }

    /** One instant: a write edge, a read edge, or both. */
    function Edges(depth: nat, w: WritePort<T>, r: ReadPort): Queue<T> {
      var wNew := if w.WriteTick? && Writes(depth, w.en) then |written| + 1 else |written|;
      var rNew := if r.ReadTick? && Reads(r.en) then rcnt + 1 else rcnt;
      var q := if w.WriteTick? then WriteHalf(depth, w.en, w.item, if w.late then rNew else rcnt) else this;
      if r.ReadTick? then q.ReadHalf(r.en, if r.late then wNew else |written|) else q
    }

    /** The pointer ordering is kept by every combination of edges and samples. */
    lemma EdgesOrdered(depth: nat, w: WritePort<T>, r: ReadPort)
      requires depth > 0 && Ordered(depth)
      ensures Edges(depth, w, r).Ordered(depth)
      ensures Edges(depth, w, r).written == if w.WriteTick? && Writes(depth, w.en) then written + [w.item] else written
    {
    }

    /** Plain queue behaviour: the item written is appended, the item read is the oldest. */
    lemma EdgesContents(depth: nat, w: WritePort<T>, r: ReadPort)
      requires depth > 0 && Ordered(depth)
      ensures var q := Edges(depth, w, r);
              var pushed := if w.WriteTick? && Writes(depth, w.en) then [w.item] else [];
              var popped := if r.ReadTick? && Reads(r.en) then 1 else 0;
              && q.rcnt <= |q.written|
              && popped <= |Contents()| <= depth
              && q.Contents() == Contents()[popped..] + pushed
              && written <= q.written
    {
    }
  }

  function Cleared<T>(): (q: Queue<T>)
    ensures forall depth :: q.Ordered(depth)
  {
    Queue([], 0, 0, 0, 0, 0)
  }

  /** The registers of a write domain still in reset, and of a read domain still in reset. */
  ghost predicate Unwritten<T>(q: Queue<T>) { q.written == [] && q.rs0 == q.rs1 == 0 }

  ghost predicate Unread<T>(q: Queue<T>) { q.rcnt == q.ws0 == q.ws1 == 0 }

  /** A clock edge counts only out of reset. */
  function WPort<T>(go: bool, en: bool, item: T, late: bool): WritePort<T> {
    if go then WriteTick(en, item, late) else WriteIdle
  }

  function RPort(go: bool, en: bool, late: bool): ReadPort {
    if go then ReadTick(en, late) else ReadIdle
  }

  // ---- Latency ----

  function Play<T>(q: Queue<T>, depth: nat, ticks: seq<(WritePort<T>, ReadPort)>): Queue<T>
    decreases |ticks|
  {
    if ticks == [] then q else Play(q.Edges(depth, ticks[0].0, ticks[0].1), depth, ticks[1..])
  }

  function ReadTicks<T>(ticks: seq<(WritePort<T>, ReadPort)>): nat {
    if ticks == [] then 0 else (if ticks[0].1.ReadTick? then 1 else 0) + ReadTicks(ticks[1..])
  }

  function WriteTicks<T>(ticks: seq<(WritePort<T>, ReadPort)>): nat {
    if ticks == [] then 0 else (if ticks[0].0.WriteTick? then 1 else 0) + WriteTicks(ticks[1..])
  }

  /** Everything written now is visible to the reader after two read edges, and everything
      read now is a free slot for the writer after two write edges, whatever else happens. */
  lemma {:induction false} Latency<T>(q: Queue<T>, depth: nat, ticks: seq<(WritePort<T>, ReadPort)>)
    requires depth > 0 && q.Ordered(depth)
    ensures var p := Play(q, depth, ticks);
            && p.Ordered(depth)
            && q.written <= p.written && q.rcnt <= p.rcnt
            && (ReadTicks(ticks) >= 2 ==> |q.written| <= p.ws1)
            && (WriteTicks(ticks) >= 2 ==> p.Occupancy() <= |p.written| - q.rcnt)
    decreases |ticks|
  {
    SyncProgress(q, depth, ticks, |q.written|, q.rcnt);
  }

  lemma {:induction false} SyncProgress<T>(q: Queue<T>, depth: nat, ticks: seq<(WritePort<T>, ReadPort)>, w: nat,
                                           r: nat)
    requires depth > 0 && q.Ordered(depth)
    requires w <= |q.written| && r <= q.rcnt
    ensures var p := Play(q, depth, ticks);
            && p.Ordered(depth)
            && q.written <= p.written && q.rcnt <= p.rcnt
            && (ReadTicks(ticks) >= 2 || (ReadTicks(ticks) >= 1 && w <= q.ws0) || w <= q.ws1 ==> w <= p.ws1)
            && (WriteTicks(ticks) >= 2 || (WriteTicks(ticks) >= 1 && r <= q.rs0) || r <= q.rs1 ==> r <= p.rs1)
    decreases |ticks|
  {
    if ticks != [] {
      q.EdgesOrdered(depth, ticks[0].0, ticks[0].1);
      SyncProgress(q.Edges(depth, ticks[0].0, ticks[0].1), depth, ticks[1..], w, r);
    }
  }

  // ---- Two reset cells, one per domain ----

  /** The FIFO behind one asynchronous reset and two `reset_sync` cells. The logs record
      what a write-side and a read-side observer saw since the last reset. */
  datatype ResetFifo<T> = ResetFifo(wReset: ResetReg, rReset: ResetReg, q: Queue<T>, wlog: seq<T>, rlog: seq<T>)

  datatype Instant<T> = Instant(rstN: bool, w: WritePort<T>, r: ReadPort)

  function InReset<T>(): ResetFifo<T> {
    ResetFifo(Asserted(), Asserted(), Cleared(), [], [])
  }

  ghost predicate Sound<T>(s: ResetFifo<T>, depth: nat) {
    && Monotone(s.wReset) && Monotone(s.rReset)
    && s.q.Ordered(depth)
    && (!Released(s.wReset) ==> s.q.written == [])
    && (!Released(s.rReset) ==> s.q.rcnt == s.q.ws0 == s.q.ws1 == 0)
    && s.wlog == s.q.written
    && |s.rlog| == s.q.rcnt
    && s.rlog <= s.wlog
  }

  function ResetStep<T>(s: ResetFifo<T>, depth: nat, e: Instant<T>): ResetFifo<T>
    requires s.q.Ordered(depth)
  {
    if !e.rstN then InReset()
    else
      var w := if Released(s.wReset) then e.w else WriteIdle;
      var r := if Released(s.rReset) then e.r else ReadIdle;
      ResetFifo(
        if e.w.WriteTick? then Shifted(s.wReset) else s.wReset,
        if e.r.ReadTick? then Shifted(s.rReset) else s.rReset,
        s.q.Edges(depth, w, r),
        if w.WriteTick? && s.q.Writes(depth, w.en) then s.wlog + [w.item] else s.wlog,
        if r.ReadTick? && s.q.Reads(r.en) then s.rlog + [s.q.Head()] else s.rlog)
  }

  lemma StepSound<T>(s: ResetFifo<T>, depth: nat, e: Instant<T>)
    requires depth > 0 && Sound(s, depth)
    ensures Sound(ResetStep(s, depth, e), depth)
  {
    var w := if Released(s.wReset) then e.w else WriteIdle;
    var r := if Released(s.rReset) then e.r else ReadIdle;
    s.q.EdgesOrdered(depth, w, r);
    ReleasedStays(s.wReset);
    ReleasedStays(s.rReset);
  }

  function ResetRun<T>(s: ResetFifo<T>, depth: nat, es: seq<Instant<T>>): (r: ResetFifo<T>)
    requires depth > 0 && Sound(s, depth)
    decreases |es|
  {
    if es == [] then s
    else
      StepSound(s, depth, es[0]);
      ResetRun(ResetStep(s, depth, es[0]), depth, es[1..])
  }

  /** Every run, with any reset activity and any skew between the two releases: the pointers
      keep their order, occupancy as reported lies between the truth and DEPTH, and the reader
      has seen exactly the first items written, in order. */
  lemma {:induction false} RunSound<T>(s: ResetFifo<T>, depth: nat, es: seq<Instant<T>>)
    requires depth > 0 && Sound(s, depth)
    ensures var p := ResetRun(s, depth, es);
            && p.q.Ordered(depth)
            && |p.q.Contents()| <= p.q.Occupancy() <= depth
            && |p.rlog| <= |p.wlog| && p.rlog == p.wlog[..|p.rlog|]
            && p.wlog == p.rlog + p.q.Contents()
    decreases |es|
  {
    if es != [] {
      StepSound(s, depth, es[0]);
      RunSound(ResetStep(s, depth, es[0]), depth, es[1..]);
    }
  }
}
