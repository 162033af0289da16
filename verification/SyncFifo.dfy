/** The single-clock circular FIFO, and the plain queue it is proved to be. */
module SyncFifo {
  import opened BitVec

  /** One clock edge of a bounded queue: a full queue refuses the write and an empty one the
      read; a full queue that is read in the same cycle still refuses the write. */
  function QueueEdge<T>(c: seq<T>, depth: nat, wrEn: bool, x: T, rdEn: bool): (c': seq<T>)
    ensures |c| <= depth ==> |c'| <= depth
  {
    var kept := if rdEn && c != [] then c[1..] else c;
    if wrEn && |c| != depth then kept + [x] else kept
  }

  class SyncFifo<T(0)> {
    const addrW: nat
    const mem: array<T>
    var wrPtr: nat
    var rdPtr: nat
    var count: nat
    ghost var contents: seq<T>

    function Depth(): (d: nat)
      ensures d >= 1
    {
      Pow2(addrW)
    }

    ghost predicate Valid()
      reads this, mem
    {
      && mem.Length == Depth()
      && wrPtr < Depth() && rdPtr < Depth()
      && count == |contents| <= Depth()
      && Wrap(rdPtr + count, Depth()) == wrPtr
      && Holds(mem[..], rdPtr, contents, Depth())
    }

    constructor (addrW: nat)
      ensures Valid() && fresh(mem) && this.addrW == addrW
      ensures contents == []
    {
      this.addrW := addrW;
      mem := new T[Pow2(addrW)];
      wrPtr, rdPtr, count, contents := 0, 0, 0, [];
    }

    method AsyncReset()
      requires Valid()
      modifies this
      ensures Valid() && contents == []
    {
      wrPtr, rdPtr, count, contents := 0, 0, 0, [];
    }

    predicate Full()
      requires Valid()
      reads this, mem
      ensures Full() <==> |contents| == Depth()
    {
      count == Depth()
    }

    predicate Empty()
      requires Valid()
      reads this, mem
      ensures Empty() <==> contents == []
    {
      count == 0
    }

    function RdData(): T
      requires Valid()
      reads this, mem
      ensures contents != [] ==> RdData() == contents[0]
    {
      mem[rdPtr]
    }

    method Edge(wrEn: bool, wrData: T, rdEn: bool)
      requires Valid()
      modifies this, mem
      ensures Valid()
      ensures contents == QueueEdge(old(contents), Depth(), wrEn, wrData, rdEn)
    {
      hide Pow2, Holds;
      var wr, rd := wrEn && !Full(), rdEn && !Empty();
      ghost var m := mem[..];
      EdgeHolds(m, rdPtr, contents, Depth(), wr, wrData, rd);
      if wr {
        mem[wrPtr] := wrData;
      }
      assert mem[..] == if wr then m[wrPtr := wrData] else m;
      if wr && !rd {
        count := count + 1;
      } else if rd && !wr {
        count := count - 1;
      }
      if wr {
        wrPtr := Wrap(wrPtr + 1, Depth());
      }
      if rd {
        rdPtr := Wrap(rdPtr + 1, Depth());
      }
      contents := QueueEdge(contents, Depth(), wrEn, wrData, rdEn);
    }
  }

  /** The queue occupies consecutive slots of the circular memory, from `rd` on. */
  ghost predicate Holds<T>(m: seq<T>, rd: nat, c: seq<T>, depth: nat) {
    && |m| == depth && rd < depth && |c| <= depth
    && forall i :: 0 <= i < |c| ==> m[Wrap(rd + i, depth)] == c[i]
  }

  lemma EdgeHolds<T>(m: seq<T>, rd: nat, c: seq<T>, depth: nat, wr: bool, x: T, pop: bool)
    requires Holds(m, rd, c, depth)
    requires wr ==> |c| < depth
    requires pop ==> c != []
    ensures var rd' := if pop then Wrap(rd + 1, depth) else rd;
            var m' := if wr then m[Wrap(rd + |c|, depth) := x] else m;
            var kept := if pop then c[1..] else c;
            var c' := if wr then kept + [x] else kept;
            Holds(m', rd', c', depth) && Wrap(rd' + |c'|, depth) ==
              Wrap(Wrap(rd + |c|, depth) + (if wr then 1 else 0), depth)
  {
  }

  /** A pointer of log2(depth) bits, at most one lap ahead. */
  function Wrap(n: nat, depth: nat): (p: nat)
    requires n < 2 * depth
    ensures p < depth
  {
    if n < depth then n else n - depth
  }

  lemma WrapIsLowBits(n: nat, depth: nat)
    requires n < 2 * depth
    ensures Wrap(n, depth) == n % depth
  {
    ModUnique(n, depth, if n < depth then 0 else 1, Wrap(n, depth));
  }
}
