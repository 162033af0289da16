/**
 The dual-clock FIFO as the RTL builds it: binary and Gray pointer registers of
 ADDR_W + 1 bits, two-flop synchronizers on the Gray pointers, a full test by XOR mask and
 a circular memory. Every method is proved to do to the ghost queue `q` what `FifoSpec` says.
 */
module AsyncFifo {
  import opened BitVec
  import opened GrayCode
  import opened FifoSpec

  class AsyncFifo<T(0)> {
    const addrW: nat
    const mem: array<T>
    var wPtrBin: Bits
    var wPtrGray: Bits
    var rPtrBin: Bits
    var rPtrGray: Bits
    var rSync0W: Bits
    var rSync1W: Bits
    var wSync0R: Bits
    var wSync1R: Bits
    ghost var q: Queue<T>

    function Width(): nat { addrW + 1 }

    function Depth(): (d: nat)
      ensures d >= 1 && Pow2(Width()) == 2 * d
    {
      Pow2(addrW)
    }

    /** The register value that follows the unbounded count `n`. */
    function Ptr(n: nat): (b: Bits)
      ensures |b| == Width()
    {
      FromNat(n, Width())
    }

    ghost predicate Valid()
      reads this, mem
    {
      && addrW >= 2
      && mem.Length == Depth()
      && q.Ordered(Depth())
      && WriteRegs(Width(), q, wPtrBin, wPtrGray, rSync0W, rSync1W)
      && ReadRegs(Width(), q, rPtrBin, rPtrGray, wSync0R, wSync1R)
      && Stored(mem[..], q.written, Depth())
    }

    constructor (addrW: nat)
      requires addrW >= 2
      ensures Valid() && fresh(mem) && this.addrW == addrW
      ensures q == Cleared()
    {
      this.addrW := addrW;
      mem := new T[Pow2(addrW)];
      var zero := FromNat(0, addrW + 1);
      wPtrBin, wPtrGray, rPtrBin, rPtrGray := zero, zero, zero, zero;
      rSync0W, rSync1W, wSync0R, wSync1R := zero, zero, zero, zero;
      q := Cleared();
      new;
      EncodeZero(addrW + 1);
    }

    /** Assertion of the common asynchronous reset: both domains clear at once. */
    method AsyncReset()
      requires Valid()
      modifies this
      ensures Valid() && q == Cleared()
    {
      hide Encode, FromNat;
      EncodeZero(addrW + 1);
      q := Cleared();
      var zero := FromNat(0, addrW + 1);
      wPtrBin, wPtrGray, rPtrBin, rPtrGray := zero, zero, zero, zero;
      rSync0W, rSync1W, wSync0R, wSync1R := zero, zero, zero, zero;
    }

    predicate WFull()
      requires Valid()
      reads this, mem
      ensures WFull() <==> q.Full(Depth())
    {
      hide Encode, FromNat, Xor, ToNat, Pow2, Stored, ReadRegs, FullMask;
      FullFlag(|q.written|, q.rs1, Width());
      Xor(wPtrGray, rSync1W) == FullMask(Width())
    }

    predicate REmpty()
      requires Valid()
      reads this, mem
      ensures REmpty() <==> q.Empty()
    {
      EncodeInjective(Ptr(q.rcnt), Ptr(q.ws1));
      FromNatEqual(q.rcnt, q.ws1, Width());
      NoWrap(q.rcnt, q.ws1, Depth());
      rPtrGray == wSync1R
    }

    function RData(): T
      requires Valid()
      reads this, mem
      ensures !q.Empty() ==> RData() == q.Head()
    {
      LowBits(q.rcnt, Width(), addrW);
      ToNatFromNat(q.rcnt, addrW);
      mem[ToNat(rPtrBin[..addrW])]
    }

    /** `w_occupancy`: the binary write pointer less the decoded synchronized read pointer. */
    method WOccupancy() returns (n: nat)
      requires Valid()
      ensures n == q.Occupancy()
    {
      EncodeLengths();
      var rPtrBinSync := DecodeLoop(rSync1W);
      EncodeInjective(rPtrBinSync, Ptr(q.rs1));
      SubtractFollows(|q.written|, q.rs1, Width());
      n := Subtract(wPtrBin, rPtrBinSync);
    }

    /** One instant: the clocked blocks of the domains whose clock rises, each on the
        register values from before. A synchronizer that samples while its source pointer
        moves gets an arbitrary mix of old and new bits, chosen by `wMix` and `rMix`. */
    method Edges(wTick: bool, wRstN: bool, wEn: bool, wData: T, wMix: Bits,
                 rTick: bool, rRstN: bool, rEn: bool, rMix: Bits)
      returns (ghost wLate: bool, ghost rLate: bool)
      requires Valid()
      requires |wMix| == |rMix| == Width()
      requires !wRstN ==> Unwritten(q)
      requires !rRstN ==> Unread(q)
      modifies this, mem
      ensures Valid()
      ensures q == old(q).Edges(Depth(), WPort(wTick && wRstN, wEn, wData, wLate), RPort(rTick && rRstN, rEn, rLate))
    {
      hide Encode, FromNat, Mix, Xor, NextBin, NextGray, NextSync, WriteRegs, ReadRegs, Stored, Pow2, Queue.Edges,
           Queue.Ordered;
      RegisterWidths(Width(), q, wPtrBin, wPtrGray, rSync0W, rSync1W, rPtrBin, rPtrGray, wSync0R, wSync1R);
      var wGo, rGo := wEn && !WFull(), rEn && !REmpty();
      // Next register values, all from the values before the instant.
      var wBin', wGray' := NextBin(wPtrBin, wTick, wRstN, wGo), NextGray(wPtrBin, wPtrGray, wTick, wRstN, wGo);
      var rBin', rGray' := NextBin(rPtrBin, rTick, rRstN, rGo), NextGray(rPtrBin, rPtrGray, rTick, rRstN, rGo);
      var rSample, wSample := Mix(rPtrGray, rGray', wMix), Mix(wPtrGray, wGray', rMix);
      var rSync0W', rSync1W' := NextSync(rSync0W, rSample, wTick, wRstN), NextSync(rSync1W, rSync0W, wTick, wRstN);
      var wSync0R', wSync1R' := NextSync(wSync0R, wSample, rTick, rRstN), NextSync(wSync1R, wSync0R, rTick, rRstN);
      wLate, rLate := rSample == rGray', wSample == wGray';
      ghost var wPort := if wTick && wRstN then WriteTick(wEn, wData, wLate) else WriteIdle;
      ghost var rPort := if rTick && rRstN then ReadTick(rEn, rLate) else ReadIdle;
      RegistersFollow(q, Depth(), Width(), wPtrBin, wPtrGray, rSync0W, rSync1W, rPtrBin, rPtrGray, wSync0R, wSync1R,
                      wTick, wRstN, wEn, wData, wMix, rTick, rRstN, rEn, rMix);
      q.EdgesOrdered(Depth(), wPort, rPort);
      ghost var q' := q.Edges(Depth(), wPort, rPort);
      assert WriteRegs(Width(), q', wBin', wGray', rSync0W', rSync1W');
      assert ReadRegs(Width(), q', rBin', rGray', wSync0R', wSync1R');
      assert q'.written == if wTick && wRstN && wGo then q.written + [wData] else q.written;
      SlotIndex(q, addrW, wPtrBin, wPtrGray, rSync0W, rSync1W);
      SlotWritten(mem[..], q.written, wData, Depth());
      Latch(wBin', wGray', rSync0W', rSync1W', rBin', rGray', wSync0R', wSync1R',
            wTick && wRstN && wGo, ToNat(wPtrBin[..addrW]), wData, q');
    }

    /** The nonblocking assignments of the instant take effect together. */
    method Latch(wBin: Bits, wGray: Bits, rSync0: Bits, rSync1: Bits,
                 rBin: Bits, rGray: Bits, wSync0: Bits, wSync1: Bits,
                 write: bool, slot: nat, x: T, ghost q': Queue<T>)
      requires addrW >= 2 && mem.Length == Depth() && slot < mem.Length
      requires q'.Ordered(Depth())
      requires WriteRegs(Width(), q', wBin, wGray, rSync0, rSync1)
      requires ReadRegs(Width(), q', rBin, rGray, wSync0, wSync1)
      requires Stored(if write then mem[..][slot := x] else mem[..], q'.written, Depth())
      modifies this, mem
      ensures Valid() && q == q'
    {
      hide Encode, FromNat, WriteRegs, ReadRegs, Stored, Pow2, Queue.Ordered;
      ghost var m := mem[..];
      if write {
        mem[slot] := x;
      }
      assert mem[..] == if write then m[slot := x] else m;
      q := q';
      wPtrBin, wPtrGray, rPtrBin, rPtrGray := wBin, wGray, rBin, rGray;
      rSync0W, rSync1W, wSync0R, wSync1R := rSync0, rSync1, wSync0, wSync1;
    }
  }

  /** The write-domain registers hold the low bits of the queue's counts, Gray-coded but for one. */
  ghost predicate WriteRegs<T>(w: nat, q: Queue<T>, wPtrBin: Bits, wPtrGray: Bits, rSync0W: Bits, rSync1W: Bits) {
    && wPtrBin == FromNat(|q.written|, w) && wPtrGray == Encode(wPtrBin)
    && rSync0W == Encode(FromNat(q.rs0, w)) && rSync1W == Encode(FromNat(q.rs1, w))
  }

  ghost predicate ReadRegs<T>(w: nat, q: Queue<T>, rPtrBin: Bits, rPtrGray: Bits, wSync0R: Bits, wSync1R: Bits) {
    && rPtrBin == FromNat(q.rcnt, w) && rPtrGray == Encode(rPtrBin)
    && wSync0R == Encode(FromNat(q.ws0, w)) && wSync1R == Encode(FromNat(q.ws1, w))
  }

  /** The memory still holds each of the last DEPTH items in its slot. */
  ghost predicate Stored<T>(m: seq<T>, written: seq<T>, depth: nat)
    requires |m| == depth > 0
  {
    forall i :: 0 <= i < |written| <= i + depth ==> m[i % depth] == written[i]
  }

  /** Writing the next item's slot overwrites only the item DEPTH places back. */
  lemma SlotWritten<T>(m: seq<T>, written: seq<T>, x: T, depth: nat)
    requires |m| == depth > 0 && Stored(m, written, depth)
    ensures |written| % depth < depth
    ensures Stored(m[|written| % depth := x], written + [x], depth)
  {
    var m' := m[|written| % depth := x];
    forall i | 0 <= i < |written| + 1 <= i + depth
      ensures m'[i % depth] == (written + [x])[i]
    {
      if i < |written| {
        ModDifference(|written|, i, depth);
        ModUnique(0, depth, 0, 0);
      }
    }
  }

  // ---- One pointer register pair on its own clock; both domains have the same logic ----

  function NextBin(bin: Bits, tick: bool, rstN: bool, go: bool): (b: Bits)
    ensures |b| == |bin|
  {
    if !tick then bin else if !rstN then FromNat(0, |bin|) else if go then Increment(bin) else bin
  }

  function NextGray(bin: Bits, gray: Bits, tick: bool, rstN: bool, go: bool): (g: Bits)
    requires |bin| == |gray|
    ensures |g| == |gray|
  {
    if !tick then gray else if !rstN then FromNat(0, |bin|) else if go then Encode(Increment(bin)) else gray
  }

  lemma PointerFollows(n: nat, w: nat, tick: bool, rstN: bool, go: bool)
    requires w > 0 && (!rstN ==> n == 0)
    ensures var b, n' := FromNat(n, w), if tick && rstN && go then n + 1 else n;
            && NextBin(b, tick, rstN, go) == FromNat(n', w)
            && NextGray(b, Encode(b), tick, rstN, go) == Encode(FromNat(n', w))
  {
    IncrementFollows(n, w);
    EncodeZero(w);
  }

  function NextSync(stage: Bits, source: Bits, tick: bool, rstN: bool): (s: Bits)
    requires |stage| == |source|
    ensures |s| == |stage|
  {
    if !tick then stage else if !rstN then FromNat(0, |stage|) else source
  }

  /** The next pointers and the samples taken of them stand for the queue's next counts. */
  lemma SamplesFollow<T>(q: Queue<T>, depth: nat, w: nat,
                         wTick: bool, wRstN: bool, wGo: bool, wMix: Bits,
                         rTick: bool, rRstN: bool, rGo: bool, rMix: Bits)
    requires w > 0 && |wMix| == |rMix| == w
    requires !wRstN ==> q.written == []
    requires !rRstN ==> q.rcnt == 0
    ensures var b, r := FromNat(|q.written|, w), FromNat(q.rcnt, w);
            var wn := if wTick && wRstN && wGo then |q.written| + 1 else |q.written|;
            var rn := if rTick && rRstN && rGo then q.rcnt + 1 else q.rcnt;
            var wGray', rGray' := NextGray(b, Encode(b), wTick, wRstN, wGo), NextGray(r, Encode(r), rTick, rRstN, rGo);
            && NextBin(b, wTick, wRstN, wGo) == FromNat(wn, w)
            && NextBin(r, rTick, rRstN, rGo) == FromNat(rn, w)
            && wGray' == Encode(FromNat(wn, w)) && rGray' == Encode(FromNat(rn, w))
            && Mix(Encode(r), rGray', wMix) in {Encode(r), rGray'}
            && Mix(Encode(b), wGray', rMix) in {Encode(b), wGray'}
            && Encode(FromNat(0, w)) == FromNat(0, w)
  {
    hide Encode, FromNat, Increment, Pow2;
    var wn := if wTick && wRstN && wGo then |q.written| + 1 else |q.written|;
    var rn := if rTick && rRstN && rGo then q.rcnt + 1 else q.rcnt;
    PointerFollows(|q.written|, w, wTick, wRstN, wGo);
    PointerFollows(q.rcnt, w, rTick, rRstN, rGo);
    MixedSample(q.rcnt, rn, w, wMix);
    MixedSample(|q.written|, wn, w, rMix);
    EncodeZero(w);
  }

  lemma SlotIndex<T>(q: Queue<T>, addrW: nat, wPtrBin: Bits, wPtrGray: Bits, rSync0W: Bits, rSync1W: Bits)
    requires WriteRegs(addrW + 1, q, wPtrBin, wPtrGray, rSync0W, rSync1W)
    ensures addrW <= |wPtrBin| && ToNat(wPtrBin[..addrW]) == |q.written| % Pow2(addrW)
  {
    LowBits(|q.written|, addrW + 1, addrW);
    ToNatFromNat(|q.written|, addrW);
  }

  /** One instant of the registers is one instant of the queue. */
  lemma RegistersFollow<T>(q: Queue<T>, depth: nat, w: nat,
                           wBin: Bits, wGray: Bits, rSync0: Bits, rSync1: Bits,
                           rBin: Bits, rGray: Bits, wSync0: Bits, wSync1: Bits,
                           wTick: bool, wRstN: bool, wEn: bool, wData: T, wMix: Bits,
                           rTick: bool, rRstN: bool, rEn: bool, rMix: Bits)
    requires w > 0 && |wMix| == |rMix| == w
    requires WriteRegs(w, q, wBin, wGray, rSync0, rSync1)
    requires ReadRegs(w, q, rBin, rGray, wSync0, wSync1)
    requires !wRstN ==> q.written == [] && q.rs0 == q.rs1 == 0
    requires !rRstN ==> q.rcnt == q.ws0 == q.ws1 == 0
    ensures var wGo, rGo := q.Writes(depth, wEn), q.Reads(rEn);
            var wGray', rGray' := NextGray(wBin, wGray, wTick, wRstN, wGo), NextGray(rBin, rGray, rTick, rRstN, rGo);
            var rSample, wSample := Mix(rGray, rGray', wMix), Mix(wGray, wGray', rMix);
            var q' := q.Edges(depth, if wTick && wRstN then WriteTick(wEn, wData, rSample == rGray') else WriteIdle,
                                     if rTick && rRstN then ReadTick(rEn, wSample == wGray') else ReadIdle);
            && WriteRegs(w, q', NextBin(wBin, wTick, wRstN, wGo), wGray',
                         NextSync(rSync0, rSample, wTick, wRstN), NextSync(rSync1, rSync0, wTick, wRstN))
            && ReadRegs(w, q', NextBin(rBin, rTick, rRstN, rGo), rGray',
                        NextSync(wSync0, wSample, rTick, rRstN), NextSync(wSync1, wSync0, rTick, rRstN))
  {
    hide Encode, FromNat, Increment, Pow2, NextBin, NextGray, Mix;
    SamplesFollow(q, depth, w, wTick, wRstN, q.Writes(depth, wEn), wMix, rTick, rRstN, q.Reads(rEn), rMix);
  }

  lemma RegisterWidths<T>(w: nat, q: Queue<T>, wBin: Bits, wGray: Bits, rSync0: Bits, rSync1: Bits,
                          rBin: Bits, rGray: Bits, wSync0: Bits, wSync1: Bits)
    requires WriteRegs(w, q, wBin, wGray, rSync0, rSync1)
    requires ReadRegs(w, q, rBin, rGray, wSync0, wSync1)
    ensures |wBin| == |wGray| == |rSync0| == |rSync1| == |rBin| == |rGray| == |wSync0| == |wSync1| == w
  {
  }

  /** The XOR mask test on the registers of two counts at most one lap apart. */
  lemma FullFlag(a: nat, b: nat, w: nat)
    requires w >= 2 && b <= a <= b + Pow2(w - 1)
    ensures Xor(Encode(FromNat(a, w)), Encode(FromNat(b, w))) == FullMask(w) <==> a - b == Pow2(w - 1)
  {
    hide Encode, FromNat, Xor, ToNat, FullMask;
    FullTest(FromNat(a, w), FromNat(b, w));
    SubtractFollows(a, b, w);
  }

  lemma EncodeZero(w: nat)
    ensures Encode(FromNat(0, w)) == FromNat(0, w)
  {
    ZeroBits(w);
  }

  lemma {:induction false} ZeroBits(w: nat)
    ensures forall i :: 0 <= i < w ==> !FromNat(0, w)[i]
  {
    if w > 0 {
      ZeroBits(w - 1);
    }
  }

  lemma EncodeLengths()
    ensures forall b: Bits :: |Encode(b)| == |b|
  {
  }

  lemma NoWrap(a: nat, b: nat, depth: nat)
    requires depth > 0 && a <= b <= a + depth
    ensures a % (2 * depth) == b % (2 * depth) <==> a == b
  {
    ModDifference(b, a, 2 * depth);
    ModUnique(0, 2 * depth, 0, 0);
  }
}
