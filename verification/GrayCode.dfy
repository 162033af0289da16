/**
 The Gray code of the asynchronous FIFO: `bin ^ (bin >> 1)`, its decode loop, the
 one-bit-change property the synchronizers rest on, and the full test by XOR mask.
 Everything here holds for every register width.
 */
module GrayCode {
  import opened BitVec

  function Encode(bin: Bits): (g: Bits)
    ensures |g| == |bin|
  {
    Xor(bin, ShiftRight1(bin))
  }

  /** Bit i of the binary value is the parity of the Gray bits from i upwards. */
  function Decode(g: Bits): (bin: Bits)
    ensures |bin| == |g|
  {
    if g == [] then []
    else
      var high := Decode(g[1..]);
      [g[0] != (high != [] && high[0])] + high
  }

  lemma EncodeStep(bin: Bits)
    requires bin != []
    ensures Encode(bin) == [bin[0] != (|bin| > 1 && bin[1])] + Encode(bin[1..])
  {
    var e, t := Encode(bin), Encode(bin[1..]);
    forall i | 0 < i < |bin| ensures e[i] == t[i - 1] {
      assert ShiftRight1(bin)[i] == (i + 1 < |bin| && bin[i + 1]);
      assert ShiftRight1(bin[1..])[i - 1] == (i < |bin| - 1 && bin[1..][i]);
    }
  }

  lemma {:induction false} DecodeEncode(bin: Bits)
    ensures Decode(Encode(bin)) == bin
  {
    if bin != [] {
      EncodeStep(bin);
      DecodeEncode(bin[1..]);
    }
  }

  lemma {:induction false} EncodeDecode(g: Bits)
    ensures Encode(Decode(g)) == g
  {
    if g != [] {
      EncodeDecode(g[1..]);
      EncodeStep(Decode(g));
      assert Decode(g)[1..] == Decode(g[1..]);
    }
  }

  lemma EncodeInjective(a: Bits, b: Bits)
    ensures Encode(a) == Encode(b) <==> a == b
  {
    DecodeEncode(a);
    DecodeEncode(b);
  }

  /** The combinational decode of the synchronized read pointer, from the top bit down. */
  method DecodeLoop(g: Bits) returns (bin: Bits)
    requires |g| > 0
    ensures |bin| == |g| && Encode(bin) == g
  {
    var top := |g| - 1;
    bin := g;
    bin := bin[top := g[top]];
    var i := top - 1;
    while i >= 0
      invariant -1 <= i < top
      invariant |bin| == |g|
      invariant bin[i + 1..] == Decode(g[i + 1..])
    {
      ghost var before := bin;
      bin := bin[i := bin[i + 1] != g[i]];
      assert g[i..][1..] == g[i + 1..];
      assert bin[i..] == [bin[i]] + before[i + 1..];
      i := i - 1;
    }
    assert g[0..] == g && bin[0..] == bin;
    EncodeDecode(g);
  }

  /** `a` and `b` differ at position `at` and nowhere else. */
  ghost predicate DifferOnlyAt(a: Bits, b: Bits, at: nat)
  {
    && |a| == |b|
    && at < |a|
    && a[at] != b[at]
    && forall i :: 0 <= i < |a| && i != at ==> a[i] == b[i]
  }

  lemma IncrementStep(b: Bits)
    requires b != []
    ensures Increment(b) == if b[0] then [false] + Increment(b[1..]) else [true] + b[1..]
  {
    var n, t := ToNat(b), b[1..];
    if b[0] {
      assert n + 1 == 2 * (ToNat(t) + 1);
      assert (n + 1) / 2 == ToNat(t) + 1 && (n + 1) % 2 == 0;
    } else {
      assert (n + 1) / 2 == ToNat(t) && (n + 1) % 2 == 1;
      FromNatToNat(t);
    }
  }

  /** Consecutive counts, wrap included, have Gray codes that differ in exactly one bit. */
  lemma {:induction false} OneBitChange(b: Bits) returns (at: nat)
    requires b != []
    ensures DifferOnlyAt(Encode(b), Encode(Increment(b)), at)
  {
    var c := Increment(b);
    IncrementStep(b);
    EncodeStep(b);
    EncodeStep(c);
    if b[0] && |b| > 1 {
      IncrementStep(b[1..]);
      var up := OneBitChange(b[1..]);
      at := up + 1;
      assert c[1..] == Increment(b[1..]);
      assert Encode(b)[1..] == Encode(b[1..]) && Encode(c)[1..] == Encode(c[1..]);
      forall i | 0 < i < |b|
        ensures Encode(b)[i] == Encode(b[1..])[i - 1] && Encode(c)[i] == Encode(c[1..])[i - 1]
      {
      }
    } else {
      at := 0;
      assert c[1..] == b[1..];
    }
  }

  /** A synchronizer flop that samples while its source changes: each bit may come out
      old or new. */
  function Mix(old_: Bits, new_: Bits, takeNew: Bits): (r: Bits)
    requires |old_| == |new_| == |takeNew|
    ensures |r| == |old_|
    ensures forall i :: 0 <= i < |r| ==> r[i] == if takeNew[i] then new_[i] else old_[i]
  {
    seq(|old_|, i requires 0 <= i < |old_| => if takeNew[i] then new_[i] else old_[i])
  }

  /** Such a sample of a Gray pointer that moves by at most one is the old or the new pointer. */
  lemma MixedSample(n: nat, n': nat, w: nat, takeNew: Bits)
    requires w > 0 && |takeNew| == w
    requires n <= n' <= n + 1
    ensures var s := Mix(Encode(FromNat(n, w)), Encode(FromNat(n', w)), takeNew);
            s == Encode(FromNat(n, w)) || s == Encode(FromNat(n', w))
  {
    var o := FromNat(n, w);
    if n' == n + 1 {
      IncrementFollows(n, w);
      var at := OneBitChange(o);
      var e, e' := Encode(o), Encode(FromNat(n', w));
      var s := Mix(e, e', takeNew);
      if takeNew[at] {
        assert s == e';
      } else {
        assert s == e;
      }
    } else {
      assert Mix(Encode(o), Encode(o), takeNew) == Encode(o);
    }
  }

  /** {2'b11, 0...0}: the two top bits. */
  function FullMask(w: nat): (m: Bits)
    requires w >= 2
    ensures |m| == w
  {
    seq(w, i => i >= w - 2)
  }

  lemma {:induction false} ToNatTopBit(b: Bits)
    requires b != []
    ensures ToNat(b) == ToNat(b[..|b| - 1]) + Pow2(|b| - 1) * Bit(b[|b| - 1])
  {
    if |b| > 1 {
      ToNatTopBit(b[1..]);
      assert b[1..][..|b| - 2] == b[..|b| - 1][1..];
      assert Pow2(|b| - 1) * Bit(b[|b| - 1]) == 2 * (Pow2(|b| - 2) * Bit(b[|b| - 1]));
    } else {
      assert b[..0] == [];
      assert b[1..] == [];
    }
  }

  lemma {:induction false} ToNatInjective(a: Bits, b: Bits)
    requires |a| == |b|
    ensures ToNat(a) == ToNat(b) <==> a == b
  {
    FromNatToNat(a);
    FromNatToNat(b);
  }

  /** XOR of two Gray codes is the Gray code of the XOR; the mask is the Gray code of 10...0. */
  lemma FullMaskTopBit(a: Bits, b: Bits)
    requires |a| == |b| >= 2
    ensures Xor(Encode(a), Encode(b)) == FullMask(|a|) <==>
            a[..|a| - 1] == b[..|a| - 1] && a[|a| - 1] != b[|a| - 1]
  {
    var w := |a|;
    hide Pow2, FromNat;
    var x := Xor(a, b);
    var top := seq(w, i => i == w - 1);
    assert Xor(Encode(a), Encode(b)) == Encode(x);
    assert FullMask(w) == Encode(top);
    EncodeInjective(x, top);
    if x == top {
      forall i | 0 <= i < w ensures (a[i] != b[i]) == (i == w - 1) {
        assert x[i] == top[i];
      }
    }
    if a[..w - 1] == b[..w - 1] && a[w - 1] != b[w - 1] {
      forall i | 0 <= i < w ensures x[i] == top[i] {
        if i < w - 1 {
          assert a[..w - 1][i] == b[..w - 1][i];
        }
      }
    }
  }

  /** The full flag: the masked Gray test holds exactly when the binary pointers are half
      the counting range apart, that is, DEPTH apart modulo 2*DEPTH. */
  lemma FullTest(a: Bits, b: Bits)
    requires |a| == |b| >= 2
    ensures Xor(Encode(a), Encode(b)) == FullMask(|a|) <==> Subtract(a, b) == Pow2(|a| - 1)
  {
    hide Encode, Xor, FullMask, ToNat;
    var w, half := |a|, Pow2(|a| - 1);
    FullMaskTopBit(a, b);
    ToNatTopBit(a);
    ToNatTopBit(b);
    var la, lb := ToNat(a[..w - 1]), ToNat(b[..w - 1]);
    ToNatInjective(a[..w - 1], b[..w - 1]);
    HalfRange(la, lb, half, Bit(a[w - 1]), Bit(b[w - 1]));
  }

  lemma HalfRange(la: nat, lb: nat, half: nat, ta: nat, tb: nat)
    requires la < half && lb < half && ta <= 1 && tb <= 1
    ensures (la + half * ta - (lb + half * tb)) % (2 * half) == half <==> la == lb && ta != tb
  {
    var d := la - lb;
    var n := la + half * ta - (lb + half * tb);
    if ta == tb {
      assert n == d;
      ModUnique(n, 2 * half, if d >= 0 then 0 else -1, if d >= 0 then d else d + 2 * half);
    } else if ta > tb {
      assert n == d + half;
      ModUnique(n, 2 * half, 0, d + half);
    } else {
      assert n == d - half;
      ModUnique(n, 2 * half, -1, d + half);
    }
  }
}
