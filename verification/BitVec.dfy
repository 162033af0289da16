/**
 Fixed-width bit vectors, least significant bit first: the registers `reg [W-1:0]`
 of the RTL. Addition wraps, as it does in a register of the given width.
 */
module BitVec {

  type Bits = seq<bool>

  function Pow2(n: nat): (p: nat)
    ensures p >= 1
  {
    if n == 0 then 1 else 2 * Pow2(n - 1)
  }

  function Bit(b: bool): nat { if b then 1 else 0 }

  function ToNat(b: Bits): (n: nat)
    ensures n < Pow2(|b|)
  {
    if b == [] then 0 else Bit(b[0]) + 2 * ToNat(b[1..])
  }

  /** The low `w` bits of `n`. */
  function FromNat(n: nat, w: nat): (b: Bits)
    ensures |b| == w
  {
    if w == 0 then [] else [n % 2 == 1] + FromNat(n / 2, w - 1)
  }

  function Xor(a: Bits, b: Bits): (r: Bits)
    requires |a| == |b|
    ensures |r| == |a|
    ensures forall i :: 0 <= i < |a| ==> r[i] == (a[i] != b[i])
  {
    seq(|a|, i requires 0 <= i < |a| => a[i] != b[i])
  }

  function ShiftRight1(b: Bits): (r: Bits)
    ensures |r| == |b|
  {
    if b == [] then [] else b[1..] + [false]
  }

  /** `b + 1` in a register of `|b|` bits. */
  function Increment(b: Bits): (r: Bits)
    ensures |r| == |b|
  {
    FromNat(ToNat(b) + 1, |b|)
  }

  /** `a - b` in a register of the operands' width, read as an unsigned number. */
  function Subtract(a: Bits, b: Bits): (n: nat)
    requires |a| == |b|
  {
    (ToNat(a) - ToNat(b)) % Pow2(|a|)
  }

  lemma DivModStep(n: nat, m: nat)
    requires m > 0
    ensures n % (2 * m) == n % 2 + 2 * (n / 2 % m)
  {
    var q, r := n / 2 / m, n / 2 % m;
    assert n / 2 == q * m + r;
    assert n == (2 * m) * q + (n % 2 + 2 * r);
    ModUnique(n, 2 * m, q, n % 2 + 2 * r);
  }

  lemma MulAtLeast(d: int, k: int)
    requires d > 0
    ensures k >= 1 ==> d * k >= d
    ensures k <= -1 ==> d * k <= -d
  {
    if k >= 1 {
      assert d * k == d + d * (k - 1);
    } else if k <= -1 {
      assert d * k == -d + d * (k + 1);
    }
  }

  lemma MulDifference(d: int, a: int, b: int)
    ensures d * a - d * b == d * (a - b)
  {
  }

  /** Quotient and remainder are determined by `n == d * q + r`. */
  lemma ModUnique(n: int, d: nat, q: int, r: nat)
    requires d > 0 && n == d * q + r && r < d
    ensures n % d == r && n / d == q
  {
    var q', r' := n / d, n % d;
    assert n == d * q' + r' && 0 <= r' < d;
    MulDifference(d, q, q');
    MulAtLeast(d, q - q');
  }

  /** Truncation to `w` bits is reduction modulo 2^w. */
  lemma {:induction false} ToNatFromNat(n: nat, w: nat)
    ensures ToNat(FromNat(n, w)) == n % Pow2(w)
  {
    if w > 0 {
      ToNatFromNat(n / 2, w - 1);
      DivModStep(n, Pow2(w - 1));
      assert FromNat(n, w)[1..] == FromNat(n / 2, w - 1);
    }
  }

  lemma {:induction false} FromNatToNat(b: Bits)
    ensures FromNat(ToNat(b), |b|) == b
  {
    if b != [] {
      FromNatToNat(b[1..]);
      var n := ToNat(b);
      assert n % 2 == Bit(b[0]) && n / 2 == ToNat(b[1..]);
    }
  }

  /** Two counters have the same low `w` bits exactly when they agree modulo 2^w. */
  lemma FromNatEqual(a: nat, b: nat, w: nat)
    ensures FromNat(a, w) == FromNat(b, w) <==> a % Pow2(w) == b % Pow2(w)
  {
    ToNatFromNat(a, w);
    ToNatFromNat(b, w);
    FromNatToNat(FromNat(a, w));
    FromNatToNat(FromNat(b, w));
  }

  lemma ModShift(n: nat, m: nat)
    requires m > 0
    ensures (n % m + 1) % m == (n + 1) % m
  {
    ModShiftFrom(n, m, n / m, n % m);
  }

  lemma ModShiftFrom(n: nat, m: nat, q: nat, r: nat)
    requires m > 0 && n == m * q + r && r < m
    ensures (r + 1) % m == (n + 1) % m
  {
    if r + 1 < m {
      ModUnique(n + 1, m, q, r + 1);
      ModUnique(r + 1, m, 0, r + 1);
    } else {
      assert n + 1 == m * (q + 1) + 0 by {
        MulDifference(m, q + 1, q);
      }
      ModUnique(n + 1, m, q + 1, 0);
      ModUnique(m, m, 1, 0);
    }
  }

  /** A wrapping counter register follows an unbounded counter. */
  lemma IncrementFollows(n: nat, w: nat)
    ensures Increment(FromNat(n, w)) == FromNat(n + 1, w)
  {
    ToNatFromNat(n, w);
    ModShift(n, Pow2(w));
    FromNatEqual(n % Pow2(w) + 1, n + 1, w);
  }

  lemma ModDifference(a: nat, b: nat, m: nat)
    requires m > 0 && b <= a < b + m
    ensures (a % m - b % m) % m == a - b
  {
    var qa, qb := a / m, b / m;
    assert a == m * qa + a % m && b == m * qb + b % m;
    MulDifference(m, qb, qa);
    ModUnique(a % m - b % m, m, qb - qa, a - b);
  }

  /** The wrapped difference is the real difference when that is below 2^w. */
  lemma SubtractFollows(a: nat, b: nat, w: nat)
    requires b <= a < b + Pow2(w)
    ensures Subtract(FromNat(a, w), FromNat(b, w)) == a - b
  {
    ToNatFromNat(a, w);
    ToNatFromNat(b, w);
    ModDifference(a, b, Pow2(w));
  }

  /** A slice of the low `k` bits is the value modulo 2^k. */
  lemma {:induction false} LowBits(n: nat, w: nat, k: nat)
    requires k <= w
    ensures FromNat(n, w)[..k] == FromNat(n, k)
  {
    if k > 0 {
      LowBits(n / 2, w - 1, k - 1);
      assert FromNat(n, w)[..k] == [n % 2 == 1] + FromNat(n / 2, w - 1)[..k - 1];
    }
  }
}
