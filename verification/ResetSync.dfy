/** The two-stage reset synchronizer: asynchronous assert, synchronous release. */
module ResetSync {

  const STAGES: nat := 2

  /** The shift register `sync_r`, newest bit first. */
  type ResetReg = r: seq<bool> | |r| == STAGES witness [false, false]

  function Asserted(): ResetReg { [false, false] }

  function Shifted(r: ResetReg): ResetReg { [true] + r[..STAGES - 1] }

  /** The synchronized, active-low reset is released. */
  predicate Released(r: ResetReg) { r[STAGES - 1] }

  /** Reached from reset by clock edges only, so a released cell stays released. */
  ghost predicate Monotone(r: ResetReg) { r[1] ==> r[0] }

  lemma ReleasedStays(r: ResetReg)
    ensures Released(r) && Monotone(r) ==> Released(Shifted(r)) && Monotone(Shifted(r))
    ensures Monotone(Asserted()) && Released(Shifted(Shifted(r)))
  {
  }

  /** The cell after `n` edges from reset. */
  function AfterEdges(n: nat): ResetReg {
    if n == 0 then Asserted() else Shifted(AfterEdges(n - 1))
  }

  /** It takes exactly two edges: a cell asserted now is asserted after fewer, and after none more. */
  lemma {:induction false} ReleasedAfterTwo(n: nat)
    ensures Released(AfterEdges(n)) <==> n >= 2
    ensures AfterEdges(n)[1] <==> n >= 2
    ensures AfterEdges(n)[0] <==> n >= 1
  {
    if n > 0 {
      ReleasedAfterTwo(n - 1);
    }
  }

  /** The cell itself. */
  class ResetCell {
    var syncR: ResetReg

    constructor ()
      ensures syncR == Asserted()
    {
      syncR := Asserted();
    }

    method AsyncReset()
      modifies this
      ensures syncR == Asserted()
    {
      syncR := Asserted();
    }

    method Edge()
      modifies this
      ensures syncR == Shifted(old(syncR))
    {
      syncR := [true] + syncR[..STAGES - 1];
    }
  }
}
