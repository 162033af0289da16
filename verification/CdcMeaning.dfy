/**
 What a report of the clock-domain-crossing check is worth on a netlist without
 combinational loops: it lists a register exactly when the combinational cells could be such
 that the register's value decides an input of the element.
 */
module CdcMeaning {
  import opened CdcCheck

  /** The value of every bit that a cone can end at. */
  type Env = Bit -> bool

  /** What combinational cell `k` drives on output bit `b`, from the values of its inputs. */
  type Meaning = (nat, Bit, seq<bool>) -> bool

  /** No combinational loop: every net ranks above those its driver reads. */
  ghost predicate Ranked(g: Graph, cells: seq<Cell>, rank: Bit -> nat)
    requires Indexed(g, |cells|)
  {
    forall b, c :: Linked(g, cells, b, c) && c.Net? ==> rank(c) < rank(b)
  }

  /** The value of a bit: given at registers, RAM reads, ports, blackboxes and constants,
      computed everywhere else. */
  ghost function Value(g: Graph, cells: seq<Cell>, rank: Bit -> nat, m: Meaning, env: Env, b: Bit): bool
    requires Indexed(g, |cells|) && Ranked(g, cells, rank)
    decreases if b.Net? then rank(b) + 1 else 0
  {
    if !b.Net? || b in g.colors || b !in g.drivers then env(b)
    else
      var ins := Behind(g, cells, b);
      m(g.drivers[b], b, seq(|ins|, i requires 0 <= i < |ins| =>
        assert Linked(g, cells, b, ins[i]); Value(g, cells, rank, m, env, ins[i])))
  }

  ghost predicate AgreeBut(env1: Env, env2: Env, except: iset<Bit>) {
    forall b :: b !in except ==> env1(b) == env2(b)
  }

  /** The registers and RAM reads of the other known domain. */
  ghost function Foreigners(g: Graph, d: string): iset<Bit> {
    iset b: Bit | b.Net? && Foreign(g, d, b)
  }

  /** Whatever the cells compute, registers of the other domain cannot change the element's inputs. */
  ghost predicate Independent(g: Graph, cells: seq<Cell>, rank: Bit -> nat, e: Element)
    requires Indexed(g, |cells|) && Ranked(g, cells, rank) && e.domain.Some?
  {
    forall m: Meaning, env1: Env, env2: Env, b :: b in e.cone && AgreeBut(env1, env2, Foreigners(g, e.domain.value)) ==>
      Value(g, cells, rank, m, env1, b) == Value(g, cells, rank, m, env2, b)
  }

  /** Some meaning of the cells lets bit `s` alone change one of the element's inputs. */
  ghost predicate Decides(g: Graph, cells: seq<Cell>, rank: Bit -> nat, cone: seq<Bit>, s: Bit)
    requires Indexed(g, |cells|) && Ranked(g, cells, rank)
  {
    exists m: Meaning, env1: Env, env2: Env, b :: b in cone && AgreeBut(env1, env2, iset{s}) &&
      Value(g, cells, rank, m, env1, b) != Value(g, cells, rank, m, env2, b)
  }

  /** Any ranking gives the same values. */
  lemma {:induction false} RankImmaterial(g: Graph, cells: seq<Cell>, rank1: Bit -> nat, rank2: Bit -> nat, m: Meaning,
                                          env: Env, b: Bit)
    requires Indexed(g, |cells|) && Ranked(g, cells, rank1) && Ranked(g, cells, rank2)
    ensures Value(g, cells, rank1, m, env, b) == Value(g, cells, rank2, m, env, b)
    decreases if b.Net? then rank1(b) + 1 else 0
  {
    if b.Net? && b !in g.colors && b in g.drivers {
      var ins := Behind(g, cells, b);
      forall i | 0 <= i < |ins|
        ensures Value(g, cells, rank1, m, env, ins[i]) == Value(g, cells, rank2, m, env, ins[i])
      {
        assert Linked(g, cells, b, ins[i]);
        RankImmaterial(g, cells, rank1, rank2, m, env, ins[i]);
      }
      var v1 := seq(|ins|, i requires 0 <= i < |ins| =>
        assert Linked(g, cells, b, ins[i]); Value(g, cells, rank1, m, env, ins[i]));
      var v2 := seq(|ins|, i requires 0 <= i < |ins| =>
        assert Linked(g, cells, b, ins[i]); Value(g, cells, rank2, m, env, ins[i]));
      assert v1 == v2;
      assert Value(g, cells, rank1, m, env, b) == m(g.drivers[b], b, v1);
      assert Value(g, cells, rank2, m, env, b) == m(g.drivers[b], b, v2);
    }
  }

  // ---- A difference comes along a path ----

  lemma {:induction false} DifferenceTraced(g: Graph, cells: seq<Cell>, rank: Bit -> nat, m: Meaning, env1: Env,
                                            env2: Env, b: Bit)
    returns (p: seq<Bit>)
    requires Indexed(g, |cells|) && Ranked(g, cells, rank)
    requires forall c: Bit :: !c.Net? ==> env1(c) == env2(c)
    requires Value(g, cells, rank, m, env1, b) != Value(g, cells, rank, m, env2, b)
    ensures Path(g, cells, p) && p[0] == b && env1(p[|p| - 1]) != env2(p[|p| - 1])
    decreases if b.Net? then rank(b) + 1 else 0
  {
    hide Linked, Behind;
    p := [b];
    if b.Net? && b !in g.colors && b in g.drivers {
      var ins := Behind(g, cells, b);
      var i :| 0 <= i < |ins| && Value(g, cells, rank, m, env1, ins[i]) != Value(g, cells, rank, m, env2, ins[i]) by {
        SomeInputDiffers(g, cells, rank, m, env1, env2, b);
      }
      assert Linked(g, cells, b, ins[i]) by { LinkedIs(g, cells, b, i); }
      var q := DifferenceTraced(g, cells, rank, m, env1, env2, ins[i]);
      p := [b] + q;
      assert p[|p| - 1] == q[|q| - 1];
    }
  }

  lemma LinkedIs(g: Graph, cells: seq<Cell>, b: Bit, i: nat)
    requires Indexed(g, |cells|) && i < |Behind(g, cells, b)|
    ensures Linked(g, cells, b, Behind(g, cells, b)[i])
  {
  }

  lemma SomeInputDiffers(g: Graph, cells: seq<Cell>, rank: Bit -> nat, m: Meaning, env1: Env, env2: Env, b: Bit)
    requires Indexed(g, |cells|) && Ranked(g, cells, rank)
    requires b.Net? && b !in g.colors && b in g.drivers
    requires Value(g, cells, rank, m, env1, b) != Value(g, cells, rank, m, env2, b)
    ensures var ins := Behind(g, cells, b);
            exists i :: 0 <= i < |ins| &&
              Value(g, cells, rank, m, env1, ins[i]) != Value(g, cells, rank, m, env2, ins[i])
  {
    var ins := Behind(g, cells, b);
    var v1 := seq(|ins|, i requires 0 <= i < |ins| =>
        assert Linked(g, cells, b, ins[i]); Value(g, cells, rank, m, env1, ins[i]));
    var v2 := seq(|ins|, i requires 0 <= i < |ins| =>
        assert Linked(g, cells, b, ins[i]); Value(g, cells, rank, m, env2, ins[i]));
    assert Value(g, cells, rank, m, env1, b) == m(g.drivers[b], b, v1);
    assert Value(g, cells, rank, m, env2, b) == m(g.drivers[b], b, v2);
    assert (forall i :: 0 <= i < |ins| ==> v1[i] == v2[i]) ==> v1 == v2;
  }

  // ---- A path carries a difference ----

  function IndexOf(s: seq<Bit>, b: Bit): (i: nat)
    requires b in s
    ensures i < |s| && s[i] == b
  {
    if s[0] == b then 0 else 1 + IndexOf(s[1..], b)
  }

  /** The input position by which `p` leaves `b`. */
  ghost function Exit(g: Graph, cells: seq<Cell>, p: seq<Bit>, b: Bit): nat
    requires Indexed(g, |cells|)
  {
    if |p| < 2 then 0
    else if p[0] == b && p[1] in Behind(g, cells, b) then IndexOf(Behind(g, cells, b), p[1])
    else Exit(g, cells, p[1..], b)
  }

  /** Cells that pass on the input by which the path leaves them. */
  ghost function Forwarding(g: Graph, cells: seq<Cell>, p: seq<Bit>): Meaning
    requires Indexed(g, |cells|)
  {
    (k, b, vals) => var i := Exit(g, cells, p, b); i < |vals| && vals[i]
  }

  lemma {:induction false} RankFalls(g: Graph, cells: seq<Cell>, rank: Bit -> nat, p: seq<Bit>, k: nat)
    requires Indexed(g, |cells|) && Ranked(g, cells, rank) && Path(g, cells, p) && 0 < k < |p|
    ensures rank(p[k]) < rank(p[0])
  {
    hide Linked;
    assert Linked(g, cells, p[k - 1], p[k]);
    if k > 1 {
      RankFalls(g, cells, rank, p, k - 1);
    }
  }

  /** A path meets no bit twice, so it leaves each bit one way. */
  lemma {:induction false} ExitIs(g: Graph, cells: seq<Cell>, rank: Bit -> nat, p: seq<Bit>, k: nat)
    requires Indexed(g, |cells|) && Ranked(g, cells, rank) && Path(g, cells, p) && k + 1 < |p|
    ensures var i := Exit(g, cells, p, p[k]);
            i < |Behind(g, cells, p[k])| && Behind(g, cells, p[k])[i] == p[k + 1]
    decreases k
  {
    hide Behind, Ranked;
    assert Linked(g, cells, p[k], p[k + 1]);
    if k > 0 {
      RankFalls(g, cells, rank, p, k);
      TailIsPath(g, cells, p);
      ExitIs(g, cells, rank, p[1..], k - 1);
    }
  }

  lemma TailIsPath(g: Graph, cells: seq<Cell>, p: seq<Bit>)
    requires Indexed(g, |cells|) && Path(g, cells, p) && |p| > 1
    ensures Path(g, cells, p[1..])
  {
    hide Linked;
    forall k | 0 < k < |p| - 1 ensures Linked(g, cells, p[1..][k - 1], p[1..][k]) {
      assert Linked(g, cells, p[k], p[k + 1]);
    }
  }

  lemma {:induction false} ValueForwarded(g: Graph, cells: seq<Cell>, rank: Bit -> nat, p: seq<Bit>, env: Env, k: nat)
    requires Indexed(g, |cells|) && Ranked(g, cells, rank) && Path(g, cells, p) && k < |p|
    requires p[|p| - 1] in g.colors
    ensures Value(g, cells, rank, Forwarding(g, cells, p), env, p[k]) == env(p[|p| - 1])
    decreases |p| - k
  {
    if k + 1 < |p| {
      ExitIs(g, cells, rank, p, k);
      ValueForwarded(g, cells, rank, p, env, k + 1);
      ForwardStep(g, cells, rank, p, env, k);
    }
  }

  lemma ForwardStep(g: Graph, cells: seq<Cell>, rank: Bit -> nat, p: seq<Bit>, env: Env, k: nat)
    requires Indexed(g, |cells|) && Ranked(g, cells, rank) && Path(g, cells, p) && k + 1 < |p|
    requires var i := Exit(g, cells, p, p[k]); i < |Behind(g, cells, p[k])| && Behind(g, cells, p[k])[i] == p[k + 1]
    ensures var m := Forwarding(g, cells, p);
            Value(g, cells, rank, m, env, p[k]) == Value(g, cells, rank, m, env, p[k + 1])
  {
    hide Exit;
    var b := p[k];
    assert Linked(g, cells, b, p[k + 1]);
    assert b.Net? && b !in g.colors && b in g.drivers;
    var ins, m := Behind(g, cells, b), Forwarding(g, cells, p);
    var vals := seq(|ins|, i requires 0 <= i < |ins| =>
        assert Linked(g, cells, b, ins[i]); Value(g, cells, rank, m, env, ins[i]));
    assert Value(g, cells, rank, m, env, b) == m(g.drivers[b], b, vals);
  }

  // ---- What the check decides ----

  /** An element's inputs can be made to depend on a register or RAM read exactly when the
      search reaches it. */
  lemma DecidesIsReaches(g: Graph, cells: seq<Cell>, rank: Bit -> nat, cone: seq<Bit>, s: Bit)
    requires Indexed(g, |cells|) && Ranked(g, cells, rank) && s.Net? && s in g.colors
    ensures Decides(g, cells, rank, cone, s) <==> Reaches(g, cells, cone, s)
  {
    hide Linked, Ranked, Value;
    if Decides(g, cells, rank, cone, s) {
      var m: Meaning, env1: Env, env2: Env, b :| b in cone && AgreeBut(env1, env2, iset{s}) &&
        Value(g, cells, rank, m, env1, b) != Value(g, cells, rank, m, env2, b);
      var p := DifferenceTraced(g, cells, rank, m, env1, env2, b);
      assert p[|p| - 1] == s;
    }
    if Reaches(g, cells, cone, s) {
      var p :| Path(g, cells, p) && p[0] in cone && p[|p| - 1] == s;
      var env1: Env, env2: Env := b => false, b => b == s;
      ValueForwarded(g, cells, rank, p, env1, 0);
      ValueForwarded(g, cells, rank, p, env2, 0);
      assert AgreeBut(env1, env2, iset{s});
    }
  }

  /** The report lists a register for an element exactly when it is of the other known domain
      and can decide one of the element's inputs. */
  lemma ReportedIsDecided(g: Graph, cells: seq<Cell>, rank: Bit -> nat, e: Element, v: Violation)
    requires Indexed(g, |cells|) && Ranked(g, cells, rank) && e.domain.Some?
    requires v.element == e.name && v.domain == e.domain.value && v.bit.Net?
    requires v.bit in g.colors ==> v.source == g.colors[v.bit].GetOr("")
    ensures Crossing(g, cells, e, v) <==> Foreign(g, v.domain, v.bit) && Decides(g, cells, rank, e.cone, v.bit)
  {
    hide Decides, Reaches, Ranked;
    if v.bit in g.colors {
      DecidesIsReaches(g, cells, rank, e.cone, v.bit);
    }
  }

  lemma IndependentIsUnreached(g: Graph, cells: seq<Cell>, rank: Bit -> nat, e: Element)
    requires Indexed(g, |cells|) && Ranked(g, cells, rank) && e.domain.Some?
    ensures Independent(g, cells, rank, e) <==>
              forall s :: s in Foreigners(g, e.domain.value) ==> !Reaches(g, cells, e.cone, s)
  {
    hide Linked, Ranked, Value;
    var d := e.domain.value;
    if !Independent(g, cells, rank, e) {
      var m: Meaning, env1: Env, env2: Env, b :| b in e.cone && AgreeBut(env1, env2, Foreigners(g, d)) &&
        Value(g, cells, rank, m, env1, b) != Value(g, cells, rank, m, env2, b);
      var p := DifferenceTraced(g, cells, rank, m, env1, env2, b);
      assert p[|p| - 1] in Foreigners(g, d) && Reaches(g, cells, e.cone, p[|p| - 1]);
    }
    forall s | s in Foreigners(g, d) && Reaches(g, cells, e.cone, s) ensures !Independent(g, cells, rank, e) {
      DecidesIsReaches(g, cells, rank, e.cone, s);
      var m: Meaning, env1: Env, env2: Env, b :| b in e.cone && AgreeBut(env1, env2, iset{s}) &&
        Value(g, cells, rank, m, env1, b) != Value(g, cells, rank, m, env2, b);
      assert AgreeBut(env1, env2, Foreigners(g, d));
    }
  }

  /** The check passes exactly when no element of a known domain can be influenced, whatever
      the cells compute, by any change to the registers and RAM reads of the other domain. */
  lemma PassIsIndependence(g: Graph, cells: seq<Cell>, rank: Bit -> nat, violations: seq<Violation>)
    requires Indexed(g, |cells|) && Ranked(g, cells, rank) && Exact(g, cells, violations)
    ensures violations == [] <==>
            forall k :: 0 <= k < |g.elements| && g.elements[k].domain.Some? ==>
              Independent(g, cells, rank, g.elements[k])
  {
    hide Independent, Ranked, Reaches, Indexed;
    var parts :| |parts| == |g.elements| && violations == Flat(parts)
      && forall k :: 0 <= k < |parts| ==> PartExact(g, cells, k, parts[k]);
    FlatEmpty(parts);
    forall k | 0 <= k < |parts|
      ensures parts[k] == [] <==> (g.elements[k].domain.Some? ==> Independent(g, cells, rank, g.elements[k]))
    {
      PartEmpty(g, cells, rank, k, parts[k]);
    }
  }

  lemma PartEmpty(g: Graph, cells: seq<Cell>, rank: Bit -> nat, k: nat, part: seq<Violation>)
    requires Indexed(g, |cells|) && Ranked(g, cells, rank) && k < |g.elements| && PartExact(g, cells, k, part)
    ensures part == [] <==> (g.elements[k].domain.Some? ==> Independent(g, cells, rank, g.elements[k]))
  {
    hide Independent, Ranked, NoRepeats;
    var e := g.elements[k];
    if e.domain.Some? {
      IndependentIsUnreached(g, cells, rank, e);
      ReachedIsNet(g, cells, e.cone);
      forall s | s in Foreigners(g, e.domain.value) && Reaches(g, cells, e.cone, s) ensures part != [] {
        assert Crossing(g, cells, e, Violation(e.name, e.domain.value, g.colors[s].value, s));
      }
    }
    if part != [] {
      assert Crossing(g, cells, e, part[0]);
    }
  }

  lemma ReachedIsNet(g: Graph, cells: seq<Cell>, cone: seq<Bit>)
    requires Indexed(g, |cells|)
    ensures forall b :: Reaches(g, cells, cone, b) ==> b.Net?
  {
  }

  lemma {:induction false} FlatEmpty(parts: seq<seq<Violation>>)
    ensures Flat(parts) == [] <==> forall k :: 0 <= k < |parts| ==> parts[k] == []
  {
    if parts != [] {
      var front, last := parts[..|parts| - 1], parts[|parts| - 1];
      FlatEmpty(front);
      assert |Flat(parts)| == |Flat(front)| + |last|;
      assert forall k :: 0 <= k < |front| ==> parts[k] == front[k];
    }
  }
}
