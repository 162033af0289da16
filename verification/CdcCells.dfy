/**
 What a pass of the crossing check means, over the cells and pins of the netlist alone: no graph,
 no cones, every cell type and pin by its Yosys name. The values of the nets are any solution of
 the equations that the cells impose.
 */
module CdcCells {
  import opened Options
  import opened CdcCheck
  import opened CdcMeaning

  // ---- Pins ----

  ghost predicate FirstPin(pins: seq<Pin>, name: string, j: nat) {
    j < |pins| && pins[j].name == name && forall i :: 0 <= i < j ==> pins[i].name != name
  }

  /** The bits connected to pin `name`; none if there is no such pin. */
  ghost predicate Connected(pins: seq<Pin>, name: string, bits: seq<Bit>) {
    || (exists j: nat :: FirstPin(pins, name, j) && bits == pins[j].bits)
    || (bits == [] && forall j :: 0 <= j < |pins| ==> pins[j].name != name)
  }

  ghost predicate OnPin(c: Cell, name: string, b: Bit) {
    exists j: nat :: FirstPin(c.pins, name, j) && b in c.pins[j].bits
  }

  ghost predicate OnInput(c: Cell, b: Bit) {
    if c.directions != []
    then exists i :: 0 <= i < |c.directions| && c.directions[i].direction != "output"
                     && OnPin(c, c.directions[i].name, b)
    else exists j :: 0 <= j < |c.pins| && b in c.pins[j].bits
                     && c.pins[j].name in {"D", "EN", "ARST", "SRST", "SET", "CLR", "ALOAD", "AD"}
  }

  ghost predicate OnOutput(c: Cell, b: Bit) {
    if c.directions != []
    then exists i :: 0 <= i < |c.directions| && c.directions[i].direction == "output"
                     && OnPin(c, c.directions[i].name, b)
    else exists j :: 0 <= j < |c.pins| && b in c.pins[j].bits
                     && c.pins[j].name !in {"D", "EN", "ARST", "SRST", "SET", "CLR", "ALOAD", "AD"}
  }

  // ---- Cells ----

  predicate Flop(kind: string) {
    kind in {"$dff", "$dffe", "$adff", "$adffe", "$sdff", "$sdffe", "$sdffce", "$dffsr", "$dffsre", "$aldff", "$aldffe",
             "$dlatch"}
  }

  predicate RamRead(kind: string) { kind == "$memrd" || kind == "$memrd_v2" }

  predicate RamWrite(kind: string) { kind == "$memwr" || kind == "$memwr_v2" }

  predicate Sequential(kind: string) { Flop(kind) || RamRead(kind) || RamWrite(kind) }

  predicate Gate(kind: string) { |kind| > 0 && kind[0] == '$' && kind != "$scopeinfo" && !Sequential(kind) }

  /** The pins that must not depend on the other domain: every input of a flip-flop but its clock,
      address and enable of a RAM read, address, data and enable of a RAM write. */
  ghost predicate Guarded(c: Cell, b: Bit) {
    if Flop(c.kind) then OnInput(c, b) && !OnPin(c, "CLK", b)
    else if RamRead(c.kind) then OnPin(c, "ADDR", b) || OnPin(c, "EN", b)
    else OnPin(c, "ADDR", b) || OnPin(c, "DATA", b) || OnPin(c, "EN", b)
  }

  /** The pins that hold state: Q of a flip-flop, DATA of a RAM read. */
  ghost predicate Stores(c: Cell, b: Bit) {
    (Flop(c.kind) && OnPin(c, "Q", b)) || (RamRead(c.kind) && OnPin(c, "DATA", b))
  }

  ghost predicate Drives(c: Cell, b: Bit) { Gate(c.kind) && OnOutput(c, b) }

  ghost predicate LastStore(cells: seq<Cell>, b: Bit, k: nat) {
    k < |cells| && Stores(cells[k], b) && forall i :: k < i < |cells| ==> !Stores(cells[i], b)
  }

  ghost predicate LastGate(cells: seq<Cell>, b: Bit, k: nat) {
    k < |cells| && Drives(cells[k], b) && forall i :: k < i < |cells| ==> !Drives(cells[i], b)
  }

  ghost predicate Stored(cells: seq<Cell>, b: Bit) {
    exists i :: 0 <= i < |cells| && Stores(cells[i], b)
  }

  ghost predicate Driven(cells: seq<Cell>, b: Bit) {
    exists i :: 0 <= i < |cells| && Drives(cells[i], b)
  }

  // ---- Domains ----

  /** The first bit of the CLK pin that is on a clock net names the domain. */
  ghost predicate ClockedBy(ck: Clocks, c: Cell, d: string) {
    exists bits, k :: Connected(c.pins, "CLK", bits) && FirstOnClock(ck, bits, k)
                      && d == if bits[k] in ck.clkNets then ck.clk else ck.cxl
  }

  ghost predicate FirstOnClock(ck: Clocks, bits: seq<Bit>, k: nat) {
    && k < |bits| && (bits[k] in ck.clkNets || bits[k] in ck.cxlNets)
    && forall j :: 0 <= j < k ==> bits[j] !in ck.clkNets && bits[j] !in ck.cxlNets
  }

  ghost predicate WritesRam(ck: Clocks, c: Cell, memId: Option<string>) {
    RamWrite(c.kind) && c.memId == memId && exists d :: d != "" && ClockedBy(ck, c, d)
  }

  ghost predicate LastRamWriter(ck: Clocks, cells: seq<Cell>, memId: Option<string>, k: nat) {
    k < |cells| && WritesRam(ck, cells[k], memId) && forall i :: k < i < |cells| ==> !WritesRam(ck, cells[i], memId)
  }

  ghost predicate NeverWritten(ck: Clocks, cells: seq<Cell>, memId: Option<string>) {
    forall i :: 0 <= i < |cells| ==> !WritesRam(ck, cells[i], memId)
  }

  /** Cell `k` lives in domain `d`: a flip-flop on its clock, a RAM port where the RAM is last
      written, and a read port of a RAM without a known writer on its own clock. */
  ghost predicate Lives(ck: Clocks, cells: seq<Cell>, k: nat, d: string)
    requires k < |cells|
  {
    if Flop(cells[k].kind) then ClockedBy(ck, cells[k], d)
    else
      || (exists j: nat :: LastRamWriter(ck, cells, cells[k].memId, j) && ClockedBy(ck, cells[j], d))
      || (RamRead(cells[k].kind) && NeverWritten(ck, cells, cells[k].memId) && ClockedBy(ck, cells[k], d))
  }

  /** State of a known domain other than `d`. */
  ghost predicate Foreigner(ck: Clocks, cells: seq<Cell>, d: string, b: Bit) {
    b.Net? && exists k, d' :: LastStore(cells, b, k) && Lives(ck, cells, k, d') && d' != d
  }

  // ---- Values ----

  /** What gate `k` drives on output bit `b`, from the inputs that are high. */
  type Behaviour = (nat, Bit, iset<Bit>) -> bool

  ghost function Highs(c: Cell, v: Env): iset<Bit> {
    iset b: Bit | OnInput(c, b) && v(b)
  }

  /** The values `v` obey the gates. */
  ghost predicate Solves(cells: seq<Cell>, f: Behaviour, v: Env) {
    forall b: Bit, k: nat :: b.Net? && !Stored(cells, b) && LastGate(cells, b, k) ==>
      v(b) == f(k, b, Highs(cells[k], v))
  }

  /** The values agree on everything that no gate computes, but for foreign state. */
  ghost predicate GivenAlike(ck: Clocks, cells: seq<Cell>, d: string, v1: Env, v2: Env) {
    forall b: Bit :: (!b.Net? || Stored(cells, b) || !Driven(cells, b)) && !Foreigner(ck, cells, d, b) ==>
      v1(b) == v2(b)
  }

  /** Whatever the gates compute, state of the other domain does not show on a guarded pin. */
  ghost predicate Safe(ck: Clocks, cells: seq<Cell>, k: nat, d: string)
    requires k < |cells|
  {
    forall f: Behaviour, v1: Env, v2: Env, b ::
      Guarded(cells[k], b) && Solves(cells, f, v1) && Solves(cells, f, v2) && GivenAlike(ck, cells, d, v1, v2) ==>
        v1(b) == v2(b)
  }

  /** No loop of gates. */
  ghost predicate LoopFree(cells: seq<Cell>, rank: Bit -> nat) {
    forall b: Bit, k: nat, c: Bit ::
      c.Net? && !Stored(cells, b) && LastGate(cells, b, k) && OnInput(cells[k], c) ==> rank(c) < rank(b)
  }

  // ---- The checker's names for all this ----

  lemma {:induction false} BitsConnected(pins: seq<Pin>, name: string)
    ensures Connected(pins, name, Bits(pins, name))
    ensures forall j: nat :: FirstPin(pins, name, j) ==> Bits(pins, name) == pins[j].bits
  {
    if pins != [] && pins[0].name == name {
      assert FirstPin(pins, name, 0);
    } else if pins != [] {
      BitsConnected(pins[1..], name);
      forall j: nat ensures FirstPin(pins, name, j + 1) <==> FirstPin(pins[1..], name, j) {
        FirstPinTail(pins, name, j);
      }
      if j: nat :| FirstPin(pins[1..], name, j) && Bits(pins, name) == pins[1..][j].bits {
        assert FirstPin(pins, name, j + 1);
      } else {
        assert forall j :: 0 < j < |pins| ==> pins[j] == pins[1..][j - 1];
      }
      forall j: nat | FirstPin(pins, name, j) ensures Bits(pins, name) == pins[j].bits {
        assert j > 0 && FirstPin(pins, name, (j - 1) + 1);
      }
    }
  }

  lemma ConnectedIs(pins: seq<Pin>, name: string, bits: seq<Bit>)
    ensures Connected(pins, name, bits) <==> bits == Bits(pins, name)
  {
    hide Bits;
    BitsConnected(pins, name);
  }

  lemma FirstPinTail(pins: seq<Pin>, name: string, j: nat)
    requires pins != [] && pins[0].name != name
    ensures FirstPin(pins, name, j + 1) <==> FirstPin(pins[1..], name, j)
  {
    assert forall i :: 0 < i < |pins| ==> pins[i] == pins[1..][i - 1];
    assert forall i :: 0 <= i < |pins| - 1 ==> pins[1..][i] == pins[i + 1];
  }

  lemma PinIs(c: Cell, name: string, b: Bit)
    ensures b in Bits(c.pins, name) <==> OnPin(c, name, b)
  {
    hide Bits;
    BitsConnected(c.pins, name);
  }

  lemma IoOnPins(c: Cell, b: Bit)
    ensures b in Inputs(c) <==> OnInput(c, b)
    ensures b in Outputs(c) <==> OnOutput(c, b)
  {
    hide Inputs, Outputs, Bits, OnPin;
    IoIs(c, b);
    forall name ensures b in Bits(c.pins, name) <==> OnPin(c, name, b) {
      PinIs(c, name, b);
    }
    assert forall k :: 0 <= k < PinCount(c) && c.directions != [] ==>
      (b in BitsAt(c, k) <==> OnPin(c, c.directions[k].name, b))
        && (IsOutput(c, k) <==> c.directions[k].direction == "output");
    assert forall k :: 0 <= k < PinCount(c) && c.directions == [] ==>
      BitsAt(c, k) == c.pins[k].bits
      && (IsOutput(c, k) <==> c.pins[k].name !in {"D", "EN", "ARST", "SRST", "SET", "CLR", "ALOAD", "AD"});
  }

  lemma CellIs(c: Cell, b: Bit)
    ensures IsFlop(c) == Flop(c.kind) && IsMemRead(c) == RamRead(c.kind) && IsMemWrite(c) == RamWrite(c.kind)
    ensures IsElement(c) == Sequential(c.kind) && IsComb(c) == Gate(c.kind)
    ensures b in SourceBits(c) <==> Stores(c, b)
    ensures DrivesComb(c, b) <==> Drives(c, b)
    ensures IsElement(c) ==> (b in Cone(c) <==> Guarded(c, b))
  {
    hide Inputs, Outputs, Bits, OnPin, OnInput, OnOutput;
    IoOnPins(c, b);
    KindsDiffer(c);
    PinIs(c, "CLK", b);
    PinIs(c, "ADDR", b);
    PinIs(c, "DATA", b);
    PinIs(c, "EN", b);
    PinIs(c, "Q", b);
  }

  /** The nets of a clock port. */
  lemma ClockNetsAre(m: Netlist, name: string, b: Bit)
    ensures b in PortNets(m, name) <==> b.Net? && exists j: nat :: FirstPin(m.ports, name, j) && b in m.ports[j].bits
  {
    hide Bits;
    BitsConnected(m.ports, name);
  }

  lemma {:induction false} SomeFirstOnClock(ck: Clocks, bits: seq<Bit>)
    ensures Domain(ck, bits).None? || exists k: nat :: FirstOnClock(ck, bits, k)
  {
    if bits != [] {
      if OnClock(ck, bits[0]) {
        assert FirstOnClock(ck, bits, 0);
      } else {
        SomeFirstOnClock(ck, bits[1..]);
        if k: nat :| FirstOnClock(ck, bits[1..], k) {
          assert forall j :: 0 < j < |bits| ==> bits[j] == bits[1..][j - 1];
          assert FirstOnClock(ck, bits, k + 1);
        }
      }
    }
  }

  lemma ClockIs(ck: Clocks, c: Cell, d: string)
    ensures Domain(ck, Bits(c.pins, "CLK")) == Some(d) <==> ClockedBy(ck, c, d)
  {
    hide Bits, Domain, Connected;
    var bits := Bits(c.pins, "CLK");
    forall s ensures Connected(c.pins, "CLK", s) <==> s == bits {
      ConnectedIs(c.pins, "CLK", s);
    }
    DomainIs(ck, bits);
    SomeFirstOnClock(ck, bits);
  }

  lemma WriterIs(ck: Clocks, c: Cell, memId: Option<string>)
    ensures Writes(ck, c, memId) <==> WritesRam(ck, c, memId)
  {
    hide Bits, Domain, ClockedBy;
    var d := Domain(ck, Bits(c.pins, "CLK"));
    forall s: string ensures d == Some(s) <==> ClockedBy(ck, c, s) {
      ClockIs(ck, c, s);
    }
  }

  lemma {:induction false} SomeLastWriter(ck: Clocks, cells: seq<Cell>, memId: Option<string>)
    ensures NeverWritten(ck, cells, memId) || exists j: nat :: LastRamWriter(ck, cells, memId, j)
  {
    hide WritesRam;
    if cells != [] {
      var n := |cells| - 1;
      if WritesRam(ck, cells[n], memId) {
        assert LastRamWriter(ck, cells, memId, n);
      } else {
        SomeLastWriter(ck, cells[..n], memId);
        if j: nat :| LastRamWriter(ck, cells[..n], memId, j) {
          assert LastRamWriter(ck, cells, memId, j);
        }
      }
    }
  }

  /** A RAM's domain, or that it has none. */
  lemma RamIs(ck: Clocks, cells: seq<Cell>, memId: Option<string>, d: string)
    ensures var mems := Mems(ck, cells);
            && (memId in mems <==> !NeverWritten(ck, cells, memId))
            && (memId in mems && mems[memId] == d <==>
                exists j: nat :: LastRamWriter(ck, cells, memId, j) && ClockedBy(ck, cells[j], d))
  {
    hide Mems, WritesRam, Writes, ClockedBy, Bits, Domain;
    forall c: Cell ensures Writes(ck, c, memId) <==> WritesRam(ck, c, memId) {
      WriterIs(ck, c, memId);
    }
    MemIs(ck, cells, memId, 0);
    SomeLastWriter(ck, cells, memId);
    forall j: nat | LastRamWriter(ck, cells, memId, j)
      ensures LastWriter(ck, cells, memId, j) && memId in Mems(ck, cells)
      ensures Mems(ck, cells)[memId] == d <==> ClockedBy(ck, cells[j], d)
    {
      MemIs(ck, cells, memId, j);
      ClockIs(ck, cells[j], d);
    }
  }

  lemma LivesIs(ck: Clocks, cells: seq<Cell>, k: nat, d: string)
    requires k < |cells| && Sequential(cells[k].kind)
    ensures CellDomain(ck, Mems(ck, cells), cells[k]) == Some(d) <==> Lives(ck, cells, k, d)
  {
    hide Mems, ClockedBy, Bits, Domain, LastRamWriter, NeverWritten, Flop, RamRead, RamWrite, IsFlop, IsMemRead,
         IsMemWrite;
    CellIs(cells[k], Net(0));
    RamIs(ck, cells, cells[k].memId, d);
    ClockIs(ck, cells[k], d);
  }

  // ---- The graph ----

  lemma {:induction false} SomeLast(cells: seq<Cell>, b: Bit)
    ensures !Stored(cells, b) || exists k: nat :: LastStore(cells, b, k)
    ensures !Driven(cells, b) || exists k: nat :: LastGate(cells, b, k)
  {
    hide Stores, Drives;
    if cells != [] {
      var n := |cells| - 1;
      SomeLast(cells[..n], b);
      if Stores(cells[n], b) {
        assert LastStore(cells, b, n);
      } else if k: nat :| LastStore(cells[..n], b, k) {
        assert LastStore(cells, b, k);
      }
      if Drives(cells[n], b) {
        assert LastGate(cells, b, n);
      } else if k: nat :| LastGate(cells[..n], b, k) {
        assert LastGate(cells, b, k);
      }
    }
  }

  /** Which bits end a cone, and which gate is behind the others. */
  lemma GraphIs(ck: Clocks, cells: seq<Cell>, b: Bit)
    ensures var g := GraphOf(ck, cells);
            && (b in g.colors <==> Stored(cells, b))
            && (b in g.drivers <==> Driven(cells, b))
            && (forall k: nat :: LastStore(cells, b, k) ==>
                b in g.colors && g.colors[b] == CellDomain(ck, Mems(ck, cells), cells[k]))
            && (forall k: nat :: LastGate(cells, b, k) <==> b in g.drivers && g.drivers[b] == k)
  {
    hide Mems, Stores, Drives, SourceBits, DrivesComb, CellDomain, Classified, Guarded, Cone, IsFlop, IsMemRead,
         IsMemWrite, IsElement, IsComb;
    var mems := Mems(ck, cells);
    forall c: Cell ensures (b in SourceBits(c) <==> Stores(c, b)) && (DrivesComb(c, b) <==> Drives(c, b)) {
      CellIs(c, b);
    }
    SomeLast(cells, b);
    ColorIs(ck, mems, cells, b, 0);
    DriverIs(ck, mems, cells, b, 0);
    forall k: nat | LastStore(cells, b, k)
      ensures b in Classified(ck, mems, cells).colors
              && Classified(ck, mems, cells).colors[b] == CellDomain(ck, mems, cells[k])
    {
      ColorIs(ck, mems, cells, b, k);
    }
    forall k: nat | LastGate(cells, b, k)
      ensures b in Classified(ck, mems, cells).drivers && Classified(ck, mems, cells).drivers[b] == k
    {
      DriverIs(ck, mems, cells, b, k);
    }
  }

  lemma ForeignIs(ck: Clocks, cells: seq<Cell>, d: string, b: Bit)
    ensures b.Net? && Foreign(GraphOf(ck, cells), d, b) <==> Foreigner(ck, cells, d, b)
  {
    hide GraphOf, Mems, CellDomain, Lives, Stores, Drives;
    var g := GraphOf(ck, cells);
    GraphIs(ck, cells, b);
    SomeLast(cells, b);
    forall k: nat, s | LastStore(cells, b, k) ensures g.colors[b] == Some(s) <==> Lives(ck, cells, k, s) {
      StoreSequential(cells[k], b);
      LivesIs(ck, cells, k, s);
    }
  }

  lemma StoreSequential(c: Cell, b: Bit)
    requires Stores(c, b)
    ensures Sequential(c.kind)
  {
  }

  // ---- Values of the graph and values of the cells ----

  lemma RankedIs(ck: Clocks, cells: seq<Cell>, rank: Bit -> nat)
    requires LoopFree(cells, rank)
    ensures Ranked(GraphOf(ck, cells), cells, rank)
  {
    hide GraphOf, Stores, Drives, Inputs, OnInput;
    var g := GraphOf(ck, cells);
    forall b, c | Linked(g, cells, b, c) && c.Net? ensures rank(c) < rank(b) {
      GraphIs(ck, cells, b);
      IoOnPins(cells[g.drivers[b]], c);
      assert LastGate(cells, b, g.drivers[b]);
    }
  }

  ghost predicate Given(cells: seq<Cell>, b: Bit) { !b.Net? || Stored(cells, b) || !Driven(cells, b) }

  function InsOf(cells: seq<Cell>, k: nat): seq<Bit> {
    if k < |cells| then Inputs(cells[k]) else []
  }

  ghost function High(ins: seq<Bit>, vals: seq<bool>): iset<Bit> {
    iset c: Bit | IsHigh(ins, vals, c)
  }

  ghost predicate IsHigh(ins: seq<Bit>, vals: seq<bool>, c: Bit) {
    exists i :: 0 <= i < |ins| && i < |vals| && ins[i] == c && vals[i]
  }

  /** A behaviour as a meaning, and the other way round. */
  ghost function MeaningOf(cells: seq<Cell>, f: Behaviour): Meaning {
    (k: nat, b: Bit, vals: seq<bool>) => f(k, b, High(InsOf(cells, k), vals))
  }

  ghost function BehaviourOf(cells: seq<Cell>, m: Meaning): Behaviour {
    (k: nat, b: Bit, high: iset<Bit>) => m(k, b, Levels(InsOf(cells, k), high))
  }

  ghost function Levels(ins: seq<Bit>, high: iset<Bit>): seq<bool> {
    seq(|ins|, i requires 0 <= i < |ins| => ins[i] in high)
  }

  ghost function Vals(g: Graph, cells: seq<Cell>, rank: Bit -> nat, m: Meaning, env: Env, ins: seq<Bit>): seq<bool>
    requires Indexed(g, |cells|) && Ranked(g, cells, rank)
  {
    seq(|ins|, i requires 0 <= i < |ins| => Value(g, cells, rank, m, env, ins[i]))
  }

  /** The value of a gate's output. */
  lemma GateValue(g: Graph, cells: seq<Cell>, rank: Bit -> nat, m: Meaning, env: Env, b: Bit)
    requires Indexed(g, |cells|) && Ranked(g, cells, rank)
    ensures !b.Net? || b in g.colors || b !in g.drivers ==> Value(g, cells, rank, m, env, b) == env(b)
    ensures b.Net? && b !in g.colors && b in g.drivers ==>
              Value(g, cells, rank, m, env, b) == m(g.drivers[b], b,
                                                    Vals(g, cells, rank, m, env, InsOf(cells, g.drivers[b])))
  {
    if b.Net? && b !in g.colors && b in g.drivers {
      var ins := Behind(g, cells, b);
      var vals := seq(|ins|, i requires 0 <= i < |ins| => assert Linked(g, cells, b, ins[i]);
                                                          Value(g, cells, rank, m, env, ins[i]));
      assert vals == Vals(g, cells, rank, m, env, InsOf(cells, g.drivers[b]));
    }
  }

  lemma {:induction false} SolutionIsValue(ck: Clocks, cells: seq<Cell>, rank: Bit -> nat, f: Behaviour, v: Env,
                                           env: Env, b: Bit)
    requires Ranked(GraphOf(ck, cells), cells, rank) && Solves(cells, f, v)
    requires forall c :: Given(cells, c) ==> env(c) == v(c)
    ensures Value(GraphOf(ck, cells), cells, rank, MeaningOf(cells, f), env, b) == v(b)
    decreases if b.Net? then rank(b) + 1 else 0
  {
    hide GraphOf, Value, Stored, Driven, LastGate, Inputs, OnInput;
    var g, m := GraphOf(ck, cells), MeaningOf(cells, f);
    GraphIs(ck, cells, b);
    GateValue(g, cells, rank, m, env, b);
    if b.Net? && b !in g.colors && b in g.drivers {
      var k := g.drivers[b];
      var ins := Inputs(cells[k]);
      forall i | 0 <= i < |ins| ensures Value(g, cells, rank, m, env, ins[i]) == v(ins[i]) {
        assert Linked(g, cells, b, ins[i]);
        SolutionIsValue(ck, cells, rank, f, v, env, ins[i]);
      }
      HighIs(cells[k], Vals(g, cells, rank, m, env, ins), v);
      assert LastGate(cells, b, k);
    }
  }

  lemma HighIs(c: Cell, vals: seq<bool>, v: Env)
    requires |vals| == |Inputs(c)| && forall i :: 0 <= i < |vals| ==> vals[i] == v(Inputs(c)[i])
    ensures High(Inputs(c), vals) == Highs(c, v)
  {
    hide Inputs, OnInput;
    forall b ensures b in Inputs(c) <==> OnInput(c, b) {
      IoOnPins(c, b);
    }
  }

  lemma ValueIsSolution(ck: Clocks, cells: seq<Cell>, rank: Bit -> nat, m: Meaning, env: Env, v: Env)
    requires Ranked(GraphOf(ck, cells), cells, rank)
    requires forall b :: v(b) == Value(GraphOf(ck, cells), cells, rank, m, env, b)
    ensures Solves(cells, BehaviourOf(cells, m), v)
    ensures forall b :: Given(cells, b) ==> v(b) == env(b)
  {
    hide GraphOf, Value, Drives, Stored, Driven, Inputs, Ranked, Highs;
    var g, f := GraphOf(ck, cells), BehaviourOf(cells, m);
    forall b: Bit ensures Given(cells, b) ==> v(b) == env(b) {
      GraphIs(ck, cells, b);
      GateValue(g, cells, rank, m, env, b);
    }
    forall b: Bit, k: nat | b.Net? && !Stored(cells, b) && LastGate(cells, b, k)
      ensures v(b) == f(k, b, Highs(cells[k], v))
    {
      GraphIs(ck, cells, b);
      GateValue(g, cells, rank, m, env, b);
      LevelsAre(cells[k], Vals(g, cells, rank, m, env, Inputs(cells[k])), v);
    }
  }

  lemma LevelsAre(c: Cell, vals: seq<bool>, v: Env)
    requires |vals| == |Inputs(c)| && forall i :: 0 <= i < |vals| ==> vals[i] == v(Inputs(c)[i])
    ensures Levels(Inputs(c), Highs(c, v)) == vals
  {
    hide Inputs, OnInput;
    forall i | 0 <= i < |vals| ensures (Inputs(c)[i] in Highs(c, v)) == vals[i] {
      IoOnPins(c, Inputs(c)[i]);
    }
  }

  // ---- The check passes exactly when the netlist is safe ----

  lemma SafeIsIndependent(ck: Clocks, cells: seq<Cell>, rank: Bit -> nat, k: nat, d: string)
    requires k < |cells| && Sequential(cells[k].kind) && Ranked(GraphOf(ck, cells), cells, rank)
    ensures Safe(ck, cells, k, d) <==> Independent(GraphOf(ck, cells), cells, rank,
                                                   Element(Label(cells[k]), Some(d), Cone(cells[k])))
  {
    hide GraphOf, Value, Solves, Guarded, Cone, Ranked, Foreigner, Stored, Driven, Foreign;
    var g := GraphOf(ck, cells);
    var e := Element(Label(cells[k]), Some(d), Cone(cells[k]));
    forall b ensures b in e.cone <==> Guarded(cells[k], b) {
      CellIs(cells[k], b);
    }
    forall b ensures b in Foreigners(g, d) <==> Foreigner(ck, cells, d, b) {
      ForeignIs(ck, cells, d, b);
    }
    if Independent(g, cells, rank, e) {
      forall f: Behaviour, v1: Env, v2: Env, b |
        Guarded(cells[k], b) && Solves(cells, f, v1) && Solves(cells, f, v2) && GivenAlike(ck, cells, d, v1, v2)
        ensures v1(b) == v2(b)
      {
        SafeFrom(ck, cells, rank, e, f, v1, v2, b);
      }
    }
    if Safe(ck, cells, k, d) {
      forall m: Meaning, env1: Env, env2: Env, b | b in e.cone && AgreeBut(env1, env2, Foreigners(g, d))
        ensures Value(g, cells, rank, m, env1, b) == Value(g, cells, rank, m, env2, b)
      {
        var v1: Env, v2: Env := c => Value(g, cells, rank, m, env1, c), c => Value(g, cells, rank, m, env2, c);
        ValueIsSolution(ck, cells, rank, m, env1, v1);
        ValueIsSolution(ck, cells, rank, m, env2, v2);
        assert GivenAlike(ck, cells, d, v1, v2);
      }
    }
  }

  lemma SafeFrom(ck: Clocks, cells: seq<Cell>, rank: Bit -> nat, e: Element, f: Behaviour, v1: Env, v2: Env, b: Bit)
    requires Ranked(GraphOf(ck, cells), cells, rank) && e.domain.Some? && b in e.cone
    requires Independent(GraphOf(ck, cells), cells, rank, e)
    requires Solves(cells, f, v1) && Solves(cells, f, v2) && GivenAlike(ck, cells, e.domain.value, v1, v2)
    requires forall c ::
               c in Foreigners(GraphOf(ck, cells), e.domain.value) <==> Foreigner(ck, cells, e.domain.value, c)
    ensures v1(b) == v2(b)
  {
    hide GraphOf, Value, Solves, Ranked, Foreigner, Stored, Driven, Foreign, Foreigners, MeaningOf;
    var env1: Env := c => if Given(cells, c) then v1(c) else false;
    var env2: Env := c => if Given(cells, c) then v2(c) else false;
    SolutionIsValue(ck, cells, rank, f, v1, env1, b);
    SolutionIsValue(ck, cells, rank, f, v2, env2, b);
    assert AgreeBut(env1, env2, Foreigners(GraphOf(ck, cells), e.domain.value));
  }

  /** The check reports nothing exactly when every flip-flop, RAM read and RAM write of a known
      domain is safe: whatever the gates compute, no guarded pin shows state of the other domain. */
  lemma PassIsSafety(ck: Clocks, cells: seq<Cell>, rank: Bit -> nat, violations: seq<Violation>)
    requires LoopFree(cells, rank) && Exact(GraphOf(ck, cells), cells, violations)
    ensures violations == [] <==>
            forall k: nat, d :: k < |cells| && Sequential(cells[k].kind) && Lives(ck, cells, k, d) ==>
              Safe(ck, cells, k, d)
  {
    hide GraphOf, Exact, Independent, Safe, Lives, LoopFree, Ranked, Sequential, CellDomain, Cone, Label, Mems;
    var g := GraphOf(ck, cells);
    RankedIs(ck, cells, rank);
    PassIsIndependence(g, cells, rank, violations);
    forall k: nat, d | k < |cells| && Sequential(cells[k].kind) && Lives(ck, cells, k, d)
      ensures Element(Label(cells[k]), Some(d), Cone(cells[k])) in g.elements
      ensures Safe(ck, cells, k, d) <==> Independent(g, cells, rank, Element(Label(cells[k]), Some(d), Cone(cells[k])))
    {
      LivesIs(ck, cells, k, d);
      SafeIsIndependent(ck, cells, rank, k, d);
      ElementOf(ck, cells, Element(Label(cells[k]), Some(d), Cone(cells[k])), k);
    }
    forall j | 0 <= j < |g.elements| && g.elements[j].domain.Some?
      ensures exists k: nat :: k < |cells| && Sequential(cells[k].kind)
                               && Lives(ck, cells, k, g.elements[j].domain.value)
                               && g.elements[j] == Element(Label(cells[k]), g.elements[j].domain, Cone(cells[k]))
    {
      ElementFrom(ck, cells, g.elements[j]);
    }
  }

  lemma ElementOf(ck: Clocks, cells: seq<Cell>, e: Element, k: nat)
    requires k < |cells| && Sequential(cells[k].kind)
    requires e == Element(Label(cells[k]), CellDomain(ck, Mems(ck, cells), cells[k]), Cone(cells[k]))
    ensures e in GraphOf(ck, cells).elements
  {
    hide Mems, CellDomain, Cone, Label, Classified, IsElement, Sequential;
    CellIs(cells[k], Net(0));
    ElementsAre(ck, Mems(ck, cells), cells, e);
  }

  lemma ElementFrom(ck: Clocks, cells: seq<Cell>, e: Element)
    requires e in GraphOf(ck, cells).elements && e.domain.Some?
    ensures exists k: nat :: k < |cells| && Sequential(cells[k].kind) && Lives(ck, cells, k, e.domain.value)
                             && e == Element(Label(cells[k]), e.domain, Cone(cells[k]))
  {
    hide GraphOf, Mems, CellDomain, Cone, Label, Sequential, Lives;
    var k := ElementCell(ck, cells, e);
    LivesIs(ck, cells, k, e.domain.value);
  }

  // ---- What is reported ----

  /** A chain of nets, each an input of the gate that drives the one before. */
  ghost predicate Leads(cells: seq<Cell>, p: seq<Bit>) {
    && p != [] && (forall i :: 0 <= i < |p| ==> p[i].Net?)
    && forall i :: 0 < i < |p| ==> Feeds(cells, p[i], p[i - 1])
  }

  ghost predicate Feeds(cells: seq<Cell>, c: Bit, b: Bit) {
    !Stored(cells, b) && exists k: nat :: LastGate(cells, b, k) && OnInput(cells[k], c)
  }

  /** The report's line for cell `k`: the cell, its domain, and state of another domain from which
      nets and gates lead to a guarded pin. */
  ghost predicate Reports(ck: Clocks, cells: seq<Cell>, k: nat, v: Violation)
    requires k < |cells|
  {
    var c := cells[k];
    && v.element == (if Flop(c.kind) then "FF " + c.name
                     else (if RamRead(c.kind) then "MEMRD " else "MEMWR ") + c.memId.GetOr("None"))
    && Lives(ck, cells, k, v.domain)
    && v.source != v.domain && (exists j: nat :: LastStore(cells, v.bit, j) && Lives(ck, cells, j, v.source))
    && exists p :: Leads(cells, p) && Guarded(c, p[0]) && p[|p| - 1] == v.bit
  }

  lemma FeedsIs(ck: Clocks, cells: seq<Cell>, b: Bit, c: Bit)
    ensures Linked(GraphOf(ck, cells), cells, b, c) <==> Feeds(cells, c, b)
  {
    hide GraphOf, Stores, Drives, Inputs, OnInput;
    var g := GraphOf(ck, cells);
    GraphIs(ck, cells, b);
    SomeLast(cells, b);
    if b in g.drivers {
      assert LastGate(cells, b, g.drivers[b]);
      IoOnPins(cells[g.drivers[b]], c);
    }
  }

  lemma LeadsIs(ck: Clocks, cells: seq<Cell>, p: seq<Bit>)
    ensures Path(GraphOf(ck, cells), cells, p) <==> Leads(cells, p)
  {
    hide GraphOf, Linked, Feeds;
    forall b, c ensures Linked(GraphOf(ck, cells), cells, b, c) <==> Feeds(cells, c, b) {
      FeedsIs(ck, cells, b, c);
    }
  }

  lemma SourceIs(ck: Clocks, cells: seq<Cell>, b: Bit, s: string)
    ensures var g := GraphOf(ck, cells);
            (b in g.colors && g.colors[b] == Some(s)) <==>
              exists j: nat :: LastStore(cells, b, j) && Lives(ck, cells, j, s)
  {
    hide GraphOf, Mems, CellDomain, Lives, Stores, Drives;
    var g := GraphOf(ck, cells);
    GraphIs(ck, cells, b);
    SomeLast(cells, b);
    forall k: nat | LastStore(cells, b, k) ensures g.colors[b] == Some(s) <==> Lives(ck, cells, k, s) {
      StoreSequential(cells[k], b);
      LivesIs(ck, cells, k, s);
    }
  }

  lemma ReportsIs(ck: Clocks, cells: seq<Cell>, k: nat, v: Violation)
    requires k < |cells| && Sequential(cells[k].kind)
    ensures Crossing(GraphOf(ck, cells), cells,
                     Element(Label(cells[k]), CellDomain(ck, Mems(ck, cells), cells[k]), Cone(cells[k])), v)
            <==> Reports(ck, cells, k, v)
  {
    hide GraphOf, Mems, CellDomain, Cone, Lives, Path, Leads, Guarded;
    var g, cone := GraphOf(ck, cells), Cone(cells[k]);
    CellIs(cells[k], Net(0));
    LivesIs(ck, cells, k, v.domain);
    SourceIs(ck, cells, v.bit, v.source);
    forall p ensures Path(g, cells, p) <==> Leads(cells, p) {
      LeadsIs(ck, cells, p);
    }
    forall b ensures b in cone <==> Guarded(cells[k], b) {
      CellIs(cells[k], b);
    }
    forall p | Leads(cells, p) ensures p != [] {
      LeadsSome(cells, p);
    }
  }

  lemma LeadsSome(cells: seq<Cell>, p: seq<Bit>)
    requires Leads(cells, p)
    ensures p != []
  {
  }

  lemma {:induction false} InFlat(parts: seq<seq<Violation>>, v: Violation)
    ensures v in Flat(parts) <==> exists k :: 0 <= k < |parts| && v in parts[k]
  {
    if parts != [] {
      var front, last := parts[..|parts| - 1], parts[|parts| - 1];
      InFlat(front, v);
      assert parts == front + [last];
      assert v in last ==> v in parts[|front|];
    }
  }

  /** The report has a line exactly for each sequential cell of a known domain and each piece of
      state of another that nets and gates lead from to a guarded pin of the cell. */
  lemma ReportIsExact(ck: Clocks, cells: seq<Cell>, violations: seq<Violation>, v: Violation)
    requires Exact(GraphOf(ck, cells), cells, violations)
    ensures v in violations <==> exists k: nat :: k < |cells| && Sequential(cells[k].kind) && Reports(ck, cells, k, v)
  {
    hide GraphOf, Mems, CellDomain, Cone, Label, Crossing, Reports, Sequential, NoRepeats, Flat;
    var g := GraphOf(ck, cells);
    var parts: seq<seq<Violation>> :|
      && |parts| == |g.elements| && violations == Flat(parts)
      && forall k :: 0 <= k < |parts| ==> PartExact(g, cells, k, parts[k]);
    InFlat(parts, v);
    forall j | 0 <= j < |parts| && v in parts[j]
      ensures exists k: nat :: k < |cells| && Sequential(cells[k].kind) && Reports(ck, cells, k, v)
    {
      assert PartExact(g, cells, j, parts[j]);
      var k := ElementCell(ck, cells, g.elements[j]);
      ReportsIs(ck, cells, k, v);
    }
    forall k: nat | k < |cells| && Sequential(cells[k].kind) && Reports(ck, cells, k, v)
      ensures exists j :: 0 <= j < |parts| && v in parts[j]
    {
      ReportsIs(ck, cells, k, v);
      var e := Element(Label(cells[k]), CellDomain(ck, Mems(ck, cells), cells[k]), Cone(cells[k]));
      ElementOf(ck, cells, e, k);
      var j :| 0 <= j < |g.elements| && g.elements[j] == e;
      assert PartExact(g, cells, j, parts[j]);
    }
  }

  lemma ElementCell(ck: Clocks, cells: seq<Cell>, e: Element) returns (k: nat)
    requires e in GraphOf(ck, cells).elements
    ensures k < |cells| && Sequential(cells[k].kind)
    ensures e == Element(Label(cells[k]), CellDomain(ck, Mems(ck, cells), cells[k]), Cone(cells[k]))
  {
    hide Mems, CellDomain, Cone, Label, Classified, IsElement, Sequential;
    ElementsAre(ck, Mems(ck, cells), cells, e);
    k :| k < |cells| && IsElement(cells[k])
      && e == Element(Label(cells[k]), CellDomain(ck, Mems(ck, cells), cells[k]), Cone(cells[k]));
    CellIs(cells[k], Net(0));
  }
}
