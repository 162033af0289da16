/**
 The structural clock-domain-crossing check: classification of a flattened netlist's cells,
 and the worklist search through each sequential element's input cone. `CdcMeaning` says
 what a pass is worth.
 */
module CdcCheck {
  import opened Options

  /** A signal bit: a net, or a constant. */
  datatype Bit = Net(id: nat) | Literal(text: string)

  datatype Pin = Pin(name: string, bits: seq<Bit>)

  datatype PinDirection = PinDirection(name: string, direction: string)

  /** `directions` is empty where the netlist gives none. */
  datatype Cell = Cell(name: string, kind: string, pins: seq<Pin>, directions: seq<PinDirection>, memId: Option<string>)

  datatype Netlist = Netlist(ports: seq<Pin>, cells: seq<Cell>)

  const FF_TYPES: set<string> := {"$dff", "$dffe", "$adff", "$adffe", "$sdff", "$sdffe", "$sdffce", "$dffsr", "$dffsre",
                                  "$aldff", "$aldffe", "$dlatch"}

  const FF_INPUTS: set<string> := {"D", "EN", "ARST", "SRST", "SET", "CLR", "ALOAD", "AD"}

  // ---- Cells ----

  function Bits(pins: seq<Pin>, name: string): seq<Bit> {
    if pins == [] then [] else if pins[0].name == name then pins[0].bits else Bits(pins[1..], name)
  }

  /** Input bits and output bits over the first `n` pins; with no directions given, the usual
      flip-flop inputs are inputs and every other pin is an output. */
  function PinBits(c: Cell, n: nat, output: bool): seq<Bit>
    requires n <= if c.directions != [] then |c.directions| else |c.pins|
  {
    if n == 0 then []
    else
      var bits := if c.directions != [] then Bits(c.pins, c.directions[n - 1].name) else c.pins[n - 1].bits;
      PinBits(c, n - 1, output) + (if IsOutput(c, n - 1) == output then bits else [])
  }

  predicate IsOutput(c: Cell, k: nat)
    requires k < if c.directions != [] then |c.directions| else |c.pins|
  {
    if c.directions != [] then c.directions[k].direction == "output" else c.pins[k].name !in FF_INPUTS
  }

  function Inputs(c: Cell): seq<Bit> {
    PinBits(c, if c.directions != [] then |c.directions| else |c.pins|, false)
  }

  function Outputs(c: Cell): seq<Bit> {
    PinBits(c, if c.directions != [] then |c.directions| else |c.pins|, true)
  }

  /** How many pins the cell has, and the bits on each. */
  function PinCount(c: Cell): nat { if c.directions != [] then |c.directions| else |c.pins| }

  function BitsAt(c: Cell, k: nat): seq<Bit>
    requires k < PinCount(c)
  {
    if c.directions != [] then Bits(c.pins, c.directions[k].name) else c.pins[k].bits
  }

  /** A bit is an input exactly when it is on a pin that is not an output, and an output
      exactly when it is on one that is; it may be both. */
  lemma IoIs(c: Cell, b: Bit)
    ensures b in Inputs(c) <==> exists k :: 0 <= k < PinCount(c) && !IsOutput(c, k) && b in BitsAt(c, k)
    ensures b in Outputs(c) <==> exists k :: 0 <= k < PinCount(c) && IsOutput(c, k) && b in BitsAt(c, k)
  {
    PinBitsAre(c, PinCount(c), false, b);
    PinBitsAre(c, PinCount(c), true, b);
  }

  lemma {:induction false} PinBitsAre(c: Cell, n: nat, output: bool, b: Bit)
    requires n <= PinCount(c)
    ensures b in PinBits(c, n, output) <==> exists k :: 0 <= k < n && IsOutput(c, k) == output && b in BitsAt(c, k)
  {
    hide IsOutput, Bits;
    if n > 0 {
      PinBitsAre(c, n - 1, output, b);
    }
  }

  method CellIo(c: Cell) returns (ins: seq<Bit>, outs: seq<Bit>)
    ensures ins == Inputs(c) && outs == Outputs(c)
  {
    ins, outs := [], [];
    if c.directions != [] {
      for k := 0 to |c.directions|
        invariant ins == PinBits(c, k, false) && outs == PinBits(c, k, true)
      {
        if c.directions[k].direction == "output" {
          outs := outs + Bits(c.pins, c.directions[k].name);
        } else {
          ins := ins + Bits(c.pins, c.directions[k].name);
        }
      }
    } else {
      for k := 0 to |c.pins|
        invariant ins == PinBits(c, k, false) && outs == PinBits(c, k, true)
      {
        if c.pins[k].name in FF_INPUTS {
          ins := ins + c.pins[k].bits;
        } else {
          outs := outs + c.pins[k].bits;
        }
      }
    }
  }

  /** The two clocks: their names, which name the domains, and their nets. */
  datatype Clocks = Clocks(clk: string, clkNets: set<Bit>, cxl: string, cxlNets: set<Bit>)

  /** The domain of a clock connection; a derived clock has none. */
  function Domain(ck: Clocks, bits: seq<Bit>): Option<string> {
    if bits == [] then None
    else if bits[0] in ck.clkNets then Some(ck.clk)
    else if bits[0] in ck.cxlNets then Some(ck.cxl)
    else Domain(ck, bits[1..])
  }

  predicate OnClock(ck: Clocks, b: Bit) { b in ck.clkNets || b in ck.cxlNets }

  /** The first bit on a clock net decides, `clk` first; without one there is no domain. */
  lemma {:induction false} DomainIs(ck: Clocks, bits: seq<Bit>)
    ensures Domain(ck, bits).None? <==> forall k :: 0 <= k < |bits| ==> !OnClock(ck, bits[k])
    ensures forall k ::
              0 <= k < |bits| && OnClock(ck, bits[k]) && (forall j :: 0 <= j < k ==> !OnClock(ck, bits[j])) ==>
                Domain(ck, bits) == Some(if bits[k] in ck.clkNets then ck.clk else ck.cxl)
  {
    if bits != [] {
      DomainIs(ck, bits[1..]);
      if !OnClock(ck, bits[0]) {
        forall k | 0 <= k < |bits| && OnClock(ck, bits[k]) && (forall j :: 0 <= j < k ==> !OnClock(ck, bits[j]))
          ensures Domain(ck, bits) == Some(if bits[k] in ck.clkNets then ck.clk else ck.cxl)
        {
          assert bits[1..][k - 1] == bits[k];
          assert forall j :: 0 <= j < k - 1 ==> bits[1..][j] == bits[j + 1];
        }
      }
    }
  }

  predicate IsMemWrite(c: Cell) { c.kind == "$memwr" || c.kind == "$memwr_v2" }

  predicate IsMemRead(c: Cell) { c.kind == "$memrd" || c.kind == "$memrd_v2" }

  predicate IsFlop(c: Cell) { c.kind in FF_TYPES }

  /** Every other `$` cell is combinational; anything else is a blackbox. */
  predicate IsComb(c: Cell) {
    !IsFlop(c) && !IsMemRead(c) && !IsMemWrite(c) && c.kind != "$scopeinfo" && |c.kind| > 0 && c.kind[0] == '$'
  }

  // ---- Classification ----

  /** A sequential element with the bits that its next state depends on. */
  datatype Element = Element(name: string, domain: Option<string>, cone: seq<Bit>)

  /** `colors` gives the domain of register and RAM-read outputs, `drivers` the cell behind
      each combinational output. */
  datatype Graph = Graph(colors: map<Bit, Option<string>>, drivers: map<Bit, nat>, elements: seq<Element>)

  predicate Indexed(g: Graph, n: nat) {
    forall b :: b in g.drivers ==> g.drivers[b] < n
  }

  type MemDomains = map<Option<string>, string>

  function Painted<V>(m: map<Bit, V>, bits: seq<Bit>, v: V): map<Bit, V> {
    m + map b | b in bits :: v
  }

  function WithWriter(ck: Clocks, mems: MemDomains, c: Cell): MemDomains {
    var d := Domain(ck, Bits(c.pins, "CLK"));
    if IsMemWrite(c) && d.Some? && d.value != "" then mems[c.memId := d.value] else mems
  }

  function Mems(ck: Clocks, cells: seq<Cell>): MemDomains {
    if cells == [] then map[] else WithWriter(ck, Mems(ck, cells[..|cells| - 1]), cells[|cells| - 1])
  }

  function Label(c: Cell): string {
    if IsFlop(c) then "FF " + c.name
    else (if IsMemRead(c) then "MEMRD " else "MEMWR ") + c.memId.GetOr("None")
  }

  /** A RAM read port lives where the RAM is written; a RAM without a known write clock is
      read on the port's own clock. */
  function CellDomain(ck: Clocks, mems: MemDomains, c: Cell): Option<string> {
    if IsFlop(c) then Domain(ck, Bits(c.pins, "CLK"))
    else if c.memId in mems then Some(mems[c.memId])
    else if IsMemRead(c) then Domain(ck, Bits(c.pins, "CLK"))
    else None
  }

  function Cone(c: Cell): seq<Bit> {
    if IsFlop(c) then Without(Inputs(c), Bits(c.pins, "CLK"))
    else if IsMemRead(c) then Bits(c.pins, "ADDR") + Bits(c.pins, "EN")
    else Bits(c.pins, "ADDR") + Bits(c.pins, "DATA") + Bits(c.pins, "EN")
  }

  function Without(s: seq<Bit>, drop: seq<Bit>): (r: seq<Bit>)
    ensures forall b :: b in r <==> b in s && b !in drop
  {
    if s == [] then [] else
      var front := Without(s[..|s| - 1], drop);
      assert s == s[..|s| - 1] + [s[|s| - 1]];
      if s[|s| - 1] in drop then front else front + [s[|s| - 1]]
  }

  /** The output bits that end a cone at this cell. */
  function SourceBits(c: Cell): seq<Bit> {
    if IsFlop(c) then Bits(c.pins, "Q") else if IsMemRead(c) then Bits(c.pins, "DATA") else []
  }

  predicate IsElement(c: Cell) { IsFlop(c) || IsMemRead(c) || IsMemWrite(c) }

  function WithCell(ck: Clocks, mems: MemDomains, g: Graph, c: Cell, k: nat): Graph {
    Graph(if IsFlop(c) || IsMemRead(c) then Painted(g.colors, SourceBits(c), CellDomain(ck, mems, c)) else g.colors,
          if IsComb(c) then Painted(g.drivers, Outputs(c), k) else g.drivers,
          if IsElement(c) then g.elements + [Element(Label(c), CellDomain(ck, mems, c), Cone(c))] else g.elements)
  }

  function Classified(ck: Clocks, mems: MemDomains, cells: seq<Cell>): (g: Graph)
    ensures Indexed(g, |cells|)
  {
    if cells == [] then Graph(map[], map[], [])
    else WithCell(ck, mems, Classified(ck, mems, cells[..|cells| - 1]), cells[|cells| - 1], |cells| - 1)
  }

  function GraphOf(ck: Clocks, cells: seq<Cell>): (g: Graph)
    ensures Indexed(g, |cells|)
  {
    Classified(ck, Mems(ck, cells), cells)
  }

  // ---- What classification finds ----

  /** Cell `k` is the last that drives `b` as a flip-flop or RAM read output. */
  ghost predicate LastSource(cells: seq<Cell>, b: Bit, k: nat) {
    k < |cells| && b in SourceBits(cells[k]) && forall i :: k < i < |cells| ==> b !in SourceBits(cells[i])
  }

  /** Cell `k` is the last combinational one that drives `b`. */
  ghost predicate LastDriver(cells: seq<Cell>, b: Bit, k: nat) {
    k < |cells| && DrivesComb(cells[k], b) && forall i :: k < i < |cells| ==> !DrivesComb(cells[i], b)
  }

  predicate DrivesComb(c: Cell, b: Bit) {
    IsComb(c) && b in Outputs(c)
  }

  /** Cell `k` is the last write port of the RAM on a named clock. */
  ghost predicate LastWriter(ck: Clocks, cells: seq<Cell>, memId: Option<string>, k: nat) {
    k < |cells| && Writes(ck, cells[k], memId) && forall i :: k < i < |cells| ==> !Writes(ck, cells[i], memId)
  }

  predicate Writes(ck: Clocks, c: Cell, memId: Option<string>) {
    IsMemWrite(c) && c.memId == memId && Domain(ck, Bits(c.pins, "CLK")).GetOr("") != ""
  }

  /** A bit ends cones when a flip-flop or a RAM read port drives it; the last one gives its domain. */
  lemma {:induction false} ColorIs(ck: Clocks, mems: MemDomains, cells: seq<Cell>, b: Bit, k: nat)
    ensures var colors := Classified(ck, mems, cells).colors;
            && (LastSource(cells, b, k) ==> b in colors && colors[b] == CellDomain(ck, mems, cells[k]))
            && ((forall i :: 0 <= i < |cells| ==> b !in SourceBits(cells[i])) ==> b !in colors)
  {
    hide SourceBits, IsComb, IsElement, CellDomain, Cone, Label;
    if cells != [] {
      var front, c := cells[..|cells| - 1], cells[|cells| - 1];
      ColorIs(ck, mems, front, b, k);
      NoSourceElsewhere(c);
      assert b in SourceBits(c) || b !in SourceBits(c);
    }
  }

  lemma NoSourceElsewhere(c: Cell)
    ensures !IsFlop(c) && !IsMemRead(c) ==> SourceBits(c) == []
  {
  }

  /** A bit has a combinational driver when some combinational cell outputs it; the last one counts. */
  lemma {:induction false} DriverIs(ck: Clocks, mems: MemDomains, cells: seq<Cell>, b: Bit, k: nat)
    ensures var drivers := Classified(ck, mems, cells).drivers;
            && (LastDriver(cells, b, k) ==> b in drivers && drivers[b] == k)
            && ((forall i :: 0 <= i < |cells| ==> !DrivesComb(cells[i], b)) ==> b !in drivers)
  {
    hide SourceBits, IsComb, IsElement, IsFlop, IsMemRead, CellDomain, Cone, Label, Outputs;
    if cells != [] {
      var front, c := cells[..|cells| - 1], cells[|cells| - 1];
      DriverIs(ck, mems, front, b, k);
      assert DrivesComb(c, b) || !DrivesComb(c, b);
    }
  }

  /** Every flip-flop, RAM read port and RAM write port is checked, and nothing else. */
  lemma {:induction false} ElementsAre(ck: Clocks, mems: MemDomains, cells: seq<Cell>, e: Element)
    ensures e in Classified(ck, mems, cells).elements <==>
            exists k :: 0 <= k < |cells| && IsElement(cells[k])
              && e == Element(Label(cells[k]), CellDomain(ck, mems, cells[k]), Cone(cells[k]))
  {
    hide SourceBits, IsComb, IsElement, IsFlop, IsMemRead, CellDomain, Cone, Label, Outputs;
    if cells != [] {
      var front, c := cells[..|cells| - 1], cells[|cells| - 1];
      ElementsAre(ck, mems, front, e);
      assert cells == front + [c];
      assert IsElement(c) ==> IsElement(cells[|front|]);
    }
  }

  /** A RAM's domain is that of its last write port on a named clock. */
  lemma {:induction false} MemIs(ck: Clocks, cells: seq<Cell>, memId: Option<string>, k: nat)
    ensures var mems := Mems(ck, cells);
            && (LastWriter(ck, cells, memId, k) ==>
                memId in mems && Some(mems[memId]) == Domain(ck, Bits(cells[k].pins, "CLK")))
            && ((forall i :: 0 <= i < |cells| ==> !Writes(ck, cells[i], memId)) ==> memId !in mems)
  {
    hide Bits, Domain, IsMemWrite;
    if cells != [] {
      var front, c := cells[..|cells| - 1], cells[|cells| - 1];
      MemIs(ck, front, memId, k);
      assert Writes(ck, c, memId) || !Writes(ck, c, memId);
    }
  }

  // ---- Paths ----

  /** The bits the search goes to from `b`: the inputs of the combinational cell that drives
      it, unless a register or RAM read does. */
  function Behind(g: Graph, cells: seq<Cell>, b: Bit): seq<Bit>
    requires Indexed(g, |cells|)
  {
    if b in g.colors || b !in g.drivers then [] else Inputs(cells[g.drivers[b]])
  }

  /** A chain of nets, each feeding the combinational driver of the one before. */
  ghost predicate Path(g: Graph, cells: seq<Cell>, p: seq<Bit>)
    requires Indexed(g, |cells|)
  {
    && p != []
    && (forall k :: 0 <= k < |p| ==> p[k].Net?)
    && forall k :: 0 < k < |p| ==> Linked(g, cells, p[k - 1], p[k])
  }

  predicate Linked(g: Graph, cells: seq<Cell>, b: Bit, next: Bit)
    requires Indexed(g, |cells|)
  {
    next in Behind(g, cells, b)
  }

  ghost predicate Reaches(g: Graph, cells: seq<Cell>, cone: seq<Bit>, b: Bit)
    requires Indexed(g, |cells|)
  {
    exists p :: Path(g, cells, p) && p[0] in cone && p[|p| - 1] == b
  }

  /** A source of a known domain other than `d`. */
  predicate Foreign(g: Graph, d: string, b: Bit) {
    b in g.colors && g.colors[b].Some? && g.colors[b].value != d
  }

  // ---- The check ----

  datatype Violation = Violation(element: string, domain: string, source: string, bit: Bit)

  datatype Verdict = NoTop | NoClocks | Checked(violations: seq<Violation>)

  function PortNets(m: Netlist, name: string): set<Bit> {
    set b | b in Bits(m.ports, name) && b.Net?
  }

  method ClockDomain(ck: Clocks, bits: seq<Bit>) returns (d: Option<string>)
    ensures d == Domain(ck, bits)
  {
    for k := 0 to |bits|
      invariant Domain(ck, bits) == Domain(ck, bits[k..])
    {
      if bits[k] in ck.clkNets {
        return Some(ck.clk);
      }
      if bits[k] in ck.cxlNets {
        return Some(ck.cxl);
      }
    }
    d := None;
  }

  /** The first pass: the write clock of each RAM. */
  method FindMems(ck: Clocks, cells: seq<Cell>) returns (mems: MemDomains)
    ensures mems == Mems(ck, cells)
  {
    mems := map[];
    for k := 0 to |cells|
      invariant mems == Mems(ck, cells[..k])
    {
      assert cells[..k + 1][..k] == cells[..k];
      if IsMemWrite(cells[k]) {
        var d := ClockDomain(ck, Bits(cells[k].pins, "CLK"));
        if d.Some? && d.value != "" {
          mems := mems[cells[k].memId := d.value];
        }
      }
    }
    assert cells[..|cells|] == cells;
  }

  method Paint<V>(m: map<Bit, V>, bits: seq<Bit>, v: V) returns (r: map<Bit, V>)
    ensures r == Painted(m, bits, v)
  {
    hide Painted;
    r := m;
    PaintedNothing(m, v);
    for k := 0 to |bits|
      invariant r == Painted(m, bits[..k], v)
    {
      PaintedMore(m, bits[..k], bits[k], v);
      assert bits[..k + 1] == bits[..k] + [bits[k]];
      r := r[bits[k] := v];
    }
    assert bits[..|bits|] == bits;
  }

  lemma PaintedNothing<V>(m: map<Bit, V>, v: V)
    ensures Painted(m, [], v) == m
  {
  }

  lemma PaintedMore<V>(m: map<Bit, V>, bits: seq<Bit>, b: Bit, v: V)
    ensures Painted(m, bits + [b], v) == Painted(m, bits, v)[b := v]
  {
  }

  method Drop(s: seq<Bit>, drop: seq<Bit>) returns (r: seq<Bit>)
    ensures r == Without(s, drop)
  {
    r := [];
    for k := 0 to |s|
      invariant r == Without(s[..k], drop)
    {
      assert s[..k + 1][..k] == s[..k];
      if s[k] !in drop {
        r := r + [s[k]];
      }
    }
    assert s[..|s|] == s;
  }

  /** One cell of the second pass. */
  method ClassifyCell(ck: Clocks, mems: MemDomains, g: Graph, c: Cell, k: nat) returns (g': Graph)
    ensures g' == WithCell(ck, mems, g, c, k)
  {
    hide Painted, Domain, Bits, Inputs, Outputs, Without, IsFlop, IsMemRead, IsMemWrite;
    KindsDiffer(c);
    g' := g;
    if c.kind == "$scopeinfo" {
      return;
    }
    if IsFlop(c) {
      var d := ClockDomain(ck, Bits(c.pins, "CLK"));
      var colors := Paint(g.colors, Bits(c.pins, "Q"), d);
      var ins, _ := CellIo(c);
      ins := Drop(ins, Bits(c.pins, "CLK"));
      g' := g.(colors := colors, elements := g.elements + [Element("FF " + c.name, d, ins)]);
    } else if IsMemRead(c) {
      var own := ClockDomain(ck, Bits(c.pins, "CLK"));
      var d := if c.memId in mems then Some(mems[c.memId]) else own;
      var colors := Paint(g.colors, Bits(c.pins, "DATA"), d);
      g' := g.(colors := colors,
               elements := g.elements + [Element("MEMRD " + c.memId.GetOr("None"), d,
                                                 Bits(c.pins, "ADDR") + Bits(c.pins, "EN"))]);
    } else if IsMemWrite(c) {
      var d := if c.memId in mems then Some(mems[c.memId]) else None;
      g' := g.(elements := g.elements + [Element("MEMWR " + c.memId.GetOr("None"), d,
                                                 Bits(c.pins, "ADDR") + Bits(c.pins, "DATA") + Bits(c.pins, "EN"))]);
    } else if |c.kind| > 0 && c.kind[0] == '$' {
      var _, outs := CellIo(c);
      var drivers := Paint(g.drivers, outs, k);
      g' := g.(drivers := drivers);
    }
  }

  lemma KindsDiffer(c: Cell)
    ensures c.kind == "$scopeinfo" ==> !IsFlop(c) && !IsMemRead(c) && !IsMemWrite(c)
    ensures IsFlop(c) ==> !IsMemRead(c) && !IsMemWrite(c)
    ensures IsMemRead(c) ==> !IsMemWrite(c)
  {
    assert |"$memrd"| == 6 && |"$memwr"| == 6 && |"$memrd_v2"| == 9 && |"$memwr_v2"| == 9;
  }

  /** The second pass: colours, combinational drivers and sequential elements. */
  method Classify(ck: Clocks, cells: seq<Cell>) returns (g: Graph)
    ensures g == GraphOf(ck, cells)
  {
    hide WithCell, Mems;
    var mems := FindMems(ck, cells);
    g := Graph(map[], map[], []);
    for k := 0 to |cells|
      invariant g == Classified(ck, mems, cells[..k])
    {
      assert cells[..k + 1][..k] == cells[..k];
      g := ClassifyCell(ck, mems, g, cells[k], k);
    }
    assert cells[..|cells|] == cells;
  }

  // ---- The search ----

  /** `v` reports a foreign source that some path leads from `e`'s inputs to. */
  ghost predicate Crossing(g: Graph, cells: seq<Cell>, e: Element, v: Violation)
    requires Indexed(g, |cells|)
  {
    && e.domain.Some? && v.element == e.name && v.domain == e.domain.value
    && Foreign(g, v.domain, v.bit) && v.source == g.colors[v.bit].value
    && Reaches(g, cells, e.cone, v.bit)
  }

  ghost predicate NoRepeats(vs: seq<Violation>) {
    forall i, j :: 0 <= i < j < |vs| ==> vs[i].bit != vs[j].bit
  }

  /** All bits a search from `cone` can ever see. */
  ghost function Universe(cells: seq<Cell>, cone: seq<Bit>): set<Bit> {
    (set b | b in cone) + set k, b | 0 <= k < |cells| && b in Inputs(cells[k]) :: b
  }

  /** What the search knows: everything seen or waiting is reachable, and everything reachable
      in one step from what was seen is seen or waiting. */
  ghost predicate Explored(g: Graph, cells: seq<Cell>, cone: seq<Bit>, seen: set<Bit>, stack: seq<Bit>)
    requires Indexed(g, |cells|)
  {
    && (forall b :: b in seen ==> b.Net? && Reaches(g, cells, cone, b))
    && (forall b :: b in stack && b.Net? ==> Reaches(g, cells, cone, b))
    && (forall b :: b in cone && b.Net? ==> b in seen || b in stack)
    && (forall b, c :: b in seen && Linked(g, cells, b, c) && c.Net? ==> c in seen || c in stack)
  }

  lemma StartExplored(g: Graph, cells: seq<Cell>, cone: seq<Bit>)
    requires Indexed(g, |cells|)
    ensures Explored(g, cells, cone, {}, cone)
  {
    forall b | b in cone && b.Net? ensures Reaches(g, cells, cone, b) {
      assert Path(g, cells, [b]);
    }
  }

  lemma ReachesNext(g: Graph, cells: seq<Cell>, cone: seq<Bit>, b: Bit, c: Bit)
    requires Indexed(g, |cells|) && Reaches(g, cells, cone, b) && Linked(g, cells, b, c) && c.Net?
    ensures Reaches(g, cells, cone, c)
  {
    hide Linked;
    var p :| Path(g, cells, p) && p[0] in cone && p[|p| - 1] == b;
    assert Path(g, cells, p + [c]);
    assert (p + [c])[|p + [c]| - 1] == c && (p + [c])[0] == p[0];
  }

  /** Taking the top of the stack. */
  lemma PopExplored(g: Graph, cells: seq<Cell>, cone: seq<Bit>, seen: set<Bit>, stack: seq<Bit>)
    requires Indexed(g, |cells|) && stack != [] && Explored(g, cells, cone, seen, stack)
    ensures var b, rest := stack[|stack| - 1], stack[..|stack| - 1];
            if b.Net? && b !in seen then Explored(g, cells, cone, seen + {b}, rest + Behind(g, cells, b))
            else Explored(g, cells, cone, seen, rest)
  {
    hide Reaches, Behind;
    var b, rest := stack[|stack| - 1], stack[..|stack| - 1];
    assert stack == rest + [b];
    forall c | c in Behind(g, cells, b) && b.Net? && c.Net? ensures Reaches(g, cells, cone, c) {
      ReachesNext(g, cells, cone, b, c);
    }
  }

  /** With nothing waiting, everything reachable has been seen. */
  lemma {:induction false} AllSeen(g: Graph, cells: seq<Cell>, cone: seq<Bit>, seen: set<Bit>, p: seq<Bit>)
    requires Indexed(g, |cells|) && Explored(g, cells, cone, seen, []) && Path(g, cells, p) && p[0] in cone
    ensures p[|p| - 1] in seen
    decreases |p|
  {
    hide Linked, Reaches;
    if |p| > 1 {
      AllSeen(g, cells, cone, seen, p[..|p| - 1]);
    }
  }

  lemma DoneExplored(g: Graph, cells: seq<Cell>, cone: seq<Bit>, seen: set<Bit>)
    requires Indexed(g, |cells|) && Explored(g, cells, cone, seen, [])
    ensures forall b :: b in seen <==> Reaches(g, cells, cone, b)
  {
    forall b | Reaches(g, cells, cone, b) ensures b in seen {
      var p :| Path(g, cells, p) && p[0] in cone && p[|p| - 1] == b;
      AllSeen(g, cells, cone, seen, p);
    }
  }

  lemma BehindInUniverse(g: Graph, cells: seq<Cell>, cone: seq<Bit>, b: Bit)
    requires Indexed(g, |cells|)
    ensures forall c :: c in Behind(g, cells, b) ==> c in Universe(cells, cone)
  {
    hide Inputs;
  }

  /** `vs` reports the foreign sources among `seen`, each once. */
  ghost predicate Reported(g: Graph, e: Element, seen: set<Bit>, vs: seq<Violation>)
    requires e.domain.Some?
  {
    && NoRepeats(vs)
    && forall v :: v in vs <==>
       v.bit in seen && Foreign(g, e.domain.value, v.bit)
       && v == Violation(e.name, e.domain.value, g.colors[v.bit].value, v.bit)
  }

  lemma ReportNext(g: Graph, e: Element, seen: set<Bit>, vs: seq<Violation>, b: Bit)
    requires e.domain.Some? && Reported(g, e, seen, vs) && b !in seen
    ensures Foreign(g, e.domain.value, b) ==>
            Reported(g, e, seen + {b}, vs + [Violation(e.name, e.domain.value, g.colors[b].value, b)])
    ensures !Foreign(g, e.domain.value, b) ==> Reported(g, e, seen + {b}, vs)
  {
    forall v | v in vs ensures v.bit != b {
    }
  }

  lemma ReportedIsCrossing(g: Graph, cells: seq<Cell>, e: Element, seen: set<Bit>, vs: seq<Violation>)
    requires Indexed(g, |cells|) && e.domain.Some? && Reported(g, e, seen, vs)
    requires forall b :: b in seen <==> Reaches(g, cells, e.cone, b)
    ensures forall v :: v in vs <==> Crossing(g, cells, e, v)
  {
    hide Reaches;
  }

  /** The worklist search through one element's cone: it ends on every netlist, cyclic ones
      included, and reports each foreign source that a path leads to once. */
  method Trace(g: Graph, cells: seq<Cell>, e: Element) returns (vs: seq<Violation>)
    requires Indexed(g, |cells|)
    ensures forall v :: v in vs <==> Crossing(g, cells, e, v)
    ensures NoRepeats(vs)
  {
    hide Behind, Linked, Path, Reaches, Explored, Universe, Reported, Inputs, Outputs;
    vs := [];
    if e.domain == None {
      return;
    }
    var dom := e.domain.value;
    var seen: set<Bit>, stack := {}, e.cone;
    ghost var all := Universe(cells, e.cone);
    StartExplored(g, cells, e.cone);
    ConeInUniverse(cells, e.cone);
    assert Reported(g, e, seen, vs) by { NothingReported(g, e); }
    while stack != []
      invariant seen <= all && forall b :: b in stack ==> b in all
      invariant Explored(g, cells, e.cone, seen, stack)
      invariant Reported(g, e, seen, vs)
      decreases |all - seen|, |stack|
    {
      PopExplored(g, cells, e.cone, seen, stack);
      var b := stack[|stack| - 1];
      stack := stack[..|stack| - 1];
      if !b.Net? || b in seen {
        continue;
      }
      BehindInUniverse(g, cells, e.cone, b);
      NothingBehind(g, cells, b);
      Shrinks(all, seen, b);
      ReportNext(g, e, seen, vs, b);
      ghost var next := stack + Behind(g, cells, b);
      seen := seen + {b};
      if b in g.colors {
        var src := g.colors[b];
        if src.Some? && src.value != dom {
          vs := vs + [Violation(e.name, dom, src.value, b)];
        }
        assert stack == next;
        continue;
      }
      if b !in g.drivers {
        assert stack == next;
        continue;
      }
      var ins, _ := CellIo(cells[g.drivers[b]]);
      stack := stack + ins;
    }
    DoneExplored(g, cells, e.cone, seen);
    ReportedIsCrossing(g, cells, e, seen, vs);
    assert NoRepeats(vs) by { ReportedOnce(g, e, seen, vs); }
  }

  lemma NothingReported(g: Graph, e: Element)
    requires e.domain.Some?
    ensures Reported(g, e, {}, [])
  {
  }

  lemma ReportedOnce(g: Graph, e: Element, seen: set<Bit>, vs: seq<Violation>)
    requires e.domain.Some? && Reported(g, e, seen, vs)
    ensures NoRepeats(vs)
  {
  }

  lemma ConeInUniverse(cells: seq<Cell>, cone: seq<Bit>)
    ensures forall b :: b in cone ==> b in Universe(cells, cone)
  {
  }

  lemma NothingBehind(g: Graph, cells: seq<Cell>, b: Bit)
    requires Indexed(g, |cells|)
    ensures b in g.colors || b !in g.drivers ==> Behind(g, cells, b) == []
    ensures b !in g.colors && b in g.drivers ==> Behind(g, cells, b) == Inputs(cells[g.drivers[b]])
  {
  }

  lemma Shrinks(all: set<Bit>, seen: set<Bit>, b: Bit)
    requires b in all && b !in seen
    ensures |all - (seen + {b})| < |all - seen|
  {
    assert all - seen == (all - (seen + {b})) + {b};
  }

  /** The lists of the elements, one after the other. */
  function Flat(parts: seq<seq<Violation>>): seq<Violation> {
    if parts == [] then [] else Flat(parts[..|parts| - 1]) + parts[|parts| - 1]
  }

  /** A report lists, element by element, each crossing of that element once. */
  ghost predicate Exact(g: Graph, cells: seq<Cell>, violations: seq<Violation>)
    requires Indexed(g, |cells|)
  {
    exists parts: seq<seq<Violation>> ::
      && |parts| == |g.elements| && violations == Flat(parts)
      && forall k :: 0 <= k < |parts| ==> PartExact(g, cells, k, parts[k])
  }

  ghost predicate PartExact(g: Graph, cells: seq<Cell>, k: nat, part: seq<Violation>)
    requires Indexed(g, |cells|) && k < |g.elements|
  {
    NoRepeats(part) && forall v :: v in part <==> Crossing(g, cells, g.elements[k], v)
  }

  function ClocksOf(m: Netlist, clk: string, cxl: string): Clocks {
    Clocks(clk, PortNets(m, clk), cxl, PortNets(m, cxl))
  }

  method Check(design: map<string, Netlist>, top: string, clk: string, cxl: string) returns (r: Verdict)
    ensures r.NoTop? <==> top !in design
    ensures top in design ==> (r.NoClocks? <==> PortNets(design[top], clk) == {} || PortNets(design[top], cxl) == {})
    ensures r.Checked? ==> Exact(GraphOf(ClocksOf(design[top], clk, cxl), design[top].cells), design[top].cells,
                                 r.violations)
  {
    hide GraphOf, Crossing, PartExact;
    if top !in design {
      return NoTop;
    }
    var m := design[top];
    var ck := ClocksOf(m, clk, cxl);
    if ck.clkNets == {} || ck.cxlNets == {} {
      return NoClocks;
    }
    var g := Classify(ck, m.cells);
    var violations := [];
    ghost var parts: seq<seq<Violation>> := [];
    for k := 0 to |g.elements|
      invariant |parts| == k && violations == Flat(parts)
      invariant forall i :: 0 <= i < k ==> PartExact(g, m.cells, i, parts[i])
    {
      var vs := Trace(g, m.cells, g.elements[k]);
      assert PartExact(g, m.cells, k, vs) by { PartIs(g, m.cells, k, vs); }
      violations := violations + vs;
      assert (parts + [vs])[..k] == parts;
      parts := parts + [vs];
    }
    r := Checked(violations);
  }

  lemma PartIs(g: Graph, cells: seq<Cell>, k: nat, part: seq<Violation>)
    requires Indexed(g, |cells|) && k < |g.elements|
    requires NoRepeats(part) && forall v :: v in part <==> Crossing(g, cells, g.elements[k], v)
    ensures PartExact(g, cells, k, part)
  {
  }
}
