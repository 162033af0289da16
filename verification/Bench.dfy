/**
 The test bench: the register-level bridge and the device wired together, clocked by
 arbitrary stimuli. Its states are those of the runs in `DeviceRun`.
 */
module Bench {
  import opened Options
  import opened TagManager
  import opened Flits
  import opened BridgeSpec
  import opened System
  import opened Runs
  import opened Responder
  import opened DeviceRun
  import opened BridgeRtl

  /** One instant: which clocks rise, the host's pins, `bridge_open` towards the device, and
      which bits the synchronizers catch new. */
  datatype Pins = Pins(clkTick: bool, clk: ClkIn, cxlTick: bool, open: bool, mixes: Mixes)

  const UNSEEN: Late := Late(false, false, false, false, false)

  function StimulusOf(p: Pins, cl: Late, xl: Late): Stimulus {
    Stimulus(ClkSeen(p.clkTick, p.clk, cl), if p.cxlTick then Some(CxlEnv(p.open, xl)) else None)
  }

  /** The wires the device sees are those the model says. */
  lemma DeviceSees(cfg: Config, b: Bridge, d: Device, data: Pattern, j: CxlIn)
    requires b.WellFormed()
    requires d.drsValid == j.drsValid && d.ndrValid == j.ndrValid
    ensures var e, g := EgressOf(b, j), IngressOf(cfg, b, j);
            d.Edge(e.req, e.rwd, data, g.drsReady, g.ndrReady) == DeviceEdge(cfg, b, d, data, j.open)
  {
    hide Device.Edge, TranslateNdr, TranslateDrs, Bridge.RwdLast;
  }

  lemma MomentMatches(w: World, p: Pins, j: CxlIn, cl: Late, xl: Late)
    requires j == DeviceIn(w.d, p.open, UNSEEN)
    ensures var m := MomentOf(w, StimulusOf(p, cl, xl));
            m.clk == ClkSeen(p.clkTick, p.clk, cl) && m.Cxl() == CxlSeen(p.cxlTick, j, xl)
  {
  }

  lemma {:induction false} PlayedSnoc(cfg: Config, data: Pattern, w: World, xs: seq<Stimulus>, x: Stimulus)
    requires cfg.depth > 0 && Good(cfg, data, w)
    ensures var p := Played(cfg, data, w, xs);
            && Good(cfg, data, p) && Allowed(cfg, p.s, MomentOf(p, x))
            && Played(cfg, data, w, xs + [x]) == WorldStep(cfg, data, p, x)
    decreases |xs|
  {
    hide Inv, Tracks, WorldStep, Allowed, MomentOf;
    WorldAllowed(cfg, data, w, if xs == [] then x else xs[0]);
    if xs == [] {
      assert (xs + [x])[1..] == [];
      WorldStepGood(cfg, data, w, x);
    } else {
      WorldStepGood(cfg, data, w, xs[0]);
      PlayedSnoc(cfg, data, WorldStep(cfg, data, w, xs[0]), xs[1..], x);
      assert (xs + [x])[1..] == xs[1..] + [x];
    }
  }

  lemma InstantIsStep(cfg: Config, data: Pattern, w: World, p: Pins, j: CxlIn, cl: Late, xl: Late)
    requires cfg.depth > 0 && Good(cfg, data, w) && j == DeviceIn(w.d, p.open, UNSEEN)
    ensures w.s.b.WellFormed() && w.s.b.Ordered(cfg.depth) && Inv(cfg, w.s)
    ensures var x := StimulusOf(p, cl, xl);
            var e, g := EgressOf(w.s.b, j), IngressOf(cfg, w.s.b, j);
            && Allowed(cfg, w.s, MomentOf(w, x))
            && WorldStep(cfg, data, w, x).s.b == w.s.b.Instant(cfg, ClkSeen(p.clkTick, p.clk, cl),
                                                               CxlSeen(p.cxlTick, j, xl))
            && WorldStep(cfg, data, w, x).d == if p.cxlTick then w.d.Edge(e.req, e.rwd, data, g.drsReady, g.ndrReady)
                 else w.d
  {
    hide ReadOk, WriteOk, TagsOk, Tracks, ResetQuiet, WithinCredit, Bridge.Instant, EgressOf, IngressOf, DeviceEdge,
         Device.Edge, AimAfter, ClkPart, Bridge.Ordered, Bridge.WellFormed, Allowed, LogCxl;
    var x := StimulusOf(p, cl, xl);
    WorldAllowed(cfg, data, w, x);
    MomentMatches(w, p, j, cl, xl);
    DeviceSees(cfg, w.s.b, w.d, data, j);
  }

  lemma DeviceShown(device: CxlResponder, open: bool)
    ensures CxlIn(true, true, device.ndrValid, device.ndr, device.drsValid, device.drs, open, UNSEEN) ==
            DeviceIn(device.Model(), open, UNSEEN)
  {
  }

  method Instant(bridge: ChiToCxlBridge, device: CxlResponder, p: Pins, ghost w: World) returns (ghost x: Stimulus)
    requires bridge.Valid() && bridge.Fits(p.mixes) && bridge.cfg.depth > 0
    requires Good(bridge.cfg, device.data, w) && bridge.Model() == w.s.b && device.Model() == w.d
    modifies bridge, bridge.posted, bridge.posted.mem, bridge.np, bridge.np.mem, bridge.dat, bridge.dat.mem, bridge.ndr,
             bridge.ndr.mem, bridge.drs, bridge.drs.mem, bridge.rspInt, bridge.rspInt.mem, bridge.tags,
             bridge.tags.pool, bridge.tags.pool.mem, bridge.tags.stateMem, bridge.clkCell, bridge.cxlCell, device
    ensures bridge.Valid() && Allowed(bridge.cfg, w.s, MomentOf(w, x)) && Inv(bridge.cfg, w.s)
    ensures bridge.Model() == WorldStep(bridge.cfg, device.data, w, x).s.b
    ensures device.Model() == WorldStep(bridge.cfg, device.data, w, x).d
  {
    hide *;
    DeviceShown(device, p.open);
    var j := CxlIn(true, true, device.ndrValid, device.ndr, device.drsValid, device.drs, p.open, UNSEEN);
    var accept, reply, egress, ingress;
    ghost var cl, xl;
    accept, reply, egress, ingress, cl, xl := bridge.Edges(p.clkTick, p.clk, p.cxlTick, j, p.mixes);
    if p.cxlTick {
      device.Edge(egress.req, egress.rwd, ingress.drsReady, ingress.ndrReady);
    }
    x := StimulusOf(p, cl, xl);
    InstantIsStep(bridge.cfg, device.data, w, p, j, cl, xl);
  }

  /** From reset, every state of the bench is the end of a run of bridge and device. */
  method Run(bridge: ChiToCxlBridge, device: CxlResponder, pins: seq<Pins>) returns (ghost xs: seq<Stimulus>)
    requires bridge.Valid() && bridge.cfg.depth > 0 && |bridge.Model().tags.state| == N_TAGS
    requires bridge.Model() == AfterReset(bridge.Model().tags.state) && device.Model() == IDLE
    requires forall k :: 0 <= k < |pins| ==> bridge.Fits(pins[k].mixes)
    modifies bridge, bridge.posted, bridge.posted.mem, bridge.np, bridge.np.mem, bridge.dat, bridge.dat.mem, bridge.ndr,
             bridge.ndr.mem, bridge.drs, bridge.drs.mem, bridge.rspInt, bridge.rspInt.mem, bridge.tags,
             bridge.tags.pool, bridge.tags.pool.mem, bridge.tags.stateMem, bridge.clkCell, bridge.cxlCell, device
    ensures bridge.Valid() && |xs| == |pins|
    ensures bridge.Model() == End(bridge.cfg, device.data, old(bridge.Model().tags.state), xs).s.b
    ensures device.Model() == End(bridge.cfg, device.data, old(bridge.Model().tags.state), xs).d
    ensures Reachable(bridge.cfg, End(bridge.cfg, device.data, old(bridge.Model().tags.state), xs).s)
  {
    hide *;
    ghost var state := bridge.Model().tags.state;
    xs := [];
    StartsFresh(bridge.cfg, device.data, state);
    for k := 0 to |pins|
      invariant |xs| == k && bridge.Valid()
      invariant Good(bridge.cfg, device.data, Fresh(state))
      invariant Good(bridge.cfg, device.data, End(bridge.cfg, device.data, state, xs))
      invariant bridge.Model() == End(bridge.cfg, device.data, state, xs).s.b
                && device.Model() == End(bridge.cfg, device.data, state, xs).d
    {
      ghost var x := Instant(bridge, device, pins[k], End(bridge.cfg, device.data, state, xs));
      EndSnoc(bridge.cfg, device.data, state, xs, x);
      xs := xs + [x];
    }
    DeviceRunsAreReachable(bridge.cfg, device.data, state, xs);
  }

  lemma StartsFresh(cfg: Config, data: Pattern, state: seq<Entry>)
    requires cfg.depth > 0 && |state| == N_TAGS
    ensures Good(cfg, data, Fresh(state))
    ensures Good(cfg, data, End(cfg, data, state, [])) && End(cfg, data, state, []).s.b == AfterReset(state)
            && End(cfg, data, state, []).d == IDLE
  {
    hide Good, AfterReset;
    FreshGood(cfg, data, state);
  }

  lemma EndSnoc(cfg: Config, data: Pattern, state: seq<Entry>, xs: seq<Stimulus>, x: Stimulus)
    requires cfg.depth > 0 && |state| == N_TAGS
    ensures var w := End(cfg, data, state, xs);
            && Good(cfg, data, w) && Inv(cfg, w.s) && Allowed(cfg, w.s, MomentOf(w, x))
            && End(cfg, data, state, xs + [x]) == WorldStep(cfg, data, w, x)
            && Good(cfg, data, End(cfg, data, state, xs + [x]))
  {
    hide Inv, Tracks, Fresh, Allowed, WorldStep, Played;
    FreshGood(cfg, data, state);
    PlayedSnoc(cfg, data, Fresh(state), xs, x);
    PlayedIsLegal(cfg, data, Fresh(state), xs + [x]);
  }
}
