/**
 The emulated CXL.mem device: it takes every M2S Req and RwD beat, answers each Req with LEN
 DRS beats in a row and each write, once all its beats have come, with one NDR.
 */
module Responder {
  import opened Options
  import opened Flits

  /** The read data of an address and beat, whatever the pattern. */
  type Pattern = (nat, nat) -> nat

  /** A DRS beat still to return. */
  datatype Pending = Pending(tag: Tag, data: nat)

  /** What the device publishes of each Req and of each RwD beat it takes. */
  datatype SeenReq = SeenReq(memOp: nat, addr: nat, tag: nat, beats: nat)
  datatype SeenRwd = SeenRwd(memOp: nat, addr: nat, tag: nat, data: nat, beat: nat, beats: nat)

  /** The queues, the burst positions per tag, and the S2M pins the device drives. */
  datatype Device = Device(drsQ: seq<Pending>, ndrQ: seq<Tag>, rwdSeen: map<nat, nat>, reqs: seq<SeenReq>,
                           rwds: seq<SeenRwd>, drsValid: bool, drs: CxlDrs, ndrValid: bool, ndr: CxlNdr)
  {
    function AfterReq(f: CxlReq, data: Pattern): Device {
      this.(drsQ := drsQ + Replies(f, data, f.len), reqs := reqs + [SeenReq(f.memOp, f.addr, f.tag, f.len)])
    }

    function AfterRwd(f: CxlRwd): Device {
      var k := BeatsSeen(rwdSeen, f.tag);
      var rest := this.(rwds := rwds + [SeenRwd(f.memOp, f.addr, f.tag, f.data, k, f.len)]);
      if k + 1 >= f.len then rest.(ndrQ := ndrQ + [TagOf(f.tag)], rwdSeen := rwdSeen[f.tag := 0])
      else rest.(rwdSeen := rwdSeen[f.tag := k + 1])
    }

    function AfterDrs(ready: bool): Device {
      if drsQ != [] && !drsValid then this.(drs := DrsFlit(drsQ[0]), drsValid := true)
      else if drsQ != [] && drsValid && ready then this.(drsQ := drsQ[1..], drsValid := false)
      else this
    }

    function AfterNdr(ready: bool): Device {
      if ndrQ != [] && !ndrValid then this.(ndr := NdrFlit(ndrQ[0]), ndrValid := true)
      else if ndrQ != [] && ndrValid && ready then this.(ndrQ := ndrQ[1..], ndrValid := false)
      else this
    }

    /** One `cxl_clk` edge: the flits taken, then the two return channels. */
    function Edge(req: Option<CxlReq>, rwd: Option<CxlRwd>, data: Pattern, drsReady: bool, ndrReady: bool): Device {
      var d1 := if req.Some? then AfterReq(req.value, data) else this;
      var d2 := if rwd.Some? then d1.AfterRwd(rwd.value) else d1;
      d2.AfterDrs(drsReady).AfterNdr(ndrReady)
    }
  }

  /** `_rwd_seen.get(tag, 0)`. */
  function BeatsSeen(seen: map<nat, nat>, tag: nat): nat {
    if tag in seen then seen[tag] else 0
  }

  function DrsFlit(p: Pending): CxlDrs { CxlDrs(0, 0, 0, p.tag, 0, 0, p.data) }

  function NdrFlit(tag: Tag): CxlNdr { CxlNdr(0, 0, 0, tag, 0) }

  /** The first `n` beats of the answer to a Req. */
  function Replies(f: CxlReq, data: Pattern, n: nat): (r: seq<Pending>)
    ensures |r| == n
    ensures forall k :: 0 <= k < n ==> r[k] == Pending(TagOf(f.tag), data(f.addr, k))
  {
    if n == 0 then [] else Replies(f, data, n - 1) + [Pending(TagOf(f.tag), data(f.addr, n - 1))]
  }

  const IDLE: Device := Device([], [], map[], [], [], false, DrsFlit(Pending(0, 0)), false, NdrFlit(0))

  class CxlResponder {
    const data: Pattern
    var drsQ: seq<Pending>
    var ndrQ: seq<Tag>
    var rwdSeen: map<nat, nat>
    var reqs: seq<SeenReq>
    var rwds: seq<SeenRwd>
    var drsValid: bool
    var drs: CxlDrs
    var ndrValid: bool
    var ndr: CxlNdr

    function Model(): Device
      reads this
    {
      Device(drsQ, ndrQ, rwdSeen, reqs, rwds, drsValid, drs, ndrValid, ndr)
    }

    constructor (data: Pattern)
      ensures Model() == IDLE && this.data == data
    {
      this.data := data;
      drsQ, ndrQ, rwdSeen, reqs, rwds := [], [], map[], [], [];
      drsValid, drs, ndrValid, ndr := false, DrsFlit(Pending(0, 0)), false, NdrFlit(0);
    }

    method TakeReq(f: CxlReq)
      modifies this
      ensures Model() == old(Model()).AfterReq(f, data)
    {
      reqs := reqs + [SeenReq(f.memOp, f.addr, f.tag, f.len)];
      for k := 0 to f.len
        invariant Model() == old(Model()).(drsQ := old(drsQ) + Replies(f, data, k),
                                           reqs := old(reqs) + [SeenReq(f.memOp, f.addr, f.tag, f.len)])
      {
        drsQ := drsQ + [Pending(TagOf(f.tag), data(f.addr, k))];
      }
    }

    method TakeRwd(f: CxlRwd)
      modifies this
      ensures Model() == old(Model()).AfterRwd(f)
    {
      var k := if f.tag in rwdSeen then rwdSeen[f.tag] else 0;
      rwds := rwds + [SeenRwd(f.memOp, f.addr, f.tag, f.data, k, f.len)];
      k := k + 1;
      if k >= f.len {
        ndrQ := ndrQ + [TagOf(f.tag)];
        rwdSeen := rwdSeen[f.tag := 0];
      } else {
        rwdSeen := rwdSeen[f.tag := k];
      }
    }

    method AcceptLoop(req: Option<CxlReq>, rwd: Option<CxlRwd>)
      modifies this
      ensures Model() == var d1 := if req.Some? then old(Model()).AfterReq(req.value, data) else old(Model());
                         if rwd.Some? then d1.AfterRwd(rwd.value) else d1
    {
      if req.Some? {
        TakeReq(req.value);
      }
      if rwd.Some? {
        TakeRwd(rwd.value);
      }
    }

    method DrsLoop(ready: bool)
      modifies this
      ensures Model() == old(Model()).AfterDrs(ready)
    {
      if drsQ != [] && !drsValid {
        drs, drsValid := DrsFlit(drsQ[0]), true;
      } else if drsQ != [] && drsValid && ready {
        drsQ, drsValid := drsQ[1..], false;
      }
    }

    method NdrLoop(ready: bool)
      modifies this
      ensures Model() == old(Model()).AfterNdr(ready)
    {
      if ndrQ != [] && !ndrValid {
        ndr, ndrValid := NdrFlit(ndrQ[0]), true;
      } else if ndrQ != [] && ndrValid && ready {
        ndrQ, ndrValid := ndrQ[1..], false;
      }
    }

    method Edge(req: Option<CxlReq>, rwd: Option<CxlRwd>, drsReady: bool, ndrReady: bool)
      modifies this
      ensures Model() == old(Model()).Edge(req, rwd, data, drsReady, ndrReady)
    {
      AcceptLoop(req, rwd);
      DrsLoop(drsReady);
      NdrLoop(ndrReady);
    }
  }
}
