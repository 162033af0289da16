/**
 The scoreboard's end-of-run check: the errors it collects, and what it takes to collect none.
 */
module Scoreboard {
  import opened Flits
  import opened Responder
  import GoldModel

  /** A request as the driver publishes it. */
  datatype Driven = Driven(op: nat, addr: nat, txnId: nat, data: nat, beats: nat)

  datatype CompBeat = CompBeat(txnId: nat, data: nat)

  datatype Error =
    | EmptyRun
    | ReqCount | ReqMemOp(read: nat) | ReqAddr(read: nat) | ReqLen(read: nat)
    | CompDataCount(read: nat) | CompDataBeat(read: nat, beat: nat)
    | RwdCount | RwdMemOp(write: nat, beat: nat) | RwdAddr(write: nat, beat: nat)
    | RwdData(write: nat, beat: nat) | RwdLen(write: nat, beat: nat)
    | NoComp(write: nat)

  /** What the monitors recorded, and the two data patterns. */
  datatype Observed = Observed(driven: seq<Driven>, m2sReq: seq<SeenReq>, m2sRwd: seq<SeenRwd>, comps: seq<nat>,
                               compData: seq<CompBeat>, readData: Pattern, writeData: Pattern)

  function Chosen(s: seq<Driven>, write: bool): seq<Driven> {
    if s == [] then []
    else Chosen(s[..|s| - 1], write) + (if GoldModel.IsWrite(s[|s| - 1].op) == write then [s[|s| - 1]] else [])
  }

  /** The data of one TxnID, in order of arrival. */
  function Group(s: seq<CompBeat>, txnId: nat): seq<nat> {
    if s == [] then []
    else Group(s[..|s| - 1], txnId) + (if s[|s| - 1].txnId == txnId then [s[|s| - 1].data] else [])
  }

  function SumBeats(s: seq<Driven>): nat {
    if s == [] then 0 else SumBeats(s[..|s| - 1]) + s[|s| - 1].beats
  }

  // ---- When a run is right ----

  /** The scoreboard's own tables. */
  function ExpectedReqMemOp(opcode: nat): nat {
    if opcode == 0x04 then 1 else if opcode == 0x03 then 2 else 5
  }

  function ExpectedRwdMemOp(opcode: nat): nat {
    if opcode == 0x1C then 4 else 3
  }

  /** The bridge, the gold model and the scoreboard read every opcode alike. */
  lemma ExpectationsAgree(opcode: nat)
    ensures ReadMemOp(opcode) == GoldModel.ReqMemOp(opcode) == ExpectedReqMemOp(opcode)
    ensures WriteMemOp(opcode) == GoldModel.RwdMemOp(opcode) == ExpectedRwdMemOp(opcode)
    ensures IsWrite(opcode) == GoldModel.IsWrite(opcode) == (opcode == 0x1D || opcode == 0x1C || opcode == 0x19)
    ensures ExpectedReqMemOp(opcode) == (match opcode case 0x04 => 1 case 0x03 => 2 case _ => 5)
    ensures ExpectedRwdMemOp(opcode) == (match opcode case 0x1C => 4 case _ => 3)
  {
  }

  ghost predicate ReqRight(rd: Driven, mr: SeenReq) {
    mr.memOp == ExpectedReqMemOp(rd.op) && mr.addr == rd.addr && mr.beats == rd.beats
  }

  ghost predicate DataRight(rd: Driven, got: seq<nat>, data: Pattern) {
    |got| == rd.beats && forall k :: 0 <= k < rd.beats ==> got[k] == data(rd.addr, k)
  }

  ghost predicate RwdRight(wr: Driven, k: nat, mw: SeenRwd, data: Pattern) {
    mw.memOp == ExpectedRwdMemOp(wr.op) && mw.addr == wr.addr && mw.data == data(wr.data, k) && mw.beats == wr.beats
  }

  /** The Req stream is the translated reads, and each read's TxnID got its beats and no others. */
  ghost predicate ReadsRight(o: Observed) {
    var rds := Chosen(o.driven, false);
    && |o.m2sReq| == |rds|
    && forall i :: 0 <= i < |rds| ==> ReadRight(o, rds, i)
  }

  ghost predicate ReadRight(o: Observed, rds: seq<Driven>, i: nat) {
    i < |rds| && i < |o.m2sReq| && ReqRight(rds[i], o.m2sReq[i])
      && DataRight(rds[i], Group(o.compData, rds[i].txnId), o.readData)
  }

  /** The flat RwD stream is the expansion of the writes, beat by beat, and each write's TxnID got a Comp. */
  ghost predicate WritesRight(o: Observed) {
    var wrs := Chosen(o.driven, true);
    && |o.m2sRwd| == SumBeats(wrs)
    && forall i :: 0 <= i < |wrs| ==> WriteRight(o, wrs, i)
  }

  ghost predicate WriteRight(o: Observed, wrs: seq<Driven>, i: nat)
    requires i < |wrs|
  {
    && wrs[i].txnId in o.comps
    && forall k :: 0 <= k < wrs[i].beats ==> BeatRight(o, wrs, i, k)
  }

  /** Beat `k` of write `i` stands where the beats of the earlier writes end. */
  ghost predicate BeatRight(o: Observed, wrs: seq<Driven>, i: nat, k: nat)
    requires i < |wrs|
  {
    StandsAt(o, wrs[i], SumBeats(wrs[..i]), k)
  }

  ghost predicate StandsAt(o: Observed, wr: Driven, idx: nat, k: nat) {
    idx + k < |o.m2sRwd| && RwdRight(wr, k, o.m2sRwd[idx + k], o.writeData)
  }

  ghost predicate Passes(o: Observed) {
    o.driven != [] && ReadsRight(o) && WritesRight(o)
  }

  // ---- What each error says ----

  predicate OnRead(e: Error) {
    e.ReqMemOp? || e.ReqAddr? || e.ReqLen? || e.CompDataCount? || e.CompDataBeat?
  }

  predicate OnBeat(e: Error) { e.RwdMemOp? || e.RwdAddr? || e.RwdData? || e.RwdLen? }

  /** What is wrong with a read, its Req and the data under its TxnID. */
  predicate ReadFault(rd: Driven, mr: SeenReq, got: seq<nat>, data: Pattern, e: Error) {
    match e
    case ReqMemOp(_) => mr.memOp != (match rd.op case 0x04 => 1 case 0x03 => 2 case _ => 5)
    case ReqAddr(_) => mr.addr != rd.addr
    case ReqLen(_) => mr.beats != rd.beats
    case CompDataCount(_) => |got| != rd.beats
    case CompDataBeat(_, k) => k < |got| && k < rd.beats && got[k] != data(rd.addr, k)
    case _ => false
  }

  /** What is wrong with one RwD beat of a write. */
  predicate BeatFault(wr: Driven, mw: SeenRwd, data: Pattern, e: Error) {
    match e
    case RwdMemOp(_, _) => mw.memOp != (match wr.op case 0x1C => 4 case _ => 3)
    case RwdAddr(_, _) => mw.addr != wr.addr
    case RwdData(_, k) => mw.data != data(wr.data, k)
    case RwdLen(_, _) => mw.beats != wr.beats
    case _ => false
  }

  /** The errors of a run: each read is compared with the Req of its number as long as there is
      one, each write with the beats at its place as long as there are any. */
  ghost predicate Faulty(o: Observed, e: Error) {
    || (e == EmptyRun && o.driven == [])
    || FaultyRead(o, Chosen(o.driven, false), e)
    || FaultyWrite(o, Chosen(o.driven, true), e)
  }

  ghost predicate FaultyRead(o: Observed, rds: seq<Driven>, e: Error) {
    || (e == ReqCount && |o.m2sReq| != |rds|)
    || (OnRead(e) && e.read < |rds| && e.read < |o.m2sReq|
        && ReadFault(rds[e.read], o.m2sReq[e.read], Group(o.compData, rds[e.read].txnId), o.readData, e))
  }

  ghost predicate FaultyWrite(o: Observed, wrs: seq<Driven>, e: Error) {
    || (e == RwdCount && |o.m2sRwd| != SumBeats(wrs))
    || (e.NoComp? && e.write < |wrs| && wrs[e.write].txnId !in o.comps)
    || (OnBeat(e) && e.write < |wrs| && FaultyAt(o, wrs[e.write], SumBeats(wrs[..e.write]), e))
  }

  ghost predicate FaultyAt(o: Observed, wr: Driven, idx: nat, e: Error)
    requires OnBeat(e)
  {
    e.beat < wr.beats && idx + e.beat < |o.m2sRwd| && BeatFault(wr, o.m2sRwd[idx + e.beat], o.writeData, e)
  }

  // ---- The check ----

  method Choose(s: seq<Driven>, write: bool) returns (r: seq<Driven>)
    ensures r == Chosen(s, write)
  {
    r := [];
    for i := 0 to |s|
      invariant r == Chosen(s[..i], write)
    {
      assert s[..i + 1][..i] == s[..i];
      if GoldModel.IsWrite(s[i].op) == write {
        r := r + [s[i]];
      }
    }
    assert s[..|s|] == s;
  }

  method GroupByTxn(s: seq<CompBeat>) returns (groups: map<nat, seq<nat>>)
    ensures forall t: nat :: (if t in groups then groups[t] else []) == Group(s, t)
  {
    groups := map[];
    for i := 0 to |s|
      invariant forall t: nat :: (if t in groups then groups[t] else []) == Group(s[..i], t)
    {
      assert s[..i + 1][..i] == s[..i];
      var t := s[i].txnId;
      groups := groups[t := (if t in groups then groups[t] else []) + [s[i].data]];
    }
    assert s[..|s|] == s;
  }

  method CheckReads(o: Observed, rds: seq<Driven>) returns (errors: seq<Error>)
    requires rds == Chosen(o.driven, false)
    ensures errors == [] <==> ReadsRight(o)
    ensures forall e :: e in errors <==> FaultyRead(o, rds, e)
  {
    hide Group, ExpectedReqMemOp, ReadFault;
    errors := [];
    var groups := GroupByTxn(o.compData);
    if |o.m2sReq| != |rds| {
      errors := errors + [ReqCount];
    }
    var n := if |rds| < |o.m2sReq| then |rds| else |o.m2sReq|;
    for i := 0 to n
      invariant errors == [] <==> |o.m2sReq| == |rds| && forall j :: 0 <= j < i ==> ReadRight(o, rds, j)
      invariant forall e :: e in errors <==> FaultyRead(o, rds, e) && (e != ReqCount ==> OnRead(e) && e.read < i)
    {
      var got := if rds[i].txnId in groups then groups[rds[i].txnId] else [];
      assert got == Group(o.compData, rds[i].txnId);
      var es := CheckRead(i, rds[i], o.m2sReq[i], got, o.readData);
      assert es == [] <==> ReadRight(o, rds, i);
      errors := errors + es;
    }
  }

  method CheckRead(i: nat, rd: Driven, mr: SeenReq, got: seq<nat>, data: Pattern) returns (errors: seq<Error>)
    ensures errors == [] <==> ReqRight(rd, mr) && DataRight(rd, got, data)
    ensures forall e :: e in errors <==> OnRead(e) && e.read == i && ReadFault(rd, mr, got, data, e)
  {
    errors := [];
    if mr.memOp != ExpectedReqMemOp(rd.op) {
      errors := errors + [ReqMemOp(i)];
    }
    if mr.addr != rd.addr {
      errors := errors + [ReqAddr(i)];
    }
    if mr.beats != rd.beats {
      errors := errors + [ReqLen(i)];
    }
    if |got| != rd.beats {
      errors := errors + [CompDataCount(i)];
    }
    ghost var before := errors;
    var n := if |got| < rd.beats then |got| else rd.beats;
    for k := 0 to n
      invariant errors == [] <==> before == [] && forall j :: 0 <= j < k ==> got[j] == data(rd.addr, j)
      invariant forall e :: e in errors <==>
                  OnRead(e) && e.read == i && ReadFault(rd, mr, got, data, e) && (e.CompDataBeat? ==> e.beat < k)
    {
      if got[k] != data(rd.addr, k) {
        errors := errors + [CompDataBeat(i, k)];
      }
    }
  }

  method CheckRwd(i: nat, k: nat, wr: Driven, mw: SeenRwd, data: Pattern) returns (errors: seq<Error>)
    ensures errors == [] <==> RwdRight(wr, k, mw, data)
    ensures forall e :: e in errors <==> OnBeat(e) && e.write == i && e.beat == k && BeatFault(wr, mw, data, e)
  {
    errors := [];
    if mw.memOp != ExpectedRwdMemOp(wr.op) {
      errors := errors + [RwdMemOp(i, k)];
    }
    if mw.addr != wr.addr {
      errors := errors + [RwdAddr(i, k)];
    }
    if mw.data != data(wr.data, k) {
      errors := errors + [RwdData(i, k)];
    }
    if mw.beats != wr.beats {
      errors := errors + [RwdLen(i, k)];
    }
  }

  lemma {:induction false} SumGrows(s: seq<Driven>, i: nat)
    requires i < |s|
    ensures SumBeats(s[..i + 1]) == SumBeats(s[..i]) + s[i].beats <= SumBeats(s)
    decreases |s|
  {
    assert s[..i + 1][..i] == s[..i];
    if i + 1 < |s| {
      SumGrows(s[..|s| - 1], i);
      assert s[..|s| - 1][..i] == s[..i] && s[..|s| - 1][..i + 1] == s[..i + 1];
    } else {
      assert s[..i + 1] == s;
    }
  }

  /** How many of the `n` beats from position `idx` the RwD stream has. */
  function Available(o: Observed, idx: nat, n: nat): (m: nat)
    ensures m <= n && (m > 0 ==> idx + m <= |o.m2sRwd|) && (m < n ==> |o.m2sRwd| <= idx + m)
  {
    if idx + n <= |o.m2sRwd| then n else if idx <= |o.m2sRwd| then |o.m2sRwd| - idx else 0
  }

  /** One write, from position `idx` of the RwD stream; a stream that ends early is followed to its end. */
  method CheckWrite(o: Observed, wrs: seq<Driven>, i: nat, idx: nat) returns (errors: seq<Error>, idx': nat)
    requires i < |wrs|
    ensures idx' == idx + Available(o, idx, wrs[i].beats)
    ensures errors == [] <==>
              wrs[i].txnId in o.comps && forall k :: 0 <= k < Available(o, idx, wrs[i].beats) ==>
                StandsAt(o, wrs[i], idx, k)
    ensures forall e :: e in errors <==>
              || (e == NoComp(i) && wrs[i].txnId !in o.comps)
              || (OnBeat(e) && e.write == i && FaultyAt(o, wrs[i], idx, e))
  {
    hide RwdRight, BeatFault;
    errors, idx' := [], idx;
    var k := 0;
    while k < wrs[i].beats && idx' < |o.m2sRwd|
      invariant k <= wrs[i].beats && idx' == idx + k && (k > 0 ==> idx' <= |o.m2sRwd|)
      invariant errors == [] <==> forall j :: 0 <= j < k ==> StandsAt(o, wrs[i], idx, j)
      invariant forall e :: e in errors <==> OnBeat(e) && e.write == i && e.beat < k && FaultyAt(o, wrs[i], idx, e)
    {
      var es := CheckRwd(i, k, wrs[i], o.m2sRwd[idx'], o.writeData);
      assert es == [] <==> StandsAt(o, wrs[i], idx, k);
      errors, idx', k := errors + es, idx' + 1, k + 1;
    }
    if wrs[i].txnId !in o.comps {
      errors := errors + [NoComp(i)];
    }
  }

  /** In its place and with the stream long enough, that is the write's share of `WritesRight`. */
  lemma InPlace(o: Observed, wrs: seq<Driven>, i: nat, idx: nat)
    requires i < |wrs|
    ensures idx == SumBeats(wrs[..i]) && idx + wrs[i].beats <= |o.m2sRwd| ==>
              (WriteRight(o, wrs, i) <==>
               wrs[i].txnId in o.comps && forall k :: 0 <= k < Available(o, idx, wrs[i].beats) ==>
                 StandsAt(o, wrs[i], idx, k))
  {
    hide StandsAt, SumBeats;
    assert forall k :: BeatRight(o, wrs, i, k) <==> StandsAt(o, wrs[i], SumBeats(wrs[..i]), k);
  }

  method CheckWrites(o: Observed, wrs: seq<Driven>) returns (errors: seq<Error>)
    requires wrs == Chosen(o.driven, true)
    ensures errors == [] <==> WritesRight(o)
    ensures forall e :: e in errors <==> FaultyWrite(o, wrs, e)
  {
    hide RwdRight, SumBeats, WriteRight, BeatFault;
    errors := [];
    var total := Total(wrs);
    if |o.m2sRwd| != total {
      errors := errors + [RwdCount];
    }
    var idx := 0;
    SumNothing(wrs[..0]);
    for i := 0 to |wrs|
      invariant |o.m2sRwd| == total ==> idx == SumBeats(wrs[..i])
      invariant errors == [] <==> |o.m2sRwd| == total && forall j :: 0 <= j < i ==> WriteRight(o, wrs, j)
      invariant idx == (if SumBeats(wrs[..i]) <= |o.m2sRwd| then SumBeats(wrs[..i]) else |o.m2sRwd|)
      invariant forall e :: e in errors <==>
                FaultyWrite(o, wrs, e) && (e != RwdCount ==> (e.NoComp? || OnBeat(e)) && e.write < i)
    {
      SumGrows(wrs, i);
      var es, next := CheckWrite(o, wrs, i, idx);
      assert |o.m2sRwd| == total ==> (es == [] <==> WriteRight(o, wrs, i)) by {
        InPlace(o, wrs, i, idx);
      }
      assert forall e :: e in es <==> (e.NoComp? || OnBeat(e)) && e.write == i && FaultyWrite(o, wrs, e);
      errors, idx := errors + es, next;
    }
  }

  lemma SumNothing(s: seq<Driven>)
    requires s == []
    ensures SumBeats(s) == 0
  {
  }

  method Total(s: seq<Driven>) returns (n: nat)
    ensures n == SumBeats(s)
  {
    n := 0;
    for i := 0 to |s|
      invariant n == SumBeats(s[..i])
    {
      assert s[..i + 1][..i] == s[..i];
      n := n + s[i].beats;
    }
    assert s[..|s|] == s;
  }

  /** The whole check collects no error exactly when the run is right. */
  method CheckPhase(o: Observed) returns (errors: seq<Error>)
    ensures errors == [] <==> Passes(o)
    ensures forall e :: e in errors <==> Faulty(o, e)
  {
    hide ReadsRight, WritesRight, FaultyRead, FaultyWrite;
    var rds := Choose(o.driven, false);
    var wrs := Choose(o.driven, true);
    errors := [];
    if o.driven == [] {
      errors := errors + [EmptyRun];
    }
    var onReads := CheckReads(o, rds);
    var onWrites := CheckWrites(o, wrs);
    errors := errors + onReads + onWrites;
  }
}
