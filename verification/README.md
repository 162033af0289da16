# CHI to CXL.mem bridge: a verified model

A Dafny model of the bridge between an AMBA CHI host and a CXL.mem device, of the checker that
guards its clock-domain crossings, and of the gold model, device and scoreboard that stand
beside it. One step of the model is a `clk` edge, a `cxl_clk` edge, or both at once, in any
order, and every ready signal, `bridge_open` and every input is arbitrary at each step.

`dafny verify dfyconfig.toml` checks the whole project.

## How it is built

* `BitVec`, `GrayCode`: registers of any width; Gray encoding, the decode loop, the full mask,
  and what a synchronizer catches that samples a moving Gray pointer.
* `FifoSpec`, `AsyncFifo`, `SyncFifo`, `ResetSync`: the two FIFOs as classes over pointer
  registers and a memory, each proved to be the plain queue of its specification, and the
  reset cell.
* `TagManager`: the free pool, its fill after reset, the two release ports and the state RAM.
* `Flits`, `BridgeSpec`, `BridgeRtl`: the flits, one instant of the bridge as a function on
  values, and class `ChiToCxlBridge` on the real FIFO objects, proved to make that step with
  any mix of old and new pointer bits in every synchronizer.
* `Ledger`, `ReadPath`, `WritePath`, `TagLedger`, `System`, `Runs`: the ledger of accepted
  requests and flits kept beside the bridge, the device's contract, and the invariant over
  every run.
* `Pins`: what crosses the pins, from valid and ready alone with every condition and encoding
  written out in numbers, and that the ledger of every run is exactly that.
* `Theorems`, `Releases`, `Streams`, `Drain`, `Losses`, `Guarantees`: what follows for every
  reachable state and every run.
* `Responder`, `DeviceRun`, `Bench`: the emulated device as a class, the proof that it keeps
  the contract whatever the host does, and the test bench loop over both objects.
* `Progress`: with this device, a host that takes every response and an open link, a drain ends
  within a number of laps of the clocks that the work owed bounds.
* `Witnesses`, `CompletedRuns`: runs from reset in which tags get lost, and completed runs that
  the scoreboard passes and fails.
* `CdcCheck`, `CdcMeaning`, `CdcCells`: the structural crossing check, what a pass is worth on the
  graph it builds, and what that says of the cells and pins of the netlist.
* `BitFields`, `PackedFlits`, `GoldModel`, `PacketTrips`: `get`, `pack`, slices of registers, the
  four translations as RTL and gold model have them, the gold model's own tables, the header's field
  maps, and packets read back at the far end.
* `Scoreboard`, `GoldRun`: the end-of-run check with its own tables, each error it can report, and
  when a completed run passes it.

The names follow AMBA CHI (Arm IHI 0050, Transactions chapter) and CXL.mem (section 3.3 of the
CXL specification). The repository calls its encodings representative
(src/chi_to_cxl_bridge_defs.vh:52), so its own tables decide.

## What turned out false, and the exact condition

* *Tags are conserved.* They are not: a tag leaves the pool whenever a request is offered while
  the bridge is open and the pool is not empty, even if the request is refused
  (src/chi_to_cxl_bridge.v:264 against 268), and when both release ports fire the tag of port B
  is lost (src/tag_manager.v:79-81). Both happen: `Witnesses.DoubleReleaseDropsTag` is a run that
  drops one, under all parameters that let a read and a write through, and
  `Witnesses.AllTagsCanBeLost` is a run in which refused writes take all sixteen tags, whatever
  the parameters, the default ones included: the Comps of four writes overtake their DBIDResps,
  the DBIDResp FIFO stays full, and a held write then costs a tag in every cycle.
  `Guarantees.TagsConserved` gives the account for every run: free tags, tags of live
  transactions and losing edges make up N_TAGS, so no tag is missing exactly when no edge of the
  run was a losing one, and whether an edge loses a tag is read off the wires before it.
  `Guarantees.AllLostNeverRecovers` says where it ends, and `Guarantees.CanBlockForever` that
  every parameter set has a reachable state after which nothing is ever accepted.
* *A completed run with correct data passes the scoreboard.* Only if something was driven and
  no two reads had the same TxnID, and then always: `GoldRun.QuietRunPasses`.
  `CompletedRuns.TwoReadsComplete` has a completed run of two reads for any two TxnIDs, which
  passes exactly when they differ.
* *Packing is invertible for every layout.* `get` recovers every packed field of a layout of
  disjoint fields (`BitFields.GetRecovers`) and, wherever two fields share a bit, some values
  are not recovered (`BitFields.OverlapLoses`).

## Where code and documentation differ

The model follows the code. The project's overview page and design document speak of a 64-bit
packet, CRC, error injection, RespErr propagation and a shared egress arbiter; the RTL has none
of them. The header of `tools/cdc_check.py` speaks of every sequential element; the
code passes over elements whose clock is neither of the two (tools/cdc_check.py:132-133) and
sources whose clock is unknown, and the theorem here says exactly that much. The comment at
src/tag_manager.v:47-48 says the pool always gets back what was taken out; see above.

## Model

| member | source | states |
|---|---|---|
| GrayCode.DecodeEncode | src/async_fifo.v:68-86 | decoding inverts encoding at every width |
| GrayCode.EncodeDecode | src/async_fifo.v:68-86 | and encoding inverts decoding |
| GrayCode.DecodeLoop | src/async_fifo.v:69-74 | the bit loop finds the number whose Gray code it was given |
| GrayCode.OneBitChange | src/async_fifo.v:79-117 | the Gray codes of a register value and of its wrapping increment differ in exactly one bit |
| GrayCode.MixedSample | src/async_fifo.v:53-64 | any mix of the bits of an old and a new Gray pointer is the old or the new pointer |
| GrayCode.FullTest | src/async_fifo.v:37-39 | the XOR of two Gray pointers is the full mask exactly when the binary ones are half the range apart |
| AsyncFifo.FullFlag | src/async_fifo.v:76-77 | on counts at most DEPTH apart the mask test is "difference equals DEPTH", wrap included |
| AsyncFifo.AsyncFifo.constructor | src/async_fifo.v:41-54 | the registers after reset stand for the empty queue |
| AsyncFifo.AsyncFifo.AsyncReset | src/async_fifo.v:56-113 | asynchronous reset of both domains empties the queue and touches no memory |
| AsyncFifo.AsyncFifo.WFull | src/async_fifo.v:76 | the flag holds exactly when reported occupancy is DEPTH |
| AsyncFifo.AsyncFifo.REmpty | src/async_fifo.v:107 | the flag holds exactly when everything visible has been read |
| AsyncFifo.AsyncFifo.RData | src/async_fifo.v:119 | the word shown is the oldest unread item |
| AsyncFifo.AsyncFifo.WOccupancy | src/async_fifo.v:69-77 | occupancy through the decode loop is the count written less the synchronized count read |
| AsyncFifo.AsyncFifo.Edges | src/async_fifo.v:56-117 | any combination of edges, resets and mixed samples does to the registers and memory what the queue specification does to its history |
| AsyncFifo.SlotWritten | src/async_fifo.v:84 | a write overwrites only the slot of the item DEPTH places back |
| AsyncFifo.RegistersFollow | src/async_fifo.v:56-117 | pointer and synchronizer registers stay the Gray images of the unbounded counts |
| FifoSpec.Queue.EdgesOrdered | src/async_fifo.v:141-256 | rs1 <= rs0 <= rcnt <= ws1 <= ws0 <= wcnt <= rs1 + DEPTH is kept by every instant |
| FifoSpec.Queue.EdgesContents | src/async_fifo.v:41-119 | contents behave as a plain queue: append what is written, drop the oldest when read |
| FifoSpec.RunSound | src/async_fifo.v:141-256 | in every run, with any resets and any skew between the two releases, items read are a prefix of items written, in order, and reported occupancy lies between the truth and DEPTH |
| FifoSpec.Latency | src/async_fifo.v:53-107 | an item is visible after two read edges and a freed slot after two write edges, whatever else happens |
| ResetSync.ReleasedStays | src/reset_sync.v:16-23 | a released cell stays released under clock edges, and two edges always release |
| ResetSync.ReleasedAfterTwo | src/reset_sync.v:16-23 | a cell is released after two edges and not before |
| ResetSync.ResetCell.Edge | src/reset_sync.v:16-23 | one clock edge shifts a one into the cell |
| SyncFifo.SyncFifo.Edge | src/sync_fifo.v:38-58 | one edge of the circular buffer is one edge of a bounded queue, a full buffer refusing a write even when it is read |
| SyncFifo.SyncFifo.RdData | src/sync_fifo.v:36 | the word shown is the oldest item |
| SyncFifo.WrapIsLowBits | src/sync_fifo.v:53-56 | the pointer step is addition modulo DEPTH |
| TagManager.TagManager.Edge | src/tag_manager.v:56-109 | one edge of counter, pool and state RAM is one edge of the tag specification |
| TagManager.TagManager.AsyncReset | src/tag_manager.v:61-64 | reset empties the pool and restarts the fill, the state RAM keeping its words |
| TagManager.TagManager.Lookup | src/tag_manager.v:111-123 | the lookup is the model's RAM word of the tag; that this is the live owner's entry is `Theorems.TagsNeverShared` |
| TagManager.EdgeAccount | src/tag_manager.v:56-99 | every tag is in the pool or held outside it, once in all, on every edge, fill included, and no pool write finds it full |
| TagManager.HeldAreDistinct | src/tag_manager.v:74-99 | tags held outside are distinct, none is in the pool, and the pool has no repeats |
| TagLedger.TagsExclusive | src/tag_manager.v:74-123 | live transactions have distinct tags, disjoint from the pool |
| TagLedger.ClkEdgeTags | src/tag_manager.v:74-109 | the exact effect of allocation, refusal and double release on the four places a tag can be |
| Flits.Beats | src/chi_to_cxl_bridge_defs.vh:278-288 | every Size encoding means one to MAX_BEATS beats |
| BridgeRtl.ChiToCxlBridge.constructor | src/chi_to_cxl_bridge.v:339-410 | the composed registers start in the reset state of the model |
| BridgeRtl.ChiToCxlBridge.AsyncReset | src/chi_to_cxl_bridge.v:85-94 | assertion of `rst_n` brings every register back to the reset state, state RAM excepted |
| BridgeRtl.ChiToCxlBridge.DriveAccept | src/chi_to_cxl_bridge.v:244-280 | a request is taken when offered, open, tagged and with room and credit for its opcode, written out in numbers; tagged request, DBIDResp and WrData as the model has them |
| BridgeRtl.ChiToCxlBridge.DriveReply | src/chi_to_cxl_bridge.v:302-337 | both responses are handed over exactly when valid and ready, valid being what the FIFOs show; merge, TxnID recovery, read-beat counter and release ports as the model has them |
| BridgeRtl.ChiToCxlBridge.DriveEgress | src/chi_to_cxl_bridge.v:362-389 | Req and RwD are handed over exactly when valid and ready, independently of each other; flits and write-beat counter as the model has them |
| BridgeRtl.ChiToCxlBridge.DriveIngress | src/chi_to_cxl_bridge.v:270-271 | S2M flits are taken exactly when valid, open and with room, independently of each other, and translated |
| BridgeRtl.ChiToCxlBridge.Edges | src/chi_to_cxl_bridge.v:334-410 | one instant of all registers is one instant of the model, for some outcome of every synchronizer race |
| BridgeRtl.ClockedIsInstant | src/chi_to_cxl_bridge.v:334-410 | the two half-instants of the model, taken in sequence, are the simultaneous update of the registers |
| System.InstantFifos | src/chi_to_cxl_bridge.v:383-410 | an instant of the bridge is an instant of each of its FIFOs, on the ports the RTL connects |
| System.HeadRecovered | src/chi_to_cxl_bridge.v:317-337 | the state RAM gives the right LEN and TxnID for the beat at the head of the drs FIFO |
| System.NdrRecovered | src/chi_to_cxl_bridge.v:310-325 | and the right TxnID for the completion at the head of the ndr FIFO |
| Runs.StepKeeps | src/chi_to_cxl_bridge.v:244-410 | the invariant of the whole system is kept by every instant that the device's contract allows |
| Runs.ReachableInv | src/chi_to_cxl_bridge.v:244-410 | it holds in every reachable state |
| Pins.LedgerIsTraffic | src/chi_to_cxl_bridge.v:264-410 | over every run from reset, what the ledger records on every channel is what was valid while ready on the pins, flit for flit, requests split by opcode |
| Guarantees.CrossingMoves | src/chi_to_cxl_bridge.v:325-410 | at each instant ledger, FIFO pops and FIFO pushes move by what is valid while ready, and by nothing else |
| Guarantees.RequestTaken | src/chi_to_cxl_bridge.v:264-280 | a request is taken exactly when offered, open, a tag free, and a place and a credit left where its opcode sends it, whatever the other side holds; it gets the head tag, and a write its DBIDResp |
| Guarantees.FlitsEncoded | src/chi_to_cxl_bridge.v:115-185 | every flit ever sent carries the fields, in numbers, of its transaction, and the state RAM the LEN, TxnID and SrcID of each live one |
| Guarantees.RoutedByOpcode | src/chi_to_cxl_bridge_defs.vh:291-301 | over every run, requests with opcodes 0x1D, 0x1C and 0x19 get their DBIDResp in order and leave on RwD, all others leave on Req in order, and no known opcode leaves as MemInv |
| Guarantees.ReleasedByTwoEdges | src/reset_sync.v:16-23 | each domain is out of reset from its own second edge on and not before |
| Theorems.ReadsServed | src/chi_to_cxl_bridge.v:310-350 | each accepted read gets the device's beats 0, 1, ... under its own TxnID and at most LEN of them, with data, poison and constants in numbers; the beat counter stays below the stored LEN |
| Releases.FreedOnLastBeat | src/chi_to_cxl_bridge.v:325-337 | in every reachable state port B releases exactly when the CompData pins hand over the LEN-th beat of the read at the head, and releases that read's tag |
| Releases.PooledMeansServed | src/chi_to_cxl_bridge.v:325-337 | a read whose tag is in the pool has had all its LEN beats |
| Releases.FreedOnce | src/chi_to_cxl_bridge.v:325-337 | over every run from reset port B frees a read's tag once if LEN beats were delivered, else not at all |
| Releases.TagInOnePlace | src/tag_manager.v:74-123 | tags waiting in the posted, np, ndr and drs FIFOs are not in the pool, and no two waiting items carry the same one but for the beats of one burst |
| Theorems.TagsNeverShared | src/tag_manager.v:74-123 | in every reachable state live tags are distinct and not in the pool, and the state RAM still describes their owners |
| Theorems.TagsAccounted | src/tag_manager.v:56-99 | pool, live, leaked and dropped tags make up N_TAGS |
| Guarantees.ReachableStep | src/chi_to_cxl_bridge.v:244-410 | a step allowed by the contract leads from a reachable state to a reachable state |
| Guarantees.OccupancyHonest | src/chi_to_cxl_bridge.v:253-268 | reported occupancy of each request FIFO is between the truth and DEPTH and never above its own credit parameter, nor that modulo 2^16 |
| Guarantees.TagsConserved | src/chi_to_cxl_bridge.v:264-268 | over every run, tags present and losing edges make up N_TAGS; none is missing exactly when no edge lost one |
| Guarantees.TagsLostOnlySo | src/tag_manager.v:74-99 | an edge loses a tag exactly when the pins show an offer with a tag free that is not taken, or a Comp and a last read beat taken together; a returned tag always finds room |
| Guarantees.AllLostNeverRecovers | src/chi_to_cxl_bridge.v:264-268 | once all tags are lost no later state accepts a request |
| Guarantees.CanBlockForever | src/chi_to_cxl_bridge.v:264-288 | under all parameters a state is reachable after which no request is ever accepted |
| Witnesses.AllTagsCanBeLost | src/chi_to_cxl_bridge.v:264-288 | under all parameters a state is reachable in which sixteen tags have been lost to refused requests |
| Witnesses.DoubleReleaseDropsTag | src/tag_manager.v:74-99 | under all parameters that accept a read and a write, a state is reachable in which a double release has dropped a tag |
| Streams.WritesSent | src/chi_to_cxl_bridge.v:364-401 | RwD is a prefix of the expansion of the accepted writes, paired with WrData in order, every field in numbers; the beat counter stays below LEN and is zero when no write is visible |
| Streams.ResponsesMerged | src/chi_to_cxl_bridge.v:268-325 | RSP interleaves two in-order streams: one DBIDResp per accepted write, none lost, and one Comp per completion with its write's TxnID, in numbers; the writes are the requests with opcodes 0x1D, 0x1C and 0x19 |
| Guarantees.RspPopsOneSource | src/chi_to_cxl_bridge.v:268-315 | each RSP handshake pops exactly one of the ndr FIFO and the DBIDResp FIFO and delivers what is due: the Comp under the TxnID of the write that owns the tag, or the DBIDResp of the oldest write without one; each accepted write appends its DBIDResp, and nothing else moves either source |
| Streams.HeadEntryStays | src/chi_to_cxl_bridge.v:317-323 | the state RAM word behind a waiting CompData beat cannot be overwritten |
| Guarantees.StalledFlitsHold | src/chi_to_cxl_bridge.v:352-381 | a Req, RwD or CompData flit that is not taken keeps valid and every bit over any number of edges of both clocks |
| Drain.OwedMeansInFlight | src/chi_to_cxl_bridge.v:325-389 | work owed is never negative, and zero exactly when every accepted read has had its beats and every accepted write its DBIDResp, burst and Comp |
| Guarantees.WorkOwedStep | src/chi_to_cxl_bridge.v:325-389 | accepting a request adds a cost fixed by its opcode and LEN, each flit handed over later on the pins takes one off, nothing else changes it |
| Guarantees.DrainEnds | src/chi_to_cxl_bridge.v:325-389 | a drain is over after exactly as many flits on the pins as were owed, and then FIFOs, counters and tags are at rest |
| Progress.DrainsInLaps | verification/pyuvm/agents/chi_cxl_agent.py:80-223 | with the always-ready host and device, an open link and write data supplied, three laps of the clocks for each handshake owed empty the system from any state, for every order of edges and every synchronizer race |
| Progress.CanDrain | verification/pyuvm/agents/chi_cxl_agent.py:80-223 | so every state the bridge can be in with this device has a continuation that empties it |
| Responder.CxlResponder.TakeReq | verification/pyuvm/agents/chi_cxl_agent.py:176-186 | a Req queues LEN answers with its tag and the pattern of its address |
| Responder.CxlResponder.TakeRwd | verification/pyuvm/agents/chi_cxl_agent.py:187-201 | a burst queues its completion with its LEN-th beat |
| Responder.CxlResponder.DrsLoop | verification/pyuvm/agents/chi_cxl_agent.py:203-212 | the DRS pin shows the oldest answer until it is taken |
| Responder.CxlResponder.NdrLoop | verification/pyuvm/agents/chi_cxl_agent.py:214-223 | likewise for completions |
| Responder.CxlResponder.Edge | verification/pyuvm/agents/chi_cxl_agent.py:163-223 | one edge of the three loops is one step of the device |
| DeviceRun.DrsTracked | verification/pyuvm/agents/chi_cxl_agent.py:203-212 | a DRS beat taken is the next beat of the oldest unanswered Req, with its tag and its address's data |
| DeviceRun.NdrTracked | verification/pyuvm/agents/chi_cxl_agent.py:214-223 | an NDR taken completes the oldest write whose burst is over, once |
| DeviceRun.RwdTracked | verification/pyuvm/agents/chi_cxl_agent.py:187-201 | the device's beat count is the beat's place in its burst, and the LEN-th beat makes the write completable |
| DeviceRun.OutstandingNext | verification/pyuvm/agents/chi_cxl_agent.py:184-186 | the queue of answers is the rest of the current burst and all later ones |
| DeviceRun.EdgeAllowed | verification/pyuvm/agents/chi_cxl_agent.py:173-223 | what the device offers is allowed by the contract, in every state it can be in with the bridge |
| DeviceRun.WorldStepGood | verification/pyuvm/agents/chi_cxl_agent.py:173-223 | bridge, ledger and device stay in step over every instant |
| DeviceRun.DeviceRunsAreReachable | verification/pyuvm/agents/chi_cxl_agent.py:151-223 | every run of the bridge with this device, whatever the host does, is one of the runs the theorems speak of |
| Bench.Run | verification/pyuvm/agents/chi_cxl_agent.py:151-223 | register-level bridge and device object, clocked in a loop by any stimuli, end in the state of such a run |
| CdcCheck.CellIo | tools/cdc_check.py:66-78 | the loop computes inputs and outputs of a cell |
| CdcCheck.IoIs | tools/cdc_check.py:66-78 | a bit is an input or an output exactly when some pin of that direction has it, with the fallback for cells without directions |
| CdcCheck.ClockDomain | tools/cdc_check.py:58-64 | the loop computes the domain of a clock connection |
| CdcCheck.DomainIs | tools/cdc_check.py:58-64 | the first bit on a clock net names the domain, and without one there is none |
| CdcCheck.FindMems | tools/cdc_check.py:86-92 | the first pass |
| CdcCheck.Classify | tools/cdc_check.py:80-127 | both passes |
| CdcCheck.MemIs | tools/cdc_check.py:86-92 | a RAM has the domain of its last write port on a named clock, or none |
| CdcCheck.ColorIs | tools/cdc_check.py:98-112 | a bit ends a cone when a flip-flop or RAM read drives it, and the last such cell gives its domain |
| CdcCheck.DriverIs | tools/cdc_check.py:119-123 | otherwise the last combinational cell that outputs it is followed |
| CdcCheck.ElementsAre | tools/cdc_check.py:98-118 | exactly the flip-flops, RAM reads and RAM writes are checked, each with its cone |
| CdcCheck.Trace | tools/cdc_check.py:129-149 | the search ends on every netlist and reports each foreign source that some path of combinational drivers leads to, once, and nothing else |
| CdcCheck.Check | tools/cdc_check.py:40-56 | missing top or clock ports are told apart, and a report is exact element by element |
| CdcMeaning.RankImmaterial | tools/cdc_check.py:129-149 | values on a netlist without combinational loops do not depend on how it is ranked |
| CdcMeaning.DifferenceTraced | tools/cdc_check.py:129-149 | a difference in a bit's value comes along a path from a bit that differs |
| CdcMeaning.DecidesIsReaches | tools/cdc_check.py:129-149 | a register can decide an element's input, for some meaning of the cells, exactly when the search reaches it |
| CdcMeaning.ReportedIsDecided | tools/cdc_check.py:129-149 | what is reported is exactly the foreign registers that can decide an input |
| CdcMeaning.PassIsIndependence | tools/cdc_check.py:129-171 | the check passes exactly when, whatever the cells compute, registers and RAM reads of the other domain cannot change any checked input |
| CdcCells.PassIsSafety | tools/cdc_check.py:80-171 | on a netlist without loops of gates the check passes exactly when, for all values that obey the gates, no input of a flip-flop but its clock, no ADDR or EN of a RAM read and no ADDR, DATA or EN of a RAM write shows state of the other domain; cells and pins by their Yosys names |
| CdcCells.ReportIsExact | tools/cdc_check.py:94-149 | on every netlist, loops included, the report has a line exactly for each such pin's cell and each foreign Q or RAM-read DATA bit that a chain of gates leads from, with both domains and the printed label |
| CdcCells.LivesIs | tools/cdc_check.py:86-117 | a flip-flop lives on its clock, a RAM port where the RAM is last written on a named clock, and only a read port without such a writer on its own clock |
| CdcCells.GraphIs | tools/cdc_check.py:98-123 | exactly Q and RAM-read DATA bits end a cone and exactly gate outputs lead on, the last cell winning |
| CdcCells.ClockNetsAre | tools/cdc_check.py:52-54 | the clock nets are the nets of the named port |
| BitFields.GetIs | verification/common/models/bridge_model.py:124-126 | `get` is division by 2^lsb modulo 2^width |
| BitFields.Pack | verification/common/models/bridge_model.py:129-135 | the loop with shift and or |
| BitFields.PackedBit | verification/common/models/bridge_model.py:129-135 | a bit of the result is set exactly when a field that covers it sets it |
| BitFields.GetRecovers | verification/common/models/bridge_model.py:124-135 | from disjoint fields `get` recovers every packed value modulo its width |
| BitFields.OverlapLoses | verification/common/models/bridge_model.py:124-135 | where two fields share a bit some value is not recovered |
| BitFields.PackRebuilds | verification/common/models/bridge_model.py:124-135 | packing all fields of a tiling layout rebuilds the number |
| BitFields.SliceIsGet | src/chi_to_cxl_bridge.v:115-185 | a slice read of a register is `get` of its value |
| BitFields.AssignedAllIsPacked | src/chi_to_cxl_bridge.v:115-185 | slice assignments that tile a register, in any order and over any old value, give the packed number |
| PackedFlits.ChiMapsTile | src/chi_to_cxl_bridge_defs.vh:108-166 | the CHI field maps tile their flits for every data width |
| PackedFlits.CxlMapsTile | src/chi_to_cxl_bridge_defs.vh:168-247 | so do the CXL field maps |
| PackedFlits.PythonMaps | verification/common/models/bridge_model.py:18-60 | the three maps whose fields move with the data width are, at 512 bits, the numbers written in the gold model |
| PackedFlits.TablesAgree | verification/common/models/bridge_model.py:107-170 | on every opcode and Size the RTL's tables are the gold model's, and both are these numbers |
| PacketTrips.ChiMapsAgree | src/chi_to_cxl_bridge_defs.vh:108-166 | the header's chained positions of the CHI fields are those of the gold model's maps, at every data width |
| PacketTrips.CxlMapsAgree | src/chi_to_cxl_bridge_defs.vh:168-247 | so are those of the CXL fields |
| PackedFlits.TranslateChiReqToCxl | src/chi_to_cxl_bridge.v:115-134 | the RTL function on any request, tag and uninitialized register is the gold model's number |
| PackedFlits.TranslateChiWrToCxl | src/chi_to_cxl_bridge.v:136-156 | the same for a write beat, at every data width |
| PackedFlits.TranslateCxlNdrToChi | src/chi_to_cxl_bridge.v:158-169 | the RTL function packs a Comp with an empty TxnID |
| PackedFlits.CompRecovered | verification/common/models/bridge_model.py:173-181 | with the TxnID put in, that is the gold model's Comp |
| PackedFlits.TranslateCxlDrsToChi | src/chi_to_cxl_bridge.v:171-185 | the RTL function packs CompData with the tag for TxnID |
| PackedFlits.CompDataRecovered | verification/common/models/bridge_model.py:184-188 | with the TxnID put in, that is the gold model's CompData |
| PackedFlits.ReqByFields | verification/common/models/bridge_model.py:147-158 | the gold model's Req is the packed image of the bridge model's flit |
| PackedFlits.RwdByFields | verification/common/models/bridge_model.py:161-170 | likewise RwD |
| PackedFlits.CompByFields | verification/common/models/bridge_model.py:173-181 | likewise Comp |
| PackedFlits.CompDataByFields | verification/common/models/bridge_model.py:184-188 | likewise CompData |
| PackedFlits.DeviceReadsReq | verification/pyuvm/agents/chi_cxl_agent.py:177-180 | from a Req the device reads the tag, the address, the LEN for the Size, and 1, 2 or 5 for opcode 0x04, 0x03 or any other |
| PackedFlits.DeviceReadsRwd | verification/pyuvm/agents/chi_cxl_agent.py:188-195 | from a RwD beat it reads tag, address, LEN, poison, byte enables and data, and 4 for opcode 0x1C, 3 for any other |
| PackedFlits.HostReadsComp | verification/pyuvm/agents/chi_cxl_agent.py:87-97 | the host reads back TxnID and DBID from a Comp, and opcode 4 |
| PackedFlits.HostReadsCompData | verification/pyuvm/agents/chi_cxl_agent.py:99-106 | and TxnID, data and poison from a beat of CompData, at every data width |
| PacketTrips.RequestRead | verification/common/models/bridge_model.py:191-194 | from a built CHI request the bridge reads the opcode, address, TxnID, SrcID and Size put in |
| PacketTrips.ReadTrip | verification/common/models/bridge_model.py:147-158 | from the Req of a built CHI read the device reads the address put in, its tag, and MemOpcode and LEN in numbers |
| PacketTrips.WriteTrip | verification/common/models/bridge_model.py:161-170 | likewise a write, with data, byte enables and poison, at every data width |
| PacketTrips.CompTrip | verification/common/models/bridge_model.py:173-181 | the tag packed into a NDR comes back as DBID under the TxnID recovered |
| PacketTrips.CompDataTrip | verification/common/models/bridge_model.py:184-188 | data and poison packed into a DRS beat come back, and the bridge finds its tag |
| Scoreboard.GroupByTxn | verification/pyuvm/env.py:60-62 | beats grouped by TxnID, in order of arrival |
| Scoreboard.ExpectationsAgree | verification/pyuvm/env.py:32-37 | bridge, gold model and scoreboard read every opcode alike, as numbers |
| Scoreboard.CheckRead | verification/pyuvm/env.py:72-90 | a read adds an error of each kind exactly when that field of its Req, its beat count or that beat is wrong |
| Scoreboard.CheckReads | verification/pyuvm/env.py:67-90 | the read errors are exactly the wrong count and what is wrong with each read that has a Req of its number |
| Scoreboard.CheckWrite | verification/pyuvm/env.py:99-119 | a write adds an error exactly for each wrong field of each beat the stream still has for it and for a missing Comp, and the next write starts after those beats |
| Scoreboard.CheckWrites | verification/pyuvm/env.py:92-119 | the write errors are exactly the wrong count, each missing Comp, and each wrong field of a beat at its place in the flat stream |
| Scoreboard.InPlace | verification/pyuvm/env.py:99-119 | at its place in a long enough stream that is: the write is right |
| Scoreboard.CheckPhase | verification/pyuvm/env.py:49-127 | the errors collected are exactly what is wrong with the run, and none exactly when it is right |
| GoldRun.ReadsOfRun | verification/pyuvm/env.py:67-90 | in a completed run the read checks pass exactly when the reads' TxnIDs are distinct |
| GoldRun.WritesOfRun | verification/pyuvm/env.py:92-119 | and the write checks always pass |
| GoldRun.QuietRunPasses | verification/pyuvm/env.py:49-127 | a completed run of bridge and device passes exactly when something was driven and no two reads shared a TxnID |
| CompletedRuns.TwoReadsComplete | verification/pyuvm/env.py:49-127 | for any two TxnIDs there is a completed run of two reads with them, and it passes exactly when they differ |

## Left out

Nothing was executed; the sources are the repository's code, tests and documentation.

- BridgeSpec: `bridge_open` and `bridge_open_cxl` are free inputs, so src/reset_drain.v and "`drain_done` means nothing in flight" are not modelled; the synchronized empty flags lag the FIFOs.
- Guarantees.StalledFlitsHold: does not cover `chi_rsp_data`, which is not stable: a completion that arrives replaces a stalled DBIDResp; the merge of the two streams is proved instead.
- Progress.DrainsInLaps: the host may hold nothing back; a host or device that never takes a flit stalls the bridge for ever, and `Guarantees.DrainEnds` then only counts what is left.
- Streams.WritesSent: WrData accepted while the `clk` domain is still in reset is not counted; `chi_wr_data_ready` is high then and the beat is not stored.
- Theorems.ReadsServed: assumes the device's contract, LEN contiguous beats for each Req and one NDR after the last RwD beat; a device that interleaves the bursts of two reads is outside it.
- DeviceRun.DeviceRunsAreReachable: bridge and device start from reset together; a reset of the bridge alone with answers pending in the device is not covered.
- Responder.CxlResponder.Edge: the three loops run in the order in which they are started; scheduling in another order at the same edge is not modelled.
- GoldRun.QuietRunPasses: `ChiDriver` and `ChiRspMonitor` appear through what they record; the driver's wait for DBIDResp is not needed and not modelled.
- AsyncFifo.AsyncFifo.Edges: a synchronizer catches some mix of old and new bits of one pointer change; metastability that lasts beyond the two stages is not modelled.
- SyncFifo.SyncFifo.Edge: DEPTH = 1 would give the RTL a pointer register of no bits, and is not used; the model's pointer is then always zero.
- CdcCheck.Check: starts from a netlist in memory; JSON loading, printing and the exit code are left out.
- CdcMeaning.PassIsIndependence: speaks of netlists without combinational loops, where the value of every net is determined; the search itself is exact on all netlists.
- BitFields.Pack: field values are natural numbers; Python's negative integers do not occur.
- The read-data and write-data patterns are arbitrary functions of address and beat, or of data and beat.
- The snoop path, the status counters, src/credit_counter.v, src/credit_pulse_sync.v and src/cdc_sync.v: a fixed answer through the two-deep buffer, saturating or maximum updates, and modules the datapath does not use.
- CRC, error injection and RespErr: described in the documentation and absent from the RTL.
- cocotb and SV-UVM plumbing, sequences, coverage, test benches, build files, Docker, `tools/swarm`, `tools/coverage_report.py` and `tools/trace_compare.py`: I/O or folds over logs.
