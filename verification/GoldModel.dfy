/**
 The tables of the Python gold model, transcribed in numbers of their own, so that an error in
 the tables of `Flits` cannot hide in them.
 */
module GoldModel {

  /** MemOpcode of a Req: MemRd for ReadNoSnp, MemRdData for ReadOnce, MemInv for anything else. */
  function ReqMemOp(opcode: nat): nat {
    if opcode == 0x04 then 1 else if opcode == 0x03 then 2 else 5
  }

  /** MemOpcode of a RwD beat: MemWrPtl for WriteNoSnpPtl, MemWr for anything else. */
  function RwdMemOp(opcode: nat): nat {
    if opcode == 0x1C then 4 else 3
  }

  const WRITE_OPS: set<nat> := {0x1D, 0x1C, 0x19}

  predicate IsWrite(opcode: nat) { opcode in WRITE_OPS }

  function ChiReqBeats(size: nat): nat {
    if size == 0 || size > 4 then 1 else size
  }
}
