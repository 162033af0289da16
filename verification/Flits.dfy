/**
 Flits by field, opcodes, and the four translations of the bridge. `BitFields` and
 `PackedFlits` carry the same translations on packed vectors.
 */
module Flits {

  const MAX_BEATS: nat := 4
  const TAG_W: nat := 4
  const N_TAGS: nat := 16

  const CHI_REQ_READNOSNP: nat := 0x04
  const CHI_REQ_READONCE: nat := 0x03
  const CHI_REQ_WRITENOSNPFULL: nat := 0x1D
  const CHI_REQ_WRITENOSNPPTL: nat := 0x1C
  const CHI_REQ_WRITEUNIQUEFULL: nat := 0x19

  const CHI_RSP_COMP: nat := 4
  const CHI_RSP_DBIDRESP: nat := 3
  const CHI_DAT_COMPDATA: nat := 4
  const CHI_RESPERR_OK: nat := 0
  const CHI_CACHE_I: nat := 0

  const CXL_MEMRD: nat := 1
  const CXL_MEMRDDATA: nat := 2
  const CXL_MEMWR: nat := 3
  const CXL_MEMWRPTL: nat := 4
  const CXL_MEMINV: nat := 5

  type Tag = t: nat | t < N_TAGS

  datatype ChiReq = ChiReq(qos: nat, tgtId: nat, srcId: nat, txnId: nat, opcode: nat, addr: nat, size: nat,
                           memAttr: nat, order: nat)
  datatype ChiRsp = ChiRsp(srcId: nat, opcode: nat, txnId: nat, dbId: nat, respErr: nat)
  datatype ChiDat = ChiDat(opcode: nat, txnId: nat, resp: nat, respErr: nat, dataId: nat, poison: nat, be: nat,
                           data: nat)
  datatype CxlReq = CxlReq(memOp: nat, len: nat, snpType: nat, metaField: nat, metaValue: nat, tag: nat, addr: nat,
                           tc: nat)
  datatype CxlRwd = CxlRwd(memOp: nat, len: nat, tag: nat, addr: nat, metaField: nat, metaValue: nat, poison: nat,
                           be: nat, data: nat)
  datatype CxlNdr = CxlNdr(opcode: nat, metaField: nat, metaValue: nat, tag: Tag, devLoad: nat)
  datatype CxlDrs = CxlDrs(opcode: nat, metaField: nat, metaValue: nat, tag: Tag, devLoad: nat, poison: nat, data: nat)

  predicate IsWrite(opcode: nat) {
    opcode == CHI_REQ_WRITENOSNPFULL || opcode == CHI_REQ_WRITENOSNPPTL || opcode == CHI_REQ_WRITEUNIQUEFULL
  }

  /** Size holds the beat count directly; zero and out-of-range mean one beat. */
  function Beats(size: nat): (n: nat)
    ensures 1 <= n <= MAX_BEATS
    ensures n == size <==> 1 <= size <= MAX_BEATS
    ensures n != size ==> n == 1
  {
    if size == 0 || size > MAX_BEATS then 1 else size
  }

  function ReadMemOp(opcode: nat): nat {
    if opcode == CHI_REQ_READNOSNP then CXL_MEMRD
    else if opcode == CHI_REQ_READONCE then CXL_MEMRDDATA
    else CXL_MEMINV
  }

  function WriteMemOp(opcode: nat): nat {
    if opcode == CHI_REQ_WRITENOSNPPTL then CXL_MEMWRPTL else CXL_MEMWR
  }

  function TranslateReq(r: ChiReq, tag: nat): CxlReq {
    CxlReq(ReadMemOp(r.opcode), Beats(r.size), 0, 0, 0, tag, r.addr, 0)
  }

  function TranslateWrite(r: ChiReq, d: ChiDat, tag: nat): CxlRwd {
    CxlRwd(WriteMemOp(r.opcode), Beats(r.size), tag, r.addr, 0, 0, d.poison, d.be, d.data)
  }

  function TranslateNdr(f: CxlNdr): ChiRsp {
    ChiRsp(0, CHI_RSP_COMP, 0, f.tag, CHI_RESPERR_OK)
  }

  /** `allBe` is the all-ones byte enable of the configured data width. */
  function TranslateDrs(f: CxlDrs, allBe: nat): ChiDat {
    ChiDat(CHI_DAT_COMPDATA, f.tag, CHI_CACHE_I, CHI_RESPERR_OK, 0, f.poison, allBe, f.data)
  }

  /** The low TAG_W bits of a wider field. */
  function TagOf(field: nat): (t: Tag) {
    field % N_TAGS
  }
}
