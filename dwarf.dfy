/**
 * DWARF call-frame information for x86-64: the register numbering of the
 * System V psABI (figure 3.36), the call-frame instructions the unwind
 * builders emit, the common information entry both x86-64 back ends
 * start every frame with, and an interpreter of call-frame instructions
 * (section 6.4 of the DWARF 5 standard) that gives those instructions
 * their meaning.
 */
module Dwarf {
  import opened Base

  /** A DWARF register number. */
  type DwarfReg = U16

  const RAX: DwarfReg := 0
  const RDX: DwarfReg := 1
  const RCX: DwarfReg := 2
  const RBX: DwarfReg := 3
  const RSI: DwarfReg := 4
  const RDI: DwarfReg := 5
  const RBP: DwarfReg := 6
  const RSP: DwarfReg := 7
  const RA: DwarfReg := 16
  const XMM0: DwarfReg := 17

  /** DWARF numbers of the general-purpose registers, indexed by hardware
   *  encoding (rax, rcx, rdx, rbx, rsp, rbp, rsi, rdi, r8 .. r15). */
  const GP_REG_MAP: seq<DwarfReg> := [RAX, RCX, RDX, RBX, RSP, RBP, RSI, RDI, 8, 9, 10, 11, 12, 13, 14, 15]

  /** DWARF numbers of xmm0 .. xmm15, indexed by hardware encoding. */
  const XMM_REG_MAP: seq<DwarfReg> := [17, 18, 19, 20, 21, 22, 23, 24, 25, 26, 27, 28, 29, 30, 31, 32]

  /** The hardware encoding of the general-purpose register with a DWARF number. */
  function GpHwOf(d: DwarfReg): (r: Option<nat>)
    ensures r.Some? ==> r.value < 16 && GP_REG_MAP[r.value] == d
  {
    if d == RAX then Some(0) else if d == RCX then Some(1) else if d == RDX then Some(2)
    else if d == RBX then Some(3) else if d == RSP then Some(4) else if d == RBP then Some(5)
    else if d == RSI then Some(6) else if d == RDI then Some(7)
    else if 8 <= d <= 15 then Some(d as nat) else None
  }

  /** The general-purpose table is a bijection between hardware encodings
   *  and DWARF numbers 0 .. 15, and it never yields RA or an XMM number. */
  lemma {:induction false} GpRegMapInverse(hw: nat)
    requires hw < 16
    ensures GP_REG_MAP[hw] < RA
    ensures GpHwOf(GP_REG_MAP[hw]) == Some(hw)
  {
    assert GP_REG_MAP[hw] == [0, 2, 1, 3, 7, 6, 4, 5, 8, 9, 10, 11, 12, 13, 14, 15][hw];
  }

  lemma GpRegMapInjective(a: nat, b: nat)
    requires a < 16 && b < 16 && GP_REG_MAP[a] == GP_REG_MAP[b]
    ensures a == b
  {
    GpRegMapInverse(a);
    GpRegMapInverse(b);
  }

  /** XMM register k has DWARF number 17 + k, above RA. */
  lemma XmmRegMapShape(hw: nat)
    requires hw < 16
    ensures XMM_REG_MAP[hw] == XMM0 + hw && XMM_REG_MAP[hw] > RA
  {
  }

  /** The call-frame instructions the unwind builders emit.  Offsets are
   *  byte offsets from the CFA, not yet divided by the data alignment. */
  datatype CallFrameInstruction =
    | Cfa(reg: DwarfReg, offset: I32)
    | CfaRegister(reg: DwarfReg)
    | CfaOffset(offset: I32)
    | Offset(reg: DwarfReg, offset: I32)
    | SameValue(reg: DwarfReg)
    | RememberState
    | RestoreState

  datatype Format = Dwarf32 | Dwarf64

  datatype CommonInformationEntry = CommonInformationEntry(
    addressSize: U8,
    format: Format,
    version: U16,
    codeAlignmentFactor: U8,
    dataAlignmentFactor: int,
    returnAddressRegister: DwarfReg,
    instructions: seq<CallFrameInstruction>)

  /** The x86-64 CIE: 8-byte addresses, DWARF32, code alignment 1, data
   *  alignment -8, RA as the return-address column, and initial rules
   *  CFA = RSP + 8 and "return address saved at CFA - 8". */
  function CreateCie(): (cie: CommonInformationEntry)
    ensures cie.addressSize == 8 && cie.format == Dwarf32 && cie.version == 1
    ensures cie.codeAlignmentFactor == 1 && cie.dataAlignmentFactor == -8
    ensures cie.returnAddressRegister == RA
  {
    CommonInformationEntry(8, Dwarf32, 1, 1, -8, RA, [Cfa(RSP, 8), Offset(RA, -8)])
  }

  /** At a function's entry the CIE says: the CFA is RSP + 8 (the call
   *  pushed the return address) and the return address is saved at CFA - 8. */
  lemma {:induction false} CieInitialRow()
    ensures InitialRow(CreateCie()) == Some(CfiState(Row(RSP, 8, map[RA := SavedAt(-8)]), []))
  {
    var empty := CfiState(Row(0, 0, map[]), []);
    var instrs := CreateCie().instructions;
    var s1 := CfiState(Row(RSP, 8, map[]), []);
    assert Step(empty, instrs[0]) == Some(s1);
    assert Step(s1, instrs[1]) == Some(CfiState(Row(RSP, 8, map[RA := SavedAt(-8)]), []));
    assert instrs[1..][1..] == [];
  }

  // ---- meaning of call-frame instructions ----

  /** How to recover a register's value in the caller's frame. */
  datatype RegisterRule = SameValueRule | SavedAt(cfaOffset: int)

  /** One row of the call-frame table: the CFA is `cfaReg + cfaOffset`. */
  datatype Row = Row(cfaReg: DwarfReg, cfaOffset: int, rules: map<DwarfReg, RegisterRule>)

  /** The current row and the stack of rows saved by `RememberState`. */
  datatype CfiState = CfiState(row: Row, saved: seq<Row>)

  /** Executes one instruction; `RestoreState` with nothing remembered is
   *  an error (None). */
  function Step(st: CfiState, i: CallFrameInstruction): (r: Option<CfiState>)
    ensures r.None? <==> (i.RestoreState? && st.saved == [])
    ensures r.Some? && i.CfaOffset? ==> r.value.row == st.row.(cfaOffset := i.offset)
    ensures r.Some? && i.RememberState? ==> r.value.saved == st.saved + [st.row]
    ensures r.Some? && i.RestoreState? ==>
      r.value.row == st.saved[|st.saved| - 1] && r.value.saved == st.saved[..|st.saved| - 1]
  {
    match i
    case Cfa(reg, off) => Some(st.(row := st.row.(cfaReg := reg, cfaOffset := off)))
    case CfaRegister(reg) => Some(st.(row := st.row.(cfaReg := reg)))
    case CfaOffset(off) => Some(st.(row := st.row.(cfaOffset := off)))
    case Offset(reg, off) => Some(st.(row := st.row.(rules := st.row.rules[reg := SavedAt(off)])))
    case SameValue(reg) => Some(st.(row := st.row.(rules := st.row.rules[reg := SameValueRule])))
    case RememberState => Some(st.(saved := st.saved + [st.row]))
    case RestoreState =>
      if st.saved == [] then None
      else Some(CfiState(st.saved[|st.saved| - 1], st.saved[..|st.saved| - 1]))
  }

  function Run(st: CfiState, instrs: seq<CallFrameInstruction>): (r: Option<CfiState>)
    decreases |instrs|
  {
    if instrs == [] then Some(st)
    else match Step(st, instrs[0])
      case None => None
      case Some(st') => Run(st', instrs[1..])
  }

  lemma {:induction false} RunAppend(st: CfiState, a: seq<CallFrameInstruction>, b: seq<CallFrameInstruction>)
    ensures Run(st, a + b) == (match Run(st, a) case None => None case Some(s) => Run(s, b))
    decreases |a|
  {
    if a != [] {
      assert (a + b)[0] == a[0];
      assert (a + b)[1..] == a[1..] + b;
      match Step(st, a[0])
      case None =>
      case Some(st') => RunAppend(st', a[1..], b);
    } else {
      assert a + b == b;
    }
  }

  /** The row in force at a function's entry: the CIE's instructions run
   *  from an empty table. */
  function InitialRow(cie: CommonInformationEntry): Option<CfiState>
  {
    Run(CfiState(Row(0, 0, map[]), []), cie.instructions)
  }

  /** Drops the code offsets from a list of located instructions. */
  function Instructions(located: seq<(U32, CallFrameInstruction)>): (r: seq<CallFrameInstruction>)
    ensures |r| == |located|
    ensures forall k :: 0 <= k < |r| ==> r[k] == located[k].1
  {
    if located == [] then [] else [located[0].1] + Instructions(located[1..])
  }

  lemma {:induction false} InstructionsAppend(a: seq<(U32, CallFrameInstruction)>, b: seq<(U32, CallFrameInstruction)>)
    ensures Instructions(a + b) == Instructions(a) + Instructions(b)
  {
    assert Instructions(a + b) == Instructions(a) + Instructions(b);
  }
}
