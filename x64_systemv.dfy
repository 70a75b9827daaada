/**
 * System V unwind information for the x64 back end: the register mapping
 * to DWARF numbers, and the scan of a lowered function's prologue and
 * epilogues that produces the back end's own unwind codes.
 */
module X64SystemV {
  import opened Base
  import opened X64Regs
  import Dwarf
  import UnwindIr

  /** The DWARF number of an allocator register: integer registers through
   *  the general-purpose table, vector registers through the XMM table,
   *  other classes unsupported. */
  function MapReg(reg: Reg): (r: Result<Dwarf.DwarfReg, UnwindIr.RegisterMappingError>)
    ensures r.Ok? <==> reg.cls in {I64, V128}
    ensures r.Err? ==> r.error == UnwindIr.UnsupportedRegisterBank("class?")
  {
    match reg.cls
    case I64 => Ok(Dwarf.GP_REG_MAP[reg.hw])
    case V128 => Ok(Dwarf.XMM_REG_MAP[reg.hw])
    case _ => Err(UnwindIr.UnsupportedRegisterBank("class?"))
  }

  /** Distinct mappable registers have distinct DWARF numbers; rsp is 7 and
   *  rbp is 6. */
  lemma MapRegInjective(a: Reg, b: Reg)
    requires MapReg(a).Ok? && MapReg(a) == MapReg(b)
    ensures a == b
    ensures MapReg(RSP) == Ok(Dwarf.RSP) && MapReg(RBP) == Ok(Dwarf.RBP)
  {
    if a.cls == I64 {
      Dwarf.GpRegMapInverse(a.hw);
    } else {
      Dwarf.XmmRegMapShape(a.hw);
    }
    if b.cls == I64 {
      Dwarf.GpRegMapInverse(b.hw);
    } else {
      Dwarf.XmmRegMapShape(b.hw);
    }
    if a.cls == I64 && b.cls == I64 {
      Dwarf.GpRegMapInjective(a.hw, b.hw);
    }
    assert Dwarf.GP_REG_MAP[4] == Dwarf.RSP && Dwarf.GP_REG_MAP[5] == Dwarf.RBP;
  }

  /** The stack pointer's DWARF number, as the scan's register mapper
   *  reports it to the System V builder. */
  function MapperRsp(): (r: Dwarf.DwarfReg)
    ensures r == Dwarf.RSP && MapReg(RSP) == Ok(r)
  {
    MapReg(RSP).value
  }

  // ---- lowered instructions, as far as the scan looks at them ----

  datatype RegMemImm = RmiReg(reg: Reg) | RmiMem | RmiImm(simm32: U32)

  datatype AluRmiROpcode = Add | Sub | And | Or | Xor | Mul

  datatype Amode = ImmReg(simm32: U32, base: Reg) | ImmRegRegShift(simm32: U32, base: Reg, index: Reg, shift: U8)

  datatype SyntheticAmode = Real(amode: Amode) | NominalSPOffset(simm32: U32)

  datatype Inst =
    | Push64(pushed: RegMemImm)
    | MovRR(is64: bool, movSrc: Reg, movDst: Reg)
    | AluRmiR(is64: bool, op: AluRmiROpcode, operand: RegMemImm, aluDst: Reg)
    | MovRM(stored: Reg, address: SyntheticAmode)
    | OtherInst

  /** The back end's unwind codes (distinct from the shared intermediate
   *  codes: sizes and save slots, no code offsets inside). */
  datatype UnwindCode =
    | StackAlloc(size: U32)
    | StackDealloc(size: U32)
    | SaveRegister(reg: Reg, stackOffset: U32)
    | SetFramePointer(reg: Reg)
    | RememberState
    | RestoreState

  datatype Range = Range(start: U32, end: U32)

  /** A lowered function: its instructions, the code offset at the end of
   *  each, its length, and which instructions form the prologue and the
   *  epilogues. */
  datatype UnwindInfoContext = UnwindInfoContext(
    insts: seq<Inst>,
    instsLayout: seq<U32>,
    len: U32,
    prologue: Range,
    epilogues: seq<Range>)

  datatype ScannedUnwindInfo = ScannedUnwindInfo(
    prologueSize: U32,
    prologueUnwindCodes: seq<(U32, UnwindCode)>,
    epiloguesUnwindCodes: seq<seq<(U32, UnwindCode)>>,
    functionSize: U32,
    wordSize: U8)

  const INDEX_PANIC: string := "index out of bounds"
  const SUBTRACT_PANIC: string := "attempt to subtract with overflow"

  /** Every index the prologue loop reads is in range; an empty prologue
   *  reads none. */
  predicate PrologueReadable(ctx: UnwindInfoContext)
  {
    ctx.prologue.end <= ctx.prologue.start
    || (ctx.prologue.end <= |ctx.insts| && ctx.prologue.end <= |ctx.instsLayout|)
  }

  /** The epilogue's last instruction exists, and so does its first one
   *  when the epilogue does not end the function. */
  predicate EpilogueReadable(ctx: UnwindInfoContext, e: Range)
  {
    1 <= e.end <= |ctx.instsLayout| && (ctx.instsLayout[e.end - 1] != ctx.len ==> e.start < |ctx.instsLayout|)
  }

  /** Every index the scan reads is in range, so it does not panic. */
  predicate WellFormedContext(ctx: UnwindInfoContext)
  {
    && PrologueReadable(ctx)
    && (forall k :: 0 <= k < |ctx.epilogues| ==> EpilogueReadable(ctx, ctx.epilogues[k]))
    && ctx.prologue.end < |ctx.instsLayout|
  }

  /** The codes one prologue instruction contributes. */
  function InstCodes(inst: Inst, offset: U32, wordSize: U8): seq<(U32, UnwindCode)>
  {
    match inst
    case Push64(RmiReg(reg)) => [(offset, StackAlloc(wordSize)), (offset, SaveRegister(reg, 0))]
    case MovRR(_, src, dst) => if src == RSP then [(offset, SetFramePointer(dst))] else []
    case AluRmiR(true, Sub, RmiImm(imm), dst) => if dst == RSP then [(offset, StackAlloc(imm))] else []
    case MovRM(src, Real(ImmReg(imm, base))) => if base == RSP then [(offset, SaveRegister(src, imm))] else []
    case AluRmiR(true, Add, RmiImm(imm), dst) => if dst == RSP then [(offset, StackDealloc(imm))] else []
    case _ => []
  }

  /** The codes of the prologue instructions before index `i`. */
  function PrologueCodesUpTo(ctx: UnwindInfoContext, wordSize: U8, i: nat): seq<(U32, UnwindCode)>
    requires i <= |ctx.insts| && i <= |ctx.instsLayout|
    decreases i
  {
    if i <= ctx.prologue.start then []
    else PrologueCodesUpTo(ctx, wordSize, i - 1) + InstCodes(ctx.insts[i - 1], ctx.instsLayout[i - 1], wordSize)
  }

  function PrologueCodes(ctx: UnwindInfoContext, wordSize: U8): seq<(U32, UnwindCode)>
    requires PrologueReadable(ctx)
  {
    if ctx.prologue.end <= ctx.prologue.start then [] else PrologueCodesUpTo(ctx, wordSize, ctx.prologue.end)
  }

  /** The very last epilogue needs nothing; any other is bracketed by a
   *  remember at its first instruction and a restore at its last, so the
   *  code after it unwinds with the body's rules. */
  function EpilogueCodes(ctx: UnwindInfoContext, e: Range): seq<(U32, UnwindCode)>
    requires EpilogueReadable(ctx, e)
  {
    var endOffset := ctx.instsLayout[e.end - 1];
    if endOffset == ctx.len then []
    else [(ctx.instsLayout[e.start], RememberState), (endOffset, RestoreState)]
  }

  function EpiloguesCodes(ctx: UnwindInfoContext): (r: seq<seq<(U32, UnwindCode)>>)
    requires forall k :: 0 <= k < |ctx.epilogues| ==> EpilogueReadable(ctx, ctx.epilogues[k])
    ensures |r| == |ctx.epilogues|
    ensures forall k :: 0 <= k < |r| ==> r[k] == EpilogueCodes(ctx, ctx.epilogues[k])
  {
    seq(|ctx.epilogues|, k requires 0 <= k < |ctx.epilogues| => EpilogueCodes(ctx, ctx.epilogues[k]))
  }

  /** The epilogues mapped in order: an epilogue ending at 0 underflows
   *  `end - 1`, and an index past the layout panics; the first epilogue
   *  that fails decides the panic. */
  function EpiloguesScan(ctx: UnwindInfoContext, es: seq<Range>): (r: Exec<seq<seq<(U32, UnwindCode)>>>)
    ensures r.Done? <==> forall k :: 0 <= k < |es| ==> EpilogueReadable(ctx, es[k])
    ensures r.Done? ==> |r.value| == |es| && forall k :: 0 <= k < |es| ==> r.value[k] == EpilogueCodes(ctx, es[k])
    ensures r.Panic? ==> r.msg in {SUBTRACT_PANIC, INDEX_PANIC}
    ensures es != [] && es[0].end == 0 ==> r == Panic(SUBTRACT_PANIC)
    ensures es != [] && es[0].end != 0 && !EpilogueReadable(ctx, es[0]) ==> r == Panic(INDEX_PANIC)
    ensures es != [] && EpilogueReadable(ctx, es[0]) ==> r.Panic? == EpiloguesScan(ctx, es[1..]).Panic?
    decreases |es|
  {
    if es == [] then Done([])
    else if es[0].end == 0 then Panic(SUBTRACT_PANIC)
    else if !EpilogueReadable(ctx, es[0]) then Panic(INDEX_PANIC)
    else
      match EpiloguesScan(ctx, es[1..])
      case Panic(m) => Panic(m)
      case Done(rest) => Done([EpilogueCodes(ctx, es[0])] + rest)
  }

  /** Scans the prologue instruction by instruction, then the epilogues,
   *  then reads the prologue size, panicking at the first index out of
   *  range. (Turning the result into DWARF instructions is the shared
   *  System V builder's job, which is not part of this model.) */
  method CreateUnwindInfo(ctx: UnwindInfoContext, wordSize: U8) returns (r: Exec<ScannedUnwindInfo>)
    ensures r.Done? <==> WellFormedContext(ctx)
    ensures !PrologueReadable(ctx) ==> r == Panic(INDEX_PANIC)
    ensures PrologueReadable(ctx) && EpiloguesScan(ctx, ctx.epilogues).Panic? ==> r == Panic(EpiloguesScan(ctx, ctx.epilogues).msg)
    ensures PrologueReadable(ctx) && EpiloguesScan(ctx, ctx.epilogues).Done? && ctx.prologue.end >= |ctx.instsLayout|
            ==> r == Panic(INDEX_PANIC)
    ensures r.Done? ==> r.value.prologueUnwindCodes == PrologueCodes(ctx, wordSize)
    ensures r.Done? ==> r.value.epiloguesUnwindCodes == EpiloguesCodes(ctx)
    ensures r.Done? ==> r.value.prologueSize == ctx.instsLayout[ctx.prologue.end]
    ensures r.Done? ==> r.value.functionSize == ctx.len && r.value.wordSize == wordSize
  {
    var codes: seq<(U32, UnwindCode)> := [];
    var i: nat := ctx.prologue.start;
    while i < ctx.prologue.end
      invariant ctx.prologue.start <= i
      invariant i <= ctx.prologue.end || i == ctx.prologue.start
      invariant i == ctx.prologue.start ==> codes == []
      invariant i != ctx.prologue.start ==>
        i <= |ctx.insts| && i <= |ctx.instsLayout| && codes == PrologueCodesUpTo(ctx, wordSize, i)
      decreases ctx.prologue.end - i
    {
      if i >= |ctx.insts| || i >= |ctx.instsLayout| {
        return Panic(INDEX_PANIC);
      }
      var inst := ctx.insts[i];
      var offset := ctx.instsLayout[i];
      ghost var before := codes;
      assert before == PrologueCodesUpTo(ctx, wordSize, i);
      match inst {
        case Push64(RmiReg(reg)) =>
          codes := codes + [(offset, StackAlloc(wordSize))];
          codes := codes + [(offset, SaveRegister(reg, 0))];
        case MovRR(_, src, dst) =>
          if src == RSP {
            codes := codes + [(offset, SetFramePointer(dst))];
          }
        case AluRmiR(true, Sub, RmiImm(imm), dst) =>
          if dst == RSP {
            codes := codes + [(offset, StackAlloc(imm))];
          }
        case MovRM(src, Real(ImmReg(imm, base))) =>
          if base == RSP {
            codes := codes + [(offset, SaveRegister(src, imm))];
          }
        case AluRmiR(true, Add, RmiImm(imm), dst) =>
          if dst == RSP {
            codes := codes + [(offset, StackDealloc(imm))];
          }
        case _ =>
      }
      assert codes == before + InstCodes(inst, offset, wordSize);
      i := i + 1;
    }
    assert codes == PrologueCodes(ctx, wordSize);
    var epilogues := EpiloguesScan(ctx, ctx.epilogues);
    if epilogues.Panic? {
      return Panic(epilogues.msg);
    }
    if ctx.prologue.end >= |ctx.instsLayout| {
      return Panic(INDEX_PANIC);
    }
    assert epilogues.value == EpiloguesCodes(ctx);
    return Done(ScannedUnwindInfo(ctx.instsLayout[ctx.prologue.end], codes, epilogues.value, ctx.len, wordSize));
  }

  // ---- what the scan records ----

  /** How far an instruction moves RSP down (a negative amount moves it
   *  up), or None when it writes RSP in a way the scan does not follow.
   *  `OtherInst` stands for every instruction the scan ignores and is taken
   *  not to move RSP, so the accounting below holds for prologues whose
   *  other instructions leave RSP alone. The immediate is read as the
   *  unsigned `u32` the scan itself records in `StackAlloc { size: imm }`;
   *  the processor sign-extends it, so for an immediate from 2^31 on this
   *  accounting, and only it, differs from the machine's. */
  function RspDrop(inst: Inst): Option<int>
  {
    match inst
    case Push64(_) => Some(8)
    case AluRmiR(is64, op, src, dst) =>
      if dst != RSP then Some(0)
      else if is64 && op == Sub && src.RmiImm? then Some(src.simm32 as int)
      else if is64 && op == Add && src.RmiImm? then Some(-(src.simm32 as int))
      else None
    case MovRR(_, _, dst) => if dst == RSP then None else Some(0)
    case _ => Some(0)
  }

  /** The scan follows an instruction: it is not a push of memory or of an
   *  immediate, and any write to RSP is a 64-bit add or subtract of an
   *  immediate. */
  predicate Followed(inst: Inst)
  {
    RspDrop(inst).Some? && (inst.Push64? ==> inst.pushed.RmiReg?)
  }

  /** Bytes allocated minus bytes freed by a list of codes. */
  function NetAlloc(codes: seq<(U32, UnwindCode)>): int
  {
    if codes == [] then 0
    else NetAlloc(codes[..|codes| - 1]) + match codes[|codes| - 1].1
      case StackAlloc(size) => size
      case StackDealloc(size) => -(size as int)
      case _ => 0
  }

  lemma {:induction false} NetAllocAppend(a: seq<(U32, UnwindCode)>, b: seq<(U32, UnwindCode)>)
    ensures NetAlloc(a + b) == NetAlloc(a) + NetAlloc(b)
    decreases |b|
  {
    if b == [] {
      assert a + b == a;
    } else {
      assert (a + b)[..|a + b| - 1] == a + b[..|b| - 1];
      NetAllocAppend(a, b[..|b| - 1]);
    }
  }

  /** How far the prologue instructions before `i` move RSP down. */
  function PrologueRspDrop(ctx: UnwindInfoContext, i: nat): int
    requires i <= |ctx.insts|
    decreases i
  {
    if i <= ctx.prologue.start then 0
    else PrologueRspDrop(ctx, i - 1) + match RspDrop(ctx.insts[i - 1]) case Some(d) => d case None => 0
  }

  lemma InstCodesNetAlloc(inst: Inst, offset: U32)
    requires Followed(inst)
    ensures NetAlloc(InstCodes(inst, offset, 8)) == RspDrop(inst).value
  {
    var codes := InstCodes(inst, offset, 8);
    if inst.Push64? {
      var first := codes[..1];
      assert first == [(offset, StackAlloc(8))] && first[..0] == [];
      assert NetAlloc(first) == 8;
    } else if |codes| == 1 {
      assert codes[..0] == [];
    }
  }

  /** With 8-byte words, the stack allocations and deallocations the scan
   *  records add up to exactly how far the prologue moves RSP down, as long
   *  as it writes RSP only in ways the scan follows. Both sides read an
   *  immediate unsigned, as the scan's `StackAlloc` does. */
  lemma {:induction false} ScanAccountsForStack(ctx: UnwindInfoContext, i: nat)
    requires i <= |ctx.insts| && i <= |ctx.instsLayout|
    requires forall k :: ctx.prologue.start <= k < i ==> Followed(ctx.insts[k])
    ensures NetAlloc(PrologueCodesUpTo(ctx, 8, i)) == PrologueRspDrop(ctx, i)
    decreases i
  {
    if i > ctx.prologue.start {
      ScanAccountsForStack(ctx, i - 1);
      InstCodesNetAlloc(ctx.insts[i - 1], ctx.instsLayout[i - 1]);
      NetAllocAppend(PrologueCodesUpTo(ctx, 8, i - 1), InstCodes(ctx.insts[i - 1], ctx.instsLayout[i - 1], 8));
    }
  }

  predicate OffsetsOrdered(codes: seq<(U32, UnwindCode)>)
  {
    forall a, b :: 0 <= a <= b < |codes| ==> codes[a].0 <= codes[b].0
  }

  predicate OffsetsAtMost(codes: seq<(U32, UnwindCode)>, bound: U32)
  {
    forall a :: 0 <= a < |codes| ==> codes[a].0 <= bound
  }

  /** Every code of the prologue is located at the end offset of the
   *  prologue instruction it comes from, so when the layout grows
   *  monotonically the codes come in code order, none after the end of the
   *  last instruction scanned. */
  lemma {:induction false} PrologueCodesOrdered(ctx: UnwindInfoContext, wordSize: U8, i: nat)
    requires i <= |ctx.insts| && i <= |ctx.instsLayout|
    requires forall a, b :: 0 <= a <= b < |ctx.instsLayout| ==> ctx.instsLayout[a] <= ctx.instsLayout[b]
    ensures OffsetsOrdered(PrologueCodesUpTo(ctx, wordSize, i))
    ensures i > ctx.prologue.start ==> OffsetsAtMost(PrologueCodesUpTo(ctx, wordSize, i), ctx.instsLayout[i - 1])
    decreases i
  {
    if i > ctx.prologue.start {
      PrologueCodesOrdered(ctx, wordSize, i - 1);
      var prev := PrologueCodesUpTo(ctx, wordSize, i - 1);
      var here := InstCodes(ctx.insts[i - 1], ctx.instsLayout[i - 1], wordSize);
      var codes := prev + here;
      assert codes == PrologueCodesUpTo(ctx, wordSize, i);
      assert forall a :: 0 <= a < |here| ==> here[a].0 == ctx.instsLayout[i - 1];
      forall a | 0 <= a < |prev|
        ensures prev[a].0 <= ctx.instsLayout[i - 1]
      {
        if i - 1 > ctx.prologue.start {
          assert prev[a].0 <= ctx.instsLayout[i - 2];
          assert ctx.instsLayout[i - 2] <= ctx.instsLayout[i - 1];
        }
      }
      forall a, b | 0 <= a <= b < |codes|
        ensures codes[a].0 <= codes[b].0
      {
        if b < |prev| {
          assert codes[a] == prev[a] && codes[b] == prev[b];
        } else if a >= |prev| {
          assert codes[a] == here[a - |prev|] && codes[b] == here[b - |prev|];
        } else {
          assert codes[a] == prev[a] && codes[b] == here[b - |prev|];
        }
      }
      forall a | 0 <= a < |codes|
        ensures codes[a].0 <= ctx.instsLayout[i - 1]
      {
        if a < |prev| {
          assert codes[a] == prev[a];
        } else {
          assert codes[a] == here[a - |prev|];
        }
      }
    }
  }

  /** Each epilogue gets nothing when it ends the function, and otherwise
   *  exactly one remember followed by one restore, in code order when the
   *  layout grows monotonically. */
  lemma EpilogueBracketed(ctx: UnwindInfoContext, e: Range)
    requires EpilogueReadable(ctx, e)
    requires e.start <= e.end - 1
    requires forall a, b :: 0 <= a <= b < |ctx.instsLayout| ==> ctx.instsLayout[a] <= ctx.instsLayout[b]
    ensures EpilogueCodes(ctx, e) == [] <==> ctx.instsLayout[e.end - 1] == ctx.len
    ensures var codes := EpilogueCodes(ctx, e);
      codes != [] ==> (|codes| == 2 && codes[0].1 == RememberState && codes[1].1 == RestoreState
                       && codes[0].0 <= codes[1].0 && codes[1].0 != ctx.len)
  {
  }

  // ---- functions shaped like the back end's two tests ----

  /** The one-return test function with its 64-byte stack slot: push rbp
   *  ending at 1, mov rbp, rsp ending at 4 and sub rsp, 64 ending at 8 form
   *  the prologue; mov rsp, rbp, pop rbp and ret end the function at 13.
   *  The stack allocation at 8 is recorded too; the System V builder emits
   *  nothing for it once rbp is the frame register (see
   *  X86SystemV.InstructionBuilder.AdjustSpDownImm), so the test's FDE
   *  lists only the three instructions at 1 and 4. */
  lemma SimpleFunctionScan()
    ensures var ctx := UnwindInfoContext(
              [Push64(RmiReg(RBP)), MovRR(true, RSP, RBP), AluRmiR(true, Sub, RmiImm(64), RSP),
               MovRR(true, RBP, RSP), OtherInst, OtherInst],
              [1, 4, 8, 11, 12, 13], 13, Range(0, 3), [Range(3, 6)]);
      WellFormedContext(ctx)
      && PrologueCodes(ctx, 8)
         == [(1, StackAlloc(8)), (1, SaveRegister(RBP, 0)), (4, SetFramePointer(RBP)), (8, StackAlloc(64))]
      && EpiloguesCodes(ctx) == [[]]
  {
    var ctx := UnwindInfoContext(
      [Push64(RmiReg(RBP)), MovRR(true, RSP, RBP), AluRmiR(true, Sub, RmiImm(64), RSP),
       MovRR(true, RBP, RSP), OtherInst, OtherInst],
      [1, 4, 8, 11, 12, 13], 13, Range(0, 3), [Range(3, 6)]);
    assert PrologueCodesUpTo(ctx, 8, 1) == [(1, StackAlloc(8)), (1, SaveRegister(RBP, 0))];
    assert PrologueCodesUpTo(ctx, 8, 2) == PrologueCodesUpTo(ctx, 8, 1) + [(4, SetFramePointer(RBP))];
  }

  /** Two returns: the first epilogue (ending at 18) is bracketed by
   *  remember at 16 and restore at 18; the last one (ending at 23) is not. */
  lemma MultiReturnEpilogues()
    ensures var ctx := UnwindInfoContext([Push64(RmiReg(RBP)), MovRR(true, RSP, RBP), OtherInst, OtherInst, OtherInst, OtherInst, OtherInst],
                                         [1, 4, 10, 16, 18, 22, 23], 23, Range(0, 2), [Range(3, 5), Range(5, 7)]);
      WellFormedContext(ctx)
      && EpiloguesCodes(ctx) == [[(16, RememberState), (18, RestoreState)], []]
  {
  }
}
