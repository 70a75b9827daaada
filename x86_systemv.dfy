/**
 * System V unwind information for the x86 back end: the register mapping
 * to DWARF numbers, the instruction builder that turns unwind codes into
 * call-frame instructions while tracking the CFA offset, and the driver
 * that runs it over a function's prologue and epilogue codes.
 *
 * The builder's integer arithmetic is i32 arithmetic with Rust's
 * release-mode wrap-around.
 */
module X86SystemV {
  import opened Base
  import Dwarf
  import opened UnwindIr

  /** A register unit of the x86 register file. */
  type RegUnit = U16

  /** A contiguous range of register units. */
  datatype RegBank = RegBank(name: string, firstUnit: RegUnit, units: nat)

  /** What the unwind code asks of the target ISA. */
  datatype Isa = Isa(name: string, pointerBits: nat, banks: seq<RegBank>)

  /** Register units of rsp and rbp in the x86 register file (the register
   *  file definition itself is not part of this model). */
  const RU_RSP: RegUnit := 4
  const RU_RBP: RegUnit := 5

  /** The x86-64 register file's banks: 16 integer units, then 16 float units. */
  const X86_64: Isa := Isa("x86", 64, [RegBank("IntRegs", 0, 16), RegBank("FloatRegs", 16, 16), RegBank("FlagRegs", 32, 1)])

  /** The mapping tables have 16 entries, so the integer and float banks
   *  must have at most 16 units. */
  predicate BanksFitTables(isa: Isa)
  {
    forall k :: 0 <= k < |isa.banks| && isa.banks[k].name in {"IntRegs", "FloatRegs"} ==> isa.banks[k].units <= 16
  }

  predicate BankContains(b: RegBank, reg: RegUnit)
  {
    b.firstUnit <= reg < b.firstUnit + b.units
  }

  /** The first bank containing a unit. */
  function BankContaining(banks: seq<RegBank>, reg: RegUnit): (r: Option<nat>)
    ensures r.Some? ==> r.value < |banks| && BankContains(banks[r.value], reg)
    ensures r.Some? ==> forall k :: 0 <= k < r.value ==> !BankContains(banks[k], reg)
    ensures r.None? ==> forall k :: 0 <= k < |banks| ==> !BankContains(banks[k], reg)
  {
    if banks == [] then None
    else if BankContains(banks[0], reg) then Some(0)
    else match BankContaining(banks[1..], reg)
      case None => None
      case Some(k) => Some(k + 1)
  }

  /** The DWARF number of a register unit. */
  function MapReg(isa: Isa, reg: RegUnit): (r: Result<Dwarf.DwarfReg, RegisterMappingError>)
    requires BanksFitTables(isa)
  {
    if isa.name != "x86" || isa.pointerBits != 64 then Err(UnsupportedArchitecture)
    else match BankContaining(isa.banks, reg)
      case None => Err(MissingBank)
      case Some(k) =>
        var bank := isa.banks[k];
        if bank.name == "IntRegs" then Ok(Dwarf.GP_REG_MAP[reg - bank.firstUnit])
        else if bank.name == "FloatRegs" then Ok(Dwarf.XMM_REG_MAP[reg - bank.firstUnit])
        else Err(UnsupportedRegisterBank(bank.name))
  }

  /** On the x86-64 register file, integer unit k maps through the
   *  general-purpose table. */
  lemma MapRegX86_64Int(reg: RegUnit)
    requires reg < 16
    ensures MapReg(X86_64, reg) == Ok(Dwarf.GP_REG_MAP[reg])
  {
    assert BankContaining(X86_64.banks, reg) == Some(0);
  }

  /** Float unit 16 + k is xmm k. */
  lemma MapRegX86_64Float(reg: RegUnit)
    requires 16 <= reg < 32
    ensures MapReg(X86_64, reg) == Ok(Dwarf.XMM0 + (reg - 16))
  {
    var banks := X86_64.banks;
    assert !BankContains(banks[0], reg);
    assert BankContaining(banks[1..], reg) == Some(0);
  }

  /** The flags unit has no DWARF number, and units past the register file
   *  belong to no bank. */
  lemma MapRegX86_64Other(reg: RegUnit)
    requires reg >= 32
    ensures
      MapReg(X86_64, reg) == if reg == 32 then Err(UnsupportedRegisterBank("FlagRegs")) else Err(MissingBank)
  {
    var banks := X86_64.banks;
    assert !BankContains(banks[0], reg) && !BankContains(banks[1], reg);
    assert banks[1..][1..] == [banks[2]];
    if reg == 32 {
      assert BankContaining(banks[1..][1..], reg) == Some(0);
    } else {
      assert BankContaining(banks[1..][1..], reg) == None;
    }
  }

  /** Different register units never share a DWARF number. */
  lemma MapRegX86_64Injective(a: RegUnit, b: RegUnit)
    requires MapReg(X86_64, a).Ok? && MapReg(X86_64, a) == MapReg(X86_64, b)
    ensures a == b
  {
    if a >= 32 {
      MapRegX86_64Other(a);
    } else if b >= 32 {
      MapRegX86_64Other(b);
    } else if a < 16 && b < 16 {
      MapRegX86_64Int(a);
      MapRegX86_64Int(b);
      Dwarf.GpRegMapInjective(a as nat, b as nat);
    } else if a < 16 {
      MapRegX86_64Int(a);
      MapRegX86_64Float(b);
      Dwarf.GpRegMapInverse(a as nat);
    } else if b < 16 {
      MapRegX86_64Float(a);
      MapRegX86_64Int(b);
      Dwarf.GpRegMapInverse(b as nat);
    } else {
      MapRegX86_64Float(a);
      MapRegX86_64Float(b);
    }
  }

  // ---- the builder's state and its steps ----

  datatype BuilderState = BuilderState(
    cfaOffset: I32,
    savedState: Option<I32>,
    frameRegister: Option<RegUnit>,
    instructions: seq<(CodeOffset, Dwarf.CallFrameInstruction)>)

  /** A fresh builder: the CFA is 8 bytes above RSP (the return address). */
  function InitialState(frameRegister: Option<RegUnit>): BuilderState
  {
    BuilderState(8, None, frameRegister, [])
  }

  /** The CFA moves on a push of the frame register, or on every push when
   *  no frame register is used. */
  predicate MovesCfaOnPush(frameRegister: Option<RegUnit>, reg: RegUnit)
  {
    match frameRegister
    case Some(fp) => reg == fp
    case None => true
  }

  function PushRegStep(isa: Isa, st: BuilderState, offset: CodeOffset, reg: RegUnit): Result<BuilderState, RegisterMappingError>
    requires BanksFitTables(isa)
  {
    var cfa := WrapI32(st.cfaOffset + 8);
    var moved := if MovesCfaOnPush(st.frameRegister, reg) then [(offset, Dwarf.CfaOffset(cfa))] else [];
    match MapReg(isa, reg)
    case Err(e) => Err(e)
    case Ok(d) => Ok(st.(cfaOffset := cfa, instructions := st.instructions + moved + [(offset, Dwarf.Offset(d, WrapI32(-(cfa as int))))]))
  }

  function AdjustSpDownStep(st: BuilderState, offset: CodeOffset, imm: U32): BuilderState
  {
    if st.frameRegister.Some? then st
    else
      var cfa := WrapI32(st.cfaOffset + WrapI32(imm));
      st.(cfaOffset := cfa, instructions := st.instructions + [(offset, Dwarf.CfaOffset(cfa))])
  }

  function AdjustSpUpStep(st: BuilderState, offset: CodeOffset, imm: U32): BuilderState
  {
    if st.frameRegister.Some? then st
    else
      var cfa := WrapI32(st.cfaOffset - WrapI32(imm));
      st.(cfaOffset := cfa, instructions := st.instructions + [(offset, Dwarf.CfaOffset(cfa))])
  }

  function SetCfaRegStep(isa: Isa, st: BuilderState, offset: CodeOffset, reg: RegUnit): Result<BuilderState, RegisterMappingError>
    requires BanksFitTables(isa)
  {
    match MapReg(isa, reg)
    case Err(e) => Err(e)
    case Ok(d) => Ok(st.(instructions := st.instructions + [(offset, Dwarf.CfaRegister(d))]))
  }

  function PopRegStep(isa: Isa, st: BuilderState, offset: CodeOffset, reg: RegUnit): Result<BuilderState, RegisterMappingError>
    requires BanksFitTables(isa)
  {
    var cfa := WrapI32(st.cfaOffset - 8);
    match st.frameRegister
    case Some(fp) =>
      if reg == fp then
        match MapReg(isa, RU_RSP)
        case Err(e) => Err(e)
        case Ok(rsp) => Ok(st.(cfaOffset := cfa, instructions := st.instructions + [(offset, Dwarf.Cfa(rsp, cfa))]))
      else Ok(st.(cfaOffset := cfa))
    case None =>
      match MapReg(isa, reg)
      case Err(e) => Err(e)
      case Ok(d) => Ok(st.(cfaOffset := cfa, instructions := st.instructions + [(offset, Dwarf.CfaOffset(cfa)), (offset, Dwarf.SameValue(d))]))
  }

  function RememberStateStep(st: BuilderState, offset: CodeOffset): BuilderState
  {
    st.(savedState := Some(st.cfaOffset), instructions := st.instructions + [(offset, Dwarf.RememberState)])
  }

  /** Restoring takes the saved offset; with none saved, the unwrap panics. */
  function RestoreStateStep(st: BuilderState, offset: CodeOffset): Exec<BuilderState>
  {
    match st.savedState
    case None => Panic("called `Option::unwrap()` on a `None` value")
    case Some(cfa) => Done(st.(cfaOffset := cfa, savedState := None, instructions := st.instructions + [(offset, Dwarf.RestoreState)]))
  }

  function Lift(r: Result<BuilderState, RegisterMappingError>): Exec<Result<BuilderState, CodegenError>>
  {
    match r
    case Ok(st) => Done(Ok(st))
    case Err(e) => Done(Err(RegisterMapping(e)))
  }

  /** One unwind code; XMM saves are not described by System V info. */
  function StepCode(isa: Isa, st: BuilderState, code: UnwindCode<RegUnit>): Exec<Result<BuilderState, CodegenError>>
    requires BanksFitTables(isa)
  {
    match code
    case PushRegister(offset, reg) => Lift(PushRegStep(isa, st, offset, reg))
    case StackAlloc(offset, size) => Done(Ok(AdjustSpDownStep(st, offset, size)))
    case StackDealloc(offset, size) => Done(Ok(AdjustSpUpStep(st, offset, size)))
    case PopRegister(offset, reg) => Lift(PopRegStep(isa, st, offset, reg))
    case SetCfaRegister(offset, reg) => Lift(SetCfaRegStep(isa, st, offset, reg))
    case RememberState(offset) => Done(Ok(RememberStateStep(st, offset)))
    case RestoreState(offset) =>
      (match RestoreStateStep(st, offset)
       case Panic(m) => Panic(m)
       case Done(st') => Done(Ok(st')))
    case SaveXmm(_, _, _) => Done(Ok(st))
  }

  /** The codes in order; the first error or panic ends the run. */
  function RunCodes(isa: Isa, st: BuilderState, codes: seq<UnwindCode<RegUnit>>): Exec<Result<BuilderState, CodegenError>>
    requires BanksFitTables(isa)
    decreases |codes|
  {
    if codes == [] then Done(Ok(st))
    else match StepCode(isa, st, codes[0])
      case Panic(m) => Panic(m)
      case Done(Err(e)) => Done(Err(e))
      case Done(Ok(st')) => RunCodes(isa, st', codes[1..])
  }

  /** A run from position `i` is the step at `i` followed by the run from
   *  `i + 1`. */
  lemma RunCodesAt(isa: Isa, st: BuilderState, codes: seq<UnwindCode<RegUnit>>, i: nat)
    requires BanksFitTables(isa) && i < |codes|
    ensures RunCodes(isa, st, codes[i..]) ==
      match StepCode(isa, st, codes[i])
      case Panic(m) => Panic(m)
      case Done(Err(e)) => Done(Err(e))
      case Done(Ok(st')) => RunCodes(isa, st', codes[i + 1..])
  {
    assert codes[i..][0] == codes[i] && codes[i..][1..] == codes[i + 1..];
  }

  datatype CallConv = Fast | Cold | SystemV | WindowsFastcall | BaldrdashSystemV | BaldrdashWindows | Probestack

  /** What the driver reads of the function being compiled. */
  datatype FunctionInfo = FunctionInfo(callConv: CallConv, hasPrologueEnd: bool)

  /** The driver: System V-like calling conventions on x86-64 only; the
   *  generic unwind codes (`lowered`, from the shared x86 unwind analysis,
   *  which is not part of this model) are run through a fresh builder. */
  function CreateUnwindInfoSpec(func: FunctionInfo, isa: Isa, frameRegister: Option<RegUnit>,
                                lowered: Result<Option<InputUnwindInfo<RegUnit>>, CodegenError>)
    : Exec<Result<Option<SystemVUnwindInfo>, CodegenError>>
    requires BanksFitTables(isa)
  {
    if func.callConv !in {Fast, Cold, CallConv.SystemV} then Done(Ok(None))
    else if !func.hasPrologueEnd || isa.name != "x86" || isa.pointerBits != 64 then Done(Ok(None))
    else match lowered
      case Err(e) => Done(Err(e))
      case Ok(None) => Done(Ok(None))
      case Ok(Some(unwind)) =>
        match RunCodes(isa, InitialState(frameRegister), AllCodes(unwind))
        case Panic(m) => Panic(m)
        case Done(Err(e)) => Done(Err(e))
        case Done(Ok(st)) => Done(Ok(Some(SystemVUnwindInfo(st.instructions, unwind.codeLen))))
  }

  // ---- the builder object ----

  class InstructionBuilder {
    const isa: Isa
    var cfaOffset: I32
    var savedState: Option<I32>
    const frameRegister: Option<RegUnit>
    var instructions: seq<(CodeOffset, Dwarf.CallFrameInstruction)>

    function State(): BuilderState
      reads this
    {
      BuilderState(cfaOffset, savedState, frameRegister, instructions)
    }

    constructor(isa: Isa, frameRegister: Option<RegUnit>)
      ensures this.isa == isa
      ensures State() == InitialState(frameRegister)
    {
      this.isa := isa;
      cfaOffset := 8;
      savedState := None;
      this.frameRegister := frameRegister;
      instructions := [];
    }

    method PushReg(offset: CodeOffset, reg: RegUnit) returns (r: Result<(), RegisterMappingError>)
      requires BanksFitTables(isa)
      modifies this
      ensures r.Ok? <==> PushRegStep(isa, old(State()), offset, reg).Ok?
      ensures r.Ok? ==> State() == PushRegStep(isa, old(State()), offset, reg).value
      ensures r.Err? ==> r.error == MapReg(isa, reg).error
      // a failed mapping leaves the offset moved and any CfaOffset emitted
      ensures r.Err? ==>
        var cfa := WrapI32(old(cfaOffset) + 8);
        State() == old(State()).(cfaOffset := cfa, instructions := old(instructions)
                                 + if MovesCfaOnPush(frameRegister, reg) then [(offset, Dwarf.CfaOffset(cfa))] else [])
    {
      cfaOffset := WrapI32(cfaOffset + 8);
      if MovesCfaOnPush(frameRegister, reg) {
        instructions := instructions + [(offset, Dwarf.CfaOffset(cfaOffset))];
      }
      var mapped := MapReg(isa, reg);
      if mapped.Err? {
        return Err(mapped.error);
      }
      instructions := instructions + [(offset, Dwarf.Offset(mapped.value, WrapI32(-(cfaOffset as int))))];
      return Ok(());
    }

    method AdjustSpDownImm(offset: CodeOffset, imm: U32)
      modifies this
      ensures State() == AdjustSpDownStep(old(State()), offset, imm)
    {
      if frameRegister.Some? {
        return;
      }
      cfaOffset := WrapI32(cfaOffset + WrapI32(imm));
      instructions := instructions + [(offset, Dwarf.CfaOffset(cfaOffset))];
    }

    method AdjustSpUpImm(offset: CodeOffset, imm: U32)
      modifies this
      ensures State() == AdjustSpUpStep(old(State()), offset, imm)
    {
      if frameRegister.Some? {
        return;
      }
      cfaOffset := WrapI32(cfaOffset - WrapI32(imm));
      instructions := instructions + [(offset, Dwarf.CfaOffset(cfaOffset))];
    }

    method SetCfaReg(offset: CodeOffset, reg: RegUnit) returns (r: Result<(), RegisterMappingError>)
      requires BanksFitTables(isa)
      modifies this
      ensures r.Ok? <==> SetCfaRegStep(isa, old(State()), offset, reg).Ok?
      ensures r.Ok? ==> State() == SetCfaRegStep(isa, old(State()), offset, reg).value
      ensures r.Err? ==> State() == old(State()) && r.error == MapReg(isa, reg).error
    {
      var mapped := MapReg(isa, reg);
      if mapped.Err? {
        return Err(mapped.error);
      }
      instructions := instructions + [(offset, Dwarf.CfaRegister(mapped.value))];
      return Ok(());
    }

    method PopReg(offset: CodeOffset, reg: RegUnit) returns (r: Result<(), RegisterMappingError>)
      requires BanksFitTables(isa)
      modifies this
      ensures r.Ok? <==> PopRegStep(isa, old(State()), offset, reg).Ok?
      ensures r.Ok? ==> State() == PopRegStep(isa, old(State()), offset, reg).value
      ensures r.Err? ==> r.error == PopRegStep(isa, old(State()), offset, reg).error
      // a failed mapping leaves the offset moved and, without a frame
      // register, the CfaOffset emitted
      ensures r.Err? ==>
        var cfa := WrapI32(old(cfaOffset) - 8);
        State() == old(State()).(cfaOffset := cfa, instructions := old(instructions)
                                 + if frameRegister.None? then [(offset, Dwarf.CfaOffset(cfa))] else [])
    {
      cfaOffset := WrapI32(cfaOffset - 8);
      match frameRegister {
        case Some(fp) =>
          if reg == fp {
            var rsp := MapReg(isa, RU_RSP);
            if rsp.Err? {
              return Err(rsp.error);
            }
            instructions := instructions + [(offset, Dwarf.Cfa(rsp.value, cfaOffset))];
          }
        case None =>
          instructions := instructions + [(offset, Dwarf.CfaOffset(cfaOffset))];
          var mapped := MapReg(isa, reg);
          if mapped.Err? {
            return Err(mapped.error);
          }
          instructions := instructions + [(offset, Dwarf.SameValue(mapped.value))];
      }
      return Ok(());
    }

    method RememberState(offset: CodeOffset)
      modifies this
      ensures State() == RememberStateStep(old(State()), offset)
    {
      savedState := Some(cfaOffset);
      instructions := instructions + [(offset, Dwarf.RememberState)];
    }

    method RestoreState(offset: CodeOffset)
      requires savedState.Some?
      modifies this
      ensures RestoreStateStep(old(State()), offset) == Done(State())
    {
      cfaOffset := savedState.value;
      savedState := None;
      instructions := instructions + [(offset, Dwarf.RestoreState)];
    }
  }

  /** One unwind code applied to the builder (the body of the driver's
   *  loop): the builder ends in the state the step function gives, or the
   *  call stops with the step's error or panic. */
  method ApplyCode(builder: InstructionBuilder, code: UnwindCode<RegUnit>) returns (r: Exec<Result<(), CodegenError>>)
    requires BanksFitTables(builder.isa)
    modifies builder
    ensures var step := StepCode(builder.isa, old(builder.State()), code);
      match r
      case Done(Ok(_)) => step == Done(Ok(builder.State()))
      case Done(Err(e)) => step == Done(Err(e))
      case Panic(m) => step == Panic(m)
  {
    match code {
      case PushRegister(offset, reg) =>
        var res := builder.PushReg(offset, reg);
        if res.Err? {
          return Done(Err(RegisterMapping(res.error)));
        }
      case StackAlloc(offset, size) =>
        builder.AdjustSpDownImm(offset, size);
      case StackDealloc(offset, size) =>
        builder.AdjustSpUpImm(offset, size);
      case PopRegister(offset, reg) =>
        var res := builder.PopReg(offset, reg);
        if res.Err? {
          return Done(Err(RegisterMapping(res.error)));
        }
      case SetCfaRegister(offset, reg) =>
        var res := builder.SetCfaReg(offset, reg);
        if res.Err? {
          return Done(Err(RegisterMapping(res.error)));
        }
      case RememberState(offset) =>
        builder.RememberState(offset);
      case RestoreState(offset) =>
        if builder.savedState.None? {
          return Panic("called `Option::unwrap()` on a `None` value");
        }
        builder.RestoreState(offset);
      case SaveXmm(_, _, _) =>
    }
    return Done(Ok(()));
  }

  /** Runs the builder over the prologue codes and then every epilogue's
   *  codes, stopping at the first register that cannot be mapped. */
  method CreateUnwindInfo(func: FunctionInfo, isa: Isa, frameRegister: Option<RegUnit>,
                          lowered: Result<Option<InputUnwindInfo<RegUnit>>, CodegenError>)
    returns (r: Exec<Result<Option<SystemVUnwindInfo>, CodegenError>>)
    requires BanksFitTables(isa)
    ensures r == CreateUnwindInfoSpec(func, isa, frameRegister, lowered)
  {
    if func.callConv !in {Fast, Cold, CallConv.SystemV} {
      return Done(Ok(None));
    }
    if !func.hasPrologueEnd || isa.name != "x86" || isa.pointerBits != 64 {
      return Done(Ok(None));
    }
    if lowered.Err? {
      return Done(Err(lowered.error));
    }
    if lowered.value.None? {
      return Done(Ok(None));
    }
    var unwind := lowered.value.value;
    var builder := new InstructionBuilder(isa, frameRegister);
    var codes := AllCodes(unwind);
    var i := 0;
    while i < |codes|
      invariant 0 <= i <= |codes|
      invariant builder.isa == isa && builder.frameRegister == frameRegister
      invariant RunCodes(isa, builder.State(), codes[i..]) == RunCodes(isa, InitialState(frameRegister), codes)
      decreases |codes| - i
    {
      ghost var st := builder.State();
      RunCodesAt(isa, st, codes, i);
      var step := ApplyCode(builder, codes[i]);
      if step.Panic? {
        return Panic(step.msg);
      }
      if step.value.Err? {
        return Done(Err(step.value.error));
      }
      i := i + 1;
    }
    assert codes[i..] == [];
    return Done(Ok(Some(SystemVUnwindInfo(builder.instructions, unwind.codeLen))));
  }

  // ---- what the emitted instructions mean ----

  /** The emitted instructions, read by a DWARF unwinder, describe the CFA
   *  the builder tracks: RSP plus the builder's offset, with the remembered
   *  row holding the remembered offset. */
  predicate Tracks(st: BuilderState, cfi: Dwarf.CfiState)
  {
    && cfi.row.cfaReg == Dwarf.RSP
    && cfi.row.cfaOffset == st.cfaOffset
    && (st.savedState.Some? ==>
          cfi.saved != [] && cfi.saved[|cfi.saved| - 1].cfaReg == Dwarf.RSP
          && cfi.saved[|cfi.saved| - 1].cfaOffset == st.savedState.value)
  }

  /** A later builder state only appends instructions. */
  predicate Extends(st: BuilderState, st': BuilderState)
  {
    |st.instructions| <= |st'.instructions| && st'.instructions[..|st.instructions|] == st.instructions
  }

  function Emitted(st: BuilderState, st': BuilderState): seq<Dwarf.CallFrameInstruction>
    requires Extends(st, st')
  {
    Dwarf.Instructions(st'.instructions[|st.instructions|..])
  }

  predicate NoCfaRegisterChange(codes: seq<UnwindCode<RegUnit>>)
  {
    forall k :: 0 <= k < |codes| ==> !codes[k].SetCfaRegister?
  }

  /** After `st'`, a DWARF unwinder that was at `cfi` is at a row that
   *  the builder's own state describes. */
  predicate TracksAfter(cfi: Dwarf.CfiState, st: BuilderState, st': BuilderState)
  {
    && Extends(st, st')
    && Dwarf.Run(cfi, Emitted(st, st')).Some?
    && Tracks(st', Dwarf.Run(cfi, Emitted(st, st')).value)
  }

  lemma AppendedInstructions(st: BuilderState, st': BuilderState, added: seq<(CodeOffset, Dwarf.CallFrameInstruction)>)
    requires st'.instructions == st.instructions + added
    ensures Extends(st, st') && Emitted(st, st') == Dwarf.Instructions(added)
  {
    assert st'.instructions[|st.instructions|..] == added;
  }

  lemma RunSingle(cfi: Dwarf.CfiState, i: Dwarf.CallFrameInstruction)
    ensures Dwarf.Run(cfi, [i]) == Dwarf.Step(cfi, i)
  {
    assert [i][1..] == [];
  }

  lemma RunOne(cfi: Dwarf.CfiState, o: CodeOffset, i: Dwarf.CallFrameInstruction)
    ensures Dwarf.Run(cfi, Dwarf.Instructions([(o, i)])) == Dwarf.Step(cfi, i)
  {
    assert Dwarf.Instructions([(o, i)]) == [i];
    RunSingle(cfi, i);
  }

  lemma RunTwo(cfi: Dwarf.CfiState, o: CodeOffset, i: Dwarf.CallFrameInstruction, p: CodeOffset, j: Dwarf.CallFrameInstruction)
    requires !i.RestoreState?
    ensures Dwarf.Run(cfi, Dwarf.Instructions([(o, i), (p, j)])) == Dwarf.Step(Dwarf.Step(cfi, i).value, j)
  {
    assert Dwarf.Instructions([(o, i), (p, j)]) == [i, j];
    assert [i, j][1..] == [j];
    RunSingle(Dwarf.Step(cfi, i).value, j);
  }

  /** One code, without a frame register: the instructions it emits move a
   *  DWARF unwinder's row exactly as the builder moves its own offset. */
  lemma StepTracks(isa: Isa, st: BuilderState, code: UnwindCode<RegUnit>, cfi: Dwarf.CfiState, st': BuilderState)
    requires BanksFitTables(isa)
    requires st.frameRegister.None? && !code.SetCfaRegister? && Tracks(st, cfi)
    requires StepCode(isa, st, code) == Done(Ok(st'))
    ensures st'.frameRegister.None? && TracksAfter(cfi, st, st')
  {
    match code
    case PushRegister(offset, reg) =>
      PushTracks(isa, st, offset, reg, cfi, st');
    case PopRegister(offset, reg) =>
      PopTracks(isa, st, offset, reg, cfi, st');
    case StackAlloc(offset, size) =>
      AppendedInstructions(st, st', [(offset, Dwarf.CfaOffset(st'.cfaOffset))]);
      RunOne(cfi, offset, Dwarf.CfaOffset(st'.cfaOffset));
    case StackDealloc(offset, size) =>
      AppendedInstructions(st, st', [(offset, Dwarf.CfaOffset(st'.cfaOffset))]);
      RunOne(cfi, offset, Dwarf.CfaOffset(st'.cfaOffset));
    case RememberState(offset) =>
      AppendedInstructions(st, st', [(offset, Dwarf.RememberState)]);
      RunOne(cfi, offset, Dwarf.RememberState);
    case RestoreState(offset) =>
      AppendedInstructions(st, st', [(offset, Dwarf.RestoreState)]);
      RunOne(cfi, offset, Dwarf.RestoreState);
    case SaveXmm(_, _, _) =>
      AppendedInstructions(st, st', []);
      assert Dwarf.Instructions([]) == [];
  }

  /** The push case of StepTracks: the CFA offset and then the save slot. */
  lemma PushTracks(isa: Isa, st: BuilderState, offset: CodeOffset, reg: RegUnit, cfi: Dwarf.CfiState, st': BuilderState)
    requires BanksFitTables(isa)
    requires st.frameRegister.None? && Tracks(st, cfi)
    requires StepCode(isa, st, PushRegister(offset, reg)) == Done(Ok(st'))
    ensures st'.frameRegister.None? && TracksAfter(cfi, st, st')
  {
    var cfa := WrapI32(st.cfaOffset + 8);
    var d := MapReg(isa, reg).value;
    assert MovesCfaOnPush(st.frameRegister, reg);
    AppendedInstructions(st, st', [(offset, Dwarf.CfaOffset(cfa)), (offset, Dwarf.Offset(d, WrapI32(-(cfa as int))))]);
    RunTwo(cfi, offset, Dwarf.CfaOffset(cfa), offset, Dwarf.Offset(d, WrapI32(-(cfa as int))));
  }

  /** The pop case of StepTracks: the CFA offset and then the restored
   *  register's rule. */
  lemma PopTracks(isa: Isa, st: BuilderState, offset: CodeOffset, reg: RegUnit, cfi: Dwarf.CfiState, st': BuilderState)
    requires BanksFitTables(isa)
    requires st.frameRegister.None? && Tracks(st, cfi)
    requires StepCode(isa, st, PopRegister(offset, reg)) == Done(Ok(st'))
    ensures st'.frameRegister.None? && TracksAfter(cfi, st, st')
  {
    var cfa := WrapI32(st.cfaOffset - 8);
    var d := MapReg(isa, reg).value;
    AppendedInstructions(st, st', [(offset, Dwarf.CfaOffset(cfa)), (offset, Dwarf.SameValue(d))]);
    RunTwo(cfi, offset, Dwarf.CfaOffset(cfa), offset, Dwarf.SameValue(d));
  }

  lemma {:induction false} RunTracks(isa: Isa, st: BuilderState, codes: seq<UnwindCode<RegUnit>>, cfi: Dwarf.CfiState, fin: BuilderState)
    requires BanksFitTables(isa)
    requires st.frameRegister.None? && NoCfaRegisterChange(codes) && Tracks(st, cfi)
    requires RunCodes(isa, st, codes) == Done(Ok(fin))
    ensures TracksAfter(cfi, st, fin)
    decreases |codes|
  {
    if codes == [] {
      AppendedInstructions(st, st, []);
      assert Dwarf.Instructions([]) == [];
    } else {
      var st1 := StepCode(isa, st, codes[0]).value.value;
      StepTracks(isa, st, codes[0], cfi, st1);
      var cfi1 := Dwarf.Run(cfi, Emitted(st, st1)).value;
      assert NoCfaRegisterChange(codes[1..]) by {
        forall k | 0 <= k < |codes[1..]| ensures !codes[1..][k].SetCfaRegister? {
          assert codes[1..][k] == codes[k + 1];
        }
      }
      RunTracks(isa, st1, codes[1..], cfi1, fin);
      TracksTransitive(cfi, st, st1, fin);
    }
  }

  /** Tracking composes: the instructions from `st` to `fin` are those from
   *  `st` to `mid` followed by those from `mid` to `fin`. */
  lemma TracksTransitive(cfi: Dwarf.CfiState, st: BuilderState, mid: BuilderState, fin: BuilderState)
    requires TracksAfter(cfi, st, mid)
    requires TracksAfter(Dwarf.Run(cfi, Emitted(st, mid)).value, mid, fin)
    ensures TracksAfter(cfi, st, fin)
  {
    var a := mid.instructions[|st.instructions|..];
    var b := fin.instructions[|mid.instructions|..];
    PrefixChain(st.instructions, mid.instructions, fin.instructions);
    assert Extends(st, fin);
    Dwarf.InstructionsAppend(a, b);
    Dwarf.RunAppend(cfi, Dwarf.Instructions(a), Dwarf.Instructions(b));
    assert Emitted(st, fin) == Dwarf.Instructions(a) + Dwarf.Instructions(b);
  }

  /** A prefix of a prefix is a prefix, and the suffix after it is the
   *  middle part followed by the last. */
  lemma PrefixChain<T>(p: seq<T>, q: seq<T>, s: seq<T>)
    requires |p| <= |q| <= |s| && q[..|p|] == p && s[..|q|] == q
    ensures s[..|p|] == p && s[|p|..] == q[|p|..] + s[|q|..]
  {
    assert s[..|p|] == s[..|q|][..|p|];
    assert s[|p|..] == s[|p|..|q|] + s[|q|..];
    assert s[|p|..|q|] == s[..|q|][|p|..];
  }

  /** Without a frame register, and without codes that move the CFA to
   *  another register, the instructions the builder emits give an unwinder
   *  starting from the CIE's row a CFA of RSP plus exactly the offset the
   *  builder ends with; every restore the builder accepts, the unwinder
   *  accepts too. */
  lemma CfaTrackedWithoutFrameRegister(isa: Isa, codes: seq<UnwindCode<RegUnit>>, fin: BuilderState)
    requires BanksFitTables(isa)
    requires NoCfaRegisterChange(codes)
    requires RunCodes(isa, InitialState(None), codes) == Done(Ok(fin))
    ensures var row := Dwarf.Run(Dwarf.InitialRow(Dwarf.CreateCie()).value, Dwarf.Instructions(fin.instructions));
      row.Some? && row.value.row.cfaReg == Dwarf.RSP && row.value.row.cfaOffset == fin.cfaOffset
  {
    Dwarf.CieInitialRow();
    var st := InitialState(None);
    RunTracks(isa, st, codes, Dwarf.InitialRow(Dwarf.CreateCie()).value, fin);
    assert fin.instructions[|st.instructions|..] == fin.instructions;
  }

  /** A push records the register as saved at CFA - cfa_offset, which is
   *  where the push stored it (the new top of stack). */
  lemma PushRecordsSaveSlot(isa: Isa, st: BuilderState, offset: CodeOffset, reg: RegUnit, cfi: Dwarf.CfiState, st': BuilderState)
    requires BanksFitTables(isa)
    requires PushRegStep(isa, st, offset, reg) == Ok(st')
    ensures Extends(st, st') && Dwarf.Run(cfi, Emitted(st, st')).Some?
    ensures var rules := Dwarf.Run(cfi, Emitted(st, st')).value.row.rules;
      MapReg(isa, reg).value in rules && rules[MapReg(isa, reg).value] == Dwarf.SavedAt(WrapI32(-(st'.cfaOffset as int)))
  {
    var cfa := WrapI32(st.cfaOffset + 8);
    var d := MapReg(isa, reg).value;
    var save := Dwarf.Offset(d, WrapI32(-(cfa as int)));
    if MovesCfaOnPush(st.frameRegister, reg) {
      AppendedInstructions(st, st', [(offset, Dwarf.CfaOffset(cfa)), (offset, save)]);
      RunTwo(cfi, offset, Dwarf.CfaOffset(cfa), offset, save);
    } else {
      AppendedInstructions(st, st', [(offset, save)]);
      RunOne(cfi, offset, save);
    }
  }

  // ---- remembered state ----

  lemma {:induction false} RunCodesAppend(isa: Isa, st: BuilderState, a: seq<UnwindCode<RegUnit>>, b: seq<UnwindCode<RegUnit>>)
    requires BanksFitTables(isa)
    ensures RunCodes(isa, st, a + b) ==
      match RunCodes(isa, st, a)
      case Done(Ok(s)) => RunCodes(isa, s, b)
      case other => other
    decreases |a|
  {
    if a == [] {
      assert a + b == b;
    } else {
      assert (a + b)[0] == a[0] && (a + b)[1..] == a[1..] + b;
      match StepCode(isa, st, a[0])
      case Panic(_) =>
      case Done(Err(_)) =>
      case Done(Ok(s)) => RunCodesAppend(isa, s, a[1..], b);
    }
  }

  predicate NoStateCodes(codes: seq<UnwindCode<RegUnit>>)
  {
    forall k :: 0 <= k < |codes| ==> !codes[k].RememberState? && !codes[k].RestoreState?
  }

  lemma {:induction false} RunKeepsSavedState(isa: Isa, st: BuilderState, codes: seq<UnwindCode<RegUnit>>)
    requires BanksFitTables(isa)
    requires NoStateCodes(codes)
    requires RunCodes(isa, st, codes).Done? && RunCodes(isa, st, codes).value.Ok?
    ensures RunCodes(isa, st, codes).value.value.savedState == st.savedState
    decreases |codes|
  {
    if codes != [] {
      assert NoStateCodes(codes[1..]) by {
        forall k | 0 <= k < |codes[1..]| ensures !codes[1..][k].RememberState? && !codes[1..][k].RestoreState? {
          assert codes[1..][k] == codes[k + 1];
        }
      }
      RunKeepsSavedState(isa, StepCode(isa, st, codes[0]).value.value, codes[1..]);
    }
  }

  /** Remembering, running any codes that do not touch the saved state, and
   *  restoring gives back the remembered CFA offset and leaves nothing
   *  saved. */
  lemma RememberRestoreRecoversCfa(isa: Isa, st: BuilderState, rememberAt: CodeOffset,
                                   mids: seq<UnwindCode<RegUnit>>, restoreAt: CodeOffset)
    requires BanksFitTables(isa)
    requires NoStateCodes(mids)
    requires var r := RunCodes(isa, st, [RememberState(rememberAt)] + mids + [RestoreState(restoreAt)]);
      r.Done? && r.value.Ok?
    ensures var fin := RunCodes(isa, st, [RememberState(rememberAt)] + mids + [RestoreState(restoreAt)]).value.value;
      fin.cfaOffset == st.cfaOffset && fin.savedState.None?
  {
    var remember: seq<UnwindCode<RegUnit>> := [RememberState(rememberAt)];
    var restore: seq<UnwindCode<RegUnit>> := [RestoreState(restoreAt)];
    var s1 := RememberStateStep(st, rememberAt);
    assert RunCodes(isa, st, remember) == Done(Ok(s1)) by {
      assert remember[1..] == [];
    }
    RunCodesAppend(isa, st, remember + mids, restore);
    RunCodesAppend(isa, st, remember, mids);
    RunKeepsSavedState(isa, s1, mids);
    var s2 := RunCodes(isa, s1, mids).value.value;
    assert restore[1..] == [];
    assert RunCodes(isa, s2, restore) == Done(Ok(RestoreStateStep(s2, restoreAt).value));
  }

  /** A restore with nothing remembered panics, and so does the whole run. */
  lemma RestoreWithoutRememberPanics(isa: Isa, st: BuilderState, offset: CodeOffset, rest: seq<UnwindCode<RegUnit>>)
    requires BanksFitTables(isa)
    requires st.savedState.None?
    ensures RunCodes(isa, st, [RestoreState(offset)] + rest).Panic?
  {
    assert ([RestoreState(offset)] + rest)[0] == RestoreState(offset);
  }

  // ---- the two functions the back end's tests compile ----

  /** push rbp at 2, rbp becomes the CFA register at 5, one epilogue that
   *  pops rbp at 15: the CFA follows rbp and goes back to rsp + 8. */
  lemma SimpleFunctionInstructions()
    ensures CreateUnwindInfoSpec(FunctionInfo(CallConv.SystemV, true), X86_64, Some(RU_RBP),
      Ok(Some(InputUnwindInfo(5, [PushRegister(2, RU_RBP), SetCfaRegister(5, RU_RBP)], [[PopRegister(15, RU_RBP)]], 16))))
      == Done(Ok(Some(SystemVUnwindInfo(
        [(2, Dwarf.CfaOffset(16)), (2, Dwarf.Offset(6, -16)), (5, Dwarf.CfaRegister(6)), (15, Dwarf.Cfa(7, 8))], 16))))
  {
    MapRegX86_64Int(RU_RBP);
    MapRegX86_64Int(RU_RSP);
    var eps: seq<seq<UnwindCode<RegUnit>>> := [[PopRegister(15, RU_RBP)]];
    assert eps[1..] == [];
    assert Flatten(eps) == [PopRegister(15, RU_RBP)];
    var codes := AllCodes(InputUnwindInfo(5, [PushRegister(2, RU_RBP), SetCfaRegister(5, RU_RBP)], eps, 16));
    assert codes == [PushRegister(2, RU_RBP), SetCfaRegister(5, RU_RBP), PopRegister(15, RU_RBP)];
    var s0 := InitialState(Some(RU_RBP));
    var s1 := PushRegStep(X86_64, s0, 2, RU_RBP).value;
    var s2 := SetCfaRegStep(X86_64, s1, 5, RU_RBP).value;
    var s3 := PopRegStep(X86_64, s2, 15, RU_RBP).value;
    assert RunCodes(X86_64, s3, codes[3..]) == Done(Ok(s3));
    assert RunCodes(X86_64, s2, codes[2..]) == Done(Ok(s3));
    assert RunCodes(X86_64, s1, codes[1..]) == Done(Ok(s3));
    assert RunCodes(X86_64, s0, codes) == Done(Ok(s3));
    assert s3.instructions == [(2, Dwarf.CfaOffset(16)), (2, Dwarf.Offset(6, -16)), (5, Dwarf.CfaRegister(6)), (15, Dwarf.Cfa(7, 8))];
  }

  /** Two returns: the first epilogue is bracketed by remember and restore,
   *  so the CFA rule goes back to rbp-relative after it. */
  lemma MultiReturnFunctionInstructions()
    ensures CreateUnwindInfoSpec(FunctionInfo(CallConv.SystemV, true), X86_64, Some(RU_RBP),
      Ok(Some(InputUnwindInfo(5, [PushRegister(2, RU_RBP), SetCfaRegister(5, RU_RBP)],
        [[RememberState(12), PopRegister(12, RU_RBP), RestoreState(13)], [PopRegister(15, RU_RBP)]], 16))))
      == Done(Ok(Some(SystemVUnwindInfo(
        [(2, Dwarf.CfaOffset(16)), (2, Dwarf.Offset(6, -16)), (5, Dwarf.CfaRegister(6)),
         (12, Dwarf.RememberState), (12, Dwarf.Cfa(7, 8)), (13, Dwarf.RestoreState), (15, Dwarf.Cfa(7, 8))], 16))))
  {
    MapRegX86_64Int(RU_RBP);
    MapRegX86_64Int(RU_RSP);
    var fp := Some(RU_RBP);
    var prologue := [PushRegister(2, RU_RBP), SetCfaRegister(5, RU_RBP)];
    var epilogues := [RememberState(12), PopRegister(12, RU_RBP), RestoreState(13), PopRegister(15, RU_RBP)];
    var unwind := InputUnwindInfo(5, [PushRegister(2, RU_RBP), SetCfaRegister(5, RU_RBP)],
        [[RememberState(12), PopRegister(12, RU_RBP), RestoreState(13)], [PopRegister(15, RU_RBP)]], 16);
    var eps := unwind.epiloguesUnwindCodes;
    assert eps[1..][1..] == [];
    assert Flatten(eps[1..]) == [PopRegister(15, RU_RBP)];
    assert Flatten(eps) == epilogues;
    assert AllCodes(unwind) == prologue + epilogues;
    var s0 := InitialState(fp);
    var s1 := PushRegStep(X86_64, s0, 2, RU_RBP).value;
    var s2 := SetCfaRegStep(X86_64, s1, 5, RU_RBP).value;
    assert prologue[1..][1..] == [];
    assert RunCodes(X86_64, s1, prologue[1..]) == Done(Ok(s2));
    assert RunCodes(X86_64, s0, prologue) == Done(Ok(s2));
    assert s2 == BuilderState(16, None, fp, [(2, Dwarf.CfaOffset(16)), (2, Dwarf.Offset(6, -16)), (5, Dwarf.CfaRegister(6))]);
    RunCodesAppend(X86_64, s0, prologue, epilogues);
    MultiReturnEpilogues(s2.instructions);
    assert s2.instructions + [(12, Dwarf.RememberState), (12, Dwarf.Cfa(7, 8)), (13, Dwarf.RestoreState), (15, Dwarf.Cfa(7, 8))]
      == [(2, Dwarf.CfaOffset(16)), (2, Dwarf.Offset(6, -16)), (5, Dwarf.CfaRegister(6)),
          (12, Dwarf.RememberState), (12, Dwarf.Cfa(7, 8)), (13, Dwarf.RestoreState), (15, Dwarf.Cfa(7, 8))];
    assert RunCodes(X86_64, s0, AllCodes(unwind)) == Done(Ok(BuilderState(8, None, fp,
      [(2, Dwarf.CfaOffset(16)), (2, Dwarf.Offset(6, -16)), (5, Dwarf.CfaRegister(6)),
       (12, Dwarf.RememberState), (12, Dwarf.Cfa(7, 8)), (13, Dwarf.RestoreState), (15, Dwarf.Cfa(7, 8))])));
  }

  /** The two epilogues of that function, from the state the prologue leaves. */
  lemma MultiReturnEpilogues(p: seq<(CodeOffset, Dwarf.CallFrameInstruction)>)
    ensures RunCodes(X86_64, BuilderState(16, None, Some(RU_RBP), p),
      [RememberState(12), PopRegister(12, RU_RBP), RestoreState(13), PopRegister(15, RU_RBP)])
      == Done(Ok(BuilderState(8, None, Some(RU_RBP),
        p + [(12, Dwarf.RememberState), (12, Dwarf.Cfa(7, 8)), (13, Dwarf.RestoreState), (15, Dwarf.Cfa(7, 8))])))
  {
    MapRegX86_64Int(RU_RSP);
    var fp := Some(RU_RBP);
    var codes := [RememberState(12), PopRegister(12, RU_RBP), RestoreState(13), PopRegister(15, RU_RBP)];
    var s3 := BuilderState(16, Some(16), fp, p + [(12, Dwarf.RememberState)]);
    var s4 := BuilderState(8, Some(16), fp, s3.instructions + [(12, Dwarf.Cfa(7, 8))]);
    var s5 := BuilderState(16, None, fp, s4.instructions + [(13, Dwarf.RestoreState)]);
    var s6 := BuilderState(8, None, fp, s5.instructions + [(15, Dwarf.Cfa(7, 8))]);
    assert codes[1..][1..][1..][1..] == [];
    assert RunCodes(X86_64, s5, codes[1..][1..][1..]) == Done(Ok(s6));
    assert RunCodes(X86_64, s4, codes[1..][1..]) == Done(Ok(s6));
    assert RunCodes(X86_64, s3, codes[1..]) == Done(Ok(s6));
    assert s6.instructions == p + [(12, Dwarf.RememberState), (12, Dwarf.Cfa(7, 8)), (13, Dwarf.RestoreState), (15, Dwarf.Cfa(7, 8))];
  }

  /** Only System V-like conventions on a 64-bit x86 target get System V
   *  information; anything else, or a function without a prologue end,
   *  gets none. */
  lemma OnlySystemVLikeConventions(func: FunctionInfo, isa: Isa, frameRegister: Option<RegUnit>,
                                   lowered: Result<Option<InputUnwindInfo<RegUnit>>, CodegenError>)
    requires BanksFitTables(isa)
    ensures var r := CreateUnwindInfoSpec(func, isa, frameRegister, lowered);
      r.Done? && r.value.Ok? && r.value.value.Some? ==>
        && func.callConv in {Fast, Cold, CallConv.SystemV} && func.hasPrologueEnd
        && isa.name == "x86" && isa.pointerBits == 64
        && lowered.Ok? && lowered.value.Some?
        && r.value.value.value.len == lowered.value.value.codeLen
  {
  }
}
