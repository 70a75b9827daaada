/**
 * The ISA-independent unwind vocabulary of the code generator: the
 * per-function unwind information handed to a runtime (Windows x64 or
 * System V), and the intermediate unwind codes a back end produces from a
 * function's prologue and epilogues.
 */
module UnwindIr {
  import opened Base
  import Dwarf
  import WinX64

  /** A byte offset into a function's machine code. */
  type CodeOffset = U32

  /** System V unwind information: located call-frame instructions and
   *  the function's length. */
  datatype SystemVUnwindInfo = SystemVUnwindInfo(
    instructions: seq<(CodeOffset, Dwarf.CallFrameInstruction)>,
    len: CodeOffset)

  /** Unwind information for a single function. */
  datatype UnwindInfo =
    | WindowsX64(windows: WinX64.UnwindInfo)
    | SystemV(systemV: SystemVUnwindInfo)

  /** An unwind event, each located at the code offset where it takes effect. */
  datatype UnwindCode<R> =
    | PushRegister(offset: CodeOffset, reg: R)
    | PopRegister(offset: CodeOffset, reg: R)
    | SaveXmm(offset: CodeOffset, reg: R, stackOffset: U32)
    | StackAlloc(offset: CodeOffset, size: U32)
    | StackDealloc(offset: CodeOffset, size: U32)
    | SetCfaRegister(offset: CodeOffset, reg: R)
    | RememberState(offset: CodeOffset)
    | RestoreState(offset: CodeOffset)

  datatype InputUnwindInfo<R> = InputUnwindInfo(
    prologueSize: CodeOffset,
    prologueUnwindCodes: seq<UnwindCode<R>>,
    epiloguesUnwindCodes: seq<seq<UnwindCode<R>>>,
    codeLen: CodeOffset)

  /** Why a register has no DWARF number. */
  datatype RegisterMappingError =
    | MissingBank
    | UnsupportedArchitecture
    | UnsupportedRegisterBank(name: string)

  datatype CodegenError =
    | RegisterMapping(mapping: RegisterMappingError)
    | Unsupported(what: string)

  /** The epilogues' codes in order, as one list. */
  function Flatten<R>(epilogues: seq<seq<UnwindCode<R>>>): seq<UnwindCode<R>>
  {
    if epilogues == [] then [] else epilogues[0] + Flatten(epilogues[1..])
  }

  /** All codes of an input, prologue first: the order a back end walks them. */
  function AllCodes<R>(unwind: InputUnwindInfo<R>): seq<UnwindCode<R>>
  {
    unwind.prologueUnwindCodes + Flatten(unwind.epiloguesUnwindCodes)
  }
}
