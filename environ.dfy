/**
 * The code generator's relocation vocabulary as the JIT sees it: relocation
 * kinds, runtime library calls, relocation targets and relocations.
 */
module Environ {
  import opened Base

  /** Relocation kinds. The JIT's tables name the first eight; the rest of
   *  the code generator's kinds are represented by `OtherReloc`. */
  datatype Reloc =
    | Abs4
    | Abs8
    | X86PCRel4
    | X86PCRelRodata4
    | X86CallPCRel4
    | X86CallPLTRel4
    | X86GOTPCRel4
    | ElfX86_64TlsGd
    | OtherReloc

  /** Runtime library calls. The JIT links the fifteen integer and rounding
   *  helpers by name; the others are represented by `OtherLibCall`. */
  datatype LibCall =
    | UdivI64 | SdivI64 | UremI64 | SremI64
    | IshlI64 | UshrI64 | SshrI64
    | CeilF32 | FloorF32 | TruncF32 | NearestF32
    | CeilF64 | FloorF64 | TruncF64 | NearestF64
    | OtherLibCall

  datatype RelocationTarget =
    | UserFunc(funcIndex: nat)
    | LibCallTarget(call: LibCall)
    | JumpTable(func: nat, table: nat)

  /** A relocation inside one function's code. */
  datatype Relocation = Relocation(reloc: Reloc, target: RelocationTarget, offset: U32, addend: I64)
}
