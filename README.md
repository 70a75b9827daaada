# Unwind information, JIT code memory, debug images and the interpreter bridge of a Wasmtime fork

This project models, in Dafny, the core of a fork of the Wasmtime
WebAssembly runtime and its Cranelift code generator:

- **Unwind information.** The x64 back end scans a lowered function's
  prologue and epilogues into unwind codes and dispatches on the requested
  unwind format. The x86 back end's System V `InstructionBuilder` turns
  unwind codes into DWARF call-frame instructions while it tracks the CFA
  offset. A small DWARF call-frame interpreter gives those instructions
  their meaning. The Windows x64 register mapping and `UNWIND_INFO` layout
  are modelled with a decoder as their inverse.
- **JIT code memory and object files.** `CodeMemory` owns arenas of mapped
  memory that are filled front to back, retired when full and published in
  one monotone sweep. There are tables that turn relocations into
  object-file relocations and back, and the symbol, text and unwind-list
  rules `build_object` follows.
- **Debug information.** The module covers DWARF register operands, the
  stack-slot and register cases of `translate_loc`, the old-format
  heuristic, compiled expressions, and the `ValueLabelRangesBuilder` that
  finds where every value label of a scope is live. It also covers
  `patch_dwarf_sections` and the header and segment rules that make the
  written ELF image loadable.
- **Interpreter bridge.** `find_body` and the 8-byte argument slots of
  `wasmtime_eval`. The two trampoline paths: the compiled-trampoline cache
  and `invoke`, and the hand-written wrapper table and its `invoke`.
- **API values and the debugger context.** The host-facing `Val`/`AnyRef`
  conversions and slot encoding. The engine debugger's breakpoint list and
  its null agent.

Conventions used throughout:

- A Rust panic (`panic!`, `unimplemented!`, `unwrap` on `None`, an index
  out of bounds, an `assert!`) is the `Panic` case of the `Exec` datatype
  in `base.dfy`, carrying the message where the source gives one.
- Fixed-width integers are subset types of `int`. Wrap-around is written
  out for the builder's `i32` arithmetic, 64-bit address sums, relocation
  offsets reduced to `u32`, and the `as u16` truncations. The `as u32`
  casts of code-memory offsets and lengths are exact because arenas are
  assumed smaller than 2^32 bytes (see "Left out").
- Memory the source reads through raw pointers is either a function from
  offsets to bytes (`find_body`) or a sequence of slots, each the number
  its bytes denote in little-endian order (the host is x86-64).
- An operation that changes state in place is a method of a class, or a
  method with `modifies`: `CodeMemory`, `InstructionBuilder`,
  `ValueLabelRangesBuilder`, `TrampolineCache`, `EngineDebuggerContext`,
  `ElfImage`, the section array of `patch_dwarf_sections` and the
  argument-slot array of `wasmtime_eval`. Each is proved against a pure
  function of the old state, and the properties are proved about that
  function.

Two back ends of the snapshot disagree about the shared unwind types.
`x64/inst/unwind.rs` passes `Some(rbp)` where the x64 scanner takes a word
size, and the x64 scanner produces codes of its own shape. Each file is
modelled against its own types, and the x64 dispatch takes the System V
path as a function parameter.

## Model

| member | source | states |
|---|---|---|
| X64SystemV.MapReg | cranelift/codegen/src/isa/x64/inst/unwind/systemv.rs:40-88 | I64 and V128 registers map, through the general-purpose and XMM tables; every other class is `UnsupportedRegisterBank` |
| X64SystemV.MapRegInjective | cranelift/codegen/src/isa/x64/inst/unwind/systemv.rs:42-85 | two mappable registers with the same DWARF number are the same register; rsp is 7 and rbp is 6 |
| X64SystemV.MapperRsp | cranelift/codegen/src/isa/x64/inst/unwind/systemv.rs:194-202 | the mapper reports DWARF 7 as the stack pointer, which is what `map_reg` gives rsp |
| X64SystemV.EpiloguesCodes | cranelift/codegen/src/isa/x64/inst/unwind/systemv.rs:164-183 | one code list per epilogue, in epilogue order |
| X64SystemV.EpiloguesScan | cranelift/codegen/src/isa/x64/inst/unwind/systemv.rs:164-183 | each epilogue's codes in order, or the panic of the first epilogue that fails: `end - 1` underflows for an epilogue ending at 0, and a layout index past the end is out of bounds |
| X64SystemV.CreateUnwindInfo | cranelift/codegen/src/isa/x64/inst/unwind/systemv.rs:90-192 | succeeds iff every index it reads is in range; otherwise the panic of the first failing read, in order: prologue loop, epilogues, prologue size. On success, the scan loop gives the prologue's codes instruction by instruction and each epilogue's codes; prologue size is the layout offset at the prologue's end; function size and word size are passed through |
| X64SystemV.InstCodesNetAlloc | cranelift/codegen/src/isa/x64/inst/unwind/systemv.rs:102-161 | with 8-byte words, the codes one followed instruction yields allocate exactly as far as it moves RSP (push: 8 down; sub/add imm: imm down/up) |
| X64SystemV.ScanAccountsForStack | cranelift/codegen/src/isa/x64/inst/unwind/systemv.rs:97-162 | the allocations minus deallocations recorded for the prologue equal how far the prologue moves RSP, when every write to RSP is one the scan follows |
| X64SystemV.PrologueCodesOrdered | cranelift/codegen/src/isa/x64/inst/unwind/systemv.rs:97-162 | with a monotone layout, prologue codes come in code order and none lies past the last scanned instruction's end |
| X64SystemV.EpilogueBracketed | cranelift/codegen/src/isa/x64/inst/unwind/systemv.rs:168-181 | an epilogue gets no codes iff it ends the function; otherwise exactly a remember then a restore, in code order, the restore before the function's end |
| X64SystemV.SimpleFunctionScan | cranelift/codegen/src/isa/x64/inst/unwind/systemv.rs:222-246 | the one-return test function with its 64-byte slot (push, mov, `sub rsp, 64`; then mov, pop, ret ending at 13): StackAlloc(8) and SaveRegister(rbp) at 1, SetFramePointer at 4, StackAlloc(64) at 8, and nothing for its final epilogue. The System V builder drops the allocation at 8 because rbp is then the frame register, so the test's FDE has three instructions |
| X64SystemV.MultiReturnEpilogues | cranelift/codegen/src/isa/x64/inst/unwind/systemv.rs:264-285 | the two-return test function: remember at 16 and restore at 18 for the first epilogue, nothing for the last |
| X64Unwind.CreateUnwindInfo | cranelift/codegen/src/isa/x64/inst/unwind.rs:18-36 | panics exactly for Windows; `None` gives no information; System V hands on the System V path's result or error unchanged, tagged `SystemV`; no other kind produces information |
| Dwarf.GpRegMapInverse | cranelift/codegen/src/isa/x86/unwind/systemv.rs:45-62 | the general-purpose table is inverted by `GpHwOf` and never yields RA or an XMM number |
| Dwarf.GpRegMapInjective | cranelift/codegen/src/isa/x86/unwind/systemv.rs:45-62 | distinct hardware encodings get distinct DWARF numbers |
| Dwarf.XmmRegMapShape | cranelift/codegen/src/isa/x86/unwind/systemv.rs:63-80 | xmm k is DWARF 17 + k, above RA |
| Dwarf.CreateCie | cranelift/codegen/src/isa/x86/unwind/systemv.rs:14-36 | DWARF32, 8-byte addresses, version 1, code alignment 1, data alignment -8, RA as the return column |
| Dwarf.CieInitialRow | cranelift/codegen/src/isa/x86/unwind/systemv.rs:28-33 | the CIE's instructions leave a DWARF unwinder with CFA = RSP + 8 and the return address saved at CFA - 8 |
| X86SystemV.BankContaining | cranelift/codegen/src/isa/x86/unwind/systemv.rs:82-85 | the first bank containing the unit, or none when no bank does |
| X86SystemV.MapRegX86_64Int | cranelift/codegen/src/isa/x86/unwind/systemv.rs:82-94 | on the x86-64 register file, integer unit k maps through the general-purpose table |
| X86SystemV.MapRegX86_64Float | cranelift/codegen/src/isa/x86/unwind/systemv.rs:82-94 | float unit 16 + k maps to xmm k |
| X86SystemV.MapRegX86_64Other | cranelift/codegen/src/isa/x86/unwind/systemv.rs:82-94 | the flags unit is `UnsupportedRegisterBank("FlagRegs")`; a unit past the register file is `MissingBank` |
| X86SystemV.MapRegX86_64Injective | cranelift/codegen/src/isa/x86/unwind/systemv.rs:45-94 | different register units never share a DWARF number |
| X86SystemV.InstructionBuilder.constructor | cranelift/codegen/src/isa/x86/unwind/systemv.rs:108-118 | a new builder has CFA offset 8, nothing saved and no instructions |
| X86SystemV.InstructionBuilder.PushReg | cranelift/codegen/src/isa/x86/unwind/systemv.rs:120-139 | the new state is the push step's (offset + 8; `CfaOffset` only for the frame register or without one; always the save slot); an unmappable register is its mapping error, with the offset already moved and any `CfaOffset` already emitted |
| X86SystemV.InstructionBuilder.AdjustSpDownImm | cranelift/codegen/src/isa/x86/unwind/systemv.rs:141-152 | the new state is the allocation step's: nothing with a frame register, otherwise offset + imm and a `CfaOffset` |
| X86SystemV.InstructionBuilder.AdjustSpUpImm | cranelift/codegen/src/isa/x86/unwind/systemv.rs:154-165 | the new state is the deallocation step's: nothing with a frame register, otherwise offset - imm and a `CfaOffset` |
| X86SystemV.InstructionBuilder.SetCfaReg | cranelift/codegen/src/isa/x86/unwind/systemv.rs:167-173 | emits `CfaRegister` of the mapped register and keeps the offset; a mapping error leaves the state unchanged |
| X86SystemV.InstructionBuilder.PopReg | cranelift/codegen/src/isa/x86/unwind/systemv.rs:175-205 | the new state is the pop step's: offset - 8, then `Cfa(RSP, offset)` when popping the frame register, or `CfaOffset` and `SameValue` without one; an unmappable register is its mapping error, with the offset already moved and, without a frame register, the `CfaOffset` already emitted |
| X86SystemV.InstructionBuilder.RememberState | cranelift/codegen/src/isa/x86/unwind/systemv.rs:207-212 | saves the current offset in the single slot, overwriting any earlier one, and emits `RememberState` |
| X86SystemV.InstructionBuilder.RestoreState | cranelift/codegen/src/isa/x86/unwind/systemv.rs:214-220 | takes back the saved offset, clears the slot and emits `RestoreState` |
| X86SystemV.ApplyCode | cranelift/codegen/src/isa/x86/unwind/systemv.rs:263-292 | one unwind code applied to the builder ends in the step function's state, error or panic |
| X86SystemV.CreateUnwindInfo | cranelift/codegen/src/isa/x86/unwind/systemv.rs:231-298 | the driver loop computes exactly the driver specification: prologue codes then every epilogue's, stopping at the first error |
| X86SystemV.RunCodesAt | cranelift/codegen/src/isa/x86/unwind/systemv.rs:256-293 | a run from position i is the step at i followed by the run from i + 1 |
| X86SystemV.RunCodesAppend | cranelift/codegen/src/isa/x86/unwind/systemv.rs:256-293 | running a + b is running a and then, if it succeeded, b |
| X86SystemV.StepTracks | cranelift/codegen/src/isa/x86/unwind/systemv.rs:120-205 | without a frame register, the instructions one code emits move a DWARF unwinder's CFA exactly as the builder moves its offset |
| X86SystemV.PushTracks | cranelift/codegen/src/isa/x86/unwind/systemv.rs:120-139 | the push case of that tracking property |
| X86SystemV.PopTracks | cranelift/codegen/src/isa/x86/unwind/systemv.rs:175-205 | the pop case of that tracking property |
| X86SystemV.RunTracks | cranelift/codegen/src/isa/x86/unwind/systemv.rs:120-205 | tracking holds over a whole run of codes that never change the CFA register |
| X86SystemV.TracksTransitive | cranelift/codegen/src/isa/x86/unwind/systemv.rs:120-205 | tracking from st to mid and from mid to fin is tracking from st to fin |
| X86SystemV.CfaTrackedWithoutFrameRegister | cranelift/codegen/src/isa/x86/unwind/systemv.rs:120-165 | without a frame register, an unwinder starting from the CIE's row and running the emitted instructions ends with CFA = RSP + the builder's final offset |
| X86SystemV.PushRecordsSaveSlot | cranelift/codegen/src/isa/x86/unwind/systemv.rs:132-136 | a push records the register as saved at CFA - cfa_offset, the new top of stack |
| X86SystemV.RunKeepsSavedState | cranelift/codegen/src/isa/x86/unwind/systemv.rs:207-220 | codes other than remember and restore never touch the saved offset |
| X86SystemV.RememberRestoreRecoversCfa | cranelift/codegen/src/isa/x86/unwind/systemv.rs:207-220 | remember, any codes that do not touch the saved state, then restore gives back the remembered offset and leaves nothing saved |
| X86SystemV.RestoreWithoutRememberPanics | cranelift/codegen/src/isa/x86/unwind/systemv.rs:214-220 | a restore with nothing remembered panics, and so does the whole run |
| X86SystemV.SimpleFunctionInstructions | cranelift/codegen/src/isa/x86/unwind/systemv.rs:316-339 | the test's one-return function yields CfaOffset(16), Offset(6, -16), CfaRegister(6) and the final (15, Cfa(7, 8)), length 16 |
| X86SystemV.MultiReturnFunctionInstructions | cranelift/codegen/src/isa/x86/unwind/systemv.rs:359-379 | the two-return function adds remember at 12, Cfa(7, 8) at 12, restore at 13 and Cfa(7, 8) at 15 |
| X86SystemV.MultiReturnEpilogues | cranelift/codegen/src/isa/x86/unwind/systemv.rs:359-379 | the two epilogues, from the state the prologue leaves, end at offset 8 with those four instructions appended |
| X86SystemV.OnlySystemVLikeConventions | cranelift/codegen/src/isa/x86/unwind/systemv.rs:237-244 | information is produced only for Fast, Cold and SystemV conventions with a prologue end, on 64-bit x86, and its length is the input's code length |
| WinX64.Map | cranelift/codegen/src/isa/x64/inst/unwind/winx64.rs:16-25 | I64 registers map to `Int(hw)` and V128 to `Xmm(hw)`, keeping the hardware encoding; any other class panics "explicit panic" |
| WinX64.EmitSize | cranelift/codegen/src/isa/x64/inst/unwind/winx64.rs:82-99 | a multiple of 4, at least the 4-byte header |
| WinX64.EncodeCode | cranelift/codegen/src/isa/x64/inst/unwind/winx64.rs:94-97 | two bytes per slot the code occupies |
| WinX64.Emit | cranelift/codegen/src/isa/x64/inst/unwind/winx64.rs:88-93 | `EmitSize` bytes; byte 0 holds version 1 and the flags, byte 1 the prologue size, byte 2 the slot count |
| WinX64.DecodeEncodeReversed | cranelift/codegen/src/isa/x64/inst/unwind/winx64.rs:69-78 | codes written latest first decode back to the codes in prologue order |
| WinX64.EmitRoundTrip | cranelift/codegen/src/isa/x64/inst/unwind/winx64.rs:62-99 | parsing what the emitter writes gives back the unwind information, for every representable one |
| WinX64.FlagsByteRoundTrip | cranelift/codegen/src/isa/x64/inst/unwind/winx64.rs:88-89 | the first header byte holds the version in its low three bits and the flags above them |
| WinX64.FrameByteRoundTrip | cranelift/codegen/src/isa/x64/inst/unwind/winx64.rs:90-92 | the frame byte holds the offset in its high nibble and the register in the low one, 0 exactly when there is no frame register |
| WinX64.SmallAllocBytes | cranelift/codegen/src/isa/x64/inst/unwind/winx64.rs:62-99 | the 64-byte test: size 8 and bytes 01 09 02 00 09 72 02 50 |
| WinX64.MediumAllocBytes | cranelift/codegen/src/isa/x64/inst/unwind/winx64.rs:125-166 | the 10000-byte test: size 12, the scaled 16-bit form and two padding bytes |
| WinX64.LargeAllocBytes | cranelift/codegen/src/isa/x64/inst/unwind/winx64.rs:192-233 | the 1000000-byte test: size 12, the unscaled 32-bit form |
| JitCodeMemory.Align4 | crates/jit/src/code_memory.rs:197-207 | `(x + 3) & !3` is the least multiple of 4 not below x |
| JitCodeMemory.FunctionAllocationSize | crates/jit/src/code_memory.rs:197-207 | the body length without Windows information; otherwise a multiple of 4 covering the body and the emitted block |
| JitCodeMemory.AlignedStartFits | crates/jit/src/code_memory.rs:197-207 | a function whose reservation starts 4-aligned always fits it, Windows block included |
| JitCodeMemory.MisalignedStartOverruns | crates/jit/src/code_memory.rs:236-240 | a Windows function reserved at arena offset 5 overruns its reservation, because `copy_function` aligns arena-relative |
| JitCodeMemory.AlignedAllocationFits | crates/jit/src/code_memory.rs:195-206 | a reservation that pads to the next 4-aligned arena offset fits the function at any start, and the next function goes exactly at its end |
| JitCodeMemory.AlignedAllocationAgrees | crates/jit/src/code_memory.rs:195-206 | at a 4-aligned start that reservation is `function_allocation_size`'s |
| JitCodeMemory.FuncEnd | crates/jit/src/code_memory.rs:226-254 | the next function's start is past this body |
| JitCodeMemory.Placed | crates/jit/src/code_memory.rs:226-250 | the arena keeps its length after the body and block are written |
| JitCodeMemory.PlacedFrame | crates/jit/src/code_memory.rs:226-250 | after the copy the body sits at its start, and no byte outside the function's extent changes |
| JitCodeMemory.Registered | crates/jit/src/code_memory.rs:243-248 | exactly the functions with unwind information are registered, at their start with their body length |
| JitCodeMemory.CopyFunction | crates/jit/src/code_memory.rs:220-255 | succeeds iff the body and block fit; then the bytes are `Placed`, the next start is `FuncEnd` and the registry is `Registered` |
| JitCodeMemory.NewEntry | crates/jit/src/code_memory.rs:23-32 | a fresh zeroed writable arena with an empty registry at the mapping's address, or the mapping's failure |
| JitCodeMemory.CodeMemoryEntry.Range | crates/jit/src/code_memory.rs:34-38 | starts at the mapping's address and spans the bytes in use |
| JitCodeMemory.CodeMemory.constructor | crates/jit/src/code_memory.rs:65-71 | no current arena, no retired arenas, nothing published |
| JitCodeMemory.CodeMemory.Retire | crates/jit/src/code_memory.rs:265-280 | the current arena joins the retired ones; pending relocations are unchanged |
| JitCodeMemory.CodeMemory.PushCurrent | crates/jit/src/code_memory.rs:265-280 | retires the current arena and, for a non-zero size, opens a fresh one from the mapping; a mapping failure changes nothing |
| JitCodeMemory.CodeMemory.Allocate | crates/jit/src/code_memory.rs:163-194 | a new arena is opened exactly when there is none or too little room, and only a failed mapping is an error; the reservation starts at the old length (0 in a new arena) and grows it by exactly `size` |
| JitCodeMemory.CodeMemory.CopyIntoCurrent | crates/jit/src/code_memory.rs:220-255 | `copy_function` on the current arena: bytes placed and function registered, nothing else changes |
| JitCodeMemory.CodeMemory.RecordRelocs | crates/jit/src/code_memory.rs:209-215 | the function's relocations join the end of the pending ones, located at the function |
| JitCodeMemory.CodeMemory.AllocateForFunction | crates/jit/src/code_memory.rs:76-90 | a zero-size function panics; otherwise reserve, copy and register, then record the relocations; the returned span is the body's place |
| JitCodeMemory.CodeMemory.AllocateForCompilation | crates/jit/src/code_memory.rs:93-118 | one reservation for the sum of sizes; functions laid out back to back, relocations paired up to the shorter list and recorded at each start |
| JitCodeMemory.CodeMemory.CopyCompilation | crates/jit/src/code_memory.rs:106-115 | the copy loop on the current arena meets `Copied` for the layout, and the pending relocations grow by each function's, in order |
| JitCodeMemory.CopyFunctions | crates/jit/src/code_memory.rs:106-115 | the copy loop: succeeds iff the layout does; bytes, registry and relocations as the layout specifications give them |
| JitCodeMemory.LayoutFacts | crates/jit/src/code_memory.rs:98-118 | the first function at the start, each next one where the previous ends, every one inside the reservation |
| JitCodeMemory.RecordFromLayout | crates/jit/src/code_memory.rs:106-115 | the relocations recorded are each function's, under its start in the layout, in order |
| JitCodeMemory.RegisterFromLayout | crates/jit/src/code_memory.rs:106-115 | the registry gains exactly the functions with unwind information, at their starts |
| JitCodeMemory.PlaceFromKeepsBodies | crates/jit/src/code_memory.rs:106-115 | bytes outside the reservation are untouched and every body is intact at its start: later functions never overwrite earlier ones |
| JitCodeMemory.PublishEntry | crates/jit/src/code_memory.rs:128-148 | an arena published: registry handed over, pages read-execute unless empty, relocations dropped; mapping, address, length and registrations kept |
| JitCodeMemory.PublishEach | crates/jit/src/code_memory.rs:127-148 | the publish loop publishes every arena from `published` on and leaves earlier ones alone |
| JitCodeMemory.CodeMemory.Publish | crates/jit/src/code_memory.rs:121-149 | retires the current arena, publishes every unpublished one in order, leaves no current arena (so the next allocation opens a new one) and no pending relocations |
| JitCodeMemory.CodeMemory.PublishedRanges | crates/jit/src/code_memory.rs:283-287 | one range per published arena, in order |
| JitCodeMemory.PendingRelocationsGrow | crates/jit/src/code_memory.rs:290-302 | recording relocations with the current arena appends them, located, to the pending ones |
| JitCodeMemory.RelocationsOfCleared | crates/jit/src/code_memory.rs:290-302 | arenas whose relocations were dropped contribute none |
| JitCodeMemory.ToLibCall | crates/jit/src/code_memory.rs:407-426 | a name is accepted only when it has the `wasmtime_` prefix and names a known library call |
| JitCodeMemory.RelocFromObject | crates/jit/src/code_memory.rs:440-451 | an accepted triple is 32 or 64 bits wide, 64 exactly for Abs8, and never yields the read-only-data kind or an unnamed one |
| JitCodeMemory.TargetFromSymbol | crates/jit/src/code_memory.rs:452-471 | `_wasm_function_N` names function N for N below `u32::MAX`, and panics on the `FuncIndex::new` assertion from there on; other accepted names are library calls; anything else panics |
| JitCodeMemory.ToCraneliftRelocation | crates/jit/src/code_memory.rs:428-480 | the kind from the table, the target from the named symbol, the offset cut to 32 bits and addend 0; it panics iff one of those steps panics |
| JitCodeMemory.ToCraneliftRelocationWithAddend | crates/jit/src/code_memory.rs:428-480 | the same conversion keeping the relocation's own addend |
| JitObject.ObjectRelocKind | crates/jit/src/object.rs:24-47 | read-only-data relocations are dropped and unnamed kinds panic |
| JitObject.RelocKindRoundTrip | crates/jit/src/object.rs:24-47 | the triple a kind is written with reads back as that kind |
| JitObject.RelocTripleRoundTrip | crates/jit/src/object.rs:24-47 | every triple the reader accepts is the one the writer uses for its kind: the tables are inverse |
| JitObject.ToObjectRelocation | crates/jit/src/object.rs:23-62 | offset = function offset + relocation offset, panicking "attempt to add with overflow" when the sum leaves 64 bits; addend unchanged; symbol from the function or library-call map, panicking on a missing library call |
| JitObject.ToObjectRelocations | crates/jit/src/object.rs:14-63 | succeeds iff every relocation converts; never more relocations than it was given |
| JitObject.ToObjectRelocationsKept | crates/jit/src/object.rs:14-63 | the output is exactly the non-read-only-data relocations, each converted, in order |
| JitObject.FunctionSymbolName | crates/jit/src/object.rs:96-110 | `_wasm_function_` followed by the decimal index |
| JitObject.TrampolineSymbolName | crates/jit/src/object.rs:176 | `_trampoline_` followed by the decimal index |
| JitObject.FunctionSymbolRoundTrip | crates/jit/src/object.rs:110 | a function symbol read back names its function when the index is below `u32::MAX`, and panics on the index assertion otherwise |
| JitObject.FunctionSymbolNamesDistinct | crates/jit/src/object.rs:110 | different functions get different symbol names |
| JitObject.LibcallNamesRoundTrip | crates/jit/src/object.rs:136-167 | every library-call symbol name reads back as its call |
| JitObject.LibcallNamesComplete | crates/jit/src/object.rs:136-167 | every name the reader accepts is a symbol the writer adds, for the same call |
| JitObject.LibcallMapDomain | crates/jit/src/object.rs:136-167 | every named call has a symbol |
| JitObject.LibcallMapUdiv | crates/jit/src/object.rs:136-167 | `UdivI64`, inserted twice, keeps the second symbol |
| JitObject.AppendAligned | crates/jit/src/object.rs:108-126 | data goes at the next multiple of the alignment, after the old text, which is kept |
| JitObject.BuildText | crates/jit/src/object.rs:71-196 | imports, then functions, then the library calls, then trampolines: their symbols, the library-call map, one text section padded to 4 KiB, and the unwind list |
| JitObject.AddLibcalls | crates/jit/src/object.rs:136-167 | one undefined weak symbol per insert, in order, and the map from each call to the id of its last insert |
| JitObject.LibcallMapEntries | crates/jit/src/object.rs:136-167 | every inserted call has an entry, and each entry is the id of an insert of that call |
| JitObject.BuildTextSymbolsNamed | crates/jit/src/object.rs:71-167 | the symbol table `build_object` writes names function `i` at id `i` and each library call at the id its map entry gives, as the relocation round trip requires |
| JitObject.AddImports | crates/jit/src/object.rs:94-106 | one undefined weak `_wasm_function_i` per import |
| JitObject.AddFunctions | crates/jit/src/object.rs:107-134 | the function loop yields the function symbols, text and unwind list |
| JitObject.AddTrampolines | crates/jit/src/object.rs:169-195 | the trampoline loop yields the trampoline symbols, text and unwind list |
| JitObject.FuncUnwindListExact | crates/jit/src/object.rs:128-133 | the unwind list has an entry `Func(n + k)` exactly for each function k with unwind information |
| JitObject.FuncUnwindListOrdered | crates/jit/src/object.rs:128-133 | the entries come in emission order |
| JitObject.FuncSymbolsAt | crates/jit/src/object.rs:109-120 | symbol k names function n + k, at its offset in the text, with its body's size |
| JitObject.TrampolineSymbolsAt | crates/jit/src/object.rs:175-184 | symbol k names trampoline k, at its offset, with its size |
| JitObject.BodyAtSymbol | crates/jit/src/object.rs:108-114 | each function's body sits in the text at its symbol's value |
| JitObject.RelocationRoundTrip | crates/jit/src/object.rs:54-61 | a relocation of a function at any text offset `off`, written and read back with its addend kept, is the relocation it was, at offset `(off + offset) mod 2^32`, for a function index below `u32::MAX` |
| JitObject.RelocationRoundTripAtStart | crates/jit/src/object.rs:54-61 | at text offset 0 the round trip gives back exactly the relocation |
| JitObject.ReadBack | crates/jit/src/object.rs:54-61 | an object relocation whose kind, symbol, offset and addend read back as r reads back as r |
| JitObject.TargetRoundTrip | crates/jit/src/object.rs:49-53 | the symbol a relocation is written against reads back as its target |
| JitObject.FunctionTargetRoundTrip | crates/jit/src/object.rs:110 | a function symbol reads back as that function |
| JitObject.LibcallSymbolRoundTrip | crates/jit/src/object.rs:136-167 | a library-call symbol reads back as that call |
| JitObject.LibcallName | crates/jit/src/object.rs:136-167 | the symbol name given to a named library call reads back as that call |
| JitObject.AddendDroppedAsWritten | crates/jit/src/code_memory.rs:472-473 | a call relocation with the usual -4 addend reads back with addend 0 |
| DebugExpression.Uleb128 | crates/debug/src/transform/expression.rs:71-73 | every byte but the last has the continuation bit set, the last has it clear |
| DebugExpression.Sleb128 | crates/debug/src/transform/expression.rs:75-77 | every byte but the last has the continuation bit set, the last has it clear |
| DebugExpression.Uleb128RoundTrip | crates/debug/src/transform/expression.rs:71-73 | ULEB128 decodes back to the number, whatever follows |
| DebugExpression.Sleb128RoundTrip | crates/debug/src/transform/expression.rs:75-77 | SLEB128 decodes back to the number, whatever follows |
| DebugExpression.WriteOpRegRoundTrip | crates/debug/src/transform/expression.rs:45-52 | `write_op_reg` reads back as that register, in one byte iff reg < 32 |
| DebugExpression.WriteOpBregRoundTrip | crates/debug/src/transform/expression.rs:54-61 | the same for `write_op_breg` |
| DebugExpression.ExtendedRegRoundTrip | crates/debug/src/transform/expression.rs:49-59 | `regx`/`bregx` with a ULEB128 number reads back as that register |
| DebugExpression.TranslateLoc | crates/debug/src/transform/expression.rs:126-163 | a register gives the mapping error, or an operand naming the mapped register: `DW_OP_reg` for a stack value, else `DW_OP_breg` followed by SLEB128 0. A stack slot with an offset gives its stack-slot expression; one without an offset gives no location; a slot the frame lacks panics "index out of bounds". Unassigned, or no frame, gives no location |
| DebugExpression.StackSlotExpressionRoundTrip | crates/debug/src/transform/expression.rs:147-160 | `breg6` with SLEB(offset + 16), then `deref` exactly when not a stack value |
| DebugExpression.IsOldExpressionFormat | crates/debug/src/transform/expression.rs:403-411 | true iff the buffer has a `DW_OP_plus_uconst` byte and no `DW_OP_fbreg` byte |
| DebugExpression.FromLabel | crates/debug/src/transform/expression.rs:112-121 | a single part naming the label |
| DebugExpression.Build | crates/debug/src/transform/expression.rs:226-232 | an expression exactly for a single code part, whose bytes it is |
| DebugExpression.BuildOfSimple | crates/debug/src/transform/expression.rs:218-232 | a simple expression builds iff it is non-empty; whatever builds is simple; a local never builds |
| DebugValueRanges.ValueLabelRangesBuilder.constructor | crates/debug/src/transform/expression.rs:611-633 | the scope's ranges, unlabelled, sorted by start and a permutation of them; nothing processed |
| DebugValueRanges.ScopeRanges | crates/debug/src/transform/expression.rs:614-626 | every scope range starts with no locations |
| DebugValueRanges.SortByStart | crates/debug/src/transform/expression.rs:627 | sorted by start and a permutation of its input |
| DebugValueRanges.SearchStart | crates/debug/src/transform/expression.rs:659-671 | `binary_search_by` on starts: `Ok` at a range starting at x, or `Err` at the place x would go |
| DebugValueRanges.OutsideWindow | crates/debug/src/transform/expression.rs:659-671 | ranges outside the searched window do not meet the live range |
| DebugValueRanges.ValueLabelRangesBuilder.CutWindow | crates/debug/src/transform/expression.rs:674-696 | the backward loop over the window cuts every range the live range meets, in place |
| DebugValueRanges.ValueLabelRangesBuilder.SplitAt | crates/debug/src/transform/expression.rs:676-694 | one range replaced by its pieces before, inside (with the location) and after the live range |
| DebugValueRanges.ValueLabelRangesBuilder.ApplyValueRange | crates/debug/src/transform/expression.rs:653-697 | the ranges become the cut of them all by the live range |
| DebugValueRanges.ValueLabelRangesBuilder.ProcessLabel | crates/debug/src/transform/expression.rs:635-698 | `process_label` ends in the label specification's ranges and processed set, or with its panic message, and keeps the ranges disjoint |
| DebugValueRanges.ProcessLabelSpec | crates/debug/src/transform/expression.rs:635-698 | a label already processed changes nothing; a label the frame has no ranges for is only marked processed; every success marks the label processed |
| DebugValueRanges.ApplyDisjoint | crates/debug/src/transform/expression.rs:674-696 | a cut keeps the ranges non-empty, disjoint and in start order |
| DebugValueRanges.ApplyCovers | crates/debug/src/transform/expression.rs:674-696 | a cut covers the same offsets of the same functions |
| DebugValueRanges.ApplySound | crates/debug/src/transform/expression.rs:674-696 | every recorded location stays one the frame gives over the whole range |
| DebugValueRanges.ApplyCoversWith | crates/debug/src/transform/expression.rs:674-696 | a covered point keeps its labels, and gains the label when the live range contains it |
| DebugValueRanges.ApplyPieces | crates/debug/src/transform/expression.rs:674-696 | every range after a cut is a piece of one range before it: inside it, with its labels, plus the label only where the live range is |
| DebugValueRanges.ApplyUntouched | crates/debug/src/transform/expression.rs:659-671 | a live range that meets no stored range changes nothing |
| DebugValueRanges.ApplyAllPanics | crates/debug/src/transform/expression.rs:653-656 | applying a label's live ranges panics exactly when one is reversed |
| DebugValueRanges.IntoRanges | crates/debug/src/transform/expression.rs:700-706 | keeps exactly the ranges that record as many labels as were processed, and never adds one |
| DebugValueRanges.KeptIffComplete | crates/debug/src/transform/expression.rs:700-706 | with every recorded label processed, a range is kept iff it records all of them |
| DebugValueRanges.ProcessLabelsKeepInv | crates/debug/src/transform/expression.rs:635-698 | processing labels keeps the ranges disjoint, sound and of the same coverage |
| DebugValueRanges.KeptRecordAll | crates/debug/src/transform/expression.rs:700-706 | kept ranges record every processed label, and only those, at a sound location |
| DebugValueRanges.BuilderYield | crates/debug/src/transform/expression.rs:635-706 | offset p is covered by a kept range iff the scope covers it and every processed label is live at p |
| DebugValueRanges.ProcessLabelsNoPanic | crates/debug/src/transform/expression.rs:656 | with no reversed live range, processing never panics |
| DebugValueRanges.ExampleNoLabels | crates/debug/src/transform/expression.rs:1057-1062 | with no label processed, the whole function range comes through (the first case of the builder test; an instance of `KeptIffComplete`) |
| DebugValueRanges.ExampleTwoLabels | crates/debug/src/transform/expression.rs:1065-1071 | labels live over [0, 25) and [5, 30) are both live over exactly [5, 25) |
| DebugValueRanges.ExampleThreeLabels | crates/debug/src/transform/expression.rs:1075-1085 | over scope [0, 23) with all three labels, exactly two ranges are kept, [5, 10) and [20, 23), and they cover exactly those offsets |
| DebugValueRanges.ExampleThreeLabelsProcessed | crates/debug/src/transform/expression.rs:1075-1078 | processing the three labels over [0, 23) splits it at 5, 10 and 20, each piece recording the labels live on it |
| DebugValueRanges.ExampleThreeLabelsKept | crates/debug/src/transform/expression.rs:1079-1085 | of those pieces, `into_ranges` keeps [5, 10) and [20, 23), where all three labels are recorded |
| DebugValueRanges.ExampleThreeLabelsLive | crates/debug/src/transform/expression.rs:1075-1085 | by `BuilderYield`, a kept range covers p exactly when p is in [0, 23) and all three labels are live at p |
| DebugValueRanges.ExampleAllLive | crates/debug/src/transform/expression.rs:997-1036 | the mock frame has all three labels live exactly on [5, 10) and [20, 25) |
| DebugLib.RelocTarget | crates/debug/src/lib.rs:68-71 | the function's address plus the sign-extended addend modulo 2^64; a bad suffix or index panics |
| DebugLib.PatchReloc | crates/debug/src/lib.rs:62-81 | non-function relocations leave the body alone; a function relocation succeeds iff its target resolves, the window fits the body and the size is 4 or 8; the length is kept |
| DebugLib.PatchRelocWrites | crates/debug/src/lib.rs:72-81 | the window holds the target modulo 2^(8 * size), little-endian, and every other byte is unchanged |
| DebugLib.RetainUnresolved | crates/debug/src/lib.rs:83-85 | exactly the relocations not against a function |
| DebugLib.RetainAppend | crates/debug/src/lib.rs:83-85 | retaining commutes with concatenation, so survivors keep their order |
| DebugLib.PatchSectionSpec | crates/debug/src/lib.rs:60-86 | a patched section keeps its name and length and only its non-function relocations |
| DebugLib.PatchSection | crates/debug/src/lib.rs:60-86 | the relocation loop computes the section specification |
| DebugLib.PatchSectionIdempotent | crates/debug/src/lib.rs:60-86 | a patched section has nothing left to patch |
| DebugLib.PatchDwarfSections | crates/debug/src/lib.rs:59-87 | every section patched in place; on a panic, it is the first panicking section's, the sections before it are patched and the rest are untouched |
| DebugLib.ImageChecks | crates/debug/src/lib.rs:95-104 | an error for any target but x86-64, then, when there are no functions, the panic `assert_gt!` raises with left and right both 0 |
| DebugLib.TextSectionName | crates/debug/src/lib.rs:107 | `.text.` followed by something |
| DebugLib.TextSectionNameRoundTrip | crates/debug/src/lib.rs:191 | the loader's parse of a code-section name gives back the index the writer put there |
| DebugLib.HeaderCheck | crates/debug/src/lib.rs:139-152 | no panic iff the header is a 64-bit little-endian file without program headers and with 64-byte section headers |
| DebugLib.CStrAt | crates/debug/src/lib.rs:176-185 | a name read at the offset is the bytes there up to a NUL, none of them NUL |
| DebugLib.LastStrtab | crates/debug/src/lib.rs:154-165 | the last string table among the first n sections |
| DebugLib.ElfImage.FindStrtab | crates/debug/src/lib.rs:154-165 | the first section loop yields the last string table's offset |
| DebugLib.MatchSectionsPanics | crates/debug/src/lib.rs:166-199 | the section loop panics iff some name does not read or parse, names no region, or names one twice |
| DebugLib.MatchSectionsSegments | crates/debug/src/lib.rs:186-198 | segment i holds the offset and size of section `.text.i` |
| DebugLib.MatchSectionsEmpty | crates/debug/src/lib.rs:186-198 | segment i is empty iff no section is named `.text.i` |
| DebugLib.MatchSectionsAddresses | crates/debug/src/lib.rs:186-198 | the only change to the table is each code section's address |
| DebugLib.ElfImage.PatchSections | crates/debug/src/lib.rs:166-199 | the second section loop computes the section-loop specification in place |
| DebugLib.ProgramHeaders | crates/debug/src/lib.rs:202-225 | one `PT_LOAD` per region from its segment, vaddr = paddr = its address, memsz = its size |
| DebugLib.ElfImage.WritePrograms | crates/debug/src/lib.rs:202-225 | the program-header loop appends those headers, or panics for a region with no section |
| DebugLib.MatchedPrograms | crates/debug/src/lib.rs:166-225 | code section k naming region i carries its address and its bytes are program header i |
| DebugLib.ConvertSpecPanics | crates/debug/src/lib.rs:129-234 | the conversion panics iff a header check fails, the table is not matchable or a region has no section; header checks first |
| DebugLib.ConvertSpecHeader | crates/debug/src/lib.rs:226-233 | a success gives a shared object with one program header per region at the old end of file, old bytes kept |
| DebugLib.ConvertSpecSections | crates/debug/src/lib.rs:186-198 | a success only patches code-section addresses |
| DebugLib.ConvertSpecSegments | crates/debug/src/lib.rs:186-225 | each region gets one `PT_LOAD` mapping its section's bytes at the address that section now carries |
| DebugLib.ElfImage.ConvertToLoadable | crates/debug/src/lib.rs:129-234 | the in-place conversion ends in the specification's image, or its panic |
| Interpreter.ReadVal | crates/runtime/src/interpreter/mod.rs:37-45 | succeeds iff the type is one of the four; the value has that type and the slot's low bits |
| Interpreter.WriteVal | crates/runtime/src/interpreter/mod.rs:47-54 | the slot's low bits become the value's and the high bits stay |
| Interpreter.ReadWriteRoundTrip | crates/runtime/src/interpreter/mod.rs:37-54 | reading a slot back with the written value's type gives the value |
| Interpreter.FirstHeaderFrom | crates/runtime/src/interpreter/mod.rs:18-25 | the first `asmF` offset in the search window, or none |
| Interpreter.FindBodySpec | crates/runtime/src/interpreter/mod.rs:15-35 | `find_body` panics only with "asmF not found" |
| Interpreter.FindBodyFirst | crates/runtime/src/interpreter/mod.rs:15-35 | succeeds iff a header starts below 1000, with the body the first one announces (length at i + 4, data at i + 8) |
| Interpreter.FindBody | crates/runtime/src/interpreter/mod.rs:15-35 | the scan loop computes the `find_body` specification; no header panics "asmF not found" |
| Interpreter.ReadSlots | crates/runtime/src/interpreter/mod.rs:70-74 | succeeds iff every type is supported, reading type k from slot k |
| Interpreter.WriteResults | crates/runtime/src/interpreter/mod.rs:92-95 | result j in slot j, later slots untouched |
| Interpreter.EvalSpecParams | crates/runtime/src/interpreter/mod.rs:70-74 | parameter k >= 1 is read from slot k - 1 and handed to the evaluator |
| Interpreter.ParamSlotsRead | crates/runtime/src/interpreter/mod.rs:70-74 | the parameters read are those of slots 0 .. n - 2, by the signature's types |
| Interpreter.EvalSpecResults | crates/runtime/src/interpreter/mod.rs:90-99 | success returns 0 with each result readable from its slot; failure returns 1 with the slots unchanged |
| Interpreter.EvalSpecPanics | crates/runtime/src/interpreter/mod.rs:68-73 | no header panics first, then a signature without vmctx; otherwise panics iff a parameter type is unsupported |
| Interpreter.WasmtimeEval | crates/runtime/src/interpreter/mod.rs:59-99 | the status and the new argument slots are the intrinsic's specification |
| Interpreter.ReadParams | crates/runtime/src/interpreter/mod.rs:70-74 | the parameter loop reads the slots as `ReadSlots` does |
| Interpreter.WriteBack | crates/runtime/src/interpreter/mod.rs:92-95 | the result loop leaves the slots as `WriteResults` does |
| Trampoline.LookupKeepsPark | crates/runtime/src/interpreter/trampoline.rs:53-67 | a lookup never forgets or changes an entry; a hit answers from the park whatever the builder would do; a failed build changes nothing |
| Trampoline.LookupMemoises | crates/runtime/src/interpreter/trampoline.rs:55-66 | after a successful lookup the callee is stored, so the next lookup returns the same trampoline and builds nothing |
| Trampoline.Lookups | crates/runtime/src/interpreter/trampoline.rs:46-68 | a run of lookups gives one answer per call |
| Trampoline.LookupsStore | crates/runtime/src/interpreter/trampoline.rs:55-66 | the park after a run holds every trampoline the run returned, under its callee |
| Trampoline.LookupsMemoise | crates/runtime/src/interpreter/trampoline.rs:53-66 | once a callee has a trampoline, every later call for it gets the same one, whatever its signature |
| Trampoline.LookupsAt | crates/runtime/src/interpreter/trampoline.rs:53-66 | call j is answered from the park the earlier calls left |
| Trampoline.TrampolineCache.constructor | crates/runtime/src/interpreter/trampoline.rs:36-43 | an empty park, nothing published |
| Trampoline.TrampolineCache.GetTrampoline | crates/runtime/src/interpreter/trampoline.rs:46-68 | the answer and the new park are the lookup's |
| Trampoline.TrampolineCache.GetPublishedTrampoline | crates/runtime/src/interpreter/trampoline.rs:71-80 | a lookup, then the code memory published once unless the lookup failed |
| Trampoline.TrampolineCache.PublishCompiledCode | crates/runtime/src/interpreter/trampoline.rs:83-85 | one more publication, the park unchanged |
| Trampoline.StoreArgs | crates/runtime/src/interpreter/trampoline.rs:104-115 | argument i in slot base + i, every other slot untouched |
| Trampoline.StoredArgsReadBack | crates/runtime/src/interpreter/trampoline.rs:104-115 | reading the stored slots with the arguments' types gives the arguments |
| Trampoline.InvokeSpecLayout | crates/runtime/src/interpreter/trampoline.rs:89-151 | `max(params - 1, returns)` slots, argument i in slot i; the cache's trampoline is called; result j read from slot j by its declared type; a trap is the trampoline error |
| Trampoline.Invoke | crates/runtime/src/interpreter/trampoline.rs:89-151 | `invoke` through the cache: the result is the specification's, and the cache changes as one published lookup |
| Trampoline.WriteArgs | crates/runtime/src/interpreter/trampoline.rs:104-115 | the argument loop stores as `StoreArgs` does |
| Trampoline.ReadResults | crates/runtime/src/interpreter/trampoline.rs:132-148 | the result map reads as `ReadSlots` does with the declared types |
| TrampolineSea.TargetSignature | crates/runtime/src/interpreter/trampoline_sea.rs:43-56 | vmctx plus `arity` parameters, one result |
| TrampolineSea.Table | crates/runtime/src/interpreter/trampoline_sea.rs:58-82 | exactly the three registered signatures, each to its own wrapper |
| TrampolineSea.GetTrampoline | crates/runtime/src/interpreter/trampoline_sea.rs:84-89 | a wrapper iff the signature is registered, the one for its arity; otherwise `unimplemented!` |
| TrampolineSea.WritePointer | crates/runtime/src/interpreter/trampoline_sea.rs:104-106 | the slot's low 64 bits hold the pointer |
| TrampolineSea.WrapperEffect | crates/runtime/src/interpreter/trampoline_sea.rs:10-32 | only slot 0, where the result goes, can change; every other slot is as `invoke` left it |
| TrampolineSea.SeaSlots | crates/runtime/src/interpreter/trampoline_sea.rs:101-120 | `max(params, returns)` slots before the call |
| TrampolineSea.SeaSlotsLayout | crates/runtime/src/interpreter/trampoline_sea.rs:101-120 | slot 0 holds the address, slot i + 1 argument i readable by its own type, later slots zero |
| TrampolineSea.RegisteredSignature | crates/runtime/src/interpreter/trampoline_sea.rs:75-89 | a registered signature finds its wrapper and declares one i32 result |
| TrampolineSea.WrapperSeesArgs | crates/runtime/src/interpreter/trampoline_sea.rs:17-26 | the wrapper hands the callee the integers `invoke` stored |
| TrampolineSea.SeaInvokeCallsCallee | crates/runtime/src/interpreter/trampoline_sea.rs:91-157 | a registered call with i32 arguments returns the callee's result for those arguments at that address |
| TrampolineSea.SeaInvoke | crates/runtime/src/interpreter/trampoline_sea.rs:91-157 | the slot loops, lookup and call compute the `invoke` specification |
| ApiValues.Default | wasmtime-api/src/values.rs:62-64 | the null `AnyRef`, of type `AnyRef` |
| ApiValues.TypeOf | wasmtime-api/src/values.rs:66-75 | each variant has, and is the only one with, its own type |
| ApiValues.AnyRefToFunc | wasmtime-api/src/values.rs:35-43 | succeeds only for `Func`; `Null` panics "null anyref", `Rc` is unimplemented |
| ApiValues.AnyRefFromFunc | wasmtime-api/src/values.rs:45-49 | wraps the function |
| ApiValues.FuncAnyRefRoundTrip | wasmtime-api/src/values.rs:35-49 | function to `AnyRef` and back is the identity |
| ApiValues.IntoI32 | wasmtime-api/src/values.rs:130-138 | only an `I32` converts, and `from` inverts it; anything else panics "Invalid conversion of …" |
| ApiValues.IntoI64 | wasmtime-api/src/values.rs:140-148 | only an `I64` converts, and `from` inverts it; anything else panics "Invalid conversion of …" |
| ApiValues.IntoF32Bits | wasmtime-api/src/values.rs:150-158 | only an `F32` converts, to its bits; anything else panics "Invalid conversion of …" |
| ApiValues.IntoF64Bits | wasmtime-api/src/values.rs:160-168 | only an `F64` converts, to its bits; anything else panics "Invalid conversion of …" |
| ApiValues.ScalarRoundTrips | wasmtime-api/src/values.rs:97-168 | scalars and bit patterns round-trip through `Val` with the matching type |
| ApiValues.FromAnyRef | wasmtime-api/src/values.rs:170-177 | `Func(f)` becomes `FuncRef(f)`, anything else stays an `AnyRef` |
| ApiValues.IntoAnyRef | wasmtime-api/src/values.rs:185-193 | succeeds iff the value is a reference; anything else panics "Invalid conversion of …" |
| ApiValues.AnyRefRoundTrips | wasmtime-api/src/values.rs:170-193 | `AnyRef` to `Val` and back is the identity; `Val` to `AnyRef` and back is too, except `AnyRef(Func(f))` returns as `FuncRef(f)` |
| ApiValues.Numeric | wasmtime-api/src/values.rs:77-95 | defined exactly for the four numeric variants |
| ApiValues.WriteValueTo | wasmtime-api/src/values.rs:77-85 | succeeds exactly for numeric values; references are unimplemented |
| ApiValues.ReadValueFrom | wasmtime-api/src/values.rs:87-95 | succeeds exactly for the four numeric IR types |
| ApiValues.SlotRoundTrip | wasmtime-api/src/values.rs:77-95 | reading back with the value's own type gives the value; 32-bit values keep the slot's upper half |
| Debugger.NullAgentPause | crates/wasmtime/src/debugger.rs:56-58 | always `Continue` |
| Debugger.FindFirst | crates/wasmtime/src/debugger.rs:111-114 | none iff no breakpoint has the pc; otherwise one with the pc and none before it |
| Debugger.FindFirstAppend | crates/wasmtime/src/debugger.rs:88-90 | appending keeps every breakpoint already found; an address without one is looked up among the new ones |
| Debugger.EngineDebuggerContext.constructor | crates/wasmtime/src/debugger.rs:81-87 | no breakpoints |
| Debugger.EngineDebuggerContext.AddBreakpoints | crates/wasmtime/src/debugger.rs:88-90 | the new breakpoints go after the old, in order |
| Debugger.EngineDebuggerContext.FindBreakpoint | crates/wasmtime/src/debugger.rs:111-114 | none iff no breakpoint has the address; otherwise the first breakpoint in the list at that address, as `iter().find` gives it |

## Left out

- `UnwindInfo::build` for System V and Windows lives in files that are not part of this model. The x64 System V path returns the scan's codes. `x64/inst/unwind/winx64.rs:8-12` (`create_unwind_info`) is not modelled.
- X64SystemV.CreateUnwindInfo: takes the word size as a parameter. Its panics are modelled by message only; the length and index that Rust prints after "index out of bounds" are not. The dispatch in `x64/inst/unwind.rs:27` passes `Some(rbp)` there, which does not match that signature, so the two are not glued.
- `create_cie` in `x64/inst/unwind/systemv.rs:15-37` is word for word the x86 one. `Dwarf.CreateCie` models both.
- The Windows x64 emitter (`emit`, `emit_size`) is defined in a file that is not part of this model. `WinX64.Emit` follows the Windows x64 exception-handling ABI and the three byte vectors the tests pin down. A small allocation there is 8 to 128 bytes in the one-slot form, following the tests and the ABI.
- The x86 driver's input codes come from the shared x86 unwind analysis (`super::create_unwind_info`), which is not part of this model. They are a parameter.
- X86SystemV.InstructionBuilder.RestoreState: requires a remembered state. The `unwrap` panic on an empty slot (systemv.rs:215) belongs to `RestoreStateStep`, and `ApplyCode` raises it without calling the method.
- JitCodeMemory.CodeMemory.Allocate: assumes every arena is smaller than 2^32 bytes (`MapsAtLeast`, `CodeMemoryEntry.Valid`). The same assumption covers `NewEntry`, `PushCurrent`, `AllocateForFunction` and `AllocateForCompilation`. Under it the `as u32` casts (code_memory.rs:85, 87, 104, 250, 366, 372, 379) and the `u32` sums (code_memory.rs:227, 244) are exact. Past 4 GiB the source would truncate those values, or overflow the sums. That behaviour is not modelled.
- CodeMemory: the OS mapping (`Mmap::with_at_least`), its address and its failures are a parameter (`MapResult`). `region::protect` is a `Protection` field. Registering with the runtime is a `published` flag, and its failures are not modelled.
- `allocate_for_object` parses the ELF image the object writer produced. It is not modelled.
- The trampolines `build_object` embeds are inputs. The debug-section relocations and writing of `build_object` (object.rs:198-256) are not modelled.
- `build_trampoline` (make_trampoline, trampoline.rs:153 onwards) needs the code generator. The outcome the builder would have on a miss is an input. The `CodeMemory` it uses has a different API and is represented by a publication count.
- `wasmtime_call_trampoline` and the callee run native code. Their effect on the slots is an input (`NativeCall`), and so are the evaluator and its `Ctx` in `wasmtime_eval`.
- Interpreter.WasmtimeEval: the module and instance lookups of `wasmtime_eval` (mod.rs:60-66) are inputs. The signature of `call_id` is the `sig` parameter, and the finished function's memory is `ff`. The `defined_func_index(..).unwrap()` panic for an imported function, and the `expect("Interpreter context")` panic, are not modelled.
- Integer overflow and `debug_assert!` follow a debug build. `params.len() - 1` with no parameters (mod.rs:70, trampoline.rs:101) and `epilogue.end - 1` with end 0 (x64 systemv.rs:169) panic "attempt to subtract with overflow". A release build wraps there instead, and then panics "capacity overflow" or "index out of bounds". `off + r.offset` in `to_object_relocations` (object.rs:55) panics "attempt to add with overflow" beyond 64 bits, and `FuncIndex::new` panics on its `index < u32::MAX` assertion. The one exception is the x86 builder's `i32` offset arithmetic, which wraps as in a release build; a debug build would panic there, but only for a CFA offset beyond 2^31 bytes.
- Some panic texts are modelled by message prefix only. `JitCodeMemory.FUNC_INDEX_PANIC` stops after "index < " of the `debug_assert!` text. `DebugValueRanges.RANGE_ORDER_PANIC` is the first line of `assert_lt!` (expression.rs:656); the full text goes on to print both operands. `DebugLib.SLICE_PANIC` stops before the end index and the slice length. `DebugLib.FUNC_INDEX_EXPECT` and `DebugLib.NAME_PANIC` are the `expect` texts, which Rust follows with ": " and the error. `DebugLib.PARSE_PANIC` stops before the `ParseIntError` Rust appends. `DebugLib.FUNC_OUT_OF_BOUNDS` and `X64SystemV.INDEX_PANIC` stop before the length and index Rust prints. `DebugLib.SHENTSIZE_PANIC` is only the custom part of the `assert_eq!` message. "mid > len" of `split_at_mut` in `CodeMemory` is given without its exact wording, which depends on the Rust version.
- `AbiParam` and its field types are defined in Cranelift, which is not part of this model. They are modelled with the four fields that signature equality compares (value type, purpose, extension, location); the variants of `ArgumentPurpose` other than normal and vmctx are one named case.
- `static mut TRAMPOLINES` is built once, lazily and without synchronisation. The model gives the table as a pure function of the calling convention.
- The text of `unimplemented!("{:?}", signature)` after its prefix is not modelled, because the `Debug` formatting of a signature is not part of this model.
- The failed conversions of `Val` (values.rs:130-193) panic with the prefix "Invalid conversion of " only. The value's `Debug` text and the target type after it are not modelled.
- `AddressTransform` is not part of this model. The native ranges it gives for each scope entry are an input to the `ValueLabelRangesBuilder` constructor.
- DebugValueRanges.ValueLabelRangesBuilder.ProcessLabel: requires the stored ranges to be disjoint. The constructor does not derive that from the translated ranges.
- `compile_expression`, `build_with_locals` and `append_memory_deref` need gimli's expression reader and the frame's value-label ranges. They are not modelled.
- `CompiledExpression::vmctx` is `from_label` of a label defined in a file that is not part of this model.
- `write_debugsections` and the object writer (`obj.write()`) are not modelled. `DwarfSection` is defined in `write_debuginfo.rs`, which is not part of this model; its name, body and relocations are the fields used here.
- DebugLib.SectionTextIndex: when a section name has no NUL before the end of the image, `CStr::from_ptr` (lib.rs:177) reads out of bounds, which is undefined behaviour. The model gives that case the panic `NAME_PANIC` instead.
- The ELF image is modelled as a header record, a section table, its bytes and its program headers. Section names are compared bytewise; UTF-8 validation of `to_str()` is not modelled.
- Floating-point conversions (`From<f32>`, `Into<f32>`, `f64`) go through `to_bits`/`RuntimeValue`. Only the bit-pattern forms are modelled.
- `ValType` is defined in `types.rs`, which is not part of this model. It is modelled as the six variants `Val::type` returns.
- The engine reference, `Weak`/`Arc`/`Mutex` plumbing, `register_module`, `patch_jit_code` and the user data slot of the debugger context are not modelled. `BreakpointData` is defined in `wasmtime_runtime`, which is not part of this model; it is a program counter and an opaque payload.
- Send/Sync assertions and `Drop` implementations have no logic to model.

## Findings

| source | as written | input that shows it | evidently intended | confidence | as-written member | corrected member |
|---|---|---|---|---|---|---|
| crates/jit/src/code_memory.rs:472-473 | a relocation read back from the object file gets addend 0 | an `X86CallPCRel4` relocation of function 0 with addend -4, written by `to_object_relocations` (object.rs:60 keeps the addend), reads back with addend 0 | keep the relocation's own addend | not executed | JitObject.AddendDroppedAsWritten | JitObject.RelocationRoundTrip |
| crates/jit/src/code_memory.rs:195-240 | `function_allocation_size` pads the body to 4 bytes relative to the function, while `copy_function` puts the Windows block at the next 4-aligned arena offset | a 5-byte function without unwind information, then a 4-byte function with Windows unwind information: 4 + block bytes are reserved at offset 5, the block goes at offset 12, and `split_at_mut` panics "mid > len" | reserve the padding up to the next aligned arena offset | not executed | JitCodeMemory.MisalignedStartOverruns | JitCodeMemory.AlignedAllocationFits |
