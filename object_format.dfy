/**
 * The object-file vocabulary of relocations and symbols that the JIT writes
 * into and reads back from ELF images.
 */
module ObjectFormat {
  import opened Base

  /** `Elf(code)` carries a raw ELF relocation type; the kinds the JIT does
   *  not use are represented by `OtherKind`. */
  datatype RelocationKind = Absolute | Relative | PltRelative | GotRelative | Elf(code: U32) | OtherKind

  datatype RelocationEncoding = Generic | X86Branch | OtherEncoding

  /** The ELF relocation type of a general-dynamic TLS reference on x86-64
   *  (R_X86_64_TLSGD in the x86-64 psABI). */
  const R_X86_64_TLSGD: U32 := 19

  /** What a relocation read from an object file points at. */
  datatype ReadTarget = SymbolTarget(index: nat) | SectionTarget(section: nat) | AbsoluteTarget

  /** A relocation read from an object file; `addend` is the explicit
   *  addend of an ELF RELA entry. */
  datatype ReadRelocation = ReadRelocation(
    kind: RelocationKind,
    encoding: RelocationEncoding,
    size: U8,
    target: ReadTarget,
    addend: I64)

  /** A symbol of an object file being read: its name, if any. */
  datatype ReadSymbol = ReadSymbol(name: Option<string>)
}
