/**
 * The debug-image helpers: patching function addresses into DWARF sections
 * (`patch_dwarf_sections`), the checks of `write_debugsections_image`, and
 * the header and segment rules that turn the written relocatable ELF into a
 * loadable one (`convert_object_elf_to_loadable_file`).
 */
module DebugLib {
  import opened Base

  /** A relocation inside a DWARF section: write the address of `target`
   *  plus `addend` as `size` bytes at `offset`. */
  datatype DwarfSectionReloc = DwarfSectionReloc(target: string, offset: U32, size: U8, addend: I32)

  datatype DwarfSection = DwarfSection(name: string, body: seq<U8>, relocs: seq<DwarfSectionReloc>)

  const FUNC_SYMBOL_PREFIX: string := "_wasm_function_"

  const FUNC_INDEX_EXPECT: string := "func index"
  const SLICE_PANIC: string := "range end index "
  const FUNC_OUT_OF_BOUNDS: string := "index out of bounds"
  const RELOC_SIZE_PANIC: string := "unexpected reloc entry size"

  /** A relocation against a defined function; the only kind patched here,
   *  since all functions live in one blob. */
  predicate IsFuncReloc(r: DwarfSectionReloc)
  {
    StripPrefix(r.target, FUNC_SYMBOL_PREFIX).Some?
  }

  /** The address a function relocation resolves to: the function's address
   *  plus the sign-extended addend, wrapping modulo 2^64. The function index
   *  is the decimal suffix of the target; a suffix that does not parse or an
   *  index past the function table panics. */
  function RelocTarget(r: DwarfSectionReloc, funcs: seq<U64>): (t: Exec<U64>)
    requires IsFuncReloc(r)
    ensures var idx := ParseUsize(StripPrefix(r.target, FUNC_SYMBOL_PREFIX).value);
      && (t.Done? <==> idx.Some? && idx.value < |funcs|)
      && (t.Done? ==> (t.value - funcs[idx.value] - r.addend) % TWO_64 == 0)
      && (idx.None? ==> t == Panic(FUNC_INDEX_EXPECT))
  {
    match ParseUsize(StripPrefix(r.target, FUNC_SYMBOL_PREFIX).value)
    case None => Panic(FUNC_INDEX_EXPECT)
    case Some(i) =>
      if i >= |funcs| then Panic(FUNC_OUT_OF_BOUNDS)
      else
        var sum := funcs[i] + I64Bits(r.addend);
        assert (sum % TWO_64 - sum) % TWO_64 == 0;
        Done(sum % TWO_64)
  }

  /** One relocation applied to a section body: relocations against other
   *  sections are left alone; a function relocation writes its target's low
   *  4 bytes or all 8 bytes, little-endian, at its offset. The window must
   *  lie in the body, and any other size panics. */
  function PatchReloc(body: seq<U8>, r: DwarfSectionReloc, funcs: seq<U64>): (out: Exec<seq<U8>>)
    ensures !IsFuncReloc(r) ==> out == Done(body)
    ensures IsFuncReloc(r) ==>
      (out.Done? <==> RelocTarget(r, funcs).Done? && r.offset + r.size <= |body| && (r.size == 4 || r.size == 8))
    ensures out.Done? ==> |out.value| == |body|
  {
    if !IsFuncReloc(r) then Done(body)
    else
      match RelocTarget(r, funcs)
      case Panic(m) => Panic(m)
      case Done(t) =>
        if r.offset + r.size > |body| then Panic(SLICE_PANIC)
        else if r.size == 4 then Done(Splice(body, r.offset, LittleEndian(t, 4)))
        else if r.size == 8 then Done(Splice(body, r.offset, LittleEndian(t, 8)))
        else Panic(RELOC_SIZE_PANIC)
  }

  /** A patched window holds the target modulo 2^(8 * size), and every byte
   *  outside it is unchanged. */
  lemma PatchRelocWrites(body: seq<U8>, r: DwarfSectionReloc, funcs: seq<U64>)
    requires IsFuncReloc(r) && PatchReloc(body, r, funcs).Done?
    ensures var out := PatchReloc(body, r, funcs).value;
      && FromLittleEndian(out[r.offset..r.offset + r.size]) == RelocTarget(r, funcs).value % Pow256(r.size)
      && forall k :: 0 <= k < |body| && !(r.offset <= k < r.offset + r.size) ==> out[k] == body[k]
  {
    var t := RelocTarget(r, funcs).value;
    SpliceFacts(body, r.offset, LittleEndian(t, r.size));
    LittleEndianRoundTrip(t, r.size);
  }

  /** All relocations of a section applied in order, stopping at a panic. */
  function PatchRelocs(body: seq<U8>, relocs: seq<DwarfSectionReloc>, funcs: seq<U64>): (out: Exec<seq<U8>>)
    ensures out.Done? ==> |out.value| == |body|
    decreases |relocs|
  {
    if relocs == [] then Done(body)
    else
      match PatchRelocs(body, relocs[..|relocs| - 1], funcs)
      case Panic(m) => Panic(m)
      case Done(b) => PatchReloc(b, relocs[|relocs| - 1], funcs)
  }

  /** `relocs.retain(...)`: the relocations not against a function, in
   *  their original order. */
  function RetainUnresolved(relocs: seq<DwarfSectionReloc>): (out: seq<DwarfSectionReloc>)
    ensures forall r :: r in out <==> r in relocs && !IsFuncReloc(r)
    ensures |out| <= |relocs|
    decreases |relocs|
  {
    if relocs == [] then []
    else
      var rest := RetainUnresolved(relocs[1..]);
      assert forall r :: r in relocs <==> r == relocs[0] || r in relocs[1..];
      if IsFuncReloc(relocs[0]) then rest else [relocs[0]] + rest
  }

  /** Retaining commutes with concatenation, so the survivors keep their
   *  relative order. */
  lemma {:induction false} RetainAppend(a: seq<DwarfSectionReloc>, b: seq<DwarfSectionReloc>)
    ensures RetainUnresolved(a + b) == RetainUnresolved(a) + RetainUnresolved(b)
    decreases |a|
  {
    if a == [] {
      assert a + b == b;
    } else {
      assert (a + b)[0] == a[0] && (a + b)[1..] == a[1..] + b;
      RetainAppend(a[1..], b);
    }
  }

  /** A body with no function relocation is left as it is. */
  lemma {:induction false} PatchRelocsNoFunc(body: seq<U8>, relocs: seq<DwarfSectionReloc>, funcs: seq<U64>)
    requires forall r :: r in relocs ==> !IsFuncReloc(r)
    ensures PatchRelocs(body, relocs, funcs) == Done(body)
    decreases |relocs|
  {
    if relocs != [] {
      var n := |relocs| - 1;
      assert forall r :: r in relocs[..n] ==> r in relocs;
      PatchRelocsNoFunc(body, relocs[..n], funcs);
      assert relocs[n] in relocs;
    }
  }

  /** One section patched: its body with every function relocation applied,
   *  and only the other relocations kept. */
  function PatchSectionSpec(s: DwarfSection, funcs: seq<U64>): (r: Exec<DwarfSection>)
    ensures r.Done? ==> r.value.name == s.name && |r.value.body| == |s.body|
    ensures r.Done? ==> forall q :: q in r.value.relocs <==> q in s.relocs && !IsFuncReloc(q)
  {
    match PatchRelocs(s.body, s.relocs, funcs)
    case Panic(m) => Panic(m)
    case Done(b) => Done(s.(body := b, relocs := RetainUnresolved(s.relocs)))
  }

  /** Patching is idempotent: a patched section has nothing left to patch. */
  lemma PatchSectionIdempotent(s: DwarfSection, funcs: seq<U64>)
    requires PatchSectionSpec(s, funcs).Done?
    ensures PatchSectionSpec(PatchSectionSpec(s, funcs).value, funcs) == PatchSectionSpec(s, funcs)
  {
    var p := PatchSectionSpec(s, funcs).value;
    PatchRelocsNoFunc(p.body, p.relocs, funcs);
    RetainNoFunc(p.relocs);
  }

  lemma {:induction false} RetainNoFunc(relocs: seq<DwarfSectionReloc>)
    requires forall r :: r in relocs ==> !IsFuncReloc(r)
    ensures RetainUnresolved(relocs) == relocs
    decreases |relocs|
  {
    if relocs != [] {
      assert relocs[0] in relocs;
      assert forall r :: r in relocs[1..] ==> r in relocs;
      RetainNoFunc(relocs[1..]);
    }
  }

  /** The body loop for one section: each relocation in turn. */
  method PatchSection(s: DwarfSection, funcs: seq<U64>) returns (r: Exec<DwarfSection>)
    ensures r == PatchSectionSpec(s, funcs)
  {
    var body := s.body;
    var i := 0;
    while i < |s.relocs|
      invariant 0 <= i <= |s.relocs|
      invariant PatchRelocs(s.body, s.relocs[..i], funcs) == Done(body)
    {
      var reloc := s.relocs[i];
      assert s.relocs[..i + 1][..i] == s.relocs[..i];
      if IsFuncReloc(reloc) {
        var target := RelocTarget(reloc, funcs);
        if target.Panic? {
          PatchRelocsPanicStays(s.body, s.relocs, funcs, i + 1);
          return Panic(target.msg);
        }
        if reloc.offset + reloc.size > |body| {
          PatchRelocsPanicStays(s.body, s.relocs, funcs, i + 1);
          return Panic(SLICE_PANIC);
        }
        if reloc.size == 4 {
          body := Splice(body, reloc.offset, LittleEndian(target.value, 4));
        } else if reloc.size == 8 {
          body := Splice(body, reloc.offset, LittleEndian(target.value, 8));
        } else {
          PatchRelocsPanicStays(s.body, s.relocs, funcs, i + 1);
          return Panic(RELOC_SIZE_PANIC);
        }
      }
      i := i + 1;
    }
    assert s.relocs[..i] == s.relocs;
    r := Done(s.(body := body, relocs := RetainUnresolved(s.relocs)));
  }

  lemma {:induction false} PatchRelocsPanicStays(body: seq<U8>, relocs: seq<DwarfSectionReloc>, funcs: seq<U64>, n: nat)
    requires n <= |relocs| && PatchRelocs(body, relocs[..n], funcs).Panic?
    ensures PatchRelocs(body, relocs, funcs) == PatchRelocs(body, relocs[..n], funcs)
    decreases |relocs| - n
  {
    if n < |relocs| {
      assert relocs[..n + 1][..n] == relocs[..n];
      PatchRelocsPanicStays(body, relocs, funcs, n + 1);
    } else {
      assert relocs[..n] == relocs;
    }
  }

  /** `patch_dwarf_sections`: every section patched in place, in order; when
   *  one panics, the sections before it hold their patched contents and it
   *  and the ones after it are untouched. */
  method PatchDwarfSections(sections: array<DwarfSection>, funcs: seq<U64>) returns (r: Exec<()>)
    modifies sections
    ensures r.Done? <==> forall k :: 0 <= k < sections.Length ==> PatchSectionSpec(old(sections[k]), funcs).Done?
    ensures r.Done? ==> forall k :: 0 <= k < sections.Length ==> Done(sections[k]) == PatchSectionSpec(old(sections[k]), funcs)
    ensures r.Panic? ==>
      exists k :: 0 <= k < sections.Length && PatchSectionSpec(old(sections[k]), funcs) == Panic(r.msg)
        && (forall j :: 0 <= j < k ==> Done(sections[j]) == PatchSectionSpec(old(sections[j]), funcs))
        && (forall j :: k <= j < sections.Length ==> sections[j] == old(sections[j]))
  {
    var i := 0;
    while i < sections.Length
      invariant 0 <= i <= sections.Length
      invariant forall k :: 0 <= k < i ==> Done(sections[k]) == PatchSectionSpec(old(sections[k]), funcs)
      invariant forall k :: i <= k < sections.Length ==> sections[k] == old(sections[k])
    {
      var p := PatchSection(sections[i], funcs);
      if p.Panic? {
        return Panic(p.msg);
      }
      sections[i] := p.value;
      i := i + 1;
    }
    r := Done(());
  }

  // ---- write_debugsections_image: the checks and the code sections ----

  datatype Architecture = X86_64 | OtherArchitecture(name: string)

  const FUNCS_EMPTY_PANIC: string := "assertion failed: `(left > right)`\n  left: `0`,\n right: `0`"

  /** The checks `write_debugsections_image` makes before writing anything:
   *  an error for any target but x86-64, then a panic when there are no
   *  functions. */
  function ImageChecks(arch: Architecture, funcCount: nat): (r: Exec<Result<(), string>>)
    ensures r == Done(Ok(())) <==> arch == X86_64 && funcCount > 0
    ensures arch != X86_64 ==> r.Done? && r.value.Err?
    ensures arch == X86_64 && funcCount == 0 ==> r.Panic?
  {
    match arch
    case OtherArchitecture(name) => Done(Err("Unsupported architecture for DWARF image: " + name))
    case X86_64 => if funcCount == 0 then Panic(FUNCS_EMPTY_PANIC) else Done(Ok(()))
  }

  /** The name of the section holding code region `i`: `.text.` and the
   *  index in decimal. */
  function TextSectionName(i: nat): (name: seq<U8>)
    ensures |name| > |TEXT_PREFIX| && name[..|TEXT_PREFIX|] == TEXT_PREFIX
  {
    TEXT_PREFIX + AsBytes(NatToString(i))
  }

  /** `.text.` */
  const TEXT_PREFIX: seq<U8> := [0x2e, 0x74, 0x65, 0x78, 0x74, 0x2e]

  /** The bytes of an ASCII string. */
  function AsBytes(s: string): (b: seq<U8>)
    requires forall k :: 0 <= k < |s| ==> s[k] as int < 0x80
    ensures |b| == |s| && forall k :: 0 <= k < |s| ==> b[k] == s[k] as int
  {
    seq(|s|, k requires 0 <= k < |s| => s[k] as int)
  }

  /** The characters of a byte string (section names are compared and
   *  parsed bytewise). */
  function AsChars(b: seq<U8>): (s: string)
    ensures |s| == |b| && forall k :: 0 <= k < |b| ==> s[k] as int == b[k]
  {
    seq(|b|, k requires 0 <= k < |b| => b[k] as char)
  }

  /** The index a code-section name denotes: what follows `.text.`, parsed
   *  as a usize. */
  function TextIndexOfName(name: seq<U8>): (r: Option<Option<nat>>)
    ensures r.None? <==> !(|TEXT_PREFIX| <= |name| && name[..|TEXT_PREFIX|] == TEXT_PREFIX)
  {
    if |TEXT_PREFIX| <= |name| && name[..|TEXT_PREFIX|] == TEXT_PREFIX then
      Some(ParseUsize(AsChars(name[|TEXT_PREFIX|..])))
    else None
  }

  /** The conversion reads back the index the image writer put in the name. */
  lemma TextSectionNameRoundTrip(i: nat)
    requires i < TWO_64
    ensures TextIndexOfName(TextSectionName(i)) == Some(Some(i))
  {
    var name := TextSectionName(i);
    var digits := NatToString(i);
    assert AsChars(name[|TEXT_PREFIX|..]) == digits;
    ParseNatToString(i);
  }

  // ---- convert_object_elf_to_loadable_file ----

  const ELFCLASS64: U8 := 2
  const ELFDATA2LSB: U8 := 1
  const SHT_PROGBITS: U32 := 1
  const SHT_STRTAB: U32 := 3
  const PT_LOAD: U32 := 1
  const ET_DYN: U16 := 3
  const SECTION_HEADER_SIZE: nat := 64
  const PROGRAM_HEADER_SIZE: nat := 56

  const ELF_CLASS_PANIC: string := "bits and endianess in .ELF"
  const PHDR_PANIC: string := "program header table is empty"
  const SHENTSIZE_PANIC: string := "size of sh"
  const NAME_PANIC: string := "name"
  const PARSE_PANIC: string := "called `Result::unwrap()` on an `Err` value"
  const SEGMENT_TWICE_PANIC: string := "assertion failed: segments[i].is_none()"
  const UNREACHABLE_PANIC: string := "internal error: entered unreachable code"

  /** The fields of the ELF file header the conversion reads or writes. */
  datatype FileHeader = FileHeader(elfClass: U8, data: U8, eType: U16, phoff: nat, phentsize: U16, phnum: U16, shentsize: U16)

  datatype SectionHeader = SectionHeader(name: nat, shType: U32, addr: U64, offset: nat, size: nat)

  datatype ProgramHeader = ProgramHeader(pType: U32, offset: nat, vaddr: U64, paddr: U64, filesz: nat, memsz: U64)

  /** An ELF image: its header, its section table, its bytes (where the
   *  string tables live), and the program headers appended at its end. */
  datatype Elf = Elf(header: FileHeader, sections: seq<SectionHeader>, bytes: seq<U8>, programs: seq<ProgramHeader>)

  /** The first NUL at or after `off`. */
  function NulFrom(bytes: seq<U8>, off: nat): (r: Option<nat>)
    ensures r.Some? ==> off <= r.value < |bytes| && bytes[r.value] == 0
    ensures r.Some? ==> forall k :: off <= k < r.value ==> bytes[k] != 0
    ensures r.None? ==> forall k :: off <= k < |bytes| ==> bytes[k] != 0
    decreases |bytes| - off
  {
    if off >= |bytes| then None
    else if bytes[off] == 0 then Some(off)
    else NulFrom(bytes, off + 1)
  }

  /** The NUL-terminated string at `off` (`CStr::from_ptr`); none when the
   *  buffer ends first, where the source would read out of bounds. */
  function CStrAt(bytes: seq<U8>, off: nat): (r: Option<seq<U8>>)
    ensures r.Some? ==> off + |r.value| < |bytes| && bytes[off..off + |r.value|] == r.value
    ensures r.Some? ==> bytes[off + |r.value|] == 0 && forall k :: 0 <= k < |r.value| ==> r.value[k] != 0
  {
    match NulFrom(bytes, off)
    case None => None
    case Some(j) => Some(bytes[off..j])
  }

  /** The index of the last string table among the first `n` sections. */
  function LastStrtab(ss: seq<SectionHeader>, n: nat): (r: Option<nat>)
    requires n <= |ss|
    ensures r.None? <==> forall k :: 0 <= k < n ==> ss[k].shType != SHT_STRTAB
    ensures r.Some? ==> r.value < n && ss[r.value].shType == SHT_STRTAB
    ensures r.Some? ==> forall k :: r.value < k < n ==> ss[k].shType != SHT_STRTAB
  {
    if n == 0 then None
    else if ss[n - 1].shType == SHT_STRTAB then Some(n - 1)
    else LastStrtab(ss, n - 1)
  }

  /** The string-table offset after the first `n` passes of the first
   *  section loop: the last string table's offset, or 0. */
  function StrtabOffsetUpTo(ss: seq<SectionHeader>, n: nat): nat
    requires n <= |ss|
  {
    match LastStrtab(ss, n)
    case None => 0
    case Some(m) => ss[m].offset
  }

  function StrtabOffset(ss: seq<SectionHeader>): nat
  {
    StrtabOffsetUpTo(ss, |ss|)
  }

  /** How a section is read by the conversion: not code (`None`), or the
   *  index of a `.text.` section, or a panic when its suffix does not
   *  parse. A name with no NUL before the end of the image has no defined
   *  outcome in the source: `CStr::from_ptr` reads past the buffer, which
   *  is undefined behaviour. The model stands for that read by a panic
   *  with the `expect("name")` text. */
  function SectionTextIndex(sh: SectionHeader, bytes: seq<U8>, strtab: nat): (r: Exec<Option<nat>>)
  {
    if sh.shType != SHT_PROGBITS then Done(None)
    else
      match CStrAt(bytes, strtab + sh.name)
      case None => Panic(NAME_PANIC)
      case Some(name) =>
        match TextIndexOfName(name)
        case None => Done(None)
        case Some(None) => Panic(PARSE_PANIC)
        case Some(Some(i)) => Done(Some(i))
  }

  /** How the second section loop reads every section of a table. */
  function Classify(ss: seq<SectionHeader>, bytes: seq<U8>, strtab: nat): (codes: seq<Exec<Option<nat>>>)
    ensures |codes| == |ss| && forall k :: 0 <= k < |ss| ==> codes[k] == SectionTextIndex(ss[k], bytes, strtab)
  {
    seq(|ss|, k requires 0 <= k < |ss| => SectionTextIndex(ss[k], bytes, strtab))
  }

  /** The index a classified section names, if it is a readable code section. */
  function CodeIndex(code: Exec<Option<nat>>): Option<nat>
  {
    if code.Done? then code.value else None
  }

  type Segments = seq<Option<(nat, nat)>>

  /** One pass of the section loop: a `.text.i` section gets region `i`'s
   *  address and records its file offset and size as segment `i`, which
   *  must be free. */
  function MatchSection(sh: SectionHeader, code: Exec<Option<nat>>, regions: seq<(U64, U64)>, segs: Segments)
    : (r: Exec<(SectionHeader, Segments)>)
    requires |segs| == |regions|
    ensures r.Done? ==> |r.value.1| == |segs|
  {
    match code
    case Panic(m) => Panic(m)
    case Done(None) => Done((sh, segs))
    case Done(Some(i)) =>
      if i >= |segs| then Panic(FUNC_OUT_OF_BOUNDS)
      else if segs[i].Some? then Panic(SEGMENT_TWICE_PANIC)
      else Done((sh.(addr := regions[i].0), segs[i := Some((sh.offset, sh.size))]))
  }

  /** The section loop over the whole table, from no segments. */
  function MatchSections(ss: seq<SectionHeader>, codes: seq<Exec<Option<nat>>>, regions: seq<(U64, U64)>)
    : (r: Exec<(seq<SectionHeader>, Segments)>)
    requires |codes| == |ss|
    ensures r.Done? ==> |r.value.0| == |ss| && |r.value.1| == |regions|
    decreases |ss|
  {
    if ss == [] then Done(([], seq(|regions|, _ => None)))
    else
      var n := |ss| - 1;
      match MatchSections(ss[..n], codes[..n], regions)
      case Panic(m) => Panic(m)
      case Done((out, segs)) =>
        match MatchSection(ss[n], codes[n], regions, segs)
        case Panic(m) => Panic(m)
        case Done((sh, segs')) => Done((out + [sh], segs'))
  }

  /** The section loop over one more section continues from the loop over
   *  the ones before it. */
  lemma MatchSectionsSnoc(ss: seq<SectionHeader>, codes: seq<Exec<Option<nat>>>, n: nat,
                          regions: seq<(U64, U64)>, out: seq<SectionHeader>, segs: Segments)
    requires |codes| == |ss| && n < |ss| && |segs| == |regions|
    requires MatchSections(ss[..n], codes[..n], regions) == Done((out, segs))
    ensures var step := MatchSection(ss[n], codes[n], regions, segs);
      MatchSections(ss[..n + 1], codes[..n + 1], regions)
        == if step.Panic? then Panic(step.msg) else Done((out + [step.value.0], step.value.1))
  {
    assert ss[..n + 1][..n] == ss[..n] && ss[..n + 1][n] == ss[n];
    assert codes[..n + 1][..n] == codes[..n] && codes[..n + 1][n] == codes[n];
  }

  /** One `PT_LOAD` per region, from its segment; a region no section
   *  matched is unreachable in the source and panics. */
  function ProgramHeaders(segs: Segments, regions: seq<(U64, U64)>): (r: Exec<seq<ProgramHeader>>)
    requires |segs| == |regions|
    ensures r.Done? <==> forall i :: 0 <= i < |segs| ==> segs[i].Some?
    ensures r.Panic? ==> r.msg == UNREACHABLE_PANIC
    ensures r.Done? ==> |r.value| == |regions| && forall i :: 0 <= i < |regions| ==>
      r.value[i] == ProgramHeader(PT_LOAD, segs[i].value.0, regions[i].0, regions[i].0, segs[i].value.1, regions[i].1)
    decreases |segs|
  {
    if segs == [] then Done([])
    else
      var n := |segs| - 1;
      match ProgramHeaders(segs[..n], regions[..n])
      case Panic(m) => Panic(m)
      case Done(ph) =>
        if segs[n].None? then Panic(UNREACHABLE_PANIC)
        else
          var (offset, size) := segs[n].value;
          Done(ph + [ProgramHeader(PT_LOAD, offset, regions[n].0, regions[n].0, size, regions[n].1)])
  }

  /** The assertions on the file header, in the order the conversion makes
   *  them: the panic message of the first that fails. */
  function HeaderCheck(h: FileHeader): (r: Option<string>)
    ensures r.None? <==> (h.elfClass == ELFCLASS64 && h.data == ELFDATA2LSB && h.phoff == 0 && h.phnum == 0
                          && h.shentsize as int == SECTION_HEADER_SIZE)
  {
    if !(h.elfClass == ELFCLASS64 && h.data == ELFDATA2LSB) then Some(ELF_CLASS_PANIC)
    else if !(h.phoff == 0 && h.phnum == 0) then Some(PHDR_PANIC)
    else if h.shentsize as int != SECTION_HEADER_SIZE then Some(SHENTSIZE_PANIC)
    else None
  }

  /** The header after the conversion: a shared object whose program header
   *  table starts at the old end of the file, one entry per region (the
   *  count truncated to 16 bits, as `as u16` does). */
  function LoadableHeader(h: FileHeader, phoff: nat, count: nat): FileHeader
  {
    h.(eType := ET_DYN, phoff := phoff, phentsize := PROGRAM_HEADER_SIZE as U16, phnum := count % 0x1_0000)
  }

  /** `convert_object_elf_to_loadable_file` on a whole image. */
  function ConvertSpec(e: Elf, regions: seq<(U64, U64)>): (r: Exec<Elf>)
  {
    match HeaderCheck(e.header)
    case Some(m) => Panic(m)
    case None =>
      match MatchSections(e.sections, Classify(e.sections, e.bytes, StrtabOffset(e.sections)), regions)
      case Panic(m) => Panic(m)
      case Done((sections, segs)) =>
        match ProgramHeaders(segs, regions)
        case Panic(m) => Panic(m)
        case Done(programs) =>
          Done(Elf(LoadableHeader(e.header, |e.bytes|, |regions|), sections,
                   e.bytes + seq(PROGRAM_HEADER_SIZE * |regions|, _ => 0), programs))
  }

  /** What the section loop accepts: every section's name is readable and
   *  parses, every index names a region, and no region is named twice. */
  predicate SectionsMatchable(codes: seq<Exec<Option<nat>>>, count: nat)
  {
    (forall k :: 0 <= k < |codes| ==> codes[k].Done?)
    && (forall k :: 0 <= k < |codes| && CodeIndex(codes[k]).Some? ==> CodeIndex(codes[k]).value < count)
    && (forall k1, k2 :: 0 <= k1 < k2 < |codes| && CodeIndex(codes[k1]).Some? ==> CodeIndex(codes[k1]) != CodeIndex(codes[k2]))
  }

  /** A section that may follow `prefix`: its name reads and parses, and its
   *  index, if any, names a region no earlier section named. */
  predicate FreshSection(prefix: seq<Exec<Option<nat>>>, code: Exec<Option<nat>>, count: nat)
  {
    code.Done?
    && (CodeIndex(code).Some? ==>
          CodeIndex(code).value < count && forall k :: 0 <= k < |prefix| ==> CodeIndex(prefix[k]) != CodeIndex(code))
  }

  lemma MatchableSnoc(codes: seq<Exec<Option<nat>>>, count: nat)
    requires codes != []
    ensures SectionsMatchable(codes, count) <==>
      SectionsMatchable(codes[..|codes| - 1], count) && FreshSection(codes[..|codes| - 1], codes[|codes| - 1], count)
  {
    var n := |codes| - 1;
    assert forall k :: 0 <= k < n ==> codes[..n][k] == codes[k];
  }

  /** When a step's segments are empty exactly for the regions no earlier
   *  section named, the step succeeds exactly for a fresh section. */
  lemma MatchSectionFresh(prefix: seq<Exec<Option<nat>>>, sh: SectionHeader, code: Exec<Option<nat>>,
                          regions: seq<(U64, U64)>, segs: Segments)
    requires |segs| == |regions|
    requires forall i: nat :: i < |regions| ==> (segs[i].None? <==> forall k :: 0 <= k < |prefix| ==> CodeIndex(prefix[k]) != Some(i))
    ensures MatchSection(sh, code, regions, segs).Done? <==> FreshSection(prefix, code, |regions|)
  {
  }

  /** A section as the section loop leaves it: a `.text.i` section takes
   *  region `i`'s address, every other section is unchanged. */
  function Relocated(sh: SectionHeader, code: Exec<Option<nat>>, regions: seq<(U64, U64)>): SectionHeader
  {
    match CodeIndex(code)
    case Some(i) => if i < |regions| then sh.(addr := regions[i].0) else sh
    case None => sh
  }

  /** The section loop panics exactly when the table is not matchable. */
  lemma {:induction false} MatchSectionsPanics(ss: seq<SectionHeader>, codes: seq<Exec<Option<nat>>>, regions: seq<(U64, U64)>)
    requires |codes| == |ss|
    ensures MatchSections(ss, codes, regions).Done? <==> SectionsMatchable(codes, |regions|)
    decreases |ss|
  {
    if ss != [] {
      var n := |ss| - 1;
      MatchSectionsPanics(ss[..n], codes[..n], regions);
      MatchableSnoc(codes, |regions|);
      var prev := MatchSections(ss[..n], codes[..n], regions);
      if prev.Done? {
        MatchSectionsEmpty(ss[..n], codes[..n], regions);
        MatchSectionFresh(codes[..n], ss[n], codes[n], regions, prev.value.1);
      }
    }
  }

  /** After a successful section loop, segment `i` is empty exactly when no
   *  section is named `.text.i`. */
  lemma {:induction false} MatchSectionsEmpty(ss: seq<SectionHeader>, codes: seq<Exec<Option<nat>>>, regions: seq<(U64, U64)>)
    requires |codes| == |ss| && MatchSections(ss, codes, regions).Done?
    ensures var segs := MatchSections(ss, codes, regions).value.1;
      forall i: nat :: i < |regions| ==> (segs[i].None? <==> forall k :: 0 <= k < |codes| ==> CodeIndex(codes[k]) != Some(i))
    decreases |ss|
  {
    if ss != [] {
      var n := |ss| - 1;
      MatchSectionsEmpty(ss[..n], codes[..n], regions);
      assert forall k :: 0 <= k < n ==> codes[..n][k] == codes[k];
    }
  }

  /** After a successful section loop, segment `i` holds the offset and size
   *  of the section named `.text.i`. */
  lemma {:induction false} MatchSectionsSegments(ss: seq<SectionHeader>, codes: seq<Exec<Option<nat>>>, regions: seq<(U64, U64)>)
    requires |codes| == |ss| && MatchSections(ss, codes, regions).Done?
    ensures var segs := MatchSections(ss, codes, regions).value.1;
      forall k :: 0 <= k < |ss| && CodeIndex(codes[k]).Some? ==>
        var i := CodeIndex(codes[k]).value;
        i < |regions| && segs[i] == Some((ss[k].offset, ss[k].size))
    decreases |ss|
  {
    if ss != [] {
      var n := |ss| - 1;
      MatchSectionsSegments(ss[..n], codes[..n], regions);
      MatchSectionsEmpty(ss[..n], codes[..n], regions);
      assert forall k :: 0 <= k < n ==> ss[..n][k] == ss[k] && codes[..n][k] == codes[k];
    }
  }

  /** After a successful section loop, the only change to the section table
   *  is the address of each code section. */
  lemma {:induction false} MatchSectionsAddresses(ss: seq<SectionHeader>, codes: seq<Exec<Option<nat>>>, regions: seq<(U64, U64)>)
    requires |codes| == |ss| && MatchSections(ss, codes, regions).Done?
    ensures var out := MatchSections(ss, codes, regions).value.0;
      forall k :: 0 <= k < |ss| ==> out[k] == Relocated(ss[k], codes[k], regions)
    decreases |ss|
  {
    if ss != [] {
      var n := |ss| - 1;
      MatchSectionsAddresses(ss[..n], codes[..n], regions);
      assert forall k :: 0 <= k < n ==> ss[..n][k] == ss[k] && codes[..n][k] == codes[k];
    }
  }

  /** A panic in the section loop is the loop's result: later sections are
   *  never looked at. */
  lemma {:induction false} MatchSectionsPanicStays(ss: seq<SectionHeader>, codes: seq<Exec<Option<nat>>>, n: nat, regions: seq<(U64, U64)>)
    requires |codes| == |ss| && n <= |ss| && MatchSections(ss[..n], codes[..n], regions).Panic?
    ensures MatchSections(ss, codes, regions) == MatchSections(ss[..n], codes[..n], regions)
    decreases |ss| - n
  {
    if n < |ss| {
      var m := |ss| - 1;
      if n < m {
        assert ss[..m][..n] == ss[..n] && codes[..m][..n] == codes[..n];
        MatchSectionsPanicStays(ss[..m], codes[..m], n, regions);
      }
    } else {
      assert ss[..n] == ss && codes[..n] == codes;
    }
  }

  /** The whole conversion panics exactly when a header check fails, the
   *  section table is not matchable, or some region has no code section;
   *  the header checks come first. */
  lemma ConvertSpecPanics(e: Elf, regions: seq<(U64, U64)>)
    ensures var codes := Classify(e.sections, e.bytes, StrtabOffset(e.sections));
      ConvertSpec(e, regions).Done? <==>
        HeaderCheck(e.header).None? && SectionsMatchable(codes, |regions|)
        && forall i: nat :: i < |regions| ==> exists k :: 0 <= k < |codes| && CodeIndex(codes[k]) == Some(i)
    ensures HeaderCheck(e.header).Some? ==> ConvertSpec(e, regions) == Panic(HeaderCheck(e.header).value)
  {
    var codes := Classify(e.sections, e.bytes, StrtabOffset(e.sections));
    MatchSectionsPanics(e.sections, codes, regions);
    if MatchSections(e.sections, codes, regions).Done? {
      MatchSectionsEmpty(e.sections, codes, regions);
    }
  }

  /** A successful conversion makes the image a shared object with one
   *  program header per region at the old end of the file, and leaves the
   *  old bytes in place. */
  lemma ConvertSpecHeader(e: Elf, regions: seq<(U64, U64)>)
    requires ConvertSpec(e, regions).Done?
    ensures var out := ConvertSpec(e, regions).value;
      out.header.eType == ET_DYN && out.header.phoff == |e.bytes| && out.header.phentsize as int == PROGRAM_HEADER_SIZE
      && out.header.phnum == |regions| % 0x1_0000 && out.header.shentsize == e.header.shentsize
      && out.header.elfClass == ELFCLASS64 && out.header.data == ELFDATA2LSB
    ensures var out := ConvertSpec(e, regions).value;
      |out.bytes| == |e.bytes| + PROGRAM_HEADER_SIZE * |regions| && out.bytes[..|e.bytes|] == e.bytes
      && forall b :: |e.bytes| <= b < |out.bytes| ==> out.bytes[b] == 0
  {
  }

  /** A successful conversion only patches code-section addresses. */
  lemma ConvertSpecSections(e: Elf, regions: seq<(U64, U64)>)
    requires ConvertSpec(e, regions).Done?
    ensures var out := ConvertSpec(e, regions).value; var codes := Classify(e.sections, e.bytes, StrtabOffset(e.sections));
      |out.sections| == |e.sections| && |out.programs| == |regions|
      && forall k :: 0 <= k < |e.sections| ==> out.sections[k] == Relocated(e.sections[k], codes[k], regions)
  {
    MatchSectionsAddresses(e.sections, Classify(e.sections, e.bytes, StrtabOffset(e.sections)), regions);
  }

  /** A successful conversion gives every region `i` one `PT_LOAD` program
   *  header that maps the file bytes of its `.text.i` section at the
   *  region's address, the address that section now carries. */
  lemma ConvertSpecSegments(e: Elf, regions: seq<(U64, U64)>)
    requires ConvertSpec(e, regions).Done?
    ensures var out := ConvertSpec(e, regions).value; var codes := Classify(e.sections, e.bytes, StrtabOffset(e.sections));
      forall k :: 0 <= k < |e.sections| && CodeIndex(codes[k]).Some? ==>
        var i := CodeIndex(codes[k]).value;
        i < |regions| && out.sections[k].addr == regions[i].0
        && out.programs[i] == ProgramHeader(PT_LOAD, e.sections[k].offset, regions[i].0, regions[i].0, e.sections[k].size, regions[i].1)
  {
    var codes := Classify(e.sections, e.bytes, StrtabOffset(e.sections));
    var matched := MatchSections(e.sections, codes, regions);
    assert matched.Done? && ProgramHeaders(matched.value.1, regions).Done?;
    assert ConvertSpec(e, regions).value.sections == matched.value.0;
    assert ConvertSpec(e, regions).value.programs == ProgramHeaders(matched.value.1, regions).value;
    MatchedPrograms(e.sections, codes, regions);
  }

  /** After the section loop, code section `k` naming region `i` carries the
   *  region's address and its file bytes are program header `i`. */
  lemma MatchedPrograms(ss: seq<SectionHeader>, codes: seq<Exec<Option<nat>>>, regions: seq<(U64, U64)>)
    requires |codes| == |ss| && MatchSections(ss, codes, regions).Done?
    requires ProgramHeaders(MatchSections(ss, codes, regions).value.1, regions).Done?
    ensures var out := MatchSections(ss, codes, regions).value.0;
      var programs := ProgramHeaders(MatchSections(ss, codes, regions).value.1, regions).value;
      forall k :: 0 <= k < |ss| && CodeIndex(codes[k]).Some? ==>
        var i := CodeIndex(codes[k]).value;
        i < |regions| && out[k].addr == regions[i].0
        && programs[i] == ProgramHeader(PT_LOAD, ss[k].offset, regions[i].0, regions[i].0, ss[k].size, regions[i].1)
  {
    MatchSectionsSegments(ss, codes, regions);
    MatchSectionsAddresses(ss, codes, regions);
  }

  /** The ELF image `convert_object_elf_to_loadable_file` edits in place. */
  class ElfImage {
    var header: FileHeader
    var sections: seq<SectionHeader>
    var bytes: seq<U8>
    var programs: seq<ProgramHeader>

    constructor(e: Elf)
      ensures State() == e
    {
      header := e.header;
      sections := e.sections;
      bytes := e.bytes;
      programs := e.programs;
    }

    function State(): Elf
      reads this
    {
      Elf(header, sections, bytes, programs)
    }

    /** Checks the header, finds the string table, patches the code
     *  sections' addresses, appends one program header per region and marks
     *  the file loadable. */
    method ConvertToLoadable(regions: seq<(U64, U64)>) returns (r: Exec<()>)
      modifies this
      ensures r.Done? <==> ConvertSpec(old(State()), regions).Done?
      ensures r.Done? ==> State() == ConvertSpec(old(State()), regions).value
      ensures r.Panic? ==> r.msg == ConvertSpec(old(State()), regions).msg
    {
      ghost var e := State();
      var check := HeaderCheck(header);
      if check.Some? {
        return Panic(check.value);
      }
      var strtab := FindStrtab();
      var segs;
      r, segs := PatchSections(regions, strtab);
      if r.Panic? {
        return;
      }
      var phoff := |bytes|;
      bytes := bytes + seq(PROGRAM_HEADER_SIZE * |regions|, _ => 0);
      r := WritePrograms(segs, regions);
      if r.Panic? {
        return;
      }
      header := LoadableHeader(header, phoff, |regions|);
    }

    /** The first section loop: the offset of the last string table. */
    method FindStrtab() returns (strtab: nat)
      ensures strtab == StrtabOffset(sections)
    {
      strtab := 0;
      var i := 0;
      while i < |sections|
        invariant i <= |sections| && strtab == StrtabOffsetUpTo(sections, i)
      {
        if sections[i].shType == SHT_STRTAB {
          strtab := sections[i].offset;
        }
        i := i + 1;
      }
    }

    /** The second section loop: records each code section as its region's
     *  segment and patches its address. */
    method PatchSections(regions: seq<(U64, U64)>, strtab: nat) returns (r: Exec<()>, segs: Segments)
      modifies this
      ensures header == old(header) && bytes == old(bytes) && programs == old(programs)
      ensures var codes := Classify(old(sections), bytes, strtab);
        (r.Done? <==> MatchSections(old(sections), codes, regions).Done?)
        && (r.Done? ==> MatchSections(old(sections), codes, regions).value == (sections, segs))
        && (r.Panic? ==> r.msg == MatchSections(old(sections), codes, regions).msg)
    {
      ghost var ss := sections;
      ghost var codes := Classify(ss, bytes, strtab);
      segs := seq(|regions|, _ => None);
      var i := 0;
      assert ss[..0] == [] && codes[..0] == [];
      while i < |sections|
        invariant header == old(header) && bytes == old(bytes) && programs == old(programs)
        invariant |sections| == |ss| && i <= |ss| && sections[i..] == ss[i..]
        invariant MatchSections(ss[..i], codes[..i], regions) == Done((sections[..i], segs))
      {
        assert sections[i] == ss[i];
        var code := SectionTextIndex(sections[i], bytes, strtab);
        var step := MatchSection(sections[i], code, regions, segs);
        MatchSectionsSnoc(ss, codes, i, regions, sections[..i], segs);
        if step.Panic? {
          MatchSectionsPanicStays(ss, codes, i + 1, regions);
          return Panic(step.msg), segs;
        }
        var (sh, segs') := step.value;
        ghost var before := sections;
        sections := sections[i := sh];
        assert sections[..i + 1] == before[..i] + [sh];
        assert sections[i + 1..] == before[i + 1..];
        segs := segs';
        i := i + 1;
      }
      assert ss[..|ss|] == ss && codes[..|ss|] == codes && sections[..|ss|] == sections;
      return Done(()), segs;
    }

    /** The program header loop, over the segments in region order. */
    method WritePrograms(segs: Segments, regions: seq<(U64, U64)>) returns (r: Exec<()>)
      requires |segs| == |regions|
      modifies this
      ensures header == old(header) && sections == old(sections) && bytes == old(bytes)
      ensures r.Done? <==> ProgramHeaders(segs, regions).Done?
      ensures r.Done? ==> programs == ProgramHeaders(segs, regions).value
      ensures r.Panic? ==> r.msg == UNREACHABLE_PANIC
    {
      programs := [];
      var i := 0;
      while i < |segs|
        invariant header == old(header) && sections == old(sections) && bytes == old(bytes)
        invariant i <= |segs| && ProgramHeaders(segs[..i], regions[..i]) == Done(programs)
      {
        assert segs[..i + 1][..i] == segs[..i] && regions[..i + 1][..i] == regions[..i];
        if segs[i].None? {
          assert !ProgramHeaders(segs, regions).Done?;
          return Panic(UNREACHABLE_PANIC);
        }
        var (offset, size) := segs[i].value;
        programs := programs + [ProgramHeader(PT_LOAD, offset, regions[i].0, regions[i].0, size, regions[i].1)];
        i := i + 1;
      }
      assert segs[..|segs|] == segs && regions[..|regions|] == regions;
      return Done(());
    }
  }
}
