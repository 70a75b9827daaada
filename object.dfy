/**
 * Writing compiled functions into an object file: the relocation table
 * (the inverse of the one that reads relocations back), the names of
 * function, trampoline and library-call symbols, the layout of the text
 * section and the list of unwind information the loader registers.
 */
module JitObject {
  import opened Base
  import opened Environ
  import opened ObjectFormat
  import UnwindIr
  import WinX64
  import JitCodeMemory

  // ---- relocations ----

  /** The kind, encoding and bit size a relocation is written with.
   *  Read-only-data relocations are dropped (`None`); the kinds the table
   *  does not name are unimplemented and panic. */
  function ObjectRelocKind(r: Reloc): (res: Exec<Option<(RelocationKind, RelocationEncoding, U8)>>)
    ensures res.Done? && res.value.None? <==> r == X86PCRelRodata4
    ensures res.Panic? <==> r == OtherReloc
  {
    match r
    case Abs4 => Done(Some((Absolute, Generic, 32)))
    case Abs8 => Done(Some((Absolute, Generic, 64)))
    case X86PCRel4 => Done(Some((Relative, Generic, 32)))
    case X86CallPCRel4 => Done(Some((Relative, X86Branch, 32)))
    case X86CallPLTRel4 => Done(Some((PltRelative, X86Branch, 32)))
    case X86GOTPCRel4 => Done(Some((GotRelative, Generic, 32)))
    case ElfX86_64TlsGd => Done(Some((Elf(R_X86_64_TLSGD), Generic, 32)))
    case X86PCRelRodata4 => Done(None)
    case OtherReloc => Panic("not implemented")
  }

  /** Writing a kind and reading the triple back gives the kind again. */
  lemma RelocKindRoundTrip(r: Reloc, kind: RelocationKind, encoding: RelocationEncoding, size: U8)
    requires ObjectRelocKind(r) == Done(Some((kind, encoding, size)))
    ensures JitCodeMemory.RelocFromObject(kind, encoding, size) == Done(r)
  {
  }

  /** Every triple the reader accepts is the one the writer uses for the
   *  kind it reads as: the two tables are inverse. */
  lemma RelocTripleRoundTrip(k: RelocationKind, e: RelocationEncoding, s: U8)
    requires JitCodeMemory.RelocFromObject(k, e, s).Done?
    ensures ObjectRelocKind(JitCodeMemory.RelocFromObject(k, e, s).value) == Done(Some((k, e, s)))
  {
  }

  /** A relocation as the object writer takes it; `symbol` is an index into
   *  the object's symbol table. */
  datatype ObjectRelocation = ObjectRelocation(
    offset: U64,
    size: U8,
    kind: RelocationKind,
    encoding: RelocationEncoding,
    symbol: nat,
    addend: I64)

  /** One relocation of a function whose code starts at `off` in the text
   *  section. A function index outside the symbol map or a library call
   *  without a symbol panics (indexing a map), and so does any other
   *  target. The offset is a 64-bit sum, which panics on overflow. */
  function ToObjectRelocation(r: Relocation, off: U64, funcs: seq<nat>, libcalls: map<LibCall, nat>): (res: Exec<Option<ObjectRelocation>>)
    ensures res.Done? && res.value.Some? ==>
      && ObjectRelocKind(r.reloc) == Done(Some((res.value.value.kind, res.value.value.encoding, res.value.value.size)))
      && res.value.value.offset == off + r.offset
      && res.value.value.addend == r.addend
      && (r.target.UserFunc? ==> r.target.funcIndex < |funcs| && res.value.value.symbol == funcs[r.target.funcIndex])
      && (r.target.LibCallTarget? ==> r.target.call in libcalls && res.value.value.symbol == libcalls[r.target.call])
      && !r.target.JumpTable?
    ensures res.Done? && res.value.None? <==> r.reloc == X86PCRelRodata4
    ensures off + r.offset >= TWO_64 && res.Done? ==> res.value.None?
    ensures off + r.offset >= TWO_64 && res.Panic? && ObjectRelocKind(r.reloc).Done?
            && (r.target.UserFunc? ==> r.target.funcIndex < |funcs|)
            && (r.target.LibCallTarget? ==> r.target.call in libcalls) && !r.target.JumpTable?
            ==> res.msg == ADD_OVERFLOW_PANIC
  {
    match ObjectRelocKind(r.reloc)
    case Panic(m) => Panic(m)
    case Done(None) => Done(None)
    case Done(Some((kind, encoding, size))) =>
      var symbol: Exec<nat> :=
        match r.target
        case UserFunc(i) => if i < |funcs| then Done(funcs[i]) else Panic("index out of bounds")
        case LibCallTarget(call) => if call in libcalls then Done(libcalls[call]) else Panic("no entry found for key")
        case JumpTable(_, _) => Panic("not implemented");
      match symbol
      case Panic(m) => Panic(m)
      case Done(sym) =>
        if off + r.offset >= TWO_64 then Panic(ADD_OVERFLOW_PANIC)
        else Done(Some(ObjectRelocation(off + r.offset, size, kind, encoding, sym, r.addend)))
  }

  const ADD_OVERFLOW_PANIC: string := "attempt to add with overflow"

  /** `to_object_relocations`: the relocations of one function in order,
   *  the dropped ones left out; the first panic ends the walk. */
  function ToObjectRelocations(rs: seq<Relocation>, off: U64, funcs: seq<nat>, libcalls: map<LibCall, nat>): (res: Exec<seq<ObjectRelocation>>)
    ensures res.Done? ==> |res.value| <= |rs|
    ensures res.Done? <==> forall k :: 0 <= k < |rs| ==> ToObjectRelocation(rs[k], off, funcs, libcalls).Done?
  {
    if rs == [] then Done([])
    else
      match ToObjectRelocation(rs[0], off, funcs, libcalls)
      case Panic(m) => Panic(m)
      case Done(first) =>
        match ToObjectRelocations(rs[1..], off, funcs, libcalls)
        case Panic(m) => Panic(m)
        case Done(rest) => Done((if first.Some? then [first.value] else []) + rest)
  }

  /** The relocations kept are exactly those that are not read-only-data
   *  relocations, each written by `ToObjectRelocation`, in their order. */
  function Kept(rs: seq<Relocation>): (r: seq<Relocation>)
    ensures |r| <= |rs|
    ensures forall k :: 0 <= k < |r| ==> r[k] in rs && r[k].reloc != X86PCRelRodata4
  {
    if rs == [] then []
    else (if rs[0].reloc == X86PCRelRodata4 then [] else [rs[0]]) + Kept(rs[1..])
  }

  lemma {:induction false} ToObjectRelocationsKept(rs: seq<Relocation>, off: U64, funcs: seq<nat>, libcalls: map<LibCall, nat>)
    requires ToObjectRelocations(rs, off, funcs, libcalls).Done?
    ensures var out := ToObjectRelocations(rs, off, funcs, libcalls).value;
      |out| == |Kept(rs)|
      && forall k :: 0 <= k < |out| ==> ToObjectRelocation(Kept(rs)[k], off, funcs, libcalls) == Done(Some(out[k]))
  {
    if rs != [] {
      assert forall k :: 0 <= k < |rs[1..]| ==> rs[1..][k] == rs[k + 1];
      assert ToObjectRelocation(rs[0], off, funcs, libcalls).Done?;
      ToObjectRelocationsKept(rs[1..], off, funcs, libcalls);
    }
  }

  // ---- symbol names ----

  const TRAMPOLINE_SYMBOL_PREFIX: string := "_trampoline_"

  /** `_wasm_function_{index}` */
  function FunctionSymbolName(index: nat): (name: string)
    ensures StripPrefix(name, JitCodeMemory.FUNCTION_SYMBOL_PREFIX) == Some(NatToString(index))
  {
    JitCodeMemory.FUNCTION_SYMBOL_PREFIX + NatToString(index)
  }

  /** `_trampoline_{index}` */
  function TrampolineSymbolName(index: nat): (name: string)
    ensures StripPrefix(name, TRAMPOLINE_SYMBOL_PREFIX) == Some(NatToString(index))
  {
    TRAMPOLINE_SYMBOL_PREFIX + NatToString(index)
  }

  /** A function symbol read back names the function it was written for,
   *  unless the index reaches `u32::MAX`, where `FuncIndex::new`'s
   *  assertion panics. */
  lemma FunctionSymbolRoundTrip(index: nat)
    requires index < TWO_64
    ensures JitCodeMemory.TargetFromSymbol(ReadSymbol(Some(FunctionSymbolName(index))))
            == if index < TWO_32 - 1 then Done(UserFunc(index)) else Panic(JitCodeMemory.FUNC_INDEX_PANIC)
  {
    ParseNatToString(index);
  }

  /** Different functions get different symbol names. */
  lemma FunctionSymbolNamesDistinct(i: nat, j: nat)
    requires i != j
    ensures FunctionSymbolName(i) != FunctionSymbolName(j)
  {
    DigitsOfNatToString(i);
    DigitsOfNatToString(j);
  }

  // ---- library calls ----

  /** The library-call symbols in the order they are added; `UdivI64` is
   *  added twice, and the second symbol is the one the map keeps. */
  const LIBCALL_SYMBOLS: seq<(LibCall, string)> := [
    (UdivI64, "wasmtime_i64_udiv"),
    (UdivI64, "wasmtime_i64_udiv"),
    (SdivI64, "wasmtime_i64_sdiv"),
    (UremI64, "wasmtime_i64_urem"),
    (SremI64, "wasmtime_i64_srem"),
    (IshlI64, "wasmtime_i64_ishl"),
    (UshrI64, "wasmtime_i64_ushr"),
    (SshrI64, "wasmtime_i64_sshr"),
    (CeilF32, "wasmtime_f32_ceil"),
    (FloorF32, "wasmtime_f32_floor"),
    (TruncF32, "wasmtime_f32_trunc"),
    (NearestF32, "wasmtime_f32_nearest"),
    (CeilF64, "wasmtime_f64_ceil"),
    (FloorF64, "wasmtime_f64_floor"),
    (TruncF64, "wasmtime_f64_trunc"),
    (NearestF64, "wasmtime_f64_nearest")]

  /** Every library-call symbol name read back gives its call. */
  lemma LibcallNamesRoundTrip()
    ensures forall k :: 0 <= k < |LIBCALL_SYMBOLS| ==> JitCodeMemory.ToLibCall(LIBCALL_SYMBOLS[k].1) == Done(LIBCALL_SYMBOLS[k].0)
  {
  }

  /** Every name the reader accepts is a library-call symbol of the writer,
   *  for the same call. */
  lemma LibcallNamesComplete(name: string)
    requires JitCodeMemory.ToLibCall(name).Done?
    ensures (JitCodeMemory.ToLibCall(name).value, name) in LIBCALL_SYMBOLS
  {
  }

  /** The symbol-id map the inserts build, symbol k of the table having id
   *  `first + k`; a later insert of the same call overwrites the earlier. */
  function LibcallMap(table: seq<(LibCall, string)>, first: nat): (m: map<LibCall, nat>)
    decreases |table|
  {
    if table == [] then map[]
    else LibcallMap(table[..|table| - 1], first)[table[|table| - 1].0 := first + |table| - 1]
  }

  /** Every call of the table has an entry, and each entry is the id of an
   *  insert of that call. */
  lemma {:induction false} LibcallMapEntries(table: seq<(LibCall, string)>, first: nat)
    ensures forall k :: 0 <= k < |table| ==> table[k].0 in LibcallMap(table, first)
    ensures forall c :: c in LibcallMap(table, first) ==>
      exists k :: 0 <= k < |table| && table[k].0 == c && LibcallMap(table, first)[c] == first + k
    decreases |table|
  {
    if table != [] {
      var init := table[..|table| - 1];
      LibcallMapEntries(init, first);
      assert forall k :: 0 <= k < |init| ==> init[k] == table[k];
    }
  }

  /** Every call except the unnamed ones has a symbol. */
  lemma LibcallMapDomain(first: nat)
    ensures forall c: LibCall :: c in LibcallMap(LIBCALL_SYMBOLS, first) <==> c != OtherLibCall
  {
    LibcallMapEntries(LIBCALL_SYMBOLS, first);
    forall c: LibCall ensures c in LibcallMap(LIBCALL_SYMBOLS, first) <==> c != OtherLibCall {
      if c == OtherLibCall {
        LibcallMapLacksOther(first);
      } else {
        var k := LibcallSlot(c);
      }
    }
  }

  lemma LibcallMapLacksOther(first: nat)
    ensures OtherLibCall !in LibcallMap(LIBCALL_SYMBOLS, first)
  {
    LibcallMapEntries(LIBCALL_SYMBOLS, first);
    LibcallNamesRoundTrip();
    assert forall k :: 0 <= k < |LIBCALL_SYMBOLS| ==> JitCodeMemory.ToLibCall(LIBCALL_SYMBOLS[k].1).value != OtherLibCall;
  }

  /** `UdivI64`'s symbol is the second one added. */
  lemma LibcallMapUdiv(first: nat)
    ensures UdivI64 in LibcallMap(LIBCALL_SYMBOLS, first) && LibcallMap(LIBCALL_SYMBOLS, first)[UdivI64] == first + 1
  {
    var t := LIBCALL_SYMBOLS;
    assert t[1].0 == UdivI64;
    assert forall k :: 2 <= k < |t| ==> t[k].0 != UdivI64;
    LibcallMapFromTwo(t, first);
  }

  /** Where each named call sits in the table (its last insert). */
  function LibcallSlot(c: LibCall): (k: nat)
    requires c != OtherLibCall
    ensures k < |LIBCALL_SYMBOLS| && LIBCALL_SYMBOLS[k].0 == c
  {
    match c
    case UdivI64 => 1
    case SdivI64 => 2
    case UremI64 => 3
    case SremI64 => 4
    case IshlI64 => 5
    case UshrI64 => 6
    case SshrI64 => 7
    case CeilF32 => 8
    case FloorF32 => 9
    case TruncF32 => 10
    case NearestF32 => 11
    case CeilF64 => 12
    case FloorF64 => 13
    case TruncF64 => 14
    case NearestF64 => 15
  }

  /** After the first two inserts, later ones do not touch `UdivI64`. */
  lemma {:induction false} LibcallMapFromTwo(table: seq<(LibCall, string)>, first: nat)
    requires |table| >= 2 && table[1].0 == UdivI64
    requires forall k :: 2 <= k < |table| ==> table[k].0 != UdivI64
    ensures UdivI64 in LibcallMap(table, first) && LibcallMap(table, first)[UdivI64] == first + 1
    decreases |table|
  {
    if |table| > 2 {
      var init := table[..|table| - 1];
      assert forall k :: 0 <= k < |init| ==> init[k] == table[k];
      LibcallMapFromTwo(init, first);
    } else {
      assert table[..1][..0] == [];
    }
  }

  // ---- the text section, its symbols and the unwind list ----

  datatype SymbolScope = Linkage | Compilation

  datatype SymbolSection = Undefined | TextSection

  /** A symbol as written: its name, value (offset in the text section),
   *  size, scope, weakness and section. Every symbol here is of kind text. */
  datatype Symbol = Symbol(name: string, value: nat, size: nat, scope: SymbolScope, weak: bool, section: SymbolSection)

  datatype ObjectUnwindInfo = Func(index: nat, info: UnwindIr.UnwindInfo) | Trampoline(index: nat, info: UnwindIr.UnwindInfo)

  /** An imported function: an undefined weak symbol. */
  function ImportSymbol(index: nat): Symbol
  {
    Symbol(FunctionSymbolName(index), 0, 0, Linkage, true, Undefined)
  }

  /** A defined function or trampoline: a local symbol at its offset. */
  function DefinedSymbol(name: string, value: nat, size: nat): Symbol
  {
    Symbol(name, value, size, Compilation, false, TextSection)
  }

  /** `append_section_data`: the data goes at the next multiple of `align`,
   *  zero bytes filling the gap. */
  function AppendAligned(text: seq<U8>, data: seq<U8>, align: nat): (r: seq<U8>)
    requires align > 0
    ensures |r| == AlignUp(|text|, align) + |data| && r[..|text|] == text
    ensures r[AlignUp(|text|, align)..] == data
  {
    text + JitCodeMemory.Zeros(AlignUp(|text|, align) - |text|) + data
  }

  function AlignUp(n: nat, align: nat): (r: nat)
    requires align > 0
    ensures n <= r < n + align && r % align == 0
  {
    AlignUpFacts(n, align);
    if n % align == 0 then n else align * (n / align + 1)
  }

  lemma AlignUpFacts(n: nat, align: nat)
    requires align > 0
    ensures n == align * (n / align) + n % align
    ensures (align * (n / align + 1)) % align == 0
    ensures align * (n / align + 1) == align * (n / align) + align
  {
    DivModUnique(align * (n / align + 1), align, n / align + 1, 0);
  }

  /** A body, then any Windows unwind block at the next 4-byte boundary of
   *  the section. */
  function WithFunction(text: seq<U8>, func: JitCodeMemory.CompiledFunction): (r: seq<U8>)
    ensures |r| >= |text| + |func.body| && r[..|text| + |func.body|] == text + func.body
  {
    var t := text + func.body;
    match JitCodeMemory.WindowsInfo(func)
    case None => t
    case Some(info) => AppendAligned(t, WinX64.Emit(info), 4)
  }

  /** The text section after a series of functions. */
  function TextOf(text: seq<U8>, funcs: seq<JitCodeMemory.CompiledFunction>): (r: seq<U8>)
    ensures |r| >= |text| && r[..|text|] == text
    decreases |funcs|
  {
    if funcs == [] then text
    else
      var prev := TextOf(text, funcs[..|funcs| - 1]);
      var r := WithFunction(prev, funcs[|funcs| - 1]);
      assert r[..|text|] == r[..|prev|][..|text|];
      r
  }

  /** The unwind list of defined functions: `Func(n + k)` for each function
   *  `k` with unwind information, in order. */
  function FuncUnwindList(numImported: nat, funcs: seq<JitCodeMemory.CompiledFunction>): (r: seq<ObjectUnwindInfo>)
    decreases |funcs|
  {
    if funcs == [] then []
    else
      var k := |funcs| - 1;
      FuncUnwindList(numImported, funcs[..k])
        + (if funcs[k].unwindInfo.Some? then [Func(numImported + k, funcs[k].unwindInfo.value)] else [])
  }

  /** The unwind list of trampolines, by signature index. */
  function TrampolineUnwindList(trampolines: seq<JitCodeMemory.CompiledFunction>): (r: seq<ObjectUnwindInfo>)
    decreases |trampolines|
  {
    if trampolines == [] then []
    else
      var k := |trampolines| - 1;
      TrampolineUnwindList(trampolines[..k])
        + (if trampolines[k].unwindInfo.Some? then [Trampoline(k, trampolines[k].unwindInfo.value)] else [])
  }

  /** The entries of the function unwind list are exactly the functions
   *  with unwind information: each entry names such a function with its
   *  information, and each such function has an entry. */
  lemma {:induction false} FuncUnwindListExact(numImported: nat, funcs: seq<JitCodeMemory.CompiledFunction>)
    ensures forall e :: e in FuncUnwindList(numImported, funcs) ==>
      e.Func? && numImported <= e.index < numImported + |funcs| && funcs[e.index - numImported].unwindInfo == Some(e.info)
    ensures forall k :: 0 <= k < |funcs| && funcs[k].unwindInfo.Some? ==>
      Func(numImported + k, funcs[k].unwindInfo.value) in FuncUnwindList(numImported, funcs)
    decreases |funcs|
  {
    if funcs != [] {
      var k := |funcs| - 1;
      var init := funcs[..k];
      FuncUnwindListExact(numImported, init);
      assert forall j :: 0 <= j < k ==> init[j] == funcs[j];
    }
  }

  predicate IndicesIncrease(l: seq<ObjectUnwindInfo>)
  {
    forall i, j :: 0 <= i < j < |l| ==> l[i].index < l[j].index
  }

  /** The unwind list is in emission order: function indices increase. */
  lemma {:induction false} FuncUnwindListOrdered(numImported: nat, funcs: seq<JitCodeMemory.CompiledFunction>)
    ensures IndicesIncrease(FuncUnwindList(numImported, funcs))
    decreases |funcs|
  {
    if funcs != [] {
      var k := |funcs| - 1;
      FuncUnwindListOrdered(numImported, funcs[..k]);
      FuncUnwindListExact(numImported, funcs[..k]);
      var l0 := FuncUnwindList(numImported, funcs[..k]);
      var l := FuncUnwindList(numImported, funcs);
      var tail := if funcs[k].unwindInfo.Some? then [Func(numImported + k, funcs[k].unwindInfo.value)] else [];
      assert l == l0 + tail;
      forall i, j | 0 <= i < j < |l| ensures l[i].index < l[j].index {
        if j >= |l0| {
          assert l[j] == tail[j - |l0|] && l[i] == l0[i] && l0[i] in l0;
        } else {
          assert l[i] == l0[i] && l[j] == l0[j];
        }
      }
    }
  }

  /** The symbols of functions appended after `text`, function `k` named
   *  `_wasm_function_{n + k}` at its offset. */
  function FuncSymbols(numImported: nat, text: seq<U8>, funcs: seq<JitCodeMemory.CompiledFunction>): (r: seq<Symbol>)
    ensures |r| == |funcs|
    decreases |funcs|
  {
    if funcs == [] then []
    else
      var k := |funcs| - 1;
      FuncSymbols(numImported, text, funcs[..k])
        + [DefinedSymbol(FunctionSymbolName(numImported + k), |TextOf(text, funcs[..k])|, |funcs[k].body|)]
  }

  /** The symbols of trampolines appended after `text`, by signature index. */
  function TrampolineSymbols(text: seq<U8>, trampolines: seq<JitCodeMemory.CompiledFunction>): (r: seq<Symbol>)
    ensures |r| == |trampolines|
    decreases |trampolines|
  {
    if trampolines == [] then []
    else
      var k := |trampolines| - 1;
      TrampolineSymbols(text, trampolines[..k])
        + [DefinedSymbol(TrampolineSymbolName(k), |TextOf(text, trampolines[..k])|, |trampolines[k].body|)]
  }

  /** Symbol `k` of the function symbols names function `n + k` and covers
   *  its body where `BodyAtSymbol` places it. */
  lemma {:induction false} FuncSymbolsAt(numImported: nat, text: seq<U8>, funcs: seq<JitCodeMemory.CompiledFunction>, k: nat)
    requires k < |funcs|
    ensures FuncSymbols(numImported, text, funcs)[k]
      == DefinedSymbol(FunctionSymbolName(numImported + k), |TextOf(text, funcs[..k])|, |funcs[k].body|)
    decreases |funcs|
  {
    var last := |funcs| - 1;
    var init := funcs[..last];
    var prev := FuncSymbols(numImported, text, init);
    assert FuncSymbols(numImported, text, funcs)
      == prev + [DefinedSymbol(FunctionSymbolName(numImported + last), |TextOf(text, init)|, |funcs[last].body|)];
    if k < last {
      assert init[..k] == funcs[..k] && init[k] == funcs[k];
      FuncSymbolsAt(numImported, text, init, k);
    }
  }

  /** Symbol `k` of the trampoline symbols names trampoline `k`. */
  lemma {:induction false} TrampolineSymbolsAt(text: seq<U8>, trampolines: seq<JitCodeMemory.CompiledFunction>, k: nat)
    requires k < |trampolines|
    ensures TrampolineSymbols(text, trampolines)[k]
      == DefinedSymbol(TrampolineSymbolName(k), |TextOf(text, trampolines[..k])|, |trampolines[k].body|)
    decreases |trampolines|
  {
    var last := |trampolines| - 1;
    var init := trampolines[..last];
    assert TrampolineSymbols(text, trampolines) == TrampolineSymbols(text, init)
      + [DefinedSymbol(TrampolineSymbolName(last), |TextOf(text, init)|, |trampolines[last].body|)];
    if k < last {
      assert init[..k] == trampolines[..k] && init[k] == trampolines[k];
      TrampolineSymbolsAt(text, init, k);
    }
  }

  /** One undefined weak symbol per imported function. */
  function ImportSymbols(numImported: nat): (r: seq<Symbol>)
    ensures |r| == numImported && forall i :: 0 <= i < numImported ==> r[i] == ImportSymbol(i)
  {
    seq(numImported, i requires 0 <= i => ImportSymbol(i))
  }

  /** The symbols, library-call map, text and unwind list `build_object`
   *  produces for the imported functions, the compiled functions, the
   *  library calls of `table` (the `add_libcall_symbol!` lines, which
   *  `LIBCALL_SYMBOLS` lists) and the trampolines (one per signature, built
   *  beforehand): imports first, then functions, then library calls, then
   *  trampolines, all code in one text section padded to the 4 KiB
   *  code-section alignment. */
  method BuildText(numImported: nat, compilation: seq<JitCodeMemory.CompiledFunction>,
                   table: seq<(LibCall, string)>, trampolines: seq<JitCodeMemory.CompiledFunction>)
    returns (symbols: seq<Symbol>, libcalls: map<LibCall, nat>, text: seq<U8>, unwind: seq<ObjectUnwindInfo>)
    ensures var funcText := TextOf([], compilation);
      && symbols == ImportSymbols(numImported) + FuncSymbols(numImported, [], compilation)
                    + LibcallSymbols(table) + TrampolineSymbols(funcText, trampolines)
      && text == AppendAligned(TextOf(funcText, trampolines), [], CODE_SECTION_ALIGNMENT)
      && unwind == FuncUnwindList(numImported, compilation) + TrampolineUnwindList(trampolines)
    ensures libcalls == LibcallMap(table, numImported + |compilation|)
  {
    var imports := AddImports(numImported);
    var funcSymbols, funcText, funcUnwind := AddFunctions(numImported, [], compilation);
    var libcallSymbols;
    libcallSymbols, libcalls := AddLibcalls(table, numImported, |compilation|);
    var trampSymbols, trampText, trampUnwind := AddTrampolines(funcText, trampolines);
    symbols := imports + funcSymbols + libcallSymbols + trampSymbols;
    text := AppendAligned(trampText, [], CODE_SECTION_ALIGNMENT);
    unwind := funcUnwind + trampUnwind;
  }

  /** The import symbols, one at a time. */
  method AddImports(numImported: nat) returns (symbols: seq<Symbol>)
    ensures symbols == ImportSymbols(numImported)
  {
    symbols := [];
    for index := 0 to numImported
      invariant |symbols| == index
      invariant forall i :: 0 <= i < index ==> symbols[i] == ImportSymbol(i)
    {
      symbols := symbols + [ImportSymbol(index)];
    }
  }

  /** The compiled functions appended to the text section one at a time,
   *  their symbols numbered after the imports. */
  method AddFunctions(numImported: nat, base: seq<U8>, compilation: seq<JitCodeMemory.CompiledFunction>)
    returns (symbols: seq<Symbol>, text: seq<U8>, unwind: seq<ObjectUnwindInfo>)
    ensures symbols == FuncSymbols(numImported, base, compilation)
    ensures text == TextOf(base, compilation)
    ensures unwind == FuncUnwindList(numImported, compilation)
  {
    symbols, text, unwind := [], base, [];
    for index := 0 to |compilation|
      invariant symbols == FuncSymbols(numImported, base, compilation[..index])
      invariant text == TextOf(base, compilation[..index])
      invariant unwind == FuncUnwindList(numImported, compilation[..index])
    {
      var func := compilation[index];
      assert compilation[..index + 1][..index] == compilation[..index];
      symbols := symbols + [DefinedSymbol(FunctionSymbolName(numImported + index), |text|, |func.body|)];
      text := WithFunction(text, func);
      if func.unwindInfo.Some? {
        unwind := unwind + [Func(numImported + index, func.unwindInfo.value)];
      }
    }
    assert compilation[..|compilation|] == compilation;
  }

  /** The trampolines appended after the functions, by signature index. */
  method AddTrampolines(base: seq<U8>, trampolines: seq<JitCodeMemory.CompiledFunction>)
    returns (symbols: seq<Symbol>, text: seq<U8>, unwind: seq<ObjectUnwindInfo>)
    ensures symbols == TrampolineSymbols(base, trampolines)
    ensures text == TextOf(base, trampolines)
    ensures unwind == TrampolineUnwindList(trampolines)
  {
    symbols, text, unwind := [], base, [];
    for index := 0 to |trampolines|
      invariant symbols == TrampolineSymbols(base, trampolines[..index])
      invariant text == TextOf(base, trampolines[..index])
      invariant unwind == TrampolineUnwindList(trampolines[..index])
    {
      var func := trampolines[index];
      assert trampolines[..index + 1][..index] == trampolines[..index];
      symbols := symbols + [DefinedSymbol(TrampolineSymbolName(index), |text|, |func.body|)];
      text := WithFunction(text, func);
      if func.unwindInfo.Some? {
        unwind := unwind + [Trampoline(index, func.unwindInfo.value)];
      }
    }
    assert trampolines[..|trampolines|] == trampolines;
  }

  /** A library call: an undefined weak symbol named after its routine. */
  function LibcallSymbol(name: string): Symbol
  {
    Symbol(name, 0, 0, Linkage, true, Undefined)
  }

  /** One library-call symbol per insert of the table, in order. */
  function LibcallSymbols(table: seq<(LibCall, string)>): (r: seq<Symbol>)
    ensures |r| == |table|
    ensures forall k :: 0 <= k < |table| ==> r[k] == LibcallSymbol(table[k].1)
  {
    seq(|table|, k requires 0 <= k < |table| => LibcallSymbol(table[k].1))
  }

  /** The `add_libcall_symbol!` inserts of `table` (`LIBCALL_SYMBOLS` in
   *  `build_object`), symbol ids numbered after the symbols of the
   *  `numImported` imported and `numDefined` defined functions. */
  method AddLibcalls(table: seq<(LibCall, string)>, numImported: nat, numDefined: nat)
    returns (symbols: seq<Symbol>, libcalls: map<LibCall, nat>)
    ensures symbols == LibcallSymbols(table)
    ensures libcalls == LibcallMap(table, numImported + numDefined)
  {
    var first := numImported + numDefined;
    symbols, libcalls := [], map[];
    for k := 0 to |table|
      invariant symbols == LibcallSymbols(table[..k])
      invariant libcalls == LibcallMap(table[..k], first)
    {
      var (call, name) := table[k];
      LibcallInsertStep(table, first, k);
      symbols := symbols + [LibcallSymbol(name)];
      libcalls := libcalls[call := first + k];
    }
    assert table[..|table|] == table;
  }

  /** One more insert adds one symbol and one map entry. */
  lemma LibcallInsertStep(table: seq<(LibCall, string)>, first: nat, k: nat)
    requires k < |table|
    ensures LibcallSymbols(table[..k + 1]) == LibcallSymbols(table[..k]) + [LibcallSymbol(table[k].1)]
    ensures LibcallMap(table[..k + 1], first) == LibcallMap(table[..k], first)[table[k].0 := first + k]
  {
    assert table[..k + 1][..k] == table[..k];
  }

  /** The symbol table as the reader sees it: each symbol by its name. */
  function ReadSymbols(symbols: seq<Symbol>): (r: seq<ReadSymbol>)
    ensures |r| == |symbols|
    ensures forall i :: 0 <= i < |symbols| ==> r[i] == ReadSymbol(Some(symbols[i].name))
  {
    seq(|symbols|, i requires 0 <= i < |symbols| => ReadSymbol(Some(symbols[i].name)))
  }

  /** The symbol ids `0 .. count`, which `func_symbols` collects. */
  function SymbolIds(count: nat): (r: seq<nat>)
    ensures |r| == count && forall i :: 0 <= i < count ==> r[i] == i
  {
    seq(count, i requires 0 <= i < count => i)
  }

  /** Every insert of a call names it by the symbol the reader takes for it. */
  lemma LibcallInsertNamed(k: nat)
    requires k < |LIBCALL_SYMBOLS|
    ensures LIBCALL_SYMBOLS[k].0 != OtherLibCall && LIBCALL_SYMBOLS[k].1 == LibcallName(LIBCALL_SYMBOLS[k].0)
  {
  }

  /** The symbol table `BuildText` writes for `LIBCALL_SYMBOLS` names every
   *  function and library call as the relocation writer expects: function
   *  `i` is symbol `i`, and each call's symbol is the one its map entry
   *  gives. */
  lemma BuildTextSymbolsNamed(numImported: nat, compilation: seq<JitCodeMemory.CompiledFunction>,
                              trampolines: seq<JitCodeMemory.CompiledFunction>, symbols: seq<Symbol>)
    requires symbols == ImportSymbols(numImported) + FuncSymbols(numImported, [], compilation)
                        + LibcallSymbols(LIBCALL_SYMBOLS) + TrampolineSymbols(TextOf([], compilation), trampolines)
    ensures SymbolsNamed(ReadSymbols(symbols), SymbolIds(numImported + |compilation|),
                         LibcallMap(LIBCALL_SYMBOLS, numImported + |compilation|))
  {
    var front := ImportSymbols(numImported) + FuncSymbols(numImported, [], compilation);
    var calls := LibcallSymbols(LIBCALL_SYMBOLS);
    var rest := TrampolineSymbols(TextOf([], compilation), trampolines);
    ConcatAssoc(front, calls, rest);
    BuiltFunctionsNamed(numImported, compilation, calls + rest);
    BuiltLibcallsNamed(front, rest);
  }

  lemma ConcatAssoc<T>(a: seq<T>, b: seq<T>, c: seq<T>)
    ensures a + b + c == a + (b + c)
  {
  }

  /** The imports and functions at the front of the table are symbols
   *  `0 .. n + m`, named after their functions. */
  lemma BuiltFunctionsNamed(numImported: nat, compilation: seq<JitCodeMemory.CompiledFunction>, rest: seq<Symbol>)
    ensures FunctionsNamed(ReadSymbols(ImportSymbols(numImported) + FuncSymbols(numImported, [], compilation) + rest),
                           SymbolIds(numImported + |compilation|))
  {
    var n := numImported;
    var imports, funcs := ImportSymbols(n), FuncSymbols(n, [], compilation);
    var all := imports + funcs + rest;
    forall i | 0 <= i < n + |compilation|
      ensures i < |all| && all[i].name == FunctionSymbolName(i)
    {
      if i < n {
        assert all[i] == imports[i];
      } else {
        assert all[i] == funcs[i - n];
        FuncSymbolsAt(n, [], compilation, i - n);
      }
    }
  }

  /** The library-call symbols written after `front` are the ones the map
   *  built alongside them gives, each under its call's name. */
  lemma BuiltLibcallsNamed(front: seq<Symbol>, rest: seq<Symbol>)
    ensures LibcallsNamed(ReadSymbols(front + (LibcallSymbols(LIBCALL_SYMBOLS) + rest)), LibcallMap(LIBCALL_SYMBOLS, |front|))
  {
    var calls := LibcallSymbols(LIBCALL_SYMBOLS);
    var all := front + (calls + rest);
    var libcalls := LibcallMap(LIBCALL_SYMBOLS, |front|);
    SliceAfter(front, calls, rest);
    forall c | c in libcalls
      ensures c != OtherLibCall && libcalls[c] < |all| && all[libcalls[c]].name == LibcallName(c)
    {
      var k := TableSymbolAt(LIBCALL_SYMBOLS, all, |front|, c);
      LibcallInsertNamed(k);
    }
  }

  lemma SliceAfter<T>(front: seq<T>, mid: seq<T>, rest: seq<T>)
    ensures (front + (mid + rest))[|front|..|front| + |mid|] == mid
  {
    assert (front + (mid + rest))[|front|..] == mid + rest;
  }

  /** The symbol a call's map entry gives is one written for that call. */
  lemma TableSymbolAt(table: seq<(LibCall, string)>, symbols: seq<Symbol>, first: nat, c: LibCall) returns (k: nat)
    requires c in LibcallMap(table, first)
    requires first + |table| <= |symbols|
    requires symbols[first..first + |table|] == LibcallSymbols(table)
    ensures k < |table| && table[k].0 == c && LibcallMap(table, first)[c] == first + k
    ensures symbols[first + k].name == table[k].1
  {
    LibcallMapEntries(table, first);
    k :| 0 <= k < |table| && table[k].0 == c && LibcallMap(table, first)[c] == first + k;
    assert symbols[first + k] == symbols[first..first + |table|][k];
  }

  const CODE_SECTION_ALIGNMENT: nat := 0x1000

  /** The text after the first `k` functions is a prefix of the text after
   *  all of them. */
  lemma {:induction false} TextOfPrefix(text: seq<U8>, funcs: seq<JitCodeMemory.CompiledFunction>, k: nat)
    requires k <= |funcs|
    ensures |TextOf(text, funcs[..k])| <= |TextOf(text, funcs)|
    ensures TextOf(text, funcs)[..|TextOf(text, funcs[..k])|] == TextOf(text, funcs[..k])
    decreases |funcs|
  {
    if k < |funcs| {
      var init := funcs[..|funcs| - 1];
      assert init[..k] == funcs[..k];
      TextOfPrefix(text, init, k);
      var mid, all := TextOf(text, init), TextOf(text, funcs);
      assert all[..|mid|] == mid;
      assert all[..|TextOf(text, funcs[..k])|] == mid[..|TextOf(text, funcs[..k])|];
    } else {
      assert funcs[..k] == funcs;
    }
  }

  lemma TextOfSnoc(text: seq<U8>, funcs: seq<JitCodeMemory.CompiledFunction>, i: nat)
    requires i < |funcs|
    ensures TextOf(text, funcs[..i + 1]) == WithFunction(TextOf(text, funcs[..i]), funcs[i])
  {
    assert funcs[..i + 1][..i] == funcs[..i];
  }

  lemma SliceOfPrefix<T>(all: seq<T>, w: seq<T>, lo: nat, hi: nat)
    requires |w| <= |all| && all[..|w|] == w && lo <= hi <= |w|
    ensures all[lo..hi] == w[lo..hi]
  {
    assert forall i :: lo <= i < hi ==> all[i] == all[..|w|][i];
  }

  /** Each function's body sits in the text section at its symbol's value,
   *  for as many bytes as the symbol's size. */
  lemma BodyAtSymbol(text: seq<U8>, funcs: seq<JitCodeMemory.CompiledFunction>, k: nat)
    requires k < |funcs|
    ensures var at := |TextOf(text, funcs[..k])|;
      at + |funcs[k].body| <= |TextOf(text, funcs)|
      && TextOf(text, funcs)[at..at + |funcs[k].body|] == funcs[k].body
  {
    var p := TextOf(text, funcs[..k]);
    var w := TextOf(text, funcs[..k + 1]);
    TextOfSnoc(text, funcs, k);
    assert w == WithFunction(p, funcs[k]);
    TextOfPrefix(text, funcs, k + 1);
    PrefixedBody(TextOf(text, funcs), w, p, funcs[k].body);
  }

  /** A body that follows `p` at the front of a prefix `w` of `all` sits in
   *  `all` right after `p`. */
  lemma PrefixedBody<T>(all: seq<T>, w: seq<T>, p: seq<T>, body: seq<T>)
    requires |w| <= |all| && all[..|w|] == w
    requires |p| + |body| <= |w| && w[..|p| + |body|] == p + body
    ensures all[|p|..|p| + |body|] == body
  {
    SliceOfPrefix(all, w, |p|, |p| + |body|);
    assert w[|p|..|p| + |body|] == (p + body)[|p|..];
  }

  // ---- writing a relocation and reading it back ----

  /** The object-file relocation as it is read back: the written kind,
   *  encoding, size, symbol and addend. */
  function AsRead(o: ObjectRelocation): ReadRelocation
  {
    ReadRelocation(o.kind, o.encoding, o.size, SymbolTarget(o.symbol), o.addend)
  }

  /** The symbol name of a named library call (its last insert). */
  function LibcallName(c: LibCall): (name: string)
    requires c != OtherLibCall
    ensures JitCodeMemory.ToLibCall(name) == Done(c)
  {
    LibcallNamesRoundTrip();
    LIBCALL_SYMBOLS[LibcallSlot(c)].1
  }

  /** The symbol table names each function and library call the way the
   *  writer names them. */
  predicate SymbolsNamed(symbols: seq<ReadSymbol>, funcs: seq<nat>, libcalls: map<LibCall, nat>)
  {
    FunctionsNamed(symbols, funcs) && LibcallsNamed(symbols, libcalls)
  }

  /** Function `i`'s symbol id `funcs[i]` names function `i`. */
  predicate FunctionsNamed(symbols: seq<ReadSymbol>, funcs: seq<nat>)
  {
    forall i :: 0 <= i < |funcs| ==> funcs[i] < |symbols| && symbols[funcs[i]] == ReadSymbol(Some(FunctionSymbolName(i)))
  }

  /** Each call's symbol id names that call. */
  predicate LibcallsNamed(symbols: seq<ReadSymbol>, libcalls: map<LibCall, nat>)
  {
    forall c :: c in libcalls ==>
      c != OtherLibCall && libcalls[c] < |symbols| && symbols[libcalls[c]] == ReadSymbol(Some(LibcallName(c)))
  }

  /** A relocation of a function placed at `off` in the text section,
   *  written and read back with its addend kept, is the relocation it was,
   *  moved by `off` and cut to the 32 bits a relocation offset keeps. The
   *  function index must lie below `u32::MAX`, as `FuncIndex::new`
   *  asserts. */
  lemma RelocationRoundTrip(r: Relocation, off: U64, funcs: seq<nat>, libcalls: map<LibCall, nat>, symbols: seq<ReadSymbol>)
    requires ToObjectRelocation(r, off, funcs, libcalls).Done? && ToObjectRelocation(r, off, funcs, libcalls).value.Some?
    requires SymbolsNamed(symbols, funcs, libcalls)
    requires r.target.UserFunc? ==> r.target.funcIndex < TWO_32 - 1
    ensures var o := ToObjectRelocation(r, off, funcs, libcalls).value.value;
      JitCodeMemory.ToCraneliftRelocationWithAddend(symbols, o.offset, AsRead(o)) == Done(r.(offset := (off + r.offset) % TWO_32))
  {
    var o := ToObjectRelocation(r, off, funcs, libcalls).value.value;
    RelocKindRoundTrip(r.reloc, o.kind, o.encoding, o.size);
    TargetRoundTrip(r, funcs, libcalls, symbols, o.symbol);
    var moved: U32 := (off + r.offset) % TWO_32;
    ReadBack(symbols, o, r.(offset := moved));
  }

  /** At the start of the text section the round trip is the identity. */
  lemma RelocationRoundTripAtStart(r: Relocation, funcs: seq<nat>, libcalls: map<LibCall, nat>, symbols: seq<ReadSymbol>)
    requires ToObjectRelocation(r, 0, funcs, libcalls).Done? && ToObjectRelocation(r, 0, funcs, libcalls).value.Some?
    requires SymbolsNamed(symbols, funcs, libcalls)
    requires r.target.UserFunc? ==> r.target.funcIndex < TWO_32 - 1
    ensures var o := ToObjectRelocation(r, 0, funcs, libcalls).value.value;
      JitCodeMemory.ToCraneliftRelocationWithAddend(symbols, o.offset, AsRead(o)) == Done(r)
  {
    RelocationRoundTrip(r, 0, funcs, libcalls, symbols);
    OffsetAtStart(r);
  }

  lemma OffsetAtStart(r: Relocation)
    ensures r.(offset := (0 + r.offset) % TWO_32) == r
  {
    DivModUnique(0 + r.offset, TWO_32, 0, r.offset);
  }

  /** An object relocation whose kind and symbol read back as those of `r`,
   *  at an offset that cuts to `r`'s and with its addend, reads back as
   *  `r`. */
  lemma ReadBack(symbols: seq<ReadSymbol>, o: ObjectRelocation, r: Relocation)
    requires JitCodeMemory.RelocFromObject(o.kind, o.encoding, o.size) == Done(r.reloc)
    requires o.symbol < |symbols| && JitCodeMemory.TargetFromSymbol(symbols[o.symbol]) == Done(r.target)
    requires o.offset % TWO_32 == r.offset && o.addend == r.addend
    ensures JitCodeMemory.ToCraneliftRelocationWithAddend(symbols, o.offset, AsRead(o)) == Done(r)
  {
    var back := JitCodeMemory.ToCraneliftRelocation(symbols, o.offset, AsRead(o));
    assert back.Done?;
    assert back.value == Relocation(r.reloc, r.target, r.offset, 0);
  }

  /** The symbol a relocation is written against reads back as its target. */
  lemma TargetRoundTrip(r: Relocation, funcs: seq<nat>, libcalls: map<LibCall, nat>, symbols: seq<ReadSymbol>, symbol: nat)
    requires SymbolsNamed(symbols, funcs, libcalls)
    requires r.target.UserFunc? ==> r.target.funcIndex < TWO_32 - 1 && r.target.funcIndex < |funcs| && symbol == funcs[r.target.funcIndex]
    requires r.target.LibCallTarget? ==> r.target.call in libcalls && symbol == libcalls[r.target.call]
    requires !r.target.JumpTable?
    ensures symbol < |symbols| && JitCodeMemory.TargetFromSymbol(symbols[symbol]) == Done(r.target)
  {
    match r.target
    case UserFunc(i) =>
      FunctionTargetRoundTrip(i, symbols[symbol]);
    case LibCallTarget(c) =>
      LibcallSymbolRoundTrip(c);
  }

  /** A function symbol read back names its function. */
  lemma FunctionTargetRoundTrip(i: nat, sym: ReadSymbol)
    requires i < TWO_32 - 1 && sym == ReadSymbol(Some(FunctionSymbolName(i)))
    ensures JitCodeMemory.TargetFromSymbol(sym) == Done(UserFunc(i))
  {
    FunctionSymbolRoundTrip(i);
  }

  /** A library-call symbol read back names its call. */
  lemma LibcallSymbolRoundTrip(c: LibCall)
    requires c != OtherLibCall
    ensures JitCodeMemory.TargetFromSymbol(ReadSymbol(Some(LibcallName(c)))) == Done(LibCallTarget(c))
  {
    var name := LibcallName(c);
    assert StripPrefix(name, JitCodeMemory.LIBCALL_SYMBOL_PREFIX).Some?;
    assert name[0] == 'w';
    assert StripPrefix(name, JitCodeMemory.FUNCTION_SYMBOL_PREFIX).None? by {
      assert JitCodeMemory.FUNCTION_SYMBOL_PREFIX[0] == '_';
    }
  }

  /** The conversion as written drops the addend: a call relocation with
   *  the usual -4 addend reads back with addend 0. */
  lemma AddendDroppedAsWritten()
    ensures var r := Relocation(X86CallPCRel4, UserFunc(0), 0, -4);
      var o := ToObjectRelocation(r, 0, [0], map[]).value.value;
      && o.addend == -4
      && JitCodeMemory.ToCraneliftRelocation([ReadSymbol(Some(FunctionSymbolName(0)))], o.offset, AsRead(o))
         == Done(Relocation(X86CallPCRel4, UserFunc(0), 0, 0))
  {
    FunctionSymbolRoundTrip(0);
  }
}
