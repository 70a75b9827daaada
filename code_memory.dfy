/**
 * Executable memory for JIT-compiled code: arenas of mapped memory filled
 * front to back, retired when full, and published (made executable, their
 * unwind information registered, their relocation lists dropped) in one
 * monotone sweep; plus the tables that turn relocations read from an object
 * file back into code-generator relocations.
 */
module JitCodeMemory {
  import opened Base
  import opened Environ
  import ObjectFormat
  import UnwindIr
  import WinX64

  /** The smallest arena ever mapped: 64 KiB. */
  const MIN_ARENA_SIZE: nat := 0x10000

  /** What the operating system answers to a request for a fresh
   *  read-write mapping: its address and its size, or a failure. */
  datatype MapResult = Mapped(base: nat, capacity: nat) | MapFailed(reason: string)

  /** An answer to a request for at least `size` bytes. The model assumes
   *  every arena is smaller than 2^32 bytes, so that the source's `as u32`
   *  casts of arena offsets and lengths, and its `u32` sums of them, are
   *  exact. */
  predicate MapsAtLeast(os: MapResult, size: nat)
  {
    os.Mapped? ==> size <= os.capacity < TWO_32
  }

  /** One function's unwind information registered with an arena. The
   *  source keeps offsets and lengths as `u32`; under the assumption that
   *  every arena is smaller than 2^32 bytes (`MapsAtLeast`,
   *  `CodeMemoryEntry.Valid`) they are exact, so they are kept as `nat`. */
  datatype Registration = Registration(start: nat, len: nat, info: UnwindIr.UnwindInfo)

  /** An arena's unwind registry: where the arena lives, what was
   *  registered, and whether it was handed to the runtime. */
  datatype UnwindRegistry = UnwindRegistry(base: nat, registrations: seq<Registration>, published: bool)

  datatype CompiledFunction = CompiledFunction(body: seq<U8>, unwindInfo: Option<UnwindIr.UnwindInfo>)

  /** Per function placed in an arena: its start (a `u32` in the source,
   *  below 2^32 as above) and its relocations. */
  type CodeMemoryRelocations = seq<(nat, seq<Relocation>)>

  /** Where a placed function's body lives. */
  datatype Span = Span(arenaBase: nat, start: nat, len: nat)

  function Zeros(n: nat): (r: seq<U8>)
    ensures |r| == n && forall i :: 0 <= i < n ==> r[i] == 0
  {
    seq(n, _ => 0)
  }

  /** `(x + 3) & !3`: the next multiple of 4. */
  function Align4(x: nat): (r: nat)
    ensures r % 4 == 0 && x <= r < x + 4
  {
    (x + 3) / 4 * 4
  }

  /** The Windows x64 unwind information a function carries, if any. */
  function WindowsInfo(func: CompiledFunction): (r: Option<WinX64.UnwindInfo>)
    ensures r.Some? <==> func.unwindInfo.Some? && func.unwindInfo.value.WindowsX64?
  {
    match func.unwindInfo
    case Some(WindowsX64(info)) => Some(info)
    case _ => None
  }

  /** Bytes reserved for a function: its body, and with Windows unwind
   *  information the body padded to 4 bytes plus the unwind block. */
  function FunctionAllocationSize(func: CompiledFunction): (r: nat)
    ensures r >= |func.body|
    ensures WindowsInfo(func).None? ==> r == |func.body|
    ensures WindowsInfo(func).Some? ==> r % 4 == 0 && r >= |func.body| + WinX64.EmitSize(WindowsInfo(func).value)
  {
    match WindowsInfo(func)
    case Some(info) => Align4(|func.body|) + WinX64.EmitSize(info)
    case None => |func.body|
  }

  /** Whether copying a function placed at arena offset `start` stays inside
   *  a buffer that ends at `bufEnd`: the body must fit, and a Windows block
   *  must fit at the next 4-aligned arena offset after it. */
  predicate FitsAt(func: CompiledFunction, start: nat, bufEnd: nat)
  {
    && start + |func.body| <= bufEnd
    && (WindowsInfo(func).Some? ==> Align4(start + |func.body|) + WinX64.EmitSize(WindowsInfo(func).value) <= bufEnd)
  }

  /** Where the next function goes: after the body, or after the Windows
   *  block that follows it. */
  function FuncEnd(func: CompiledFunction, start: nat): (r: nat)
    ensures r >= start + |func.body|
  {
    match WindowsInfo(func)
    case Some(info) => Align4(start + |func.body|) + WinX64.EmitSize(info)
    case None => start + |func.body|
  }

  /** Arena bytes after copying a function to `start`: its body there and
   *  its Windows block, if any, at the next 4-aligned offset. */
  function Placed(mem: seq<U8>, func: CompiledFunction, start: nat): (r: seq<U8>)
    requires FuncEnd(func, start) <= |mem|
    ensures |r| == |mem|
  {
    var withBody := Splice(mem, start, func.body);
    match WindowsInfo(func)
    case Some(info) => Splice(withBody, Align4(start + |func.body|), WinX64.Emit(info))
    case None => withBody
  }

  /** The registry after registering a function at `start`: only functions
   *  that carry unwind information are registered, with the body length. */
  function Registered(reg: UnwindRegistry, func: CompiledFunction, start: nat): (r: UnwindRegistry)
    ensures r.base == reg.base && r.published == reg.published
    ensures r.registrations == reg.registrations
      + (if func.unwindInfo.Some? then [Registration(start, |func.body|, func.unwindInfo.value)] else [])
  {
    match func.unwindInfo
    case Some(info) => reg.(registrations := reg.registrations + [Registration(start, |func.body|, info)])
    case None => reg
  }

  /** Reserving room for a function whose allocation starts at a 4-aligned
   *  offset always leaves room for its unwind block. */
  lemma AlignedStartFits(func: CompiledFunction, start: nat)
    requires start % 4 == 0
    ensures FitsAt(func, start, start + FunctionAllocationSize(func))
    ensures FuncEnd(func, start) <= start + FunctionAllocationSize(func)
  {
    if WindowsInfo(func).Some? {
      assert Align4(start + |func.body|) == start + Align4(|func.body|) by {
        var a := Align4(|func.body|);
        assert (start + a) % 4 == 0 && start + |func.body| <= start + a < start + |func.body| + 4;
        AlignUnique(start + |func.body|, start + a);
      }
    }
  }

  lemma AlignUnique(x: nat, y: nat)
    requires y % 4 == 0 && x <= y < x + 4
    ensures Align4(x) == y
  {
  }

  /** Unaligned allocations are not safe: after a 5-byte function without
   *  Windows unwind information, a 4-byte function with it overruns its
   *  reservation, so `CopyFunction` panics "mid > len" on it. */
  lemma MisalignedStartOverruns(info: WinX64.UnwindInfo)
    ensures var f := CompiledFunction([0x90, 0x90, 0x90, 0x90], Some(UnwindIr.WindowsX64(info)));
      !FitsAt(f, 5, 5 + FunctionAllocationSize(f))
  {
    var f := CompiledFunction([0x90, 0x90, 0x90, 0x90], Some(UnwindIr.WindowsX64(info)));
    assert Align4(9) == 12 by { AlignUnique(9, 12); }
    assert Align4(4) == 4 by { AlignUnique(4, 4); }
  }

  /** The reservation `function_allocation_size` evidently means to make for
   *  a function placed at arena offset `start`: the padding runs to the next
   *  4-aligned arena offset, which is where `copy_function` puts the block. */
  function AlignedAllocationSize(func: CompiledFunction, start: nat): (r: nat)
    ensures r >= |func.body|
    ensures WindowsInfo(func).None? ==> r == |func.body|
  {
    match WindowsInfo(func)
    case Some(info) => Align4(start + |func.body|) - start + WinX64.EmitSize(info)
    case None => |func.body|
  }

  /** With that reservation a function fits at every start, and the next
   *  function goes exactly at the end of its reservation. */
  lemma AlignedAllocationFits(func: CompiledFunction, start: nat)
    ensures FitsAt(func, start, start + AlignedAllocationSize(func, start))
    ensures FuncEnd(func, start) == start + AlignedAllocationSize(func, start)
  {
  }

  /** At a 4-aligned start it is the reservation the source makes. */
  lemma AlignedAllocationAgrees(func: CompiledFunction, start: nat)
    requires start % 4 == 0
    ensures AlignedAllocationSize(func, start) == FunctionAllocationSize(func)
  {
    AlignedStartFits(func, start);
  }

  /** Writes `bytes` into `a` at `at` (`copy_from_slice`). */
  method CopyInto(a: array<U8>, at: nat, bytes: seq<U8>)
    requires at + |bytes| <= a.Length
    modifies a
    ensures a[..] == Splice(old(a[..]), at, bytes)
  {
    ghost var before := a[..];
    forall i | at <= i < at + |bytes| {
      a[i] := bytes[i - at];
    }
    SpliceIndex(before, at, bytes);
  }

  /** Page protection of an arena: writable while it is filled,
   *  read-execute once published. */
  datatype Protection = ReadWrite | ReadExecute

  /** One mapped arena: the mapping's bytes, its address, its unwind
   *  registry, the relocations of the functions copied into it, how many of
   *  its bytes are in use, and the protection of its pages. The code memory
   *  owns its arenas by value; only the mapped bytes live on the heap. */
  datatype CodeMemoryEntry = CodeMemoryEntry(
    mmap: array<U8>,
    base: nat,
    registry: UnwindRegistry,
    relocs: CodeMemoryRelocations,
    len: nat,
    protection: Protection)
  {
    predicate Valid()
    {
      len <= mmap.Length < TWO_32 && registry.base == base
    }

    /** The address range in use: from the mapping's address, `len` bytes. */
    function Range(): (r: (nat, nat))
      ensures r.0 == base && r.1 - r.0 == len
    {
      (base, base + len)
    }
  }

  /** Whether reserving `size` bytes needs a new arena: there is none, or
   *  the current one has too little room left. */
  predicate Opens(current: Option<CodeMemoryEntry>, size: nat)
  {
    current.None? || current.value.mmap.Length - current.value.len < size
  }

  /** The arena `e` after reserving `size` bytes at offset `start`: a new,
   *  empty arena from the mapping when `Opens`, otherwise the current one
   *  grown by `size`; either way the reservation fits. */
  predicate Reserved(current: Option<CodeMemoryEntry>, size: nat, os: MapResult, start: nat, e: CodeMemoryEntry)
  {
    && e.len == start + size <= e.mmap.Length
    && if Opens(current, size) then
         && os.Mapped? && start == 0 && e.mmap.Length == os.capacity
         && e == CodeMemoryEntry(e.mmap, os.base, UnwindRegistry(os.base, [], false), [], size, ReadWrite)
       else
         current.Some? && start == current.value.len && e == current.value.(len := start + size)
  }

  /** A fresh arena of at least `capacity` bytes (`with_capacity`): zeroed,
   *  writable, empty, its registry at the mapping's address; or the mapping
   *  failure. */
  method NewEntry(capacity: nat, os: MapResult) returns (r: Result<CodeMemoryEntry, string>)
    requires MapsAtLeast(os, capacity)
    ensures r.Ok? <==> os.Mapped?
    ensures r.Err? ==> r.error == os.reason
    ensures r.Ok? ==>
      && fresh(r.value.mmap) && r.value.Valid()
      && r.value == CodeMemoryEntry(r.value.mmap, os.base, UnwindRegistry(os.base, [], false), [], 0, ReadWrite)
      && r.value.mmap.Length == os.capacity && r.value.mmap[..] == Zeros(os.capacity)
  {
    match os {
      case MapFailed(reason) =>
        return Err(reason);
      case Mapped(base, cap) =>
        var mmap := new U8[cap](_ => 0);
        return Ok(CodeMemoryEntry(mmap, base, UnwindRegistry(base, [], false), [], 0, ReadWrite));
    }
  }

  /** Copies a function to arena offset `funcStart` of `mmap`, inside a
   *  buffer that ends at `bufEnd`, writes its Windows block after it, and
   *  registers its unwind information. Splitting the buffer past its end
   *  panics. Returns where the next function goes and the new registry. */
  method CopyFunction(func: CompiledFunction, funcStart: nat, mmap: array<U8>, registry: UnwindRegistry, bufEnd: nat)
    returns (r: Exec<(nat, UnwindRegistry)>)
    requires funcStart <= bufEnd <= mmap.Length < TWO_32
    modifies mmap
    ensures r.Done? <==> FitsAt(func, funcStart, bufEnd)
    ensures r.Done? ==> r.value.0 == FuncEnd(func, funcStart) <= bufEnd
    ensures r.Done? ==> mmap[..] == Placed(old(mmap[..]), func, funcStart)
    ensures r.Done? ==> r.value.1 == Registered(registry, func, funcStart)
  {
    var funcLen := |func.body|;
    var funcEnd := funcStart + funcLen;
    if funcLen > bufEnd - funcStart {
      return Panic("mid > len");
    }
    CopyInto(mmap, funcStart, func.body);
    match WindowsInfo(func) {
      case Some(info) =>
        var unwindStart := Align4(funcEnd);
        var unwindSize := WinX64.EmitSize(info);
        var padding := unwindStart - funcEnd;
        if padding + unwindSize > bufEnd - funcEnd {
          return Panic("mid > len");
        }
        CopyInto(mmap, unwindStart, WinX64.Emit(info));
        funcEnd := unwindStart + unwindSize;
      case None =>
    }
    return Done((funcEnd, Registered(registry, func, funcStart)));
  }

  /** Every relocation of an arena, paired with the address of the function
   *  it belongs to (the arena's base plus the function's start). */
  function Located(base: nat, relocs: CodeMemoryRelocations): seq<(nat, Relocation)>
    decreases |relocs|
  {
    if relocs == [] then [] else LocatedAt(base + relocs[0].0, relocs[0].1) + Located(base, relocs[1..])
  }

  /** One function's relocations, each paired with the function's address. */
  function LocatedAt(addr: nat, here: seq<Relocation>): (r: seq<(nat, Relocation)>)
    decreases |here|
  {
    if here == [] then [] else [(addr, here[0])] + LocatedAt(addr, here[1..])
  }

  lemma {:induction false} LocatedAtIndex(addr: nat, here: seq<Relocation>)
    ensures |LocatedAt(addr, here)| == |here|
    ensures forall i :: 0 <= i < |here| ==> LocatedAt(addr, here)[i] == (addr, here[i])
    decreases |here|
  {
    if here != [] {
      LocatedAtIndex(addr, here[1..]);
      forall i | 0 < i < |here|
        ensures LocatedAt(addr, here)[i] == (addr, here[i])
      {
        assert LocatedAt(addr, here)[i] == LocatedAt(addr, here[1..])[i - 1];
      }
    }
  }

  lemma {:induction false} LocatedAppend(base: nat, a: CodeMemoryRelocations, b: CodeMemoryRelocations)
    ensures Located(base, a + b) == Located(base, a) + Located(base, b)
    decreases |a|
  {
    if a != [] {
      assert (a + b)[1..] == a[1..] + b;
      LocatedAppend(base, a[1..], b);
    } else {
      assert a + b == b;
    }
  }

  /** The located relocations of a list of arenas, in order. */
  function RelocationsOf(es: seq<CodeMemoryEntry>): seq<(nat, Relocation)>
    decreases |es|
  {
    if es == [] then [] else Located(es[0].base, es[0].relocs) + RelocationsOf(es[1..])
  }

  lemma {:induction false} RelocationsOfAppend(a: seq<CodeMemoryEntry>, b: seq<CodeMemoryEntry>)
    ensures RelocationsOf(a + b) == RelocationsOf(a) + RelocationsOf(b)
    decreases |a|
  {
    if a != [] {
      assert (a + b)[1..] == a[1..] + b;
      RelocationsOfAppend(a[1..], b);
    } else {
      assert a + b == b;
    }
  }

  lemma RelocationsOfSingle(e: CodeMemoryEntry)
    ensures RelocationsOf([e]) == Located(e.base, e.relocs)
  {
    assert [e][1..] == [];
  }

  /** Every arena whose relocations have all been dropped has none left. */
  lemma {:induction false} RelocationsOfCleared(es: seq<CodeMemoryEntry>)
    requires forall k :: 0 <= k < |es| ==> es[k].relocs == []
    ensures RelocationsOf(es) == []
    decreases |es|
  {
    if es != [] {
      RelocationsOfCleared(es[1..]);
    }
  }

  /** The relocations still pending in a code memory, located at their
   *  functions' addresses: those of the unpublished retired arenas, then
   *  those of the current one. */
  function PendingRelocations(entries: seq<CodeMemoryEntry>, published: nat, current: Option<CodeMemoryEntry>): seq<(nat, Relocation)>
    requires published <= |entries|
  {
    RelocationsOf(entries[published..]) + (if current.Some? then Located(current.value.base, current.value.relocs) else [])
  }

  /** Recording more relocations with the current arena appends them,
   *  located, to the pending ones. */
  lemma PendingRelocationsGrow(entries: seq<CodeMemoryEntry>, published: nat, e: CodeMemoryEntry, extra: CodeMemoryRelocations)
    requires published <= |entries|
    ensures PendingRelocations(entries, published, Some(e.(relocs := e.relocs + extra)))
         == PendingRelocations(entries, published, Some(e)) + Located(e.base, extra)
  {
    LocatedAppend(e.base, e.relocs, extra);
  }

  // ---- a whole compilation, laid out back to back ----

  /** Bytes reserved for a compilation: the sum of its functions' sizes. */
  function TotalAllocationSize(funcs: seq<CompiledFunction>): nat
    decreases |funcs|
  {
    if funcs == [] then 0 else FunctionAllocationSize(funcs[0]) + TotalAllocationSize(funcs[1..])
  }

  /** Where functions land when copied back to back from arena offset
   *  `start` into a buffer ending at `bufEnd`, or the panic of the first
   *  one that does not fit. */
  function Layout(funcs: seq<CompiledFunction>, start: nat, bufEnd: nat): (r: Exec<seq<nat>>)
    ensures r.Done? ==> |r.value| == |funcs|
    decreases |funcs|
  {
    if funcs == [] then Done([])
    else if !FitsAt(funcs[0], start, bufEnd) then Panic("mid > len")
    else
      match Layout(funcs[1..], FuncEnd(funcs[0], start), bufEnd)
      case Panic(m) => Panic(m)
      case Done(rest) => Done([start] + rest)
  }

  /** A successful layout puts the first function at `start`, each next one
   *  where the previous one ends, and every one inside the buffer. */
  lemma {:induction false} LayoutFacts(funcs: seq<CompiledFunction>, start: nat, bufEnd: nat)
    requires Layout(funcs, start, bufEnd).Done?
    ensures var starts := Layout(funcs, start, bufEnd).value;
      && (funcs != [] ==> starts[0] == start)
      && (forall k :: 0 <= k < |funcs| ==> FitsAt(funcs[k], starts[k], bufEnd) && start <= starts[k] && FuncEnd(funcs[k], starts[k]) <= bufEnd)
      && (forall k :: 0 <= k < |funcs| - 1 ==> starts[k + 1] == FuncEnd(funcs[k], starts[k]))
    decreases |funcs|
  {
    if funcs != [] {
      var next := FuncEnd(funcs[0], start);
      LayoutFacts(funcs[1..], next, bufEnd);
      var rest := Layout(funcs[1..], next, bufEnd).value;
      var starts := Layout(funcs, start, bufEnd).value;
      assert starts == [start] + rest;
      forall k | 1 <= k < |funcs|
        ensures FitsAt(funcs[k], starts[k], bufEnd) && start <= starts[k] && FuncEnd(funcs[k], starts[k]) <= bufEnd
      {
        assert funcs[k] == funcs[1..][k - 1] && starts[k] == rest[k - 1];
      }
      forall k | 0 <= k < |funcs| - 1
        ensures starts[k + 1] == FuncEnd(funcs[k], starts[k])
      {
        if k > 0 {
          assert funcs[k] == funcs[1..][k - 1] && starts[k] == rest[k - 1] && starts[k + 1] == rest[k];
        }
      }
    }
  }

  function Prepend(starts: seq<nat>, r: Exec<seq<nat>>): Exec<seq<nat>>
  {
    match r
    case Done(rest) => Done(starts + rest)
    case Panic(m) => Panic(m)
  }

  lemma PrependNothing(r: Exec<seq<nat>>)
    ensures Prepend([], r) == r
  {
    if r.Done? {
      assert [] + r.value == r.value;
    }
  }

  lemma LayoutStep(funcs: seq<CompiledFunction>, k: nat, start: nat, bufEnd: nat, starts: seq<nat>)
    requires k < |funcs| && FitsAt(funcs[k], start, bufEnd)
    ensures Prepend(starts, Layout(funcs[k..], start, bufEnd))
         == Prepend(starts + [start], Layout(funcs[k + 1..], FuncEnd(funcs[k], start), bufEnd))
  {
    assert funcs[k..][0] == funcs[k] && funcs[k..][1..] == funcs[k + 1..];
    match Layout(funcs[k + 1..], FuncEnd(funcs[k], start), bufEnd) {
      case Panic(_) =>
      case Done(rest) =>
        assert starts + ([start] + rest) == (starts + [start]) + rest;
    }
  }

  lemma LayoutStops(funcs: seq<CompiledFunction>, k: nat, start: nat, bufEnd: nat, starts: seq<nat>)
    requires k < |funcs| && !FitsAt(funcs[k], start, bufEnd)
    ensures Prepend(starts, Layout(funcs[k..], start, bufEnd)).Panic?
  {
    assert funcs[k..][0] == funcs[k];
  }

  /** The arena's bytes after copying functions back to back from offset
   *  `start` into a buffer ending at `bufEnd`, stopping at the first one
   *  that does not fit. */
  function PlaceFrom(mem: seq<U8>, funcs: seq<CompiledFunction>, start: nat, bufEnd: nat): (r: seq<U8>)
    requires bufEnd <= |mem|
    ensures |r| == |mem|
    decreases |funcs|
  {
    if funcs == [] || !FitsAt(funcs[0], start, bufEnd) then mem
    else PlaceFrom(Placed(mem, funcs[0], start), funcs[1..], FuncEnd(funcs[0], start), bufEnd)
  }

  /** The registry after copying the same functions: each one with unwind
   *  information is registered at its start. */
  function RegisterFrom(reg: UnwindRegistry, funcs: seq<CompiledFunction>, start: nat, bufEnd: nat): (r: UnwindRegistry)
    decreases |funcs|
  {
    if funcs == [] || !FitsAt(funcs[0], start, bufEnd) then reg
    else RegisterFrom(Registered(reg, funcs[0], start), funcs[1..], FuncEnd(funcs[0], start), bufEnd)
  }

  /** The arena's relocations after copying the same functions: each one's
   *  relocations are recorded under its start. */
  function RecordFrom(relocs: CodeMemoryRelocations, funcs: seq<CompiledFunction>, relocations: seq<seq<Relocation>>, start: nat, bufEnd: nat)
    : (r: CodeMemoryRelocations)
    requires |funcs| == |relocations|
    decreases |funcs|
  {
    if funcs == [] || !FitsAt(funcs[0], start, bufEnd) then relocs
    else RecordFrom(relocs + [(start, relocations[0])], funcs[1..], relocations[1..], FuncEnd(funcs[0], start), bufEnd)
  }

  /** One step of the copy loop, for all three. */
  lemma CopyStep(mem: seq<U8>, reg: UnwindRegistry, relocs: CodeMemoryRelocations, funcs: seq<CompiledFunction>,
                 relocations: seq<seq<Relocation>>, k: nat, start: nat, bufEnd: nat)
    requires k < |funcs| == |relocations| && bufEnd <= |mem| && FitsAt(funcs[k], start, bufEnd)
    ensures FuncEnd(funcs[k], start) <= bufEnd
    ensures PlaceFrom(mem, funcs[k..], start, bufEnd) == PlaceFrom(Placed(mem, funcs[k], start), funcs[k + 1..], FuncEnd(funcs[k], start), bufEnd)
    ensures RegisterFrom(reg, funcs[k..], start, bufEnd) == RegisterFrom(Registered(reg, funcs[k], start), funcs[k + 1..], FuncEnd(funcs[k], start), bufEnd)
    ensures RecordFrom(relocs, funcs[k..], relocations[k..], start, bufEnd)
         == RecordFrom(relocs + [(start, relocations[k])], funcs[k + 1..], relocations[k + 1..], FuncEnd(funcs[k], start), bufEnd)
  {
    assert funcs[k..][0] == funcs[k] && funcs[k..][1..] == funcs[k + 1..];
    assert relocations[k..][0] == relocations[k] && relocations[k..][1..] == relocations[k + 1..];
  }

  /** Each function's relocations under its start. */
  function RelocsAt(starts: seq<nat>, relocations: seq<seq<Relocation>>): (r: CodeMemoryRelocations)
    requires |starts| == |relocations|
    ensures |r| == |starts|
    decreases |starts|
  {
    if starts == [] then [] else [(starts[0], relocations[0])] + RelocsAt(starts[1..], relocations[1..])
  }

  lemma {:induction false} RelocsAtIndex(starts: seq<nat>, relocations: seq<seq<Relocation>>)
    requires |starts| == |relocations|
    ensures forall k :: 0 <= k < |starts| ==> RelocsAt(starts, relocations)[k] == (starts[k], relocations[k])
    decreases |starts|
  {
    if starts != [] {
      RelocsAtIndex(starts[1..], relocations[1..]);
      forall k | 0 < k < |starts|
        ensures RelocsAt(starts, relocations)[k] == (starts[k], relocations[k])
      {
        assert RelocsAt(starts, relocations)[k] == RelocsAt(starts[1..], relocations[1..])[k - 1];
      }
    }
  }

  /** The registrations of the functions that carry unwind information, at
   *  their starts, in order. */
  function RegistrationsAt(funcs: seq<CompiledFunction>, starts: seq<nat>): (r: seq<Registration>)
    requires |starts| == |funcs|
    ensures |r| <= |funcs|
    decreases |funcs|
  {
    if funcs == [] then []
    else
      (if funcs[0].unwindInfo.Some? then [Registration(starts[0], |funcs[0].body|, funcs[0].unwindInfo.value)] else [])
      + RegistrationsAt(funcs[1..], starts[1..])
  }

  /** When a compilation's layout succeeds, the relocations recorded are
   *  each function's, under its start in the layout, in order. */
  lemma {:induction false} RecordFromLayout(relocs: CodeMemoryRelocations, funcs: seq<CompiledFunction>, relocations: seq<seq<Relocation>>, start: nat, bufEnd: nat)
    requires |funcs| == |relocations| && Layout(funcs, start, bufEnd).Done?
    ensures RecordFrom(relocs, funcs, relocations, start, bufEnd) == relocs + RelocsAt(Layout(funcs, start, bufEnd).value, relocations)
    decreases |funcs|
  {
    if funcs == [] {
      assert relocs + [] == relocs;
    } else {
      var end := FuncEnd(funcs[0], start);
      var starts := Layout(funcs, start, bufEnd).value;
      var rest := Layout(funcs[1..], end, bufEnd).value;
      assert starts == [start] + rest && starts[1..] == rest;
      RecordFromLayout(relocs + [(start, relocations[0])], funcs[1..], relocations[1..], end, bufEnd);
      assert RelocsAt(starts, relocations) == [(start, relocations[0])] + RelocsAt(rest, relocations[1..]);
      assert (relocs + [(start, relocations[0])]) + RelocsAt(rest, relocations[1..]) == relocs + RelocsAt(starts, relocations);
    }
  }

  /** When a compilation's layout succeeds, the registry keeps its address
   *  and state and gains, at their starts in the layout, exactly the
   *  functions that carry unwind information. */
  lemma {:induction false} RegisterFromLayout(reg: UnwindRegistry, funcs: seq<CompiledFunction>, start: nat, bufEnd: nat)
    requires Layout(funcs, start, bufEnd).Done?
    ensures var g := RegisterFrom(reg, funcs, start, bufEnd);
      && g.base == reg.base && g.published == reg.published
      && g.registrations == reg.registrations + RegistrationsAt(funcs, Layout(funcs, start, bufEnd).value)
    decreases |funcs|
  {
    if funcs == [] {
      assert reg.registrations + [] == reg.registrations;
    } else {
      var end := FuncEnd(funcs[0], start);
      var starts := Layout(funcs, start, bufEnd).value;
      var rest := Layout(funcs[1..], end, bufEnd).value;
      assert starts == [start] + rest && starts[1..] == rest;
      var next := Registered(reg, funcs[0], start);
      RegisterFromLayout(next, funcs[1..], end, bufEnd);
      var mine := if funcs[0].unwindInfo.Some? then [Registration(start, |funcs[0].body|, funcs[0].unwindInfo.value)] else [];
      assert RegistrationsAt(funcs, starts) == mine + RegistrationsAt(funcs[1..], rest);
      assert next.registrations + RegistrationsAt(funcs[1..], rest) == reg.registrations + RegistrationsAt(funcs, starts);
    }
  }

  /** `body` sits at offset `s` of `mem`. */
  predicate BodyAt(mem: seq<U8>, s: nat, body: seq<U8>)
  {
    s + |body| <= |mem| && mem[s..s + |body|] == body
  }

  /** `a` and `b` agree everywhere outside `[lo, hi)`. */
  predicate SameOutside(a: seq<U8>, b: seq<U8>, lo: nat, hi: nat)
  {
    |a| == |b| && forall i :: 0 <= i < |a| && !(lo <= i < hi) ==> a[i] == b[i]
  }

  lemma SameOutsideTrans(a: seq<U8>, b: seq<U8>, c: seq<U8>, lo: nat, mid: nat, hi: nat)
    requires lo <= mid <= hi && SameOutside(a, b, mid, hi) && SameOutside(b, c, lo, mid)
    ensures SameOutside(a, c, lo, hi)
  {
  }

  lemma BodyKept(a: seq<U8>, b: seq<U8>, lo: nat, hi: nat, s: nat, body: seq<U8>)
    requires SameOutside(a, b, lo, hi) && BodyAt(b, s, body) && s + |body| <= lo
    ensures BodyAt(a, s, body)
  {
    assert a[s..s + |body|] == b[s..s + |body|];
  }

  /** The bytes a function occupies once placed: its body at `start`, and
   *  nothing outside `[start, FuncEnd)` changes. */
  lemma PlacedFrame(mem: seq<U8>, func: CompiledFunction, start: nat)
    requires FuncEnd(func, start) <= |mem|
    ensures BodyAt(Placed(mem, func, start), start, func.body)
    ensures SameOutside(Placed(mem, func, start), mem, start, FuncEnd(func, start))
  {
    match WindowsInfo(func) {
      case Some(info) =>
        SpliceTwice(mem, start, func.body, Align4(start + |func.body|), WinX64.Emit(info));
      case None =>
        SpliceFacts(mem, start, func.body);
    }
  }

  /** Copying a compilation whose layout succeeds leaves the bytes outside
   *  `[start, bufEnd)` alone and every function's body intact at its
   *  start in the layout: later functions never overwrite earlier ones. */
  lemma {:induction false} PlaceFromKeepsBodies(mem: seq<U8>, funcs: seq<CompiledFunction>, start: nat, bufEnd: nat)
    requires start <= bufEnd <= |mem| && Layout(funcs, start, bufEnd).Done?
    ensures SameOutside(PlaceFrom(mem, funcs, start, bufEnd), mem, start, bufEnd)
    ensures forall k :: 0 <= k < |funcs| ==>
      BodyAt(PlaceFrom(mem, funcs, start, bufEnd), Layout(funcs, start, bufEnd).value[k], funcs[k].body)
    decreases |funcs|
  {
    if funcs != [] {
      var placed := Placed(mem, funcs[0], start);
      var end := FuncEnd(funcs[0], start);
      var g := PlaceFrom(mem, funcs, start, bufEnd);
      assert g == PlaceFrom(placed, funcs[1..], end, bufEnd);
      PlacedFrame(mem, funcs[0], start);
      PlaceFromKeepsBodies(placed, funcs[1..], end, bufEnd);
      SameOutsideTrans(g, placed, mem, start, end, bufEnd);
      BodyKept(g, placed, end, bufEnd, start, funcs[0].body);
      var starts := Layout(funcs, start, bufEnd).value;
      var rest := Layout(funcs[1..], end, bufEnd).value;
      assert starts == [start] + rest;
      forall k | 0 < k < |funcs|
        ensures BodyAt(g, starts[k], funcs[k].body)
      {
        assert funcs[k] == funcs[1..][k - 1] && starts[k] == rest[k - 1];
      }
    }
  }

  /** A published arena: its registry handed to the runtime, its pages
   *  read-execute unless it is empty, its relocations dropped. */
  predicate PublishedEntry(e: CodeMemoryEntry)
  {
    e.registry.published && e.relocs == [] && (e.mmap.Length > 0 ==> e.protection == ReadExecute)
  }

  /** An arena still being filled or waiting to be published. */
  predicate UnpublishedEntry(e: CodeMemoryEntry)
  {
    !e.registry.published && e.protection == ReadWrite
  }

  /** Publishing one arena: everything else about it stays. */
  function PublishEntry(e: CodeMemoryEntry): (r: CodeMemoryEntry)
    ensures PublishedEntry(r)
    ensures r.mmap == e.mmap && r.base == e.base && r.len == e.len
    ensures r.registry.base == e.registry.base && r.registry.registrations == e.registry.registrations
    ensures e.Valid() ==> r.Valid()
  {
    e.(registry := e.registry.(published := true),
       protection := if e.mmap.Length > 0 then ReadExecute else e.protection,
       relocs := [])
  }

  /** What copying a whole compilation from `start`, inside a `size`-byte
   *  reservation, does to an arena: every function laid out, the arena
   *  bytes as `PlaceFrom` gives them, the unwind registrations and the
   *  relocations recorded, and one span per function. */
  ghost predicate Copied(e0: CodeMemoryEntry, mem0: seq<U8>, e1: CodeMemoryEntry, mem1: seq<U8>, funcs: seq<CompiledFunction>,
                         relocations: seq<seq<Relocation>>, start: nat, size: nat, spans: seq<Span>)
  {
    && |funcs| == |relocations| && start + size <= |mem0|
    && Layout(funcs, start, start + size).Done?
    && var starts := Layout(funcs, start, start + size).value;
    && e1 == e0.(registry := RegisterFrom(e0.registry, funcs, start, start + size), relocs := e0.relocs + RelocsAt(starts, relocations))
    && mem1 == PlaceFrom(mem0, funcs, start, start + size)
    && |spans| == |funcs|
    && forall k :: 0 <= k < |funcs| ==> spans[k] == Span(e0.base, starts[k], |funcs[k].body|)
  }

  /** The loop of `publish`: every arena from `from` on published, in
   *  place; the ones before it left alone. */
  method PublishEach(entries: seq<CodeMemoryEntry>, from: nat) returns (r: seq<CodeMemoryEntry>)
    requires from <= |entries|
    ensures |r| == |entries|
    ensures forall k :: 0 <= k < from ==> r[k] == entries[k]
    ensures forall k :: from <= k < |r| ==> r[k] == PublishEntry(entries[k])
  {
    r := entries;
    var k := from;
    while k < |r|
      invariant from <= k <= |r| == |entries|
      invariant forall j :: 0 <= j < from ==> r[j] == entries[j]
      invariant forall j :: from <= j < k ==> r[j] == PublishEntry(entries[j])
      invariant forall j :: k <= j < |r| ==> r[j] == entries[j]
      decreases |r| - k
    {
      r := r[k := PublishEntry(r[k])];
      k := k + 1;
    }
  }

  /** The copy loop of `allocate_for_compilation` on one arena's bytes:
   *  each function is copied and registered, and its relocations recorded
   *  under its start; returns the new registry and relocations and where
   *  each function landed. */
  method CopyFunctions(e: CodeMemoryEntry, funcs: seq<CompiledFunction>, relocations: seq<seq<Relocation>>, s0: nat, bufEnd: nat)
    returns (r: Exec<(UnwindRegistry, CodeMemoryRelocations, seq<Span>)>)
    requires |funcs| == |relocations| && s0 <= bufEnd <= e.mmap.Length < TWO_32
    modifies e.mmap
    ensures r.Done? <==> Layout(funcs, s0, bufEnd).Done?
    ensures r.Done? ==>
      && e.mmap[..] == PlaceFrom(old(e.mmap[..]), funcs, s0, bufEnd)
      && r.value.0 == RegisterFrom(e.registry, funcs, s0, bufEnd)
      && r.value.1 == RecordFrom(e.relocs, funcs, relocations, s0, bufEnd)
      && |r.value.2| == |funcs|
    ensures r.Done? && Layout(funcs, s0, bufEnd).Done? ==>
      forall k :: 0 <= k < |funcs| ==> r.value.2[k] == Span(e.base, Layout(funcs, s0, bufEnd).value[k], |funcs[k].body|)
  {
    ghost var mem0 := e.mmap[..];
    var registry := e.registry;
    var relocs := e.relocs;
    var spans: seq<Span> := [];
    ghost var starts: seq<nat> := [];
    var start := s0;
    var k := 0;
    assert funcs[0..] == funcs && relocations[0..] == relocations;
    PrependNothing(Layout(funcs, s0, bufEnd));
    while k < |funcs|
      invariant 0 <= k <= |funcs| && |starts| == k && |spans| == k && s0 <= start <= bufEnd
      invariant Layout(funcs, s0, bufEnd) == Prepend(starts, Layout(funcs[k..], start, bufEnd))
      invariant PlaceFrom(mem0, funcs, s0, bufEnd) == PlaceFrom(e.mmap[..], funcs[k..], start, bufEnd)
      invariant RegisterFrom(e.registry, funcs, s0, bufEnd) == RegisterFrom(registry, funcs[k..], start, bufEnd)
      invariant RecordFrom(e.relocs, funcs, relocations, s0, bufEnd) == RecordFrom(relocs, funcs[k..], relocations[k..], start, bufEnd)
      invariant forall j :: 0 <= j < k ==> spans[j] == Span(e.base, starts[j], |funcs[j].body|)
      decreases |funcs| - k
    {
      ghost var mem := e.mmap[..];
      var copied := CopyFunction(funcs[k], start, e.mmap, registry, bufEnd);
      if copied.Panic? {
        LayoutStops(funcs, k, start, bufEnd, starts);
        return Panic(copied.msg);
      }
      LayoutStep(funcs, k, start, bufEnd, starts);
      CopyStep(mem, registry, relocs, funcs, relocations, k, start, bufEnd);
      registry := copied.value.1;
      relocs := relocs + [(start, relocations[k])];
      spans := spans + [Span(e.base, start, |funcs[k].body|)];
      starts := starts + [start];
      start := copied.value.0;
      k := k + 1;
    }
    assert funcs[k..] == [] && relocations[k..] == [];
    assert Layout(funcs, s0, bufEnd) == Done(starts) by {
      assert starts + [] == starts;
    }
    return Done((registry, relocs, spans));
  }

  class CodeMemory {
    /** The arena being filled, if any. */
    var current: Option<CodeMemoryEntry>
    /** Retired arenas, oldest first. */
    var entries: seq<CodeMemoryEntry>
    /** How many of `entries` are published. */
    var published: nat

    /** The published arenas form a prefix of `entries`; the current arena
     *  is unpublished and its bytes are shared with no retired arena. */
    ghost predicate Valid()
      reads this
    {
      && published <= |entries|
      && (forall k :: 0 <= k < |entries| ==> entries[k].Valid())
      && (forall k :: 0 <= k < published ==> PublishedEntry(entries[k]))
      && (forall k :: published <= k < |entries| ==> UnpublishedEntry(entries[k]))
      && (current.Some? ==>
            && current.value.Valid() && UnpublishedEntry(current.value)
            && forall k :: 0 <= k < |entries| ==> entries[k].mmap != current.value.mmap)
    }

    constructor ()
      ensures Valid()
      ensures current.None? && entries == [] && published == 0
    {
      current := None;
      entries := [];
      published := 0;
    }

    /** Pending relocations, located at their functions' addresses: those
     *  of the unpublished retired arenas, then those of the current one. */
    function UnpublishedRelocations(): seq<(nat, Relocation)>
      reads this
      requires published <= |entries|
    {
      PendingRelocations(entries, published, current)
    }

    /** The address ranges of the published arenas. */
    function PublishedRanges(): (r: seq<(nat, nat)>)
      reads this
      requires published <= |entries|
      ensures |r| == published
      ensures forall k :: 0 <= k < published ==> r[k] == entries[k].Range()
    {
      seq(published, k reads this requires 0 <= k < published && published <= |entries| => entries[k].Range())
    }

    /** Retires the current arena, if any, to the end of `entries`
     *  (`push_current(0)`). */
    method Retire()
      requires Valid()
      modifies this
      ensures Valid() && current.None? && published == old(published)
      ensures entries == old(entries) + (if old(current).Some? then [old(current).value] else [])
      ensures UnpublishedRelocations() == old(UnpublishedRelocations())
    {
      if current.Some? {
        assert (entries + [current.value])[published..] == entries[published..] + [current.value];
        RelocationsOfAppend(entries[published..], [current.value]);
        RelocationsOfSingle(current.value);
        entries := entries + [current.value];
      }
      current := None;
    }

    /** Retires the current arena and, for a non-zero size, maps a new one
     *  of at least `max(0x10000, newSize)` bytes. A mapping failure leaves
     *  everything as it was. */
    method PushCurrent(newSize: nat, os: MapResult) returns (r: Result<(), string>)
      requires Valid()
      requires newSize > 0 ==> MapsAtLeast(os, Max(MIN_ARENA_SIZE, newSize))
      modifies this
      ensures Valid() && published == old(published)
      ensures r.Err? <==> newSize > 0 && os.MapFailed?
      ensures r.Err? ==> current == old(current) && entries == old(entries)
      ensures r.Ok? ==> entries == old(entries) + (if old(current).Some? then [old(current).value] else [])
      ensures r.Ok? && newSize == 0 ==> current.None?
      ensures r.Ok? && newSize > 0 ==>
        && current.Some? && fresh(current.value.mmap)
        && current.value == CodeMemoryEntry(current.value.mmap, os.base, UnwindRegistry(os.base, [], false), [], 0, ReadWrite)
        && current.value.mmap.Length == os.capacity && current.value.mmap[..] == Zeros(os.capacity)
      ensures UnpublishedRelocations() == old(UnpublishedRelocations())
    {
      if newSize == 0 {
        Retire();
        return Ok(());
      }
      var mapped := NewEntry(Max(MIN_ARENA_SIZE, newSize), os);
      match mapped {
        case Err(msg) =>
          return Err(msg);
        case Ok(e) =>
          Retire();
          current := Some(e);
          return Ok(());
      }
    }

    /** Reserves `size` bytes at the end of the current arena, first opening
     *  a new arena exactly when there is none or the free space is too small.
     *  Returns the reservation's offset within the arena. */
    method Allocate(size: nat, os: MapResult) returns (r: Result<nat, string>)
      requires Valid() && size > 0
      requires MapsAtLeast(os, Max(MIN_ARENA_SIZE, size))
      modifies this
      ensures Valid() && published == old(published)
      ensures UnpublishedRelocations() == old(UnpublishedRelocations())
      ensures var opens := Opens(old(current), size);
        && (r.Err? <==> opens && os.MapFailed?)
        && (r.Err? ==> current == old(current) && entries == old(entries))
        && (r.Ok? ==> current.Some? && Reserved(old(current), size, os, r.value, current.value))
        && (r.Ok? && opens ==>
              && fresh(current.value.mmap) && current.value.mmap[..] == Zeros(os.capacity)
              && entries == old(entries) + (if old(current).Some? then [old(current).value] else []))
        && (r.Ok? && !opens ==> entries == old(entries))
    {
      var opens := current.None? || current.value.mmap.Length - current.value.len < size;
      if opens {
        var pushed := PushCurrent(Max(MIN_ARENA_SIZE, size), os);
        if pushed.Err? {
          return Err(pushed.error);
        }
      }
      var e := current.value;
      current := Some(e.(len := e.len + size));
      return Ok(e.len);
    }

    /** Copies a function into the current arena at `start`, inside a
     *  buffer that ends at `bufEnd` (`copy_function` on the reservation). */
    method CopyIntoCurrent(func: CompiledFunction, start: nat, bufEnd: nat) returns (r: Exec<nat>)
      requires Valid() && current.Some? && start <= bufEnd <= current.value.mmap.Length
      modifies this, current.value.mmap
      ensures r.Done? <==> FitsAt(func, start, bufEnd)
      ensures r.Done? ==>
        && Valid() && r.value == FuncEnd(func, start) <= bufEnd
        && entries == old(entries) && published == old(published)
        && current == Some(old(current.value).(registry := Registered(old(current.value.registry), func, start)))
        && current.value.mmap[..] == Placed(old(current.value.mmap[..]), func, start)
        && UnpublishedRelocations() == old(UnpublishedRelocations())
    {
      var e := current.value;
      var copied := CopyFunction(func, start, e.mmap, e.registry, bufEnd);
      if copied.Panic? {
        return Panic(copied.msg);
      }
      current := Some(e.(registry := copied.value.1));
      return Done(copied.value.0);
    }

    /** Records a function's relocations with the current arena
     *  (`copy_relocs`); they join the end of the pending relocations,
     *  located at the function. */
    method RecordRelocs(start: nat, relocs: seq<Relocation>)
      requires Valid() && current.Some?
      modifies this
      ensures Valid() && entries == old(entries) && published == old(published)
      ensures current == Some(old(current.value).(relocs := old(current.value.relocs) + [(start, relocs)]))
      ensures UnpublishedRelocations() == old(UnpublishedRelocations()) + Located(current.value.base, [(start, relocs)])
    {
      var e := current.value;
      current := Some(e.(relocs := e.relocs + [(start, relocs)]));
      LocatedAppend(e.base, e.relocs, [(start, relocs)]);
    }

    /** Reserves room for one function, copies it in, registers its unwind
     *  information and records its relocations. An empty reservation fails
     *  the allocator's `size > 0` assertion; a Windows block that overruns
     *  the reservation panics. */
    method AllocateForFunction(func: CompiledFunction, relocs: seq<Relocation>, os: MapResult)
      returns (r: Exec<Result<Span, string>>)
      requires Valid()
      requires MapsAtLeast(os, Max(MIN_ARENA_SIZE, FunctionAllocationSize(func)))
      modifies this, if current.Some? then {current.value.mmap} else {}
      ensures r.Done? ==> Valid() && published == old(published)
      ensures var size := FunctionAllocationSize(func);
        var opens := old(current.None? || current.value.mmap.Length - current.value.len < size);
        var start := if opens then 0 else old(current.value.len);
        && (r.Panic? <==> size == 0 || (!(opens && os.MapFailed?) && !FitsAt(func, start, start + size)))
        && (r.Done? && r.value.Err? ==> opens && os.MapFailed? && current == old(current) && entries == old(entries))
        && (r.Done? && r.value.Ok? ==>
              && current.Some? && r.value.value == Span(current.value.base, start, |func.body|)
              && current.value.len == start + size
              && current.value.mmap[..] == Placed(if opens then Zeros(current.value.mmap.Length) else old(current.value.mmap[..]), func, start)
              && current.value.relocs == (if opens then [] else old(current.value.relocs)) + [(start, relocs)]
              && current.value.registry == Registered(if opens then UnwindRegistry(current.value.base, [], false) else old(current.value.registry), func, start)
              && (opens ==> fresh(current.value.mmap) && entries == old(entries) + (if old(current).Some? then [old(current).value] else []))
              && (!opens ==> current.value.mmap == old(current.value.mmap) && entries == old(entries)))
      ensures r.Done? && r.value.Ok? ==>
        UnpublishedRelocations() == old(UnpublishedRelocations()) + Located(r.value.value.arenaBase, [(r.value.value.start, relocs)])
    {
      var size := FunctionAllocationSize(func);
      if size == 0 {
        return Panic("assertion failed: size > 0");
      }
      var reserved := Allocate(size, os);
      if reserved.Err? {
        return Done(Err(reserved.error));
      }
      var start := reserved.value;
      var copied := CopyIntoCurrent(func, start, start + size);
      if copied.Panic? {
        return Panic(copied.msg);
      }
      RecordRelocs(start, relocs);
      return Done(Ok(Span(current.value.base, start, |func.body|)));
    }

    /** Reserves room for a whole compilation at once, then copies its
     *  functions back to back, registering their unwind information and
     *  recording each one's relocations; functions and relocation lists are
     *  paired up to the shorter of the two. An empty reservation fails the
     *  allocator's assertion, and a function that overruns the reservation
     *  panics. */
    method AllocateForCompilation(compilation: seq<CompiledFunction>, relocations: seq<seq<Relocation>>, os: MapResult)
      returns (r: Exec<Result<seq<Span>, string>>, start: nat, ghost reserved: Option<CodeMemoryEntry>, ghost mem0: seq<U8>)
      requires Valid()
      requires MapsAtLeast(os, Max(MIN_ARENA_SIZE, TotalAllocationSize(compilation)))
      modifies this, if current.Some? then {current.value.mmap} else {}
      ensures r.Done? ==> Valid() && published == old(published)
      ensures var size := TotalAllocationSize(compilation);
        var opens := Opens(old(current), size);
        && (size == 0 ==> r.Panic?)
        && (reserved.Some? <==> size > 0 && !(opens && os.MapFailed?))
        && (size > 0 && opens && os.MapFailed? ==> r.Done? && r.value.Err? && current == old(current) && entries == old(entries))
        && (reserved.Some? ==>
              && Reserved(old(current), size, os, start, reserved.value)
              && (opens ==>
                    && fresh(reserved.value.mmap) && mem0 == Zeros(os.capacity)
                    && entries == old(entries) + (if old(current).Some? then [old(current).value] else []))
              && (!opens ==> mem0 == old(current.value.mmap[..]) && entries == old(entries)))
      ensures var size := TotalAllocationSize(compilation);
        var n := if |compilation| <= |relocations| then |compilation| else |relocations|;
        reserved.Some? ==>
          && (r.Panic? <==> Layout(compilation[..n], start, start + size).Panic?)
          && (r.Done? ==>
                && r.value.Ok? && current.Some?
                && Copied(reserved.value, mem0, current.value, current.value.mmap[..], compilation[..n], relocations[..n], start, size, r.value.value)
                && UnpublishedRelocations() == old(UnpublishedRelocations())
                     + Located(reserved.value.base, RelocsAt(Layout(compilation[..n], start, start + size).value, relocations[..n])))
    {
      var total := TotalAllocationSize(compilation);
      var n := if |compilation| <= |relocations| then |compilation| else |relocations|;
      if total == 0 {
        return Panic("assertion failed: size > 0"), 0, None, [];
      }
      var reservation := Allocate(total, os);
      if reservation.Err? {
        return Done(Err(reservation.error)), 0, None, [];
      }
      start, reserved, mem0 := reservation.value, Some(current.value), current.value.mmap[..];
      var copied := CopyCompilation(compilation[..n], relocations[..n], start, total);
      if copied.Panic? {
        return Panic(copied.msg), start, reserved, mem0;
      }
      return Done(Ok(copied.value)), start, reserved, mem0;
    }

    /** The copy loop of `allocate_for_compilation` on the current arena,
     *  whose reservation of `size` bytes starts at `start`. */
    method CopyCompilation(funcs: seq<CompiledFunction>, relocations: seq<seq<Relocation>>, start: nat, size: nat)
      returns (r: Exec<seq<Span>>)
      requires Valid() && current.Some? && |funcs| == |relocations| && start + size <= current.value.mmap.Length
      modifies this, current.value.mmap
      ensures entries == old(entries) && published == old(published)
      ensures r.Done? <==> Layout(funcs, start, start + size).Done?
      ensures r.Done? ==>
        && Valid() && current.Some?
        && Copied(old(current.value), old(current.value.mmap[..]), current.value, current.value.mmap[..], funcs, relocations, start, size, r.value)
        && UnpublishedRelocations() == old(UnpublishedRelocations())
             + Located(current.value.base, RelocsAt(Layout(funcs, start, start + size).value, relocations))
    {
      var e := current.value;
      var copied := CopyFunctions(e, funcs, relocations, start, start + size);
      if copied.Panic? {
        return Panic(copied.msg);
      }
      var (registry, recorded, spans) := copied.value;
      RegisterFromLayout(e.registry, funcs, start, start + size);
      RecordFromLayout(e.relocs, funcs, relocations, start, start + size);
      current := Some(e.(registry := registry, relocs := recorded));
      PendingRelocationsGrow(entries, published, e, RelocsAt(Layout(funcs, start, start + size).value, relocations));
      return Done(spans);
    }

    /** Makes all allocated memory executable: retires the current arena,
     *  then publishes every unpublished arena in order. After it nothing is
     *  pending and every arena is published. */
    method Publish()
      requires Valid()
      modifies this
      ensures Valid() && current.None? && published == |entries|
      ensures var pending := old(entries) + (if old(current).Some? then [old(current).value] else []);
        && |entries| == |pending|
        && entries[..old(published)] == old(entries[..published])
        && forall k :: old(published) <= k < |entries| ==> entries[k] == PublishEntry(pending[k])
      ensures UnpublishedRelocations() == []
    {
      Retire();
      entries := PublishEach(entries, published);
      published := |entries|;
      assert entries[published..] == [];
    }
  }

  // ---- relocations read back from an object file ----

  /** The runtime library call a `wasmtime_*` symbol names; any other name
   *  panics. */
  function ToLibCall(name: string): (r: Exec<LibCall>)
    ensures r.Done? ==> r.value != OtherLibCall
    ensures r.Done? ==> StripPrefix(name, "wasmtime_").Some?
  {
    match name
    case "wasmtime_i64_udiv" => Done(UdivI64)
    case "wasmtime_i64_sdiv" => Done(SdivI64)
    case "wasmtime_i64_urem" => Done(UremI64)
    case "wasmtime_i64_srem" => Done(SremI64)
    case "wasmtime_i64_ishl" => Done(IshlI64)
    case "wasmtime_i64_ushr" => Done(UshrI64)
    case "wasmtime_i64_sshr" => Done(SshrI64)
    case "wasmtime_f32_ceil" => Done(CeilF32)
    case "wasmtime_f32_floor" => Done(FloorF32)
    case "wasmtime_f32_trunc" => Done(TruncF32)
    case "wasmtime_f32_nearest" => Done(NearestF32)
    case "wasmtime_f64_ceil" => Done(CeilF64)
    case "wasmtime_f64_floor" => Done(FloorF64)
    case "wasmtime_f64_trunc" => Done(TruncF64)
    case "wasmtime_f64_nearest" => Done(NearestF64)
    case _ => Panic("explicit panic")
  }

  /** The relocation kind an object-file relocation's (kind, encoding, bit
   *  size) triple stands for; any other triple panics. */
  function RelocFromObject(kind: ObjectFormat.RelocationKind, encoding: ObjectFormat.RelocationEncoding, size: U8): (r: Exec<Reloc>)
    ensures r.Done? ==> r.value !in {X86PCRelRodata4, OtherReloc}
    ensures r.Done? ==> size in {32, 64} && (size == 64 <==> r.value == Abs8)
  {
    match (kind, encoding, size)
    case (Absolute, Generic, 32) => Done(Abs4)
    case (Absolute, Generic, 64) => Done(Abs8)
    case (Relative, Generic, 32) => Done(X86PCRel4)
    case (Relative, X86Branch, 32) => Done(X86CallPCRel4)
    case (PltRelative, X86Branch, 32) => Done(X86CallPLTRel4)
    case (GotRelative, Generic, 32) => Done(X86GOTPCRel4)
    case (Elf(code), Generic, 32) =>
      if code == ObjectFormat.R_X86_64_TLSGD then Done(ElfX86_64TlsGd) else Panic("explicit panic")
    case _ => Panic("explicit panic")
  }

  const FUNCTION_SYMBOL_PREFIX: string := "_wasm_function_"
  const LIBCALL_SYMBOL_PREFIX: string := "wasmtime_"

  /** What a symbol's name says a relocation targets: a function by its
   *  decimal index (an index that does not parse panics, and so does one
   *  from `u32::MAX` on, which `FuncIndex::new` asserts against), or a
   *  library call; a nameless symbol or any other name panics. */
  /** The start of the message of `FuncIndex::new`'s debug assertion. */
  const FUNC_INDEX_PANIC: string := "assertion failed: index < "

  function TargetFromSymbol(sym: ObjectFormat.ReadSymbol): (r: Exec<RelocationTarget>)
    ensures r.Done? ==> sym.name.Some?
    ensures r.Done? && r.value.UserFunc? ==>
      && StripPrefix(sym.name.value, FUNCTION_SYMBOL_PREFIX).Some?
      && ParseUsize(StripPrefix(sym.name.value, FUNCTION_SYMBOL_PREFIX).value).Some?
      && r.value.funcIndex == ParseUsize(StripPrefix(sym.name.value, FUNCTION_SYMBOL_PREFIX).value).value
      && r.value.funcIndex < TWO_32 - 1
    ensures sym.name.Some? && StripPrefix(sym.name.value, FUNCTION_SYMBOL_PREFIX).Some?
            && ParseUsize(StripPrefix(sym.name.value, FUNCTION_SYMBOL_PREFIX).value).Some?
            && ParseUsize(StripPrefix(sym.name.value, FUNCTION_SYMBOL_PREFIX).value).value >= TWO_32 - 1
            ==> r == Panic(FUNC_INDEX_PANIC)
    ensures r.Done? && !r.value.UserFunc? ==> r.value.LibCallTarget? && ToLibCall(sym.name.value) == Done(r.value.call)
  {
    match sym.name
    case None => Panic("explicit panic")
    case Some(name) =>
      match StripPrefix(name, FUNCTION_SYMBOL_PREFIX)
      case Some(digits) =>
        (match ParseUsize(digits)
         case None => Panic("called `Result::unwrap()` on an `Err` value")
         case Some(index) => if index >= TWO_32 - 1 then Panic(FUNC_INDEX_PANIC) else Done(UserFunc(index)))
      case None =>
        if StripPrefix(name, LIBCALL_SYMBOL_PREFIX).Some? then
          match ToLibCall(name)
          case Panic(m) => Panic(m)
          case Done(call) => Done(LibCallTarget(call))
        else Panic("explicit panic")
  }

  /** A relocation of the text section of an object file as a code-generator
   *  relocation: the kind from the table, the target from the symbol it
   *  names, the offset truncated to 32 bits and a zero addend. The kind is
   *  checked before the target, so a bad kind panics first. */
  function ToCraneliftRelocation(symbols: seq<ObjectFormat.ReadSymbol>, offset: U64, r: ObjectFormat.ReadRelocation): (res: Exec<Relocation>)
    ensures res.Done? ==> RelocFromObject(r.kind, r.encoding, r.size) == Done(res.value.reloc)
    ensures res.Done? ==>
      && r.target.SymbolTarget? && r.target.index < |symbols|
      && TargetFromSymbol(symbols[r.target.index]) == Done(res.value.target)
    ensures res.Done? ==> res.value.offset == offset % TWO_32 && res.value.addend == 0
    ensures res.Panic? <==>
      || RelocFromObject(r.kind, r.encoding, r.size).Panic? || !r.target.SymbolTarget?
      || r.target.index >= |symbols| || TargetFromSymbol(symbols[r.target.index]).Panic?
  {
    match RelocFromObject(r.kind, r.encoding, r.size)
    case Panic(m) => Panic(m)
    case Done(reloc) =>
      match r.target
      case SymbolTarget(i) =>
        if i >= |symbols| then Panic("called `Option::unwrap()` on a `None` value")
        else
          (match TargetFromSymbol(symbols[i])
           case Panic(m) => Panic(m)
           case Done(target) => Done(Relocation(reloc, target, offset % TWO_32, 0)))
      case _ => Panic("explicit panic")
  }

  /** The same conversion keeping the relocation's own addend, as the
   *  writer's addend is meant to survive the trip through the object file. */
  function ToCraneliftRelocationWithAddend(symbols: seq<ObjectFormat.ReadSymbol>, offset: U64, r: ObjectFormat.ReadRelocation): (res: Exec<Relocation>)
    ensures res.Done? ==> res.value.addend == r.addend && res.value.offset == offset % TWO_32
    ensures res.Panic? <==> ToCraneliftRelocation(symbols, offset, r).Panic?
    ensures res.Done? ==> ToCraneliftRelocation(symbols, offset, r) == Done(res.value.(addend := 0))
  {
    match ToCraneliftRelocation(symbols, offset, r)
    case Panic(m) => Panic(m)
    case Done(rel) => Done(rel.(addend := r.addend))
  }
}
