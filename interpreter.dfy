/**
 * The interpreter's entry intrinsic (crates/runtime/src/interpreter/mod.rs):
 * locating the wasm body that follows a compiled stub, reading and writing
 * typed values in the 8-byte argument slots, and `wasmtime_eval`, which
 * takes the parameters out of the slots, runs the evaluator and puts the
 * results back.
 *
 * A slot is modelled by the number its bytes denote in little-endian order
 * (the host is x86-64); writing a 32-bit value replaces only the low four
 * bytes, as `ptr::write` through an `*mut i32` does.
 */
module Interpreter {
  import opened Base

  /** The evaluator's value: integers are signed, floats travel as their
   *  raw bit patterns. */
  datatype Val = I32(i: I32) | I64(l: I64) | F32(fbits: U32) | F64(dbits: U64)

  /** Cranelift IR value types; only the four scalar ones are supported. */
  datatype IrType = TypeI32 | TypeI64 | TypeF32 | TypeF64 | OtherType(name: string)

  datatype ArgumentPurpose = Normal | VMContext | OtherPurpose(name: string)

  datatype CallConv = Fast | Cold | SystemV | WindowsFastcall | BaldrdashSystemV | BaldrdashWindows | Probestack

  /** How a narrow integer argument is widened by the calling convention. */
  datatype ArgumentExtension = NoExtension | Uext | Sext

  /** Where the register allocator placed an argument; `Unassigned` until then. */
  datatype ArgumentLoc = Unassigned | RegLoc(unit: U16) | StackLoc(offset: I32)

  /** A Cranelift signature parameter. `AbiParam::new` and `AbiParam::special`
   *  give `NoExtension` and `Unassigned`; equality of signatures compares
   *  all four fields. */
  datatype AbiParam = AbiParam(valueType: IrType, purpose: ArgumentPurpose,
                               extension: ArgumentExtension, location: ArgumentLoc)

  /** `AbiParam::new(ty)`. */
  function NewAbiParam(ty: IrType): (p: AbiParam)
    ensures p.valueType == ty && p.purpose == Normal
    ensures p.extension == NoExtension && p.location == Unassigned
  {
    AbiParam(ty, Normal, NoExtension, Unassigned)
  }

  /** `AbiParam::special(ty, purpose)`. */
  function SpecialAbiParam(ty: IrType, purpose: ArgumentPurpose): (p: AbiParam)
    ensures p.valueType == ty && p.purpose == purpose
    ensures p.extension == NoExtension && p.location == Unassigned
  {
    AbiParam(ty, purpose, NoExtension, Unassigned)
  }

  datatype Signature = Signature(params: seq<AbiParam>, results: seq<AbiParam>, callConv: CallConv)

  function TypeOf(v: Val): (t: IrType)
    ensures !t.OtherType?
  {
    match v
    case I32(_) => TypeI32
    case I64(_) => TypeI64
    case F32(_) => TypeF32
    case F64(_) => TypeF64
  }

  /** The number of low-order bits a value of type `t` occupies in a slot. */
  function Width(t: IrType): nat
  {
    match t
    case TypeI32 => 32
    case TypeF32 => 32
    case _ => 64
  }

  function Modulus(t: IrType): (m: nat)
    ensures m == TWO_32 || m == TWO_64
  {
    if Width(t) == 32 then TWO_32 else TWO_64
  }

  /** The bit pattern `ptr::write` stores for a value. */
  function Bits(v: Val): (b: nat)
    ensures b < Modulus(TypeOf(v))
  {
    match v
    case I32(x) => I32Bits(x)
    case I64(x) => I64Bits(x)
    case F32(x) => x
    case F64(x) => x
  }

  const UNSUPPORTED_TYPE_PANIC: string := "unsupported value type "

  /** `read_val`: the value of type `t` held in the low bytes of a slot. */
  function ReadVal(slot: nat, t: IrType): (r: Exec<Val>)
    ensures r.Done? <==> !t.OtherType?
    ensures r.Done? ==> TypeOf(r.value) == t && Bits(r.value) == slot % Modulus(t)
  {
    match t
    case TypeI32 => Done(I32(I32FromBits(slot % TWO_32)))
    case TypeI64 => Done(I64(I64FromBits(slot % TWO_64)))
    case TypeF32 => Done(F32(slot % TWO_32))
    case TypeF64 => Done(F64(slot % TWO_64))
    case OtherType(name) => Panic(UNSUPPORTED_TYPE_PANIC + name)
  }

  /** `write_val`: the slot after storing `v` in its low bytes. */
  function WriteVal(slot: nat, v: Val): (r: nat)
    ensures r % Modulus(TypeOf(v)) == Bits(v)
    ensures r / Modulus(TypeOf(v)) == slot / Modulus(TypeOf(v))
    ensures slot < TWO_64 ==> r < TWO_64
  {
    var m := Modulus(TypeOf(v));
    DivModUnique(slot - slot % m + Bits(v), m, slot / m, Bits(v));
    slot - slot % m + Bits(v)
  }

  /** Reading a slot back with the type of the value written there gives
   *  that value. */
  lemma ReadWriteRoundTrip(slot: nat, v: Val)
    ensures ReadVal(WriteVal(slot, v), TypeOf(v)) == Done(v)
  {
    var r := ReadVal(WriteVal(slot, v), TypeOf(v));
    match v
    case I32(x) => I32BitsRoundTrip(x);
    case I64(x) => I64BitsRoundTrip(x);
    case F32(_) =>
    case F64(_) =>
  }

  // ---- find_body ----

  /** How far `find_body` looks for the header. */
  const SEARCH_LIMIT: nat := 1000

  const ASMF_PANIC: string := "asmF not found"

  /** The header `asmF` starts at offset `i` of the memory behind `ff`. */
  predicate IsHeaderAt(ff: nat -> U8, i: nat)
  {
    ff(i) == 0x61 && ff(i + 1) == 0x73 && ff(i + 2) == 0x6d && ff(i + 3) == 0x46
  }

  /** The first header offset in `[from, SEARCH_LIMIT)`. */
  function FirstHeaderFrom(ff: nat -> U8, from: nat): (r: Option<nat>)
    ensures r.Some? ==> from <= r.value < SEARCH_LIMIT && IsHeaderAt(ff, r.value)
    ensures r.Some? ==> forall j :: from <= j < r.value ==> !IsHeaderAt(ff, j)
    ensures r.None? ==> forall j :: from <= j < SEARCH_LIMIT ==> !IsHeaderAt(ff, j)
    decreases SEARCH_LIMIT - from
  {
    if from >= SEARCH_LIMIT then None
    else if IsHeaderAt(ff, from) then Some(from)
    else FirstHeaderFrom(ff, from + 1)
  }

  /** The u32 stored little-endian at `off`. */
  function ReadU32(ff: nat -> U8, off: nat): U32
  {
    assert Pow256(4) == 256 * Pow256(3) && Pow256(3) == 256 * Pow256(2) && Pow256(2) == 256 * Pow256(1);
    FromLittleEndian([ff(off), ff(off + 1), ff(off + 2), ff(off + 3)])
  }

  /** The body a header at `i` announces: it starts right after the header
   *  and its length field, and is as long as that field says. */
  function BodyAt(ff: nat -> U8, i: nat): (nat, nat)
  {
    (i + 8, ReadU32(ff, i + 4))
  }

  /** `find_body`, as the start offset and length of the returned slice. */
  function FindBodySpec(ff: nat -> U8): (r: Exec<(nat, nat)>)
    ensures r.Panic? ==> r.msg == ASMF_PANIC
  {
    match FirstHeaderFrom(ff, 0)
    case None => Panic(ASMF_PANIC)
    case Some(i) => Done(BodyAt(ff, i))
  }

  /** `find_body` succeeds exactly when a header starts below offset 1000,
   *  and then returns the body announced by the first one. */
  lemma FindBodyFirst(ff: nat -> U8)
    ensures FindBodySpec(ff).Done? <==> exists i :: 0 <= i < SEARCH_LIMIT && IsHeaderAt(ff, i)
    ensures FindBodySpec(ff).Done? ==>
      exists i :: (0 <= i < SEARCH_LIMIT && IsHeaderAt(ff, i) && FindBodySpec(ff).value == BodyAt(ff, i)
                   && forall j :: 0 <= j < i ==> !IsHeaderAt(ff, j))
  {
  }

  /** The scan of `find_body`: offsets `0..1000` in order, the first header
   *  wins. */
  method FindBody(ff: nat -> U8) returns (r: Exec<(nat, nat)>)
    ensures r == FindBodySpec(ff)
  {
    var start: Option<(nat, nat)> := None;
    var i := 0;
    while i < SEARCH_LIMIT
      invariant i <= SEARCH_LIMIT && start.None?
      invariant FirstHeaderFrom(ff, 0) == FirstHeaderFrom(ff, i)
    {
      if ff(i) != 0x61 || ff(i + 3) != 0x46 || ff(i + 1) != 0x73 || ff(i + 2) != 0x6d {
        i := i + 1;
        continue;
      }
      var len := ReadU32(ff, i + 4);
      start := Some((i + 8, len));
      break;
    }
    if start.None? {
      return Panic(ASMF_PANIC);
    }
    return Done(start.value);
  }

  // ---- wasmtime_eval ----

  const SUBTRACT_OVERFLOW_PANIC: string := "attempt to subtract with overflow"

  /** Reads a value of type `types[k]` from slot `k` for every `k`, stopping at the first
   *  unsupported type. */
  function ReadSlots(types: seq<IrType>, slots: seq<nat>): (r: Exec<seq<Val>>)
    requires |types| <= |slots|
    ensures r.Done? <==> forall k :: 0 <= k < |types| ==> !types[k].OtherType?
    ensures r.Done? ==> |r.value| == |types|
    ensures r.Done? ==> forall k :: 0 <= k < |types| ==> ReadVal(slots[k], types[k]) == Done(r.value[k])
    decreases |types|
  {
    if types == [] then Done([])
    else
      var n := |types| - 1;
      match ReadSlots(types[..n], slots)
      case Panic(m) => Panic(m)
      case Done(ps) =>
        match ReadVal(slots[n], types[n])
        case Panic(m) => Panic(m)
        case Done(v) => Done(ps + [v])
  }

  /** The slots after result `j` has been written into slot `j` for every
   *  result. */
  function WriteResults(slots: seq<nat>, rets: seq<Val>): (r: seq<nat>)
    requires |rets| <= |slots|
    ensures |r| == |slots|
    ensures forall j :: 0 <= j < |rets| ==> r[j] == WriteVal(slots[j], rets[j])
    ensures forall j :: |rets| <= j < |slots| ==> r[j] == slots[j]
    decreases |rets|
  {
    if rets == [] then slots
    else
      var n := |rets| - 1;
      var before := WriteResults(slots, rets[..n]);
      before[n := WriteVal(slots[n], rets[n])]
  }

  /** The parameter types the slots carry: those of the signature without
   *  the leading vmctx. */
  function SlotParamTypes(sig: Signature): seq<IrType>
    requires |sig.params| > 0
  {
    seq(|sig.params| - 1, k requires 0 <= k < |sig.params| - 1 => sig.params[k + 1].valueType)
  }

  /** The evaluator the intrinsic hands the parameters and the body to; it
   *  either fails or fills the results. */
  type Evaluator = (seq<Val>, (nat, nat)) -> Result<seq<Val>, ()>

  /** `wasmtime_eval`: the status it returns and the slots it leaves. */
  function EvalSpec(sig: Signature, ff: nat -> U8, slots: seq<nat>, eval: Evaluator): (r: Exec<(U32, seq<nat>)>)
    requires |sig.params| <= |slots| + 1 && |sig.results| <= |slots|
    requires forall ps, body :: eval(ps, body).Ok? ==> |eval(ps, body).value| == |sig.results|
  {
    match FindBodySpec(ff)
    case Panic(m) => Panic(m)
    case Done(body) =>
      if |sig.params| == 0 then Panic(SUBTRACT_OVERFLOW_PANIC)
      else
        match ReadSlots(SlotParamTypes(sig), slots)
        case Panic(m) => Panic(m)
        case Done(ps) =>
          match eval(ps, body)
          case Err(_) => Done((1, slots))
          case Ok(rets) => Done((0, WriteResults(slots, rets)))
  }

  /** The intrinsic reads signature parameter `k` (for `k >= 1`) from slot
   *  `k - 1` and hands the evaluator what it read. */
  lemma EvalSpecParams(sig: Signature, ff: nat -> U8, slots: seq<nat>, eval: Evaluator)
    requires |sig.params| <= |slots| + 1 && |sig.results| <= |slots|
    requires forall ps, body :: eval(ps, body).Ok? ==> |eval(ps, body).value| == |sig.results|
    requires EvalSpec(sig, ff, slots, eval).Done?
    ensures |sig.params| > 0 && FindBodySpec(ff).Done? && ReadSlots(SlotParamTypes(sig), slots).Done?
    ensures var ps := ReadSlots(SlotParamTypes(sig), slots).value;
      |ps| == |sig.params| - 1
      && forall k :: 1 <= k < |sig.params| ==> ReadVal(slots[k - 1], sig.params[k].valueType) == Done(ps[k - 1])
  {
    assert FindBodySpec(ff).Done? && |sig.params| > 0;
    assert ReadSlots(SlotParamTypes(sig), slots).Done?;
    ParamSlotsRead(sig, slots);
  }

  /** Parameter `k` of the signature (for `k >= 1`) is what the slot
   *  reader finds in slot `k - 1`. */
  lemma ParamSlotsRead(sig: Signature, slots: seq<nat>)
    requires 0 < |sig.params| <= |slots| + 1
    requires ReadSlots(SlotParamTypes(sig), slots).Done?
    ensures var ps := ReadSlots(SlotParamTypes(sig), slots).value;
      |ps| == |sig.params| - 1
      && forall k :: 1 <= k < |sig.params| ==> ReadVal(slots[k - 1], sig.params[k].valueType) == Done(ps[k - 1])
  {
    var types := SlotParamTypes(sig);
    var ps := ReadSlots(types, slots).value;
    forall k | 1 <= k < |sig.params|
      ensures ReadVal(slots[k - 1], sig.params[k].valueType) == Done(ps[k - 1])
    {
      assert types[k - 1] == sig.params[k].valueType;
    }
  }

  /** On success the intrinsic returns 0 and every result reads back from
   *  its slot, later slots untouched; a failed evaluation returns 1 and
   *  leaves the slots alone. */
  lemma EvalSpecResults(sig: Signature, ff: nat -> U8, slots: seq<nat>, eval: Evaluator)
    requires |sig.params| <= |slots| + 1 && |sig.results| <= |slots|
    requires forall ps, body :: eval(ps, body).Ok? ==> |eval(ps, body).value| == |sig.results|
    requires EvalSpec(sig, ff, slots, eval).Done?
    ensures |sig.params| > 0 && FindBodySpec(ff).Done? && ReadSlots(SlotParamTypes(sig), slots).Done?
    ensures var ps := ReadSlots(SlotParamTypes(sig), slots).value;
      var (status, out) := EvalSpec(sig, ff, slots, eval).value;
      match eval(ps, FindBodySpec(ff).value)
      case Err(_) => status == 1 && out == slots
      case Ok(rets) => (status == 0 && |out| == |slots|
                        && (forall j :: 0 <= j < |rets| ==> ReadVal(out[j], TypeOf(rets[j])) == Done(rets[j]))
                        && forall j :: |rets| <= j < |slots| ==> out[j] == slots[j])
  {
    var ps := ReadSlots(SlotParamTypes(sig), slots).value;
    match eval(ps, FindBodySpec(ff).value)
    case Err(_) =>
    case Ok(rets) =>
      forall j | 0 <= j < |rets|
        ensures ReadVal(WriteResults(slots, rets)[j], TypeOf(rets[j])) == Done(rets[j])
      {
        ReadWriteRoundTrip(slots[j], rets[j]);
      }
  }

  /** The intrinsic panics, before reading anything, when the stub has no
   *  header, and then when the signature lacks even the vmctx parameter;
   *  otherwise it panics exactly when a parameter type is unsupported. */
  lemma EvalSpecPanics(sig: Signature, ff: nat -> U8, slots: seq<nat>, eval: Evaluator)
    requires |sig.params| <= |slots| + 1 && |sig.results| <= |slots|
    requires forall ps, body :: eval(ps, body).Ok? ==> |eval(ps, body).value| == |sig.results|
    ensures FindBodySpec(ff).Panic? ==> EvalSpec(sig, ff, slots, eval) == Panic(ASMF_PANIC)
    ensures FindBodySpec(ff).Done? && |sig.params| == 0 ==> EvalSpec(sig, ff, slots, eval) == Panic(SUBTRACT_OVERFLOW_PANIC)
    ensures FindBodySpec(ff).Done? && |sig.params| > 0 ==>
      (EvalSpec(sig, ff, slots, eval).Done? <==> forall k :: 1 <= k < |sig.params| ==> !sig.params[k].valueType.OtherType?)
  {
    if FindBodySpec(ff).Done? && |sig.params| > 0 {
      var types := SlotParamTypes(sig);
      assert forall k :: 1 <= k < |sig.params| ==> types[k - 1] == sig.params[k].valueType;
    }
  }

  /** `wasmtime_eval` on the argument slots behind `args`. */
  method WasmtimeEval(sig: Signature, ff: nat -> U8, args: array<U64>, eval: Evaluator) returns (r: Exec<U32>)
    requires |sig.params| <= args.Length + 1 && |sig.results| <= args.Length
    requires forall ps, body :: eval(ps, body).Ok? ==> |eval(ps, body).value| == |sig.results|
    modifies args
    ensures var spec := EvalSpec(sig, ff, old(args[..]), eval);
      (r.Done? <==> spec.Done?)
      && (r.Done? ==> r.value == spec.value.0 && args[..] == spec.value.1)
      && (r.Panic? ==> r.msg == spec.msg)
  {
    var body := FindBody(ff);
    if body.Panic? {
      return Panic(body.msg);
    }
    if |sig.params| == 0 {
      return Panic(SUBTRACT_OVERFLOW_PANIC);
    }
    var params := ReadParams(sig, args);
    match params
    case Panic(m) => return Panic(m);
    case Done(ps) =>
      var outcome := eval(ps, body.value);
      if outcome.Err? {
        return Done(1);
      }
      WriteBack(args, outcome.value);
      return Done(0);
  }

  /** The parameter loop of `wasmtime_eval`: signature parameter `k`
   *  (for `k >= 1`) read from argument slot `k - 1`. */
  method ReadParams(sig: Signature, args: array<U64>) returns (r: Exec<seq<Val>>)
    requires 0 < |sig.params| <= args.Length + 1
    ensures r == ReadSlots(SlotParamTypes(sig), args[..])
  {
    ghost var slots: seq<nat> := args[..];
    ghost var types := SlotParamTypes(sig);
    var params := [];
    var index := 1;
    while index < |sig.params|
      invariant 1 <= index <= |sig.params|
      invariant ReadSlots(types[..index - 1], slots) == Done(params)
    {
      assert types[..index][..index - 1] == types[..index - 1] && types[..index][index - 1] == types[index - 1];
      var v := ReadVal(args[index - 1], sig.params[index].valueType);
      if v.Panic? {
        ReadSlotsPanicStays(types, index, slots);
        return Panic(v.msg);
      }
      params := params + [v.value];
      index := index + 1;
    }
    assert types[..index - 1] == types;
    return Done(params);
  }

  /** The result loop of `wasmtime_eval`: result `j` written into slot `j`. */
  method WriteBack(args: array<U64>, results: seq<Val>)
    requires |results| <= args.Length
    modifies args
    ensures args[..] == WriteResults(old(args[..]), results)
  {
    ghost var slots: seq<nat> := args[..];
    var j := 0;
    while j < |results|
      invariant j <= |results| && args[..] == WriteResults(slots, results[..j])
    {
      assert results[..j + 1][..j] == results[..j];
      args[j] := WriteVal(args[j], results[j]);
      j := j + 1;
    }
    assert results[..j] == results;
  }

  /** A panic while reading parameters is the whole reading's result. */
  lemma {:induction false} ReadSlotsPanicStays(types: seq<IrType>, n: nat, slots: seq<nat>)
    requires n <= |types| <= |slots| && ReadSlots(types[..n], slots).Panic?
    ensures ReadSlots(types, slots) == ReadSlots(types[..n], slots)
    decreases |types| - n
  {
    if n < |types| {
      var m := |types| - 1;
      var prefix := types[..m];
      if n < m {
        assert prefix[..n] == types[..n];
        ReadSlotsPanicStays(prefix, n, slots);
      }
      ReadSlotsPanicStep(types, slots);
    } else {
      assert types[..n] == types;
    }
  }

  /** A panic on all but the last type is the result on all of them. */
  lemma ReadSlotsPanicStep(types: seq<IrType>, slots: seq<nat>)
    requires 0 < |types| <= |slots| && ReadSlots(types[..|types| - 1], slots).Panic?
    ensures ReadSlots(types, slots) == ReadSlots(types[..|types| - 1], slots)
  {
  }
}
