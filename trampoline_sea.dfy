/**
 * The hand-written trampoline path of the interpreter
 * (crates/runtime/src/interpreter/trampoline_sea.rs): a fixed table of
 * wrapper functions for three signatures, and an `invoke` that puts the
 * callee's address in slot 0 and the arguments in the slots after it.
 *
 * A wrapper is named by the number of `i32` arguments it forwards; what
 * it does to the slots is `WrapperEffect`, the native callee it reaches
 * being an input.
 */
module TrampolineSea {
  import opened Base
  import opened Interpreter
  import opened Trampoline

  const UNIMPLEMENTED_PANIC: string := "not implemented: "

  /** The signature a wrapper of `arity` arguments serves: vmctx, then
   *  `arity` i32 parameters, one i32 result, in the host's calling
   *  convention. */
  function TargetSignature(arity: nat, conv: CallConv): (sig: Signature)
    ensures |sig.params| == arity + 1 && |sig.results| == 1
  {
    Signature([SpecialAbiParam(TypeI64, VMContext)] + seq(arity, _ => NewAbiParam(TypeI32)),
              [NewAbiParam(TypeI32)], conv)
  }

  /** The arities of the registered wrappers. */
  predicate Registered(arity: nat)
  {
    arity == 2 || arity == 3 || arity == 4
  }

  /** The table `get_trampolines` builds once: each registered signature
   *  maps to its wrapper. */
  function Table(conv: CallConv): (t: map<Signature, nat>)
    ensures forall arity :: Registered(arity) ==> TargetSignature(arity, conv) in t && t[TargetSignature(arity, conv)] == arity
    ensures forall sig :: sig in t ==> Registered(t[sig]) && sig == TargetSignature(t[sig], conv)
  {
    map[TargetSignature(2, conv) := 2, TargetSignature(3, conv) := 3, TargetSignature(4, conv) := 4]
  }

  /** `get_trampoline`: the wrapper for a registered signature, and
   *  `unimplemented!` for any other. */
  function GetTrampoline(sig: Signature, conv: CallConv): (r: Exec<nat>)
    ensures r.Done? <==> exists arity :: Registered(arity) && sig == TargetSignature(arity, conv)
    ensures r.Done? ==> sig == TargetSignature(r.value, conv) && Registered(r.value)
    ensures r.Panic? ==> r.msg == UNIMPLEMENTED_PANIC
  {
    var t := Table(conv);
    if sig in t then Done(t[sig]) else Panic(UNIMPLEMENTED_PANIC)
  }

  /** The slot after a pointer has been written into its low eight bytes. */
  function WritePointer(slot: nat, p: U64): (r: nat)
    ensures r % TWO_64 == p
  {
    WriteVal(slot, I64(I64FromBits(p)))
  }

  /** A wrapper of `arity` arguments: it calls the function whose address
   *  is in slot 0 with the i32s in slots `1..arity`, and stores the i32 it
   *  returns in slot 0. */
  function WrapperEffect(arity: nat, slots: seq<nat>, callee: (U64, seq<I32>) -> I32): (r: seq<nat>)
    requires arity < |slots|
    ensures |r| == |slots| && r[1..] == slots[1..]
  {
    var args := seq(arity, i requires 0 <= i < arity => I32FromBits(slots[i + 1] % TWO_32));
    slots[0 := WriteVal(slots[0], I32(callee(slots[0] % TWO_64, args)))]
  }

  /** The number of slots this `invoke` allocates. */
  function SeaSlotCount(sig: Signature): nat
  {
    Max(|sig.params|, |sig.results|)
  }

  /** The slots before the call: the callee's address in slot 0 and
   *  argument `i` in slot `i + 1`. */
  function SeaSlots(address: U64, sig: Signature, args: seq<Val>): (slots: seq<nat>)
    requires 1 + |args| <= SeaSlotCount(sig)
    ensures |slots| == SeaSlotCount(sig)
  {
    var zero := seq(SeaSlotCount(sig), _ => 0);
    StoreArgs(zero[0 := WritePointer(0, address)], args, 1)
  }

  /** `invoke` through the wrapper table. */
  function SeaInvokeSpec(address: U64, sig: Signature, args: seq<Val>, conv: CallConv, call: NativeCall)
    : (r: Exec<Result<seq<Val>, string>>)
    requires 1 + |args| <= SeaSlotCount(sig)
    requires forall code, vs :: call(code, vs).Ok? ==> |call(code, vs).value| == |vs|
  {
    var slots := SeaSlots(address, sig, args);
    match GetTrampoline(sig, conv)
    case Panic(m) => Panic(m)
    case Done(code) =>
      match call(code, slots)
      case Err(_) => Done(Err(TRAP_ERROR))
      case Ok(out) =>
        match ReadSlots(ResultTypes(sig), out)
        case Panic(m) => Panic(m)
        case Done(vs) => Done(Ok(vs))
  }

  /** Slot 0 holds the callee's address, slot `i + 1` holds argument `i`
   *  readable with its own type, and later slots are zero. */
  lemma SeaSlotsLayout(address: U64, sig: Signature, args: seq<Val>)
    requires 1 + |args| <= SeaSlotCount(sig)
    ensures var slots := SeaSlots(address, sig, args);
      |slots| >= |sig.params| && |slots| >= |sig.results| && slots[0] % TWO_64 == address
      && (forall i :: 0 <= i < |args| ==> ReadVal(slots[i + 1], TypeOf(args[i])) == Done(args[i]))
      && forall k :: 1 + |args| <= k < |slots| ==> slots[k] == 0
  {
    var slots := SeaSlots(address, sig, args);
    forall i | 0 <= i < |args|
      ensures ReadVal(slots[i + 1], TypeOf(args[i])) == Done(args[i])
    {
      ReadWriteRoundTrip(0, args[i]);
    }
  }

  /** The integers of a list of `i32` values. */
  function Ints(args: seq<Val>): (xs: seq<I32>)
    requires forall i :: 0 <= i < |args| ==> args[i].I32?
    ensures |xs| == |args| && forall i :: 0 <= i < |args| ==> args[i] == I32(xs[i])
  {
    seq(|args|, i requires 0 <= i < |args| && args[i].I32? => args[i].i)
  }

  /** A registered signature finds its own wrapper and declares one i32
   *  result. */
  lemma RegisteredSignature(arity: nat, conv: CallConv)
    requires Registered(arity)
    ensures GetTrampoline(TargetSignature(arity, conv), conv) == Done(arity)
    ensures ResultTypes(TargetSignature(arity, conv)) == [TypeI32]
    ensures SeaSlotCount(TargetSignature(arity, conv)) == arity + 1
  {
    assert TargetSignature(arity, conv) in Table(conv);
  }

  /** The wrapper hands the callee the integers `invoke` stored. */
  lemma WrapperSeesArgs(address: U64, sig: Signature, args: seq<Val>)
    requires 1 + |args| <= SeaSlotCount(sig) && forall i :: 0 <= i < |args| ==> args[i].I32?
    ensures var slots := SeaSlots(address, sig, args);
      seq(|args|, i requires 0 <= i < |args| => I32FromBits(slots[i + 1] % TWO_32)) == Ints(args)
  {
    var slots := SeaSlots(address, sig, args);
    SeaSlotsLayout(address, sig, args);
    var xs := seq(|args|, i requires 0 <= i < |args| => I32FromBits(slots[i + 1] % TWO_32));
    forall i | 0 <= i < |args|
      ensures xs[i] == Ints(args)[i]
    {
      assert ReadVal(slots[i + 1], TypeI32) == Done(args[i]);
    }
  }

  /** Reading one i32 result from slot 0. */
  lemma ReadOneI32(out: seq<nat>, x: I32)
    requires |out| > 0 && ReadVal(out[0], TypeI32) == Done(I32(x))
    ensures ReadSlots([TypeI32], out) == Done([I32(x)])
  {
    ReadSlotsExact([TypeI32], out, [I32(x)]);
  }

  /** End to end: calling a registered signature with i32 arguments, where
   *  the native call runs the wrapper it is given, returns the callee's i32
   *  result for those arguments at that address. */
  lemma SeaInvokeCallsCallee(address: U64, arity: nat, conv: CallConv, args: seq<Val>,
                             callee: (U64, seq<I32>) -> I32, call: NativeCall)
    requires Registered(arity) && |args| == arity && forall i :: 0 <= i < |args| ==> args[i].I32?
    requires forall code, vs :: call(code, vs).Ok? ==> |call(code, vs).value| == |vs|
    requires forall code: nat, vs :: code < |vs| ==> call(code, vs) == Ok(WrapperEffect(code, vs, callee))
    ensures SeaInvokeSpec(address, TargetSignature(arity, conv), args, conv, call) == Done(Ok([I32(callee(address, Ints(args)))]))
  {
    var sig := TargetSignature(arity, conv);
    RegisteredSignature(arity, conv);
    var slots := SeaSlots(address, sig, args);
    SeaSlotsLayout(address, sig, args);
    WrapperSeesArgs(address, sig, args);
    var y := callee(address, Ints(args));
    var out := WrapperEffect(arity, slots, callee);
    assert out[0] == WriteVal(slots[0], I32(y));
    ReadWriteRoundTrip(slots[0], I32(y));
    ReadOneI32(out, y);
  }

  /** `invoke`: the slots are filled in a loop, the wrapper is looked up
   *  and called, and results are read back in a loop. */
  method SeaInvoke(address: U64, sig: Signature, args: seq<Val>, conv: CallConv, call: NativeCall)
    returns (r: Exec<Result<seq<Val>, string>>)
    requires 1 + |args| <= SeaSlotCount(sig)
    requires forall code, vs :: call(code, vs).Ok? ==> |call(code, vs).value| == |vs|
    ensures r == SeaInvokeSpec(address, sig, args, conv, call)
  {
    var valuesVec := seq(SeaSlotCount(sig), _ => 0);
    valuesVec := valuesVec[0 := WritePointer(valuesVec[0], address)];
    valuesVec := WriteArgs(valuesVec, args, 1);
    var code := GetTrampoline(sig, conv);
    if code.Panic? {
      return Panic(code.msg);
    }
    var outcome := call(code.value, valuesVec);
    if outcome.Err? {
      return Done(Err(TRAP_ERROR));
    }
    var values := ReadResults(sig, outcome.value);
    match values
    case Panic(m) => return Panic(m);
    case Done(vs) => return Done(Ok(vs));
  }
}
