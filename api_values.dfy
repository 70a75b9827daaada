/**
 * Host-facing WebAssembly values (wasmtime-api/src/values.rs): the value
 * and reference enums, their types, the conversions to and from Rust
 * scalars and references, and the 8-byte slot encoding the API shares with
 * the interpreter.
 *
 * Function and host-object references are opaque handles; floating-point
 * values appear only as their bit patterns.
 */
module ApiValues {
  import opened Base
  import Interpreter

  /** A `Ref<Func>`, known only by its identity. */
  datatype FuncHandle = FuncHandle(id: nat)

  /** `AnyRef`: null, a host object (`Rc<dyn Any>`, by identity), or a
   *  function. */
  datatype AnyRef = Null | Rc(object: nat) | Func(func: FuncHandle)

  datatype Val = I32(i: I32) | I64(l: I64) | F32(fbits: U32) | F64(dbits: U64) | AnyRef(anyref: AnyRef) | FuncRef(funcref: FuncHandle)

  datatype ValType = TI32 | TI64 | TF32 | TF64 | TAnyRef | TFuncRef

  const NULL_ANYREF_PANIC: string := "null anyref"
  const TRY_UNWRAP_PANIC: string := "not implemented: try to unwrap?"
  const WRITE_UNIMPLEMENTED: string := "not implemented: Val::write_value_to"
  const READ_UNIMPLEMENTED: string := "not implemented: Val::read_value_from"

  /** `Val::default()`. */
  function Default(): (v: Val)
    ensures v.AnyRef? && v.anyref.Null? && TypeOf(v) == TAnyRef
  {
    AnyRef(Null)
  }

  /** `Val::type()`: each variant has its own type. */
  function TypeOf(v: Val): (t: ValType)
    ensures t == TI32 <==> v.I32?
    ensures t == TI64 <==> v.I64?
    ensures t == TF32 <==> v.F32?
    ensures t == TF64 <==> v.F64?
    ensures t == TAnyRef <==> v.AnyRef?
    ensures t == TFuncRef <==> v.FuncRef?
  {
    match v
    case I32(_) => TI32
    case I64(_) => TI64
    case F32(_) => TF32
    case F64(_) => TF64
    case AnyRef(_) => TAnyRef
    case FuncRef(_) => TFuncRef
  }

  /** `Into<Ref<Func>> for AnyRef`. */
  function AnyRefToFunc(r: AnyRef): (f: Exec<FuncHandle>)
    ensures f.Done? <==> r.Func?
    ensures f.Done? ==> AnyRefFromFunc(f.value) == r
    ensures r.Null? ==> f == Panic(NULL_ANYREF_PANIC)
    ensures r.Rc? ==> f == Panic(TRY_UNWRAP_PANIC)
  {
    match r
    case Func(f) => Done(f)
    case Rc(_) => Panic(TRY_UNWRAP_PANIC)
    case Null => Panic(NULL_ANYREF_PANIC)
  }

  /** `From<Ref<Func>> for AnyRef`. */
  function AnyRefFromFunc(f: FuncHandle): (r: AnyRef)
    ensures r.Func? && r.func == f
  {
    Func(f)
  }

  lemma FuncAnyRefRoundTrip(f: FuncHandle)
    ensures AnyRefToFunc(AnyRefFromFunc(f)) == Done(f)
  {
  }

  /** `From<i32>`, `From<i64>` and the bit-pattern constructors. */
  function FromI32(x: I32): Val { I32(x) }
  function FromI64(x: I64): Val { I64(x) }
  function FromF32Bits(b: U32): Val { F32(b) }
  function FromF64Bits(b: U64): Val { F64(b) }

  /** The start of the message every failed conversion panics with; the
   *  value's `Debug` text and the target type follow it in the source. */
  const CONVERSION_PANIC: string := "Invalid conversion of "

  /** `Into<i32>`: only an `I32` converts. */
  function IntoI32(v: Val): (r: Exec<I32>)
    ensures r.Done? <==> v.I32?
    ensures r.Done? ==> FromI32(r.value) == v
    ensures r.Panic? ==> r.msg == CONVERSION_PANIC
  {
    if v.I32? then Done(v.i) else Panic(CONVERSION_PANIC)
  }

  /** `Into<i64>`: only an `I64` converts. */
  function IntoI64(v: Val): (r: Exec<I64>)
    ensures r.Done? <==> v.I64?
    ensures r.Done? ==> FromI64(r.value) == v
    ensures r.Panic? ==> r.msg == CONVERSION_PANIC
  {
    if v.I64? then Done(v.l) else Panic(CONVERSION_PANIC)
  }

  /** `Into<f32>`, as the bit pattern it returns. */
  function IntoF32Bits(v: Val): (r: Exec<U32>)
    ensures r.Done? <==> v.F32?
    ensures r.Done? ==> FromF32Bits(r.value) == v
    ensures r.Panic? ==> r.msg == CONVERSION_PANIC
  {
    if v.F32? then Done(v.fbits) else Panic(CONVERSION_PANIC)
  }

  /** `Into<f64>`, as the bit pattern it returns. */
  function IntoF64Bits(v: Val): (r: Exec<U64>)
    ensures r.Done? <==> v.F64?
    ensures r.Done? ==> FromF64Bits(r.value) == v
    ensures r.Panic? ==> r.msg == CONVERSION_PANIC
  {
    if v.F64? then Done(v.dbits) else Panic(CONVERSION_PANIC)
  }

  /** The scalar conversions are exact both ways. */
  lemma ScalarRoundTrips(x: I32, y: I64, fb: U32, db: U64)
    ensures IntoI32(FromI32(x)) == Done(x) && IntoI64(FromI64(y)) == Done(y)
    ensures IntoF32Bits(FromF32Bits(fb)) == Done(fb) && IntoF64Bits(FromF64Bits(db)) == Done(db)
    ensures TypeOf(FromI32(x)) == TI32 && TypeOf(FromI64(y)) == TI64
    ensures TypeOf(FromF32Bits(fb)) == TF32 && TypeOf(FromF64Bits(db)) == TF64
  {
  }

  /** `From<AnyRef> for Val`: a function reference becomes `FuncRef`,
   *  anything else stays an `AnyRef`. */
  function FromAnyRef(r: AnyRef): (v: Val)
    ensures r.Func? ==> v == FuncRef(r.func)
    ensures !r.Func? ==> v == AnyRef(r)
  {
    match r
    case Func(f) => FuncRef(f)
    case _ => AnyRef(r)
  }

  /** `From<Ref<Func>> for Val`. */
  function FromFunc(f: FuncHandle): Val { FuncRef(f) }

  /** `Into<AnyRef> for Val`: references convert, numbers panic. */
  function IntoAnyRef(v: Val): (r: Exec<AnyRef>)
    ensures r.Done? <==> v.AnyRef? || v.FuncRef?
    ensures r.Panic? ==> r.msg == CONVERSION_PANIC
  {
    match v
    case AnyRef(r) => Done(r)
    case FuncRef(f) => Done(Func(f))
    case _ => Panic(CONVERSION_PANIC)
  }

  /** `AnyRef -> Val -> AnyRef` is the identity; `Val -> AnyRef -> Val` is
   *  the identity except that `AnyRef(Func(f))` comes back as `FuncRef(f)`. */
  lemma AnyRefRoundTrips(r: AnyRef, f: FuncHandle, v: Val)
    ensures IntoAnyRef(FromAnyRef(r)) == Done(r)
    ensures IntoAnyRef(FromFunc(f)) == Done(AnyRefFromFunc(f))
    ensures IntoAnyRef(v).Done? ==> FromAnyRef(IntoAnyRef(v).value) == (if v.AnyRef? && v.anyref.Func? then FuncRef(v.anyref.func) else v)
  {
  }

  /** The interpreter's value with the same payload, for the numeric
   *  variants. */
  function Numeric(v: Val): (n: Option<Interpreter.Val>)
    ensures n.Some? <==> (v.I32? || v.I64? || v.F32? || v.F64?)
  {
    match v
    case I32(x) => Some(Interpreter.I32(x))
    case I64(x) => Some(Interpreter.I64(x))
    case F32(x) => Some(Interpreter.F32(x))
    case F64(x) => Some(Interpreter.F64(x))
    case _ => None
  }

  /** The IR type a value type is read with, for the numeric ones. */
  function IrTypeOf(t: ValType): Option<Interpreter.IrType>
  {
    match t
    case TI32 => Some(Interpreter.TypeI32)
    case TI64 => Some(Interpreter.TypeI64)
    case TF32 => Some(Interpreter.TypeF32)
    case TF64 => Some(Interpreter.TypeF64)
    case _ => None
  }

  /** `write_value_to`: the slot after storing a numeric value in its low
   *  bytes; a reference is unimplemented. */
  function WriteValueTo(slot: U64, v: Val): (r: Exec<U64>)
    ensures r.Done? <==> Numeric(v).Some?
  {
    match Numeric(v)
    case None => Panic(WRITE_UNIMPLEMENTED)
    case Some(n) => Done(Interpreter.WriteVal(slot, n))
  }

  /** The API value of an interpreter value. */
  function FromNumeric(n: Interpreter.Val): (v: Val)
    ensures Numeric(v) == Some(n)
  {
    match n
    case I32(x) => I32(x)
    case I64(x) => I64(x)
    case F32(x) => F32(x)
    case F64(x) => F64(x)
  }

  /** `read_value_from`: the value of a numeric IR type held in a slot; any
   *  other type is unimplemented. */
  function ReadValueFrom(slot: U64, t: Interpreter.IrType): (r: Exec<Val>)
    ensures r.Done? <==> !t.OtherType?
  {
    if t.OtherType? then Panic(READ_UNIMPLEMENTED)
    else Done(FromNumeric(Interpreter.ReadVal(slot, t).value))
  }

  /** Reading back with the value's own type gives the value written;
   *  32-bit values leave the slot's upper half alone. */
  lemma SlotRoundTrip(slot: U64, v: Val)
    requires Numeric(v).Some?
    ensures WriteValueTo(slot, v).Done? && IrTypeOf(TypeOf(v)).Some?
    ensures ReadValueFrom(WriteValueTo(slot, v).value, IrTypeOf(TypeOf(v)).value) == Done(v)
    ensures (v.I32? || v.F32?) ==> WriteValueTo(slot, v).value / TWO_32 == slot / TWO_32
  {
    var n := Numeric(v).value;
    Interpreter.ReadWriteRoundTrip(slot, n);
  }
}
