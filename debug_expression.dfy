/**
 * Helpers for translating WebAssembly DWARF expressions into native ones:
 * register operands (DWARF 4, sections 2.5.1.2 and 2.6.1.1.3), the
 * location of a value in a register or a stack slot, the old-format
 * heuristic, compiled expressions, and the builder that intersects the
 * live ranges of a set of value labels with the ranges of a scope.
 */
module DebugExpression {
  import opened Base

  // ---- DWARF operator bytes (DWARF 4, section 7.7.1) ----

  const DW_OP_DEREF: U8 := 0x06
  const DW_OP_PLUS_UCONST: U8 := 0x23
  const DW_OP_REG0: U8 := 0x50
  const DW_OP_BREG0: U8 := 0x70
  const DW_OP_REGX: U8 := 0x90
  const DW_OP_FBREG: U8 := 0x91
  const DW_OP_BREGX: U8 := 0x92

  /** The DWARF number of RBP on x86-64. */
  const RBP: U16 := 6

  /** Frame slots are addressed from RBP past the saved RBP and return
   *  address. */
  const X86_64_STACK_OFFSET: int := 16

  // ---- LEB128 numbers (DWARF 4, section 7.6) ----

  /** Unsigned LEB128: seven bits per byte, low group first, the high bit
   *  set on every byte but the last. */
  function Uleb128(x: nat): (r: seq<U8>)
    ensures |r| >= 1 && r[|r| - 1] < 128
    ensures forall k :: 0 <= k < |r| - 1 ==> r[k] >= 128
    decreases x
  {
    if x < 128 then [x] else [x % 128 + 128] + Uleb128(x / 128)
  }

  /** The value of a ULEB128 number at the front of `bytes` and the number
   *  of bytes it takes; `None` when the bytes end inside it. */
  function DecodeUleb128(bytes: seq<U8>): (r: Option<(nat, nat)>)
    ensures r.Some? ==> 1 <= r.value.1 <= |bytes|
    decreases |bytes|
  {
    if bytes == [] then None
    else if bytes[0] < 128 then Some((bytes[0], 1))
    else
      match DecodeUleb128(bytes[1..])
      case None => None
      case Some((v, n)) => Some((bytes[0] - 128 + 128 * v, n + 1))
  }

  lemma {:induction false} Uleb128RoundTrip(x: nat, rest: seq<U8>)
    ensures DecodeUleb128(Uleb128(x) + rest) == Some((x, |Uleb128(x)|))
    decreases x
  {
    if x >= 128 {
      var s := Uleb128(x);
      assert (s + rest)[1..] == Uleb128(x / 128) + rest;
      Uleb128RoundTrip(x / 128, rest);
    }
  }

  /** Whether signed LEB128 stops after the group `x % 128`: the rest is
   *  all sign bits and bit 6 of the group agrees with them. */
  predicate SlebLast(x: int)
  {
    (x / 128 == 0 && x % 128 < 64) || (x / 128 == -1 && x % 128 >= 64)
  }

  /** Signed LEB128 of a two's-complement number, as gimli writes it:
   *  groups of seven bits, arithmetic shifts, and a final group whose bit 6
   *  is the sign. */
  function Sleb128(x: int): (r: seq<U8>)
    ensures |r| >= 1 && r[|r| - 1] < 128
    ensures forall k :: 0 <= k < |r| - 1 ==> r[k] >= 128
    decreases if x >= 0 then x else -x
  {
    if SlebLast(x) then [x % 128] else [x % 128 + 128] + Sleb128(x / 128)
  }

  /** The value of an SLEB128 number at the front of `bytes` and its
   *  length; the last byte's bit 6 extends the sign. */
  function DecodeSleb128(bytes: seq<U8>): (r: Option<(int, nat)>)
    ensures r.Some? ==> 1 <= r.value.1 <= |bytes|
    decreases |bytes|
  {
    if bytes == [] then None
    else if bytes[0] < 128 then Some((if bytes[0] < 64 then bytes[0] as int else bytes[0] as int - 128, 1))
    else
      match DecodeSleb128(bytes[1..])
      case None => None
      case Some((v, n)) => Some((bytes[0] - 128 + 128 * v, n + 1))
  }

  lemma {:induction false} Sleb128RoundTrip(x: int, rest: seq<U8>)
    ensures DecodeSleb128(Sleb128(x) + rest) == Some((x, |Sleb128(x)|))
    decreases if x >= 0 then x else -x
  {
    if !SlebLast(x) {
      var s := Sleb128(x);
      assert (s + rest)[1..] == Sleb128(x / 128) + rest;
      Sleb128RoundTrip(x / 128, rest);
    }
  }

  // ---- register operands ----

  /** `write_op_reg`: `DW_OP_reg0 + reg` for the first 32 registers, else
   *  `DW_OP_regx` and the register number in ULEB128. */
  function WriteOpReg(reg: U16): (r: seq<U8>)
  {
    if reg < 32 then [DW_OP_REG0 + reg] else [DW_OP_REGX] + Uleb128(reg)
  }

  /** `write_op_breg`: the same rule with `DW_OP_breg0` and `DW_OP_bregx`. */
  function WriteOpBreg(reg: U16): (r: seq<U8>)
  {
    if reg < 32 then [DW_OP_BREG0 + reg] else [DW_OP_BREGX] + Uleb128(reg)
  }

  datatype RegOperand = RegOp(reg: nat) | BregOp(reg: nat)

  /** Reads a register operator at the front of `bytes`: which kind, which
   *  register, and how many bytes it took. */
  function DecodeRegOperand(bytes: seq<U8>): (r: Option<(RegOperand, nat)>)
    ensures r.Some? ==> 1 <= r.value.1 <= |bytes|
  {
    if bytes == [] then None
    else if DW_OP_REG0 <= bytes[0] < DW_OP_REG0 + 32 then Some((RegOp(bytes[0] - DW_OP_REG0), 1))
    else if DW_OP_BREG0 <= bytes[0] < DW_OP_BREG0 + 32 then Some((BregOp(bytes[0] - DW_OP_BREG0), 1))
    else if bytes[0] == DW_OP_REGX || bytes[0] == DW_OP_BREGX then
      match DecodeUleb128(bytes[1..])
      case None => None
      case Some((reg, n)) => Some((if bytes[0] == DW_OP_REGX then RegOp(reg) else BregOp(reg), n + 1))
    else None
  }

  /** Each register operator reads back as the register it names, in one
   *  byte exactly for the first 32 registers. */
  lemma WriteOpRegRoundTrip(reg: U16, rest: seq<U8>)
    ensures DecodeRegOperand(WriteOpReg(reg) + rest) == Some((RegOp(reg), |WriteOpReg(reg)|))
    ensures |WriteOpReg(reg)| == 1 <==> reg < 32
  {
    if reg >= 32 {
      ExtendedRegRoundTrip(DW_OP_REGX, reg, rest);
    }
  }

  lemma WriteOpBregRoundTrip(reg: U16, rest: seq<U8>)
    ensures DecodeRegOperand(WriteOpBreg(reg) + rest) == Some((BregOp(reg), |WriteOpBreg(reg)|))
    ensures |WriteOpBreg(reg)| == 1 <==> reg < 32
  {
    if reg >= 32 {
      ExtendedRegRoundTrip(DW_OP_BREGX, reg, rest);
    }
  }

  /** `DW_OP_regx` or `DW_OP_bregx` followed by a ULEB128 register number
   *  reads back as that register, in more than one byte. */
  lemma ExtendedRegRoundTrip(op: U8, reg: nat, rest: seq<U8>)
    requires op == DW_OP_REGX || op == DW_OP_BREGX
    ensures var bytes := [op] + Uleb128(reg);
      |bytes| > 1
      && DecodeRegOperand(bytes + rest) == Some((if op == DW_OP_REGX then RegOp(reg) else BregOp(reg), |bytes|))
  {
    var tail := Uleb128(reg) + rest;
    assert ([op] + Uleb128(reg)) + rest == [op] + tail;
    assert ([op] + tail)[1..] == tail;
    Uleb128RoundTrip(reg, rest);
  }

  // ---- value locations ----

  /** Where the code generator put a value: nowhere yet, a register unit,
   *  or a stack slot. */
  datatype ValueLoc = Unassigned | Reg(unit: nat) | Stack(slot: nat)

  datatype MapError = RegisterMappingFailed

  /** `translate_loc`: a register becomes `DW_OP_regN` when the expression
   *  is a stack value and `DW_OP_bregN 0` otherwise; a stack slot with a
   *  frame and a known offset becomes `DW_OP_breg6 (offset + 16)` followed
   *  by `DW_OP_deref` unless the expression is a stack value; anything else
   *  has no location. `dwarfReg` is the target's register mapping and
   *  `slots` the offsets of the frame's stack slots (indexing a missing
   *  slot panics). */
  function TranslateLoc(loc: ValueLoc, slots: Option<seq<Option<I32>>>, dwarfReg: nat -> Result<U16, MapError>, addStackValue: bool)
    : (r: Exec<Result<Option<seq<U8>>, MapError>>)
    ensures loc.Reg? ==> r.Done? && (r.value.Ok? <==> dwarfReg(loc.unit).Ok?)
    ensures loc.Reg? && r.value.Ok? ==> r.value.value.Some? && DecodeRegOperand(r.value.value.value).Some?
    // a stack value names the register itself; otherwise the location is
    // the register's contents plus an SLEB128 offset of 0
    ensures loc.Reg? && dwarfReg(loc.unit).Ok? && addStackValue ==>
      var e := r.value.value.value;
      DecodeRegOperand(e) == Some((RegOp(dwarfReg(loc.unit).value), |e|))
    ensures loc.Reg? && dwarfReg(loc.unit).Ok? && !addStackValue ==>
      var e := r.value.value.value;
      var d := DecodeRegOperand(e);
      && d.Some? && d.value.0 == BregOp(dwarfReg(loc.unit).value)
      && DecodeSleb128(e[d.value.1..]).Some? && DecodeSleb128(e[d.value.1..]).value.0 == 0
      && d.value.1 + DecodeSleb128(e[d.value.1..]).value.1 == |e|
    // a stack slot: its expression when the frame gives it an offset, no
    // location when it has none, a panic when the frame has no such slot
    ensures loc.Stack? && slots.Some? && loc.slot >= |slots.value| ==> r == Panic("index out of bounds")
    ensures loc.Stack? && slots.Some? && loc.slot < |slots.value| && slots.value[loc.slot].None? ==> r == Done(Ok(None))
    ensures loc.Stack? && slots.Some? && loc.slot < |slots.value| && slots.value[loc.slot].Some? ==>
      r == Done(Ok(Some(StackSlotExpression(slots.value[loc.slot].value, addStackValue))))
    ensures loc.Unassigned? || (loc.Stack? && slots.None?) ==> r == Done(Ok(None))
  {
    match loc
    case Reg(unit) =>
      (match dwarfReg(unit)
       case Err(e) => Done(Err(e))
       case Ok(reg) =>
         WriteOpRegRoundTrip(reg, []);
         WriteOpBregRoundTrip(reg, Sleb128(0));
         Sleb128RoundTrip(0, []);
         assert WriteOpReg(reg) + [] == WriteOpReg(reg);
         assert Sleb128(0) + [] == Sleb128(0);
         assert (WriteOpBreg(reg) + Sleb128(0))[|WriteOpBreg(reg)|..] == Sleb128(0);
         Done(Ok(Some(if addStackValue then WriteOpReg(reg) else WriteOpBreg(reg) + Sleb128(0)))))
    case Stack(ss) =>
      (match slots
       case None => Done(Ok(None))
       case Some(offsets) =>
         if ss >= |offsets| then Panic("index out of bounds")
         else
           match offsets[ss]
           case None => Done(Ok(None))
           case Some(off) => Done(Ok(Some(StackSlotExpression(off, addStackValue)))))
    case Unassigned => Done(Ok(None))
  }

  /** The expression for a stack slot at `off` from the frame's slot base. */
  function StackSlotExpression(off: I32, addStackValue: bool): (r: seq<U8>)
  {
    WriteOpBreg(RBP) + Sleb128(off + X86_64_STACK_OFFSET) + (if addStackValue then [] else [DW_OP_DEREF])
  }

  /** A stack-slot expression reads back as RBP-relative at the slot's
   *  offset plus 16, followed by a dereference exactly when it is not a
   *  stack value. */
  lemma StackSlotExpressionRoundTrip(off: I32, addStackValue: bool)
    ensures var e := StackSlotExpression(off, addStackValue);
      && DecodeRegOperand(e) == Some((BregOp(RBP), 1))
      && DecodeSleb128(e[1..]).Some?
      && DecodeSleb128(e[1..]).value.0 == off + X86_64_STACK_OFFSET
      && e[1 + DecodeSleb128(e[1..]).value.1..] == (if addStackValue then [] else [DW_OP_DEREF])
  {
    var tail: seq<U8> := if addStackValue then [] else [DW_OP_DEREF];
    var sleb := Sleb128(off + X86_64_STACK_OFFSET);
    var e := StackSlotExpression(off, addStackValue);
    assert e == [DW_OP_BREG0 + RBP] + (sleb + tail);
    assert e[0] == DW_OP_BREG0 + RBP;
    assert DecodeRegOperand(e) == Some((BregOp(RBP), 1));
    assert e[1..] == sleb + tail;
    Sleb128RoundTrip(off + X86_64_STACK_OFFSET, tail);
    assert DecodeSleb128(e[1..]) == Some((off + X86_64_STACK_OFFSET, |sleb|));
    assert e[1 + |sleb|..] == tail;
  }

  // ---- the old expression format ----

  /** `is_old_expression_format`: the buffer has a `DW_OP_plus_uconst`
   *  byte and no `DW_OP_fbreg` byte. */
  function IsOldExpressionFormat(buf: seq<U8>): (r: bool)
    ensures r ==> exists k :: 0 <= k < |buf| && buf[k] == DW_OP_PLUS_UCONST
    ensures r ==> forall k :: 0 <= k < |buf| ==> buf[k] != DW_OP_FBREG
    ensures !r ==> (forall k :: 0 <= k < |buf| ==> buf[k] != DW_OP_PLUS_UCONST) || (exists k :: 0 <= k < |buf| && buf[k] == DW_OP_FBREG)
  {
    if DW_OP_FBREG in buf then false else DW_OP_PLUS_UCONST in buf
  }

  // ---- compiled expressions ----

  datatype CompiledExpressionPart =
    | Code(bytes: seq<U8>)
    | Local(valueLabel: nat, trailing: bool)
    | Deref
    | Jump(target: I16, conditionally: bool)
    | LandingPad(originalPos: nat)

  type I16 = x: int | -0x8000 <= x < 0x8000

  datatype CompiledExpression = CompiledExpression(parts: seq<CompiledExpressionPart>, needDeref: bool, jumpArcs: map<nat, nat>)

  /** `from_label`: the expression that is just the wasm local `valueLabel`. */
  function FromLabel(valueLabel: nat): (e: CompiledExpression)
    ensures |e.parts| == 1 && e.parts[0].Local? && e.parts[0].valueLabel == valueLabel
  {
    CompiledExpression([Local(valueLabel, true)], false, map[])
  }

  /** `is_simple`: a single piece of raw code, or nothing. */
  predicate IsSimple(e: CompiledExpression)
  {
    (|e.parts| == 1 && e.parts[0].Code?) || e.parts == []
  }

  /** `build`: only a single piece of raw code becomes an expression. */
  function Build(e: CompiledExpression): (r: Option<seq<U8>>)
    ensures r.Some? <==> |e.parts| == 1 && e.parts[0].Code?
    ensures r.Some? ==> r.value == e.parts[0].bytes
  {
    if |e.parts| == 1 && e.parts[0].Code? then Some(e.parts[0].bytes) else None
  }

  /** A simple expression builds exactly when it is not empty, and an
   *  expression naming a local never builds. */
  lemma BuildOfSimple(e: CompiledExpression, valueLabel: nat)
    ensures IsSimple(e) ==> (Build(e).Some? <==> e.parts != [])
    ensures Build(e).Some? ==> IsSimple(e)
    ensures Build(FromLabel(valueLabel)).None? && !IsSimple(FromLabel(valueLabel))
  {
  }
}
