/**
 * Windows x64 unwind information: the register mapping of the x64 back
 * end and the UNWIND_INFO byte layout of the Windows x64 exception
 * handling ABI ("x64 exception handling", section "Struct UNWIND_INFO"
 * and "Struct UNWIND_CODE"), with a decoder that inverts the encoding.
 */
module WinX64 {
  import opened Base
  import opened X64Regs

  datatype MappedRegister = Int(hw: HwEnc) | Xmm(hw: HwEnc)

  /** Maps an allocator register to the Windows register namespace: integer
   *  registers and XMM registers by hardware encoding; any other class
   *  panics, with no message. */
  function Map(reg: Reg): (r: Exec<MappedRegister>)
    ensures r.Done? <==> reg.cls in {I64, V128}
    ensures r.Done? ==> r.value.hw == reg.hw
    ensures r.Done? ==> (r.value.Int? <==> reg.cls == I64)
    ensures r.Panic? ==> r.msg == "explicit panic"
  {
    match reg.cls
    case I64 => Done(Int(reg.hw))
    case V128 => Done(Xmm(reg.hw))
    case _ => Panic("explicit panic")
  }

  datatype UnwindCode =
    | PushRegister(offset: U8, reg: HwEnc)
    | SaveXmm(offset: U8, reg: HwEnc, stackOffset: U32)
    | StackAlloc(offset: U8, size: U32)

  datatype UnwindInfo = UnwindInfo(
    flags: U8,
    prologueSize: U8,
    frameRegister: Option<HwEnc>,
    frameRegisterOffset: U8,
    unwindCodes: seq<UnwindCode>)

  const UWOP_PUSH_NONVOL: U8 := 0
  const UWOP_ALLOC_LARGE: U8 := 1
  const UWOP_ALLOC_SMALL: U8 := 2
  const UWOP_SAVE_XMM128: U8 := 8
  const UWOP_SAVE_XMM128_FAR: U8 := 9
  const UNWIND_INFO_VERSION: U8 := 1

  /** 8 .. 128 bytes in multiples of 8 fit the one-slot small form. */
  predicate IsSmallAlloc(size: nat)
  {
    size % 8 == 0 && 8 <= size <= 128
  }

  /** Up to 512K - 8 bytes in multiples of 8 fit the scaled 16-bit form. */
  predicate IsMediumAlloc(size: nat)
  {
    size % 8 == 0 && 128 < size <= 0x7_FFF8
  }

  /** A 16-byte aligned save slot below 16 * 64K fits the scaled form. */
  predicate IsNearXmmSave(stackOffset: nat)
  {
    stackOffset % 16 == 0 && stackOffset / 16 <= 0xFFFF
  }

  /** Number of 16-bit slots a code occupies. */
  function CodeNodes(c: UnwindCode): (n: nat)
    ensures 1 <= n <= 3
  {
    match c
    case PushRegister(_, _) => 1
    case SaveXmm(_, _, off) => if IsNearXmmSave(off) then 2 else 3
    case StackAlloc(_, size) => if IsSmallAlloc(size) then 1 else if IsMediumAlloc(size) then 2 else 3
  }

  function NodeCount(codes: seq<UnwindCode>): (n: nat)
    ensures |codes| <= n <= 3 * |codes|
  {
    if codes == [] then 0 else NodeCount(codes[..|codes| - 1]) + CodeNodes(codes[|codes| - 1])
  }

  /** Bytes of UNWIND_INFO: the 4-byte header, two bytes per slot, and two
   *  bytes of padding when the slot count is odd. */
  function EmitSize(info: UnwindInfo): (n: nat)
    ensures n % 4 == 0 && n >= 4
  {
    var nodes := NodeCount(info.unwindCodes);
    4 + 2 * nodes + (if nodes % 2 == 1 then 2 else 0)
  }

  /** The slots of one code: the prologue offset byte, then the operation
   *  in the low nibble and its info in the high nibble, then any operand
   *  slots (little-endian). */
  function EncodeCode(c: UnwindCode): (bytes: seq<U8>)
    ensures |bytes| == 2 * CodeNodes(c)
  {
    match c
    case PushRegister(off, reg) => [off, reg * 16 + UWOP_PUSH_NONVOL]
    case SaveXmm(off, reg, so) =>
      if IsNearXmmSave(so) then [off, reg * 16 + UWOP_SAVE_XMM128] + LittleEndian(so / 16, 2)
      else [off, reg * 16 + UWOP_SAVE_XMM128_FAR] + LittleEndian(so, 4)
    case StackAlloc(off, size) =>
      if IsSmallAlloc(size) then [off, ((size - 8) / 8) * 16 + UWOP_ALLOC_SMALL]
      else if IsMediumAlloc(size) then [off, UWOP_ALLOC_LARGE] + LittleEndian(size / 8, 2)
      else [off, 16 + UWOP_ALLOC_LARGE] + LittleEndian(size, 4)
  }

  /** Codes are written last first, so that prologue offsets descend. */
  function EncodeReversed(codes: seq<UnwindCode>): (bytes: seq<U8>)
    ensures |bytes| == 2 * NodeCount(codes)
  {
    if codes == [] then [] else EncodeCode(codes[|codes| - 1]) + EncodeReversed(codes[..|codes| - 1])
  }

  function FrameByte(info: UnwindInfo): U8
  {
    match info.frameRegister
    case None => 0
    case Some(reg) => (info.frameRegisterOffset * 16 + reg) % 256
  }

  /** UNWIND_INFO as the emitter writes it. */
  function Emit(info: UnwindInfo): (bytes: seq<U8>)
    ensures |bytes| == EmitSize(info)
    ensures bytes[0] == (info.flags * 8) % 256 + UNWIND_INFO_VERSION
    ensures bytes[1] == info.prologueSize
    ensures bytes[2] == NodeCount(info.unwindCodes) % 256
  {
    var nodes := NodeCount(info.unwindCodes);
    [(info.flags * 8) % 256 + UNWIND_INFO_VERSION, info.prologueSize, nodes % 256, FrameByte(info)]
      + EncodeReversed(info.unwindCodes)
      + (if nodes % 2 == 1 then [0, 0] else [])
  }

  // ---- decoding, the inverse of Emit ----

  /** Decodes the code at the front of a slot stream, with its length in bytes. */
  function DecodeCode(bytes: seq<U8>): (r: Option<(UnwindCode, nat)>)
    ensures r.Some? ==> 2 <= r.value.1 <= |bytes|
  {
    if |bytes| < 2 then None
    else
      var off, op, info := bytes[0], bytes[1] % 16, bytes[1] / 16;
      if op == UWOP_PUSH_NONVOL then Some((PushRegister(off, info), 2))
      else if op == UWOP_ALLOC_SMALL then Some((StackAlloc(off, info * 8 + 8), 2))
      else if op == UWOP_ALLOC_LARGE && info == 0 && |bytes| >= 4 then
        Some((StackAlloc(off, FromLittleEndian(bytes[2..4]) * 8), 4))
      else if op == UWOP_ALLOC_LARGE && info == 1 && |bytes| >= 6 then
        Some((StackAlloc(off, FromLittleEndian(bytes[2..6])), 6))
      else if op == UWOP_SAVE_XMM128 && |bytes| >= 4 then
        Some((SaveXmm(off, info, FromLittleEndian(bytes[2..4]) * 16), 4))
      else if op == UWOP_SAVE_XMM128_FAR && |bytes| >= 6 then
        Some((SaveXmm(off, info, FromLittleEndian(bytes[2..6])), 6))
      else None
  }

  /** Decodes a whole slot stream into codes, restoring prologue order. */
  function DecodeReversed(bytes: seq<U8>): (r: Option<seq<UnwindCode>>)
    decreases |bytes|
  {
    if bytes == [] then Some([])
    else match DecodeCode(bytes)
      case None => None
      case Some((c, n)) =>
        match DecodeReversed(bytes[n..])
        case None => None
        case Some(rest) => Some(rest + [c])
  }

  /** Decodes UNWIND_INFO. */
  function Parse(bytes: seq<U8>): (r: Option<UnwindInfo>)
  {
    if |bytes| < 4 || bytes[0] % 8 != UNWIND_INFO_VERSION then None
    else
      var count: nat := bytes[2];
      if |bytes| < 4 + 2 * count then None
      else match DecodeReversed(bytes[4..4 + 2 * count])
        case None => None
        case Some(codes) =>
          var frameRegister: Option<HwEnc> := if bytes[3] == 0 then None else Some(bytes[3] % 16);
          Some(UnwindInfo(bytes[0] / 8, bytes[1], frameRegister, bytes[3] / 16, codes))
  }

  /** What the encoding can represent: flags fit five bits, the slot count
   *  fits a byte, the frame offset fits a nibble, and "no frame register"
   *  is told apart from rax with offset 0. */
  predicate WellFormed(info: UnwindInfo)
  {
    && info.flags < 32
    && NodeCount(info.unwindCodes) < 256
    && info.frameRegisterOffset < 16
    && (info.frameRegister.None? ==> info.frameRegisterOffset == 0)
    && (info.frameRegister == Some(0) ==> info.frameRegisterOffset != 0)
  }

  lemma DecodeEncodeCode(c: UnwindCode, tail: seq<U8>)
    ensures DecodeCode(EncodeCode(c) + tail) == Some((c, |EncodeCode(c)|))
  {
    match c
    case PushRegister(_, _) =>
    case SaveXmm(off, reg, so) => DecodeEncodeSaveXmm(off, reg, so, tail);
    case StackAlloc(off, size) => DecodeEncodeStackAlloc(off, size, tail);
  }

  lemma DecodeEncodeSaveXmm(off: U8, reg: HwEnc, so: U32, tail: seq<U8>)
    ensures DecodeCode(EncodeCode(SaveXmm(off, reg, so)) + tail) == Some((SaveXmm(off, reg, so), |EncodeCode(SaveXmm(off, reg, so))|))
  {
    var bytes := EncodeCode(SaveXmm(off, reg, so)) + tail;
    if IsNearXmmSave(so) {
      assert bytes[2..4] == LittleEndian(so / 16, 2);
      LittleEndianOfSmall(so / 16, 2);
    } else {
      assert bytes[2..6] == LittleEndian(so, 4);
      LittleEndianOfSmall(so, 4);
    }
  }

  lemma DecodeEncodeStackAlloc(off: U8, size: U32, tail: seq<U8>)
    ensures DecodeCode(EncodeCode(StackAlloc(off, size)) + tail) == Some((StackAlloc(off, size), |EncodeCode(StackAlloc(off, size))|))
  {
    var bytes := EncodeCode(StackAlloc(off, size)) + tail;
    if IsSmallAlloc(size) {
    } else if IsMediumAlloc(size) {
      assert bytes[2..4] == LittleEndian(size / 8, 2);
      LittleEndianOfSmall(size / 8, 2);
    } else {
      assert bytes[2..6] == LittleEndian(size, 4);
      LittleEndianOfSmall(size, 4);
    }
  }

  lemma {:induction false} DecodeEncodeReversed(codes: seq<UnwindCode>)
    ensures DecodeReversed(EncodeReversed(codes)) == Some(codes)
  {
    if codes != [] {
      var last, init := codes[|codes| - 1], codes[..|codes| - 1];
      assert init + [last] == codes;
      var head, rest := EncodeCode(last), EncodeReversed(init);
      assert EncodeReversed(codes) == head + rest;
      DecodeEncodeCode(last, rest);
      assert (head + rest)[|head|..] == rest;
      DecodeEncodeReversed(init);
    }
  }

  /** Decoding what the emitter writes gives back the unwind information. */
  lemma EmitRoundTrip(info: UnwindInfo)
    requires WellFormed(info)
    ensures Parse(Emit(info)) == Some(info)
  {
    var nodes := NodeCount(info.unwindCodes);
    var header: seq<U8> := [(info.flags * 8) % 256 + UNWIND_INFO_VERSION, info.prologueSize, nodes % 256, FrameByte(info)];
    var body := EncodeReversed(info.unwindCodes);
    var pad: seq<U8> := if nodes % 2 == 1 then [0, 0] else [];
    assert Emit(info) == header + body + pad;
    FlagsByteRoundTrip(info.flags);
    assert header[2] == nodes;
    DecodeEncodeReversed(info.unwindCodes);
    FrameByteRoundTrip(info);
    ParseFraming(header, body, pad, info.unwindCodes);
  }

  /** The first header byte holds the version in its low three bits and
   *  the flags above them. */
  lemma FlagsByteRoundTrip(flags: U8)
    requires flags < 32
    ensures ((flags * 8) % 256 + UNWIND_INFO_VERSION) % 8 == UNWIND_INFO_VERSION
    ensures ((flags * 8) % 256 + UNWIND_INFO_VERSION) / 8 == flags
  {
    assert (flags * 8) % 256 == flags * 8;
    DivModUnique(flags * 8 + UNWIND_INFO_VERSION, 8, flags, UNWIND_INFO_VERSION);
  }

  /** Parsing a header, its slot stream and any padding: the fields come
   *  from the header and the codes from decoding the stream. */
  lemma ParseFraming(header: seq<U8>, body: seq<U8>, pad: seq<U8>, codes: seq<UnwindCode>)
    requires |header| == 4 && header[0] % 8 == UNWIND_INFO_VERSION && |body| == 2 * (header[2] as int)
    requires DecodeReversed(body) == Some(codes)
    ensures Parse(header + body + pad) ==
      Some(UnwindInfo(header[0] / 8, header[1], if header[3] == 0 then None else Some(header[3] % 16), header[3] / 16, codes))
  {
    var bytes := header + body + pad;
    assert bytes[..4] == header;
    assert bytes[4..4 + |body|] == body;
  }

  lemma FrameByteRoundTrip(info: UnwindInfo)
    requires WellFormed(info)
    ensures FrameByte(info) / 16 == info.frameRegisterOffset
    ensures info.frameRegister.None? <==> FrameByte(info) == 0
    ensures info.frameRegister.Some? ==> FrameByte(info) % 16 == info.frameRegister.value
  {
  }

  // ---- the three allocation sizes the back end's tests pin down ----

  /** push rbp at offset 2, a 64-byte frame allocated at offset 9: one
   *  small-allocation slot. */
  lemma SmallAllocBytes()
    ensures var info := UnwindInfo(0, 9, None, 0, [PushRegister(2, RBP.hw), StackAlloc(9, 64)]);
      EmitSize(info) == 8 && Emit(info) == [0x01, 0x09, 0x02, 0x00, 0x09, 0x72, 0x02, 0x50]
  {
    var codes := [PushRegister(2, RBP.hw), StackAlloc(9, 64)];
    TwoCodes(codes);
  }

  lemma TwoCodes(codes: seq<UnwindCode>)
    requires |codes| == 2
    ensures NodeCount(codes) == CodeNodes(codes[0]) + CodeNodes(codes[1])
    ensures EncodeReversed(codes) == EncodeCode(codes[1]) + EncodeCode(codes[0])
  {
    assert codes[..1][..0] == [];
    assert codes[..1] == [codes[0]];
  }

  /** A 10000-byte frame: the scaled 16-bit form, and two bytes of padding. */
  lemma MediumAllocBytes()
    ensures var info := UnwindInfo(0, 27, None, 0, [PushRegister(2, RBP.hw), StackAlloc(27, 10000)]);
      EmitSize(info) == 12
      && Emit(info) == [0x01, 0x1B, 0x03, 0x00, 0x1B, 0x01, 0xE2, 0x04, 0x02, 0x50, 0x00, 0x00]
  {
    TwoCodes([PushRegister(2, RBP.hw), StackAlloc(27, 10000)]);
    assert LittleEndian(1250, 2) == [0xE2, 0x04];
  }

  /** A 1000000-byte frame: the unscaled 32-bit form. */
  lemma LargeAllocBytes()
    ensures var info := UnwindInfo(0, 27, None, 0, [PushRegister(2, RBP.hw), StackAlloc(27, 1000000)]);
      EmitSize(info) == 12
      && Emit(info) == [0x01, 0x1B, 0x04, 0x00, 0x1B, 0x11, 0x40, 0x42, 0x0F, 0x00, 0x02, 0x50]
  {
    TwoCodes([PushRegister(2, RBP.hw), StackAlloc(27, 1000000)]);
    assert LittleEndian(15, 2) == [0x0F, 0x00];
    assert LittleEndian(1000000, 4) == [0x40, 0x42] + LittleEndian(15, 2);
    assert EncodeCode(StackAlloc(27, 1000000)) == [0x1B, 0x11, 0x40, 0x42, 0x0F, 0x00];
  }
}
