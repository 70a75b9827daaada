/**
 * Machine registers as the x64 back end's register allocator names them:
 * a register class and a 4-bit hardware encoding.
 */
module X64Regs {

  datatype RegClass = I32 | F32 | I64 | F64 | V128

  /** x86-64 has 16 general-purpose and 16 XMM registers, so a real
   *  register's hardware encoding is below 16. */
  type HwEnc = x: int | 0 <= x < 16

  datatype Reg = Reg(cls: RegClass, hw: HwEnc)

  const RSP: Reg := Reg(I64, 4)
  const RBP: Reg := Reg(I64, 5)
}
