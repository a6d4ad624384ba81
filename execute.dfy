/**
 * The opcode tables of the CPU (core/src/hardware/cpu/execute.rs): `execute`
 * and `execute_prefix` as pure decoders into the instruction they dispatch
 * to, and the operand decoders `horizontal_decode`, `vertical_decode` and
 * `decode_prefixed_bit`. The dispatch itself is `Cpu.Cpu.Execute`.
 */
module Execute {
  import opened Bits
  import Instructions

  /** `Reg8` and `Reg16` (declared in core/src/hardware/registers.rs). */
  datatype Reg8 = A | B | C | D | E | H | L
  datatype Reg16 = AF | BC | DE | HL | SP

  /** `InstructionAddress`: memory operands and immediates. */
  datatype InstructionAddress = BCI | DEI | HLI | HLIP | HLIN | Direct | DirectMem | IoDirect | IoC

  /** `WrapperEnum`: an eight-bit operand. */
  datatype Operand = Reg(r: Reg8) | Addr(a: InstructionAddress)

  /** `JumpModifier`. */
  datatype JumpModifier = NotZero | Zero | NotCarry | Carry | Always | JumpHL

  /** The CPU method an unprefixed opcode dispatches to, with its arguments. */
  datatype Op =
    | Nop
    | LoadImm16(r: Reg16)
    | StoreSp
    | Load8(dst: Operand, src: Operand)
    | Inc16(r: Reg16)
    | Dec16(r: Reg16)
    | Inc(target: Operand)
    | Dec(target: Operand)
    | Rlca | Rrca | Rla | Rra
    | Stop
    | JumpRelative(cond: JumpModifier)
    | Add16(r: Reg16)
    | Daa | Cpl | Scf | Ccf
    | Halt
    | Alu(kind: Instructions.AluKind, src: Operand)
    | Ret(cond: JumpModifier)
    | Pop(r: Reg16)
    | Jump(cond: JumpModifier)
    | Call(cond: JumpModifier)
    | Push(r: Reg16)
    | Rst(vector: Byte)
    | Prefix
    | Unknown
    | Reti
    | AddSp
    | Di | Ei
    | LoadSpI
    | LoadSpHl

  /** The eight rotate and shift groups of the CB table, in opcode order. */
  datatype ShiftKind = Rlc | Rrc | Rl | Rr | Sla | Sra | Swap | Srl

  /** The CPU method a CB-prefixed opcode dispatches to. */
  datatype PrefixOp =
    | Shift(kind: ShiftKind, target: Operand)
    | Bit(bit: Byte, target: Operand)
    | Res(bit: Byte, target: Operand)
    | Set(bit: Byte, target: Operand)

  /** The operands selected by opcode bits 0-2, in order. */
  const OPERANDS: seq<Operand> :=
    [Reg(B), Reg(C), Reg(D), Reg(E), Reg(H), Reg(L), Addr(HLI), Reg(A)]

  /** `horizontal_decode`: the operand in opcode bits 0-2. */
  function HorizontalDecode(opcode: Byte): (r: Operand)
  {
    var nibble := (opcode & 0x0F) % 8;
    if nibble == 0 then Reg(B)
    else if nibble == 1 then Reg(C)
    else if nibble == 2 then Reg(D)
    else if nibble == 3 then Reg(E)
    else if nibble == 4 then Reg(H)
    else if nibble == 5 then Reg(L)
    else if nibble == 6 then Addr(HLI)
    else Reg(A)
  }

  /** `horizontal_decode` picks entry `opcode & 7` of the operand order; its panic arm is unreachable. */
  lemma HorizontalDecodeSpec(opcode: Byte)
    ensures HorizontalDecode(opcode) == OPERANDS[(opcode & 7) as int]
  {
  }

  /**
   * `vertical_decode`: the destination selected by the high nibble (4-7) and
   * bit 3; `None` is the panic for any other high nibble.
   */
  function VerticalDecode(opcode: Byte): (r: Option<Operand>)
  {
    var high := (opcode & 0xF0) >> 4;
    var upper := opcode & 0x0F >= 8;
    if high == 4 then Some(if upper then Reg(C) else Reg(B))
    else if high == 5 then Some(if upper then Reg(E) else Reg(D))
    else if high == 6 then Some(if upper then Reg(L) else Reg(H))
    else if high == 7 then Some(if upper then Reg(A) else Addr(HLI))
    else None
  }

  /**
   * `vertical_decode` is defined exactly on 0x40-0x7F, and there it picks
   * entry `(opcode >> 3) & 7` of the same operand order `horizontal_decode` uses.
   */
  lemma VerticalDecodeSpec(opcode: Byte)
    ensures VerticalDecode(opcode).Some? <==> 0x40 <= opcode <= 0x7F
    ensures VerticalDecode(opcode).Some? ==>
              VerticalDecode(opcode).value == OPERANDS[((opcode >> 3) & 7) as int]
  {
  }

  /** `decode_prefixed_bit`: the bit number of a BIT, RES or SET opcode. */
  function DecodePrefixedBit(opcode: Byte): (n: Byte)
  {
    var relevant := ((opcode & 0xF0) >> 4) % 4;
    var lower := opcode & 0x0F;
    if relevant == 0 then (if lower > 7 then 1 else 0)
    else if relevant == 1 then (if lower > 7 then 3 else 2)
    else if relevant == 2 then (if lower > 7 then 5 else 4)
    else (if lower > 7 then 7 else 6)
  }

  /** The bit number is opcode bits 3-5, so it is below 8 and the panic arm is unreachable. */
  lemma DecodePrefixedBitSpec(opcode: Byte)
    ensures DecodePrefixedBit(opcode) == (opcode >> 3) & 7
    ensures DecodePrefixedBit(opcode) < 8
  {
  }

  /** `execute`: the instruction each unprefixed opcode runs. */
  function Decode(opcode: Byte): (op: Op)
  {
    if opcode < 0x40 then DecodeLow(opcode)
    else if opcode == 0x76 then Halt
    else if opcode < 0x80 then Load8(VerticalDecode(opcode).value, HorizontalDecode(opcode))
    else if opcode < 0xC0 then Alu(AluGroup(opcode), HorizontalDecode(opcode))
    else DecodeHigh(opcode)
  }

  /** The 0x00-0x3F rows of the `execute` table. */
  function DecodeLow(opcode: Byte): (op: Op)
    requires opcode < 0x40
  {
    if opcode < 0x10 then Row0(opcode)
    else if opcode < 0x20 then Row1(opcode)
    else if opcode < 0x30 then Row2(opcode)
    else Row3(opcode)
  }

  function Row0(opcode: Byte): (op: Op)
    requires opcode <= 0x0F
  {
    match opcode
    case 0x00 => Nop
    case 0x01 => LoadImm16(BC)
    case 0x02 => Load8(Addr(BCI), Reg(A))
    case 0x03 => Inc16(BC)
    case 0x04 => Inc(Reg(B))
    case 0x05 => Dec(Reg(B))
    case 0x06 => Load8(Reg(B), Addr(Direct))
    case 0x07 => Rlca
    case 0x08 => StoreSp
    case 0x09 => Add16(BC)
    case 0x0A => Load8(Reg(A), Addr(BCI))
    case 0x0B => Dec16(BC)
    case 0x0C => Inc(Reg(C))
    case 0x0D => Dec(Reg(C))
    case 0x0E => Load8(Reg(C), Addr(Direct))
    case _ => Rrca
  }

  function Row1(opcode: Byte): (op: Op)
    requires 0x10 <= opcode <= 0x1F
  {
    match opcode
    case 0x10 => Stop
    case 0x11 => LoadImm16(DE)
    case 0x12 => Load8(Addr(DEI), Reg(A))
    case 0x13 => Inc16(DE)
    case 0x14 => Inc(Reg(D))
    case 0x15 => Dec(Reg(D))
    case 0x16 => Load8(Reg(D), Addr(Direct))
    case 0x17 => Rla
    case 0x18 => JumpRelative(Always)
    case 0x19 => Add16(DE)
    case 0x1A => Load8(Reg(A), Addr(DEI))
    case 0x1B => Dec16(DE)
    case 0x1C => Inc(Reg(E))
    case 0x1D => Dec(Reg(E))
    case 0x1E => Load8(Reg(E), Addr(Direct))
    case _ => Rra
  }

  function Row2(opcode: Byte): (op: Op)
    requires 0x20 <= opcode <= 0x2F
  {
    match opcode
    case 0x20 => JumpRelative(NotZero)
    case 0x21 => LoadImm16(HL)
    case 0x22 => Load8(Addr(HLIP), Reg(A))
    case 0x23 => Inc16(HL)
    case 0x24 => Inc(Reg(H))
    case 0x25 => Dec(Reg(H))
    case 0x26 => Load8(Reg(H), Addr(Direct))
    case 0x27 => Daa
    case 0x28 => JumpRelative(Zero)
    case 0x29 => Add16(HL)
    case 0x2A => Load8(Reg(A), Addr(HLIP))
    case 0x2B => Dec16(HL)
    case 0x2C => Inc(Reg(L))
    case 0x2D => Dec(Reg(L))
    case 0x2E => Load8(Reg(L), Addr(Direct))
    case _ => Cpl
  }

  function Row3(opcode: Byte): (op: Op)
    requires 0x30 <= opcode <= 0x3F
  {
    match opcode
    case 0x30 => JumpRelative(NotCarry)
    case 0x31 => LoadImm16(SP)
    case 0x32 => Load8(Addr(HLIN), Reg(A))
    case 0x33 => Inc16(SP)
    case 0x34 => Inc(Addr(HLI))
    case 0x35 => Dec(Addr(HLI))
    case 0x36 => Load8(Addr(HLI), Addr(Direct))
    case 0x37 => Scf
    case 0x38 => JumpRelative(Carry)
    case 0x39 => Add16(SP)
    case 0x3A => Load8(Reg(A), Addr(HLIN))
    case 0x3B => Dec16(SP)
    case 0x3C => Inc(Reg(A))
    case 0x3D => Dec(Reg(A))
    case 0x3E => Load8(Reg(A), Addr(Direct))
    case _ => Ccf
  }


  /** The 0xC0-0xFF rows of the `execute` table. */
  function DecodeHigh(opcode: Byte): (op: Op)
    requires 0xC0 <= opcode
  {
    if opcode < 0xD0 then RowC(opcode)
    else if opcode < 0xE0 then RowD(opcode)
    else if opcode < 0xF0 then RowE(opcode)
    else RowF(opcode)
  }

  function RowC(opcode: Byte): (op: Op)
    requires 0xC0 <= opcode <= 0xCF
  {
    match opcode
    case 0xC0 => Ret(NotZero)
    case 0xC1 => Pop(BC)
    case 0xC2 => Jump(NotZero)
    case 0xC3 => Jump(Always)
    case 0xC4 => Call(NotZero)
    case 0xC5 => Push(BC)
    case 0xC6 => Alu(Instructions.Add, Addr(Direct))
    case 0xC7 => Rst(0x00)
    case 0xC8 => Ret(Zero)
    case 0xC9 => Ret(Always)
    case 0xCA => Jump(Zero)
    case 0xCB => Prefix
    case 0xCC => Call(Zero)
    case 0xCD => Call(Always)
    case 0xCE => Alu(Instructions.Adc, Addr(Direct))
    case _ => Rst(0x08)
  }

  function RowD(opcode: Byte): (op: Op)
    requires 0xD0 <= opcode <= 0xDF
  {
    match opcode
    case 0xD0 => Ret(NotCarry)
    case 0xD1 => Pop(DE)
    case 0xD2 => Jump(NotCarry)
    case 0xD3 => Unknown
    case 0xD4 => Call(NotCarry)
    case 0xD5 => Push(DE)
    case 0xD6 => Alu(Instructions.Sub, Addr(Direct))
    case 0xD7 => Rst(0x10)
    case 0xD8 => Ret(Carry)
    case 0xD9 => Reti
    case 0xDA => Jump(Carry)
    case 0xDB => Unknown
    case 0xDC => Call(Carry)
    case 0xDD => Unknown
    case 0xDE => Alu(Instructions.Sbc, Addr(Direct))
    case _ => Rst(0x18)
  }

  function RowE(opcode: Byte): (op: Op)
    requires 0xE0 <= opcode <= 0xEF
  {
    match opcode
    case 0xE0 => Load8(Addr(IoDirect), Reg(A))
    case 0xE1 => Pop(HL)
    case 0xE2 => Load8(Addr(IoC), Reg(A))
    case 0xE3 => Unknown
    case 0xE4 => Unknown
    case 0xE5 => Push(HL)
    case 0xE6 => Alu(Instructions.And, Addr(Direct))
    case 0xE7 => Rst(0x20)
    case 0xE8 => AddSp
    case 0xE9 => Jump(JumpHL)
    case 0xEA => Load8(Addr(DirectMem), Reg(A))
    case 0xEB => Unknown
    case 0xEC => Unknown
    case 0xED => Unknown
    case 0xEE => Alu(Instructions.Xor, Addr(Direct))
    case _ => Rst(0x28)
  }

  function RowF(opcode: Byte): (op: Op)
    requires 0xF0 <= opcode <= 0xFF
  {
    match opcode
    case 0xF0 => Load8(Reg(A), Addr(IoDirect))
    case 0xF1 => Pop(AF)
    case 0xF2 => Load8(Reg(A), Addr(IoC))
    case 0xF3 => Di
    case 0xF4 => Unknown
    case 0xF5 => Push(AF)
    case 0xF6 => Alu(Instructions.Or, Addr(Direct))
    case 0xF7 => Rst(0x30)
    case 0xF8 => LoadSpI
    case 0xF9 => LoadSpHl
    case 0xFA => Load8(Reg(A), Addr(DirectMem))
    case 0xFB => Ei
    case 0xFC => Unknown
    case 0xFD => Unknown
    case 0xFE => Alu(Instructions.Cp, Addr(Direct))
    case _ => Rst(0x38)
  }


  /** The operation of the 0x80-0xBF block, from opcode bits 3-5. */
  function AluGroup(opcode: Byte): (k: Instructions.AluKind)
  {
    var g := (opcode >> 3) & 7;
    if g == 0 then Instructions.Add
    else if g == 1 then Instructions.Adc
    else if g == 2 then Instructions.Sub
    else if g == 3 then Instructions.Sbc
    else if g == 4 then Instructions.And
    else if g == 5 then Instructions.Xor
    else if g == 6 then Instructions.Or
    else Instructions.Cp
  }

  /** The opcodes the CPU has no instruction for. */
  predicate IsUnused(opcode: Byte)
  {
    opcode == 0xD3 || opcode == 0xDB || opcode == 0xDD || opcode == 0xE3 || opcode == 0xE4 ||
    opcode == 0xEB || opcode == 0xEC || opcode == 0xED || opcode == 0xF4 || opcode == 0xFC || opcode == 0xFD
  }

  /** Exactly the eleven unused opcodes dispatch to `unknown`, which panics. */
  lemma UnknownOpcodes(opcode: Byte)
    ensures Decode(opcode).Unknown? <==> IsUnused(opcode)
  {
    if opcode < 0x40 {
      NoUnknownLow(opcode);
    } else if 0xC0 <= opcode {
      UnknownHigh(opcode);
    }
  }

  lemma NoUnknownLow(opcode: Byte)
    requires opcode < 0x40
    ensures !DecodeLow(opcode).Unknown? && !IsUnused(opcode)
  {
  }

  lemma UnknownHigh(opcode: Byte)
    requires 0xC0 <= opcode
    ensures DecodeHigh(opcode).Unknown? <==> IsUnused(opcode)
  {
    if opcode < 0xD0 {
    } else if opcode < 0xE0 {
    } else if opcode < 0xF0 {
    } else {
    }
  }

  /** Only 0x10 dispatches to STOP, which panics as unimplemented. */
  lemma StopOpcode(opcode: Byte)
    ensures Decode(opcode).Stop? <==> opcode == 0x10
  {
    if opcode < 0x40 {
      StopLow(opcode);
    } else if 0xC0 <= opcode {
      NoStopHigh(opcode);
    }
  }

  lemma StopLow(opcode: Byte)
    requires opcode < 0x40
    ensures DecodeLow(opcode).Stop? <==> opcode == 0x10
  {
  }

  lemma NoStopHigh(opcode: Byte)
    requires 0xC0 <= opcode
    ensures !DecodeHigh(opcode).Stop?
  {
    if opcode < 0xD0 {
    } else if opcode < 0xE0 {
    } else if opcode < 0xF0 {
    } else {
    }
  }

  /**
   * 0x76 is HALT; every other opcode of 0x40-0x7F is LD with the destination
   * from `vertical_decode` and the source from `horizontal_decode`.
   */
  lemma LoadBlock(opcode: Byte)
    requires 0x40 <= opcode <= 0x7F
    ensures opcode == 0x76 ==> Decode(opcode) == Halt
    ensures opcode != 0x76 ==>
              Decode(opcode) == Load8(OPERANDS[((opcode >> 3) & 7) as int], OPERANDS[(opcode & 7) as int])
  {
    VerticalDecodeSpec(opcode);
    HorizontalDecodeSpec(opcode);
  }

  /**
   * The 0x80-0xBF block runs the same operation on the same operand as the
   * standalone decoder of instructions.rs.
   */
  lemma AluBlockAgrees(opcode: Byte)
    requires 0x80 <= opcode <= 0xBF
    ensures Instructions.Decode(opcode).Some?
    ensures Decode(opcode) ==
              Alu(Instructions.Decode(opcode).value.kind, OPERANDS[Instructions.Discriminant(Instructions.Decode(opcode).value.target) as int])
  {
    Instructions.DecodeSpec(opcode);
    HorizontalDecodeSpec(opcode);
    assert Decode(opcode) == Alu(AluGroup(opcode), HorizontalDecode(opcode));
  }

  /** The group of a rotate or shift opcode, from bits 3-5. */
  function ShiftGroup(opcode: Byte): (k: ShiftKind)
  {
    var g := (opcode >> 3) & 7;
    if g == 0 then Rlc
    else if g == 1 then Rrc
    else if g == 2 then Rl
    else if g == 3 then Rr
    else if g == 4 then Sla
    else if g == 5 then Sra
    else if g == 6 then Swap
    else Srl
  }

  /** `execute_prefix`: the instruction each CB-prefixed opcode runs. */
  function DecodePrefixed(opcode: Byte): (op: PrefixOp)
  {
    var target := HorizontalDecode(opcode);
    if opcode <= 0x07 then Shift(Rlc, target)
    else if opcode <= 0x0F then Shift(Rrc, target)
    else if opcode <= 0x17 then Shift(Rl, target)
    else if opcode <= 0x1F then Shift(Rr, target)
    else if opcode <= 0x27 then Shift(Sla, target)
    else if opcode <= 0x2F then Shift(Sra, target)
    else if opcode <= 0x37 then Shift(Swap, target)
    else if opcode <= 0x3F then Shift(Srl, target)
    else if opcode <= 0x7F then Bit(DecodePrefixedBit(opcode), target)
    else if opcode <= 0xBF then Res(DecodePrefixedBit(opcode), target)
    else Set(DecodePrefixedBit(opcode), target)
  }

  /**
   * The CB table is partitioned by the top two bits: 0x00-0x3F are the eight
   * rotate and shift groups of eight (group = bits 3-5), then BIT, RES and SET
   * take 64 opcodes each with the bit number in bits 3-5; the operand is
   * always bits 0-2.
   */
  lemma PrefixPartition(opcode: Byte)
    ensures opcode < 0x40 ==> DecodePrefixed(opcode) == Shift(ShiftGroup(opcode), OPERANDS[(opcode & 7) as int])
    ensures 0x40 <= opcode < 0x80 ==> DecodePrefixed(opcode) == Bit((opcode >> 3) & 7, OPERANDS[(opcode & 7) as int])
    ensures 0x80 <= opcode < 0xC0 ==> DecodePrefixed(opcode) == Res((opcode >> 3) & 7, OPERANDS[(opcode & 7) as int])
    ensures 0xC0 <= opcode ==> DecodePrefixed(opcode) == Set((opcode >> 3) & 7, OPERANDS[(opcode & 7) as int])
  {
    HorizontalDecodeSpec(opcode);
    DecodePrefixedBitSpec(opcode);
  }
}
