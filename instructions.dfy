/**
 * The opcode decoder for the eight-bit arithmetic block 0x80-0xBF
 * (core/src/hardware/cpu/instructions.rs).
 */
module Instructions {
  import opened Bits

  /** `RegistryTarget`; the discriminants are the values of opcode bits 0-2. */
  datatype RegistryTarget = B | C | D | E | H | L | HL | A

  function Discriminant(t: RegistryTarget): (d: Byte)
  {
    match t
    case B => 0 case C => 1 case D => 2 case E => 3
    case H => 4 case L => 5 case HL => 6 case A => 7
  }

  /** The eight operations of the block, in opcode order. */
  datatype AluKind = Add | Adc | Sub | Sbc | And | Xor | Or | Cp

  datatype Instruction = Instruction(kind: AluKind, target: RegistryTarget)

  /** `RegistryTarget::decode`: opcode bits 0-2 (`(opcode & 0x0F) % 8`). */
  function DecodeTarget(opcode: Byte): (t: RegistryTarget)
  {
    var nibble := (opcode & 0x0F) % 8;
    if nibble == 0 then B
    else if nibble == 1 then C
    else if nibble == 2 then D
    else if nibble == 3 then E
    else if nibble == 4 then H
    else if nibble == 5 then L
    else if nibble == 6 then HL
    else A
  }

  /** The decoded target's discriminant is `opcode & 7`, so the panic arm is unreachable. */
  lemma DecodeTargetIsLowBits(opcode: Byte)
    ensures Discriminant(DecodeTarget(opcode)) == opcode & 7
  {
  }

  /** Decoding the target is inverse to the discriminant on the low three bits. */
  lemma DecodeTargetOfDiscriminant(t: RegistryTarget, high: Byte)
    ensures DecodeTarget((high & 0xF8) | Discriminant(t)) == t
  {
  }

  /** `Instruction::decode`; `None` is the panic on an opcode outside 0x80-0xBF. */
  function Decode(opcode: Byte): (r: Option<Instruction>)
  {
    var t := DecodeTarget(opcode);
    if 0x80 <= opcode <= 0x87 then Some(Instruction(Add, t))
    else if 0x88 <= opcode <= 0x8F then Some(Instruction(Adc, t))
    else if 0x90 <= opcode <= 0x97 then Some(Instruction(Sub, t))
    else if 0x98 <= opcode <= 0x9F then Some(Instruction(Sbc, t))
    else if 0xA0 <= opcode <= 0xA7 then Some(Instruction(And, t))
    else if 0xA8 <= opcode <= 0xAF then Some(Instruction(Xor, t))
    else if 0xB0 <= opcode <= 0xB7 then Some(Instruction(Or, t))
    else if 0xB8 <= opcode <= 0xBF then Some(Instruction(Cp, t))
    else None
  }

  /** The operation's place in opcode order. */
  function KindIndex(k: AluKind): (i: Byte)
  {
    match k
    case Add => 0 case Adc => 1 case Sub => 2 case Sbc => 3
    case And => 4 case Xor => 5 case Or => 6 case Cp => 7
  }

  /**
   * Decoding succeeds exactly on 0x80-0xBF; there the operation is group
   * `(opcode - 0x80) / 8` (opcode bits 3-5) and the target is bits 0-2, so the
   * opcode is recovered from the instruction.
   */
  lemma DecodeSpec(opcode: Byte)
    ensures Decode(opcode).Some? <==> 0x80 <= opcode <= 0xBF
    ensures Decode(opcode).Some? ==>
              KindIndex(Decode(opcode).value.kind) == (opcode >> 3) & 7 &&
              Discriminant(Decode(opcode).value.target) == opcode & 7 &&
              opcode == 0x80 | (KindIndex(Decode(opcode).value.kind) << 3) | Discriminant(Decode(opcode).value.target)
  {
    DecodeTargetIsLowBits(opcode);
  }
}
