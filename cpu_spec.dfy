/**
 * The CPU as a state machine over values (core/src/hardware/cpu/mod.rs,
 * fetch.rs and execute.rs): every instruction, the M-cycle bookkeeping and
 * the interrupt dispatch are functions from one `CpuState` to the next. The
 * `Cpu` class of module Cpu performs the same steps in place and is proved to
 * agree with these functions.
 */
module CpuSpec {
  import opened Bits
  import opened Execute
  import FR = FlagRegisters
  import Arith = Alu
  import Instructions
  import Interrupts
  import Timer

  /**
   * The bytes of the 64 KiB address space, keyed by `Cell(address)`; an
   * address the map leaves out holds 0.
   */
  datatype Cell = Cell(address: Word)
  type Memory = map<Cell, Byte>

  /**
   * What the CPU reaches through its memory mapper: the bytes behind
   * `read_byte`/`write_byte`, the IF and IE registers of the interrupt
   * module, the timer, and the interrupts the PPU raises. The PPU is not
   * modelled: `ppu` maps the cycle count at the end of an M-cycle to what its
   * `do_cycle(4)` returns in that M-cycle, and a count it does not map means
   * no interrupt.
   */
  datatype Bus = Bus(
    memory: Memory,
    interruptFlag: Byte,
    interruptEnable: Byte,
    timers: Timer.TimerState,
    ppu: map<nat, Byte>)

  /** The interrupt master enable, the HALT state, the pending EI and the last opcode. */
  datatype Control = Control(ime: bool, halted: bool, delayedIme: bool, opcode: Byte)

  /** The fields of `CPU`. */
  datatype CpuState = CpuState(
    cycles: nat,
    control: Control,
    regs: FR.RegFile,
    hadVblank: bool,
    bus: Bus)

  // ---------------------------------------------------------------------
  // Registers and flags

  function GetReg(r: FR.RegFile, x: Reg8): Byte
  {
    match x
    case A => r.a case B => r.b case C => r.c case D => r.d
    case E => r.e case H => r.h case L => r.l
  }

  function SetReg(r: FR.RegFile, x: Reg8, v: Byte): FR.RegFile
  {
    match x
    case A => r.(a := v) case B => r.(b := v) case C => r.(c := v) case D => r.(d := v)
    case E => r.(e := v) case H => r.(h := v) case L => r.(l := v)
  }

  /** Writing a register reads back the value and leaves every other register alone. */
  lemma SetRegSpec(r: FR.RegFile, x: Reg8, y: Reg8, v: Byte)
    ensures GetReg(SetReg(r, x, v), x) == v
    ensures x != y ==> GetReg(SetReg(r, x, v), y) == GetReg(r, y)
    ensures SetReg(r, x, v).f == r.f && SetReg(r, x, v).sp == r.sp && SetReg(r, x, v).pc == r.pc
  {
  }

  function GetPair(r: FR.RegFile, x: Reg16): Word
  {
    match x
    case AF => FR.AF(r) case BC => FR.BC(r) case DE => FR.DE(r)
    case HL => FR.HL(r) case SP => r.sp
  }

  function SetPair(r: FR.RegFile, x: Reg16, v: Word): FR.RegFile
  {
    match x
    case AF => FR.SetAF(r, v) case BC => FR.SetBC(r, v) case DE => FR.SetDE(r, v)
    case HL => FR.SetHL(r, v) case SP => r.(sp := v)
  }

  /** Every pair but AF reads back what was written; AF loses the low nibble of F. */
  lemma SetPairSpec(r: FR.RegFile, x: Reg16, v: Word)
    ensures GetPair(SetPair(r, x, v), x) == (if x == AF then v & 0xFFF0 else v)
    ensures SetPair(r, x, v).pc == r.pc
    ensures x != SP ==> SetPair(r, x, v).sp == r.sp
  {
    FR.PairRoundTrip(r, v);
    FR.SetAFTruncates(r, v);
  }

  function Zf(r: FR.RegFile): bool { FR.Contains(r.f, FR.ZF) }
  function Cf(r: FR.RegFile): bool { FR.Contains(r.f, FR.CF) }
  function Nf(r: FR.RegFile): bool { FR.Contains(r.f, FR.N) }
  function Hf(r: FR.RegFile): bool { FR.Contains(r.f, FR.H) }

  function WithZ(r: FR.RegFile, v: bool): FR.RegFile { r.(f := FR.SetFlag(r.f, FR.ZF, v)) }
  function WithN(r: FR.RegFile, v: bool): FR.RegFile { r.(f := FR.SetFlag(r.f, FR.N, v)) }
  function WithH(r: FR.RegFile, v: bool): FR.RegFile { r.(f := FR.SetFlag(r.f, FR.H, v)) }
  function WithC(r: FR.RegFile, v: bool): FR.RegFile { r.(f := FR.SetFlag(r.f, FR.CF, v)) }

  /** The four flags of an ALU result, set one after the other as the instructions do. */
  function WithFlags(r: FR.RegFile, o: Arith.AluOut): FR.RegFile
  {
    WithC(WithH(WithN(WithZ(r, o.z), o.n), o.h), o.c)
  }

  /**
   * After the flags of `o` are written, each flag getter reports its part of
   * `o`, the low nibble of F is as it was, and no other register changed.
   */
  lemma WithFlagsSpec(r: FR.RegFile, o: Arith.AluOut)
    ensures Zf(WithFlags(r, o)) == o.z && Nf(WithFlags(r, o)) == o.n
    ensures Hf(WithFlags(r, o)) == o.h && Cf(WithFlags(r, o)) == o.c
    ensures WithFlags(r, o).f & 0x0F == r.f & 0x0F
    ensures WithFlags(r, o).(f := r.f) == r
  {
  }

  /** `matches_jmp_condition`. */
  predicate Matches(r: FR.RegFile, cond: JumpModifier)
  {
    match cond
    case NotZero => !Zf(r)
    case Zero => Zf(r)
    case NotCarry => !Cf(r)
    case Carry => Cf(r)
    case Always => true
    case JumpHL => true
  }

  // ---------------------------------------------------------------------
  // The bus and the M-cycle (fetch.rs)

  /** The byte at `address`. */
  function Load(m: Memory, address: Word): Byte
  {
    if Cell(address) in m then m[Cell(address)] else 0
  }

  function Read(s: CpuState, address: Word): Byte
  {
    Load(s.bus.memory, address)
  }

  function Write(s: CpuState, address: Word, v: Byte): CpuState
  {
    s.(bus := s.bus.(memory := s.bus.memory[Cell(address) := v]))
  }

  /** The bits an optional interrupt adds to IF. */
  function Raised(intr: Option<Byte>): Byte
  {
    match intr
    case None => 0
    case Some(i) => i
  }

  /** `add_new_interrupts`: the request joins IF, and a VBlank request is remembered. */
  function AddNewInterrupts(s: CpuState, intr: Option<Byte>): (r: CpuState)
    ensures r.bus.interruptFlag == s.bus.interruptFlag | Raised(intr)
    ensures r.hadVblank <==> s.hadVblank || Raised(intr) & Interrupts.FLAG_VBLANK != 0
    ensures r.(hadVblank := s.hadVblank, bus := s.bus) == s
    ensures r.bus.(interruptFlag := s.bus.interruptFlag) == s.bus
  {
    match intr
    case None => s
    case Some(i) =>
      var vblank := if Interrupts.ContainsInterrupt(i, Interrupts.VBlank) then true else s.hadVblank;
      s.(hadVblank := vblank, bus := s.bus.(interruptFlag := s.bus.interruptFlag | i))
  }

  /** What the PPU returns in the M-cycle that ends at cycle count `c`. */
  function PpuInterrupt(b: Bus, c: nat): Option<Byte>
  {
    if c in b.ppu then Some(b.ppu[c]) else None
  }

  /** The fields an M-cycle leaves alone. */
  predicate SameCpu(s: CpuState, t: CpuState)
  {
    t.regs == s.regs && t.control == s.control && t.bus.memory == s.bus.memory &&
    t.bus.interruptEnable == s.bus.interruptEnable
  }

  /**
   * `add_cycles`: one M-cycle of four clocks; the PPU, then the timer, may
   * raise interrupts. Nothing the instructions use changes.
   */
  function AddCycles(s: CpuState): (r: CpuState)
    ensures SameCpu(s, r) && r.cycles == s.cycles + 4
  {
    var s1 := s.(cycles := s.cycles + 4);
    var s2 := AddNewInterrupts(s1, PpuInterrupt(s.bus, s1.cycles));
    var tick := Timer.Tick(s2.bus.timers);
    AddNewInterrupts(s2.(bus := s2.bus.(timers := tick.0)), tick.1)
  }

  /** The interrupts the PPU and the timer raise in the M-cycle that follows `s`. */
  function RaisedDuring(s: CpuState): Byte
  {
    Raised(PpuInterrupt(s.bus, s.cycles + 4)) | Raised(Timer.Tick(s.bus.timers).1)
  }

  /** The last step of `add_cycles`: the timer's request joins IF. */
  lemma AddCyclesSteps(s: CpuState) returns (s3: CpuState, intr: Option<Byte>)
    ensures s3.bus.timers == Timer.Tick(s.bus.timers).0
    ensures s3.bus.interruptFlag == s.bus.interruptFlag | Raised(PpuInterrupt(s.bus, s.cycles + 4))
    ensures s3.hadVblank <==> s.hadVblank || Raised(PpuInterrupt(s.bus, s.cycles + 4)) & Interrupts.FLAG_VBLANK != 0
    ensures intr == Timer.Tick(s.bus.timers).1
    ensures AddCycles(s) == AddNewInterrupts(s3, intr)
  {
    var s1 := s.(cycles := s.cycles + 4);
    var s2 := AddNewInterrupts(s1, PpuInterrupt(s.bus, s1.cycles));
    assert s2.bus.timers == s.bus.timers;
    var tick := Timer.Tick(s.bus.timers);
    s3, intr := s2.(bus := s2.bus.(timers := tick.0)), tick.1;
  }

  /** An M-cycle ticks the timer once. */
  lemma AddCyclesTicksTimer(s: CpuState)
    ensures AddCycles(s).bus.timers == Timer.Tick(s.bus.timers).0
  {
    var s3, intr := AddCyclesSteps(s);
  }

  /** An M-cycle only adds bits to IF: those the PPU and the timer raise. */
  lemma AddCyclesRaises(s: CpuState)
    ensures AddCycles(s).bus.interruptFlag == s.bus.interruptFlag | RaisedDuring(s)
  {
    var s3, intr := AddCyclesSteps(s);
  }

  /** The VBlank marker is set exactly when a VBlank is raised in the M-cycle. */
  lemma AddCyclesVblank(s: CpuState)
    ensures AddCycles(s).hadVblank <==> s.hadVblank || RaisedDuring(s) & Interrupts.FLAG_VBLANK != 0
  {
    var s3, intr := AddCyclesSteps(s);
  }

  /** `read_byte_cycle`: an M-cycle, then the read. */
  function ReadByteCycle(s: CpuState, address: Word): (CpuState, Byte)
  {
    var s1 := AddCycles(s);
    (s1, Read(s1, address))
  }

  /** `write_byte_cycle`: an M-cycle, then the write. */
  function WriteByteCycle(s: CpuState, address: Word, v: Byte): CpuState
  {
    Write(AddCycles(s), address, v)
  }

  /** `get_instr_u8`: the byte at PC, and PC moves past it. */
  function GetInstrU8(s: CpuState): (CpuState, Byte)
  {
    var (s1, v) := ReadByteCycle(s, s.regs.pc);
    (s1.(regs := s1.regs.(pc := s1.regs.pc + 1)), v)
  }

  /** `get_instr_u16`: two immediate bytes, least significant first. */
  function GetInstrU16(s: CpuState): (CpuState, Word)
  {
    var (s1, lo) := GetInstrU8(s);
    var (s2, hi) := GetInstrU8(s1);
    (s2, Join(hi, lo))
  }

  /** `read_short_cycle`: little-endian, the second byte at `address + 1` wrapping. */
  function ReadShortCycle(s: CpuState, address: Word): (CpuState, Word)
  {
    var (s1, lo) := ReadByteCycle(s, address);
    var (s2, hi) := ReadByteCycle(s1, address + 1);
    (s2, Join(hi, lo))
  }

  /** `write_short_cycle`: the low byte first. */
  function WriteShortCycle(s: CpuState, address: Word, v: Word): CpuState
  {
    WriteByteCycle(WriteByteCycle(s, address, Lo(v)), address + 1, Hi(v))
  }

  /** The word stored little-endian at `address`, read without spending cycles. */
  function Peek16(s: CpuState, address: Word): Word
  {
    Join(Read(s, address + 1), Read(s, address))
  }

  /** `get_instr_u8` returns the byte at PC, moves PC by one and spends one M-cycle. */
  lemma GetInstrU8Spec(s: CpuState)
    ensures GetInstrU8(s).1 == Read(s, s.regs.pc)
    ensures GetInstrU8(s).0.regs == s.regs.(pc := s.regs.pc + 1)
    ensures GetInstrU8(s).0.cycles == s.cycles + 4
    ensures GetInstrU8(s).0.bus.memory == s.bus.memory
  {
  }

  /** `get_instr_u16` returns the little-endian word at PC, moves PC by two and spends two M-cycles. */
  lemma GetInstrU16Spec(s: CpuState)
    ensures GetInstrU16(s).1 == Peek16(s, s.regs.pc)
    ensures GetInstrU16(s).0.regs == s.regs.(pc := s.regs.pc + 2)
    ensures GetInstrU16(s).0.cycles == s.cycles + 8
    ensures GetInstrU16(s).0.bus.memory == s.bus.memory
  {
    var (s1, lo) := GetInstrU8(s);
    GetInstrU8Spec(s);
    GetInstrU8Spec(s1);
    var (s2, hi) := GetInstrU8(s1);
    assert lo == Read(s, s.regs.pc);
    assert hi == Read(s, s.regs.pc + 1);
    assert GetInstrU16(s) == (s2, Join(hi, lo));
  }

  /** `write_short_cycle` stores the word little-endian at `address` and `address + 1`, in two M-cycles. */
  lemma WriteShortSpec(s: CpuState, address: Word, v: Word)
    ensures WriteShortCycle(s, address, v).bus.memory ==
              s.bus.memory[Cell(address) := Lo(v)][Cell(address + 1) := Hi(v)]
    ensures WriteShortCycle(s, address, v).regs == s.regs
    ensures WriteShortCycle(s, address, v).cycles == s.cycles + 8
  {
    var s1 := WriteByteCycle(s, address, Lo(v));
    assert s1.bus.memory == s.bus.memory[Cell(address) := Lo(v)];
    assert WriteShortCycle(s, address, v) == WriteByteCycle(s1, address + 1, Hi(v));
  }

  /** `read_short_cycle` reads what `write_short_cycle` stored at the same address. */
  lemma WriteShortReadShort(s: CpuState, t: CpuState, address: Word, v: Word)
    requires t == WriteShortCycle(s, address, v)
    ensures ReadShortCycle(t, address).1 == v
    ensures Peek16(t, address) == v
  {
    WriteShortSpec(s, address, v);
    StoredWord(s.bus.memory, address, v);
    var t1 := AddCycles(t);
    var t2 := AddCycles(t1);
    assert ReadShortCycle(t, address) == (t2, Join(Read(t, address + 1), Read(t, address)));
  }

  lemma StoredWord(m: Memory, address: Word, v: Word)
    ensures Join(Load(m[Cell(address) := Lo(v)][Cell(address + 1) := Hi(v)], address + 1),
                 Load(m[Cell(address) := Lo(v)][Cell(address + 1) := Hi(v)], address)) == v
  {
    SplitJoin(v);
  }

  // ---------------------------------------------------------------------
  // Operands

  /** The reads of `ToU8`: a register, a register-pair pointer, or an immediate operand. */
  function ReadU8(s: CpuState, o: Operand): (CpuState, Byte)
  {
    match o
    case Reg(x) => (s, GetReg(s.regs, x))
    case Addr(a) =>
      match a
      case BCI => ReadByteCycle(s, FR.BC(s.regs))
      case DEI => ReadByteCycle(s, FR.DE(s.regs))
      case HLI => ReadByteCycle(s, FR.HL(s.regs))
      case HLIP =>
        var (s1, v) := ReadByteCycle(s, FR.HL(s.regs));
        (s1.(regs := FR.SetHL(s1.regs, FR.HL(s.regs) + 1)), v)
      case HLIN =>
        var (s1, v) := ReadByteCycle(s, FR.HL(s.regs));
        (s1.(regs := FR.SetHL(s1.regs, FR.HL(s.regs) - 1)), v)
      case Direct => GetInstrU8(s)
      case DirectMem =>
        var (s1, address) := GetInstrU16(s);
        ReadByteCycle(s1, address)
      case IoDirect =>
        var (s1, offset) := GetInstrU8(s);
        ReadByteCycle(s1, 0xFF00 | offset as Word)
      case IoC => ReadByteCycle(s, 0xFF00 | s.regs.c as Word)
  }

  /**
   * The writes of `SetU8`. No instruction writes to an immediate operand
   * (`DecodeNeverWritesImmediate`); such a write leaves the state alone.
   */
  function WriteU8(s: CpuState, o: Operand, v: Byte): CpuState
  {
    match o
    case Reg(x) => s.(regs := SetReg(s.regs, x, v))
    case Addr(a) =>
      match a
      case BCI => WriteByteCycle(s, FR.BC(s.regs), v)
      case DEI => WriteByteCycle(s, FR.DE(s.regs), v)
      case HLI => WriteByteCycle(s, FR.HL(s.regs), v)
      case HLIP =>
        var s1 := WriteByteCycle(s, FR.HL(s.regs), v);
        s1.(regs := FR.SetHL(s1.regs, FR.HL(s.regs) + 1))
      case HLIN =>
        var s1 := WriteByteCycle(s, FR.HL(s.regs), v);
        s1.(regs := FR.SetHL(s1.regs, FR.HL(s.regs) - 1))
      case Direct => s
      case DirectMem =>
        var (s1, address) := GetInstrU16(s);
        WriteByteCycle(s1, address, v)
      case IoDirect =>
        var (s1, offset) := GetInstrU8(s);
        WriteByteCycle(s1, 0xFF00 | offset as Word, v)
      case IoC => WriteByteCycle(s, 0xFF00 | s.regs.c as Word, v)
  }

  /** Whether an operand may be written. */
  predicate Writable(o: Operand)
  {
    o != Addr(Direct)
  }

  /** Whether every operand `op` writes may be written. */
  predicate WritesWritable(op: Op)
  {
    match op
    case Load8(dst, _) => Writable(dst)
    case Inc(t) => Writable(t)
    case Dec(t) => Writable(t)
    case _ => true
  }

  /** No opcode decodes to an instruction that writes an immediate operand. */
  lemma DecodeNeverWritesImmediate(opcode: Byte)
    ensures WritesWritable(Decode(opcode))
  {
    if opcode < 0x40 {
      LowRowsWriteWritable(opcode);
    } else if opcode < 0x80 {
      if opcode != 0x76 {
        LoadBlock(opcode);
      }
    } else if 0xC0 <= opcode {
      HighRowsWriteWritable(opcode);
    }
  }

  lemma LowRowsWriteWritable(opcode: Byte)
    requires opcode < 0x40
    ensures WritesWritable(DecodeLow(opcode))
  {
  }

  lemma HighRowsWriteWritable(opcode: Byte)
    requires 0xC0 <= opcode
    ensures WritesWritable(DecodeHigh(opcode))
  {
  }

  /** Nor does any CB-prefixed opcode. */
  lemma DecodePrefixedNeverWritesImmediate(opcode: Byte)
    ensures Writable(DecodePrefixed(opcode).target)
  {
    PrefixPartition(opcode);
  }

  // ---------------------------------------------------------------------
  // The instructions (mod.rs and alu.rs)

  /** `load_16bit(rr, DIRECT)`: an immediate word into a register pair. */
  function Load16Immediate(s: CpuState, x: Reg16): CpuState
  {
    var (s1, v) := GetInstrU16(s);
    s1.(regs := SetPair(s1.regs, x, v))
  }

  /** `load_16bit(DirectMem, SP)`: SP stored at an immediate address. */
  function StoreStackPointer(s: CpuState): CpuState
  {
    var v := s.regs.sp;
    var (s1, address) := GetInstrU16(s);
    WriteShortCycle(s1, address, v)
  }

  /** `load_8bit`. */
  function Load8Bit(s: CpuState, dst: Operand, src: Operand): CpuState
  {
    var (s1, v) := ReadU8(s, src);
    WriteU8(s1, dst, v)
  }

  /** `increment`: Z, N and H from the increment; C is untouched. */
  function Increment(s: CpuState, t: Operand): CpuState
  {
    var (s1, v) := ReadU8(s, t);
    var o := Arith.Inc(v, Cf(s1.regs));
    WriteU8(s1.(regs := WithH(WithN(WithZ(s1.regs, o.z), o.n), o.h)), t, o.value)
  }

  /** `decrement`. */
  function Decrement(s: CpuState, t: Operand): CpuState
  {
    var (s1, v) := ReadU8(s, t);
    var o := Arith.Dec(v, Cf(s1.regs));
    WriteU8(s1.(regs := WithH(WithN(WithZ(s1.regs, o.z), o.n), o.h)), t, o.value)
  }

  /** `increment16`: no flags, one extra M-cycle. */
  function Increment16(s: CpuState, x: Reg16): CpuState
  {
    AddCycles(s.(regs := SetPair(s.regs, x, GetPair(s.regs, x) + 1)))
  }

  /** `decrement16`. */
  function Decrement16(s: CpuState, x: Reg16): CpuState
  {
    AddCycles(s.(regs := SetPair(s.regs, x, GetPair(s.regs, x) - 1)))
  }

  /** The ALU function of each rotate and shift group of the CB table. */
  function ShiftResult(kind: ShiftKind, v: Byte, carry: bool): Arith.AluOut
  {
    match kind
    case Rlc => Arith.RotateLeft(v)
    case Rrc => Arith.RotateRight(v)
    case Rl => Arith.RotateLeftCarry(v, carry)
    case Rr => Arith.RotateRightCarry(v, carry)
    case Sla => Arith.ShiftLeft(v)
    case Sra => Arith.ShiftRightArithmetic(v)
    case Swap => Arith.Swap(v)
    case Srl => Arith.ShiftRight(v)
  }

  /** `rlc`, `rrc`, `rl`, `rr`, `sla`, `sra`, `swap`, `srl`: all four flags, then the write. */
  function Rotate(s: CpuState, kind: ShiftKind, t: Operand): CpuState
  {
    var (s1, v) := ReadU8(s, t);
    var o := ShiftResult(kind, v, Cf(s1.regs));
    WriteU8(s1.(regs := WithFlags(s1.regs, o)), t, o.value)
  }

  /** `rlca`, `rrca`, `rla`, `rra`: the rotate on A, then Z cleared. */
  function RotateA(s: CpuState, kind: ShiftKind): CpuState
  {
    var s1 := Rotate(s, kind, Reg(A));
    s1.(regs := WithZ(s1.regs, false))
  }

  /** `add16`: HL + rr with N cleared and H and C from bits 11 and 15; one extra M-cycle. */
  function AddHl(s: CpuState, x: Reg16): CpuState
  {
    var o := Arith.Add16(FR.HL(s.regs), GetPair(s.regs, x));
    var r := WithH(WithC(WithN(s.regs, false), o.c), o.h);
    AddCycles(s.(regs := FR.SetHL(r, o.value)))
  }

  /** `pc.wrapping_add(offset as i8 as u16)`: the target of a relative jump. */
  function RelativeTarget(pc: Word, offset: Byte): Word
  {
    pc + Arith.SignExtend(offset)
  }

  /** `relative_jump`: the offset byte is always fetched; a taken jump costs one more M-cycle. */
  function RelativeJump(s: CpuState, cond: JumpModifier): CpuState
  {
    var (s1, offset) := GetInstrU8(s);
    if Matches(s1.regs, cond) then
      AddCycles(s1.(regs := s1.regs.(pc := RelativeTarget(s1.regs.pc, offset))))
    else s1
  }

  /** `daa`: C is only ever set, on the addition path; Z from A; H cleared. */
  function DecimalAdjust(s: CpuState): CpuState
  {
    var r := s.regs;
    var o := Arith.Daa(r.a, Nf(r), Hf(r), Cf(r));
    var r1 := if !Nf(r) && (Cf(r) || r.a > 0x99) then WithC(r, true) else r;
    s.(regs := WithH(WithZ(r1.(a := o.value), o.z), false))
  }

  /** `cpl`. */
  function Complement(s: CpuState): CpuState
  {
    s.(regs := WithH(WithN(s.regs.(a := !s.regs.a), true), true))
  }

  /** `scf`. */
  function SetCarryFlag(s: CpuState): CpuState
  {
    s.(regs := WithC(WithH(WithN(s.regs, false), false), true))
  }

  /** `ccf`: N and H cleared, C toggled. */
  function ComplementCarryFlag(s: CpuState): CpuState
  {
    var r := WithH(WithN(s.regs, false), false);
    s.(regs := r.(f := r.f ^ FR.CF))
  }

  /** The ALU function of each operation of the 0x80-0xBF block. */
  function AluResult(kind: Instructions.AluKind, a: Byte, v: Byte, carry: bool): Arith.AluOut
  {
    match kind
    case Add => Arith.Add(a, v)
    case Adc => Arith.Adc(a, v, carry)
    case Sub => Arith.Sub(a, v)
    case Sbc => Arith.Sbc(a, v, carry)
    case And => Arith.And(a, v)
    case Xor => Arith.Xor(a, v)
    case Or => Arith.Or(a, v)
    case Cp => Arith.Compare(a, v)
  }

  /** `add`, `adc`, `sub`, `sbc`, `and`, `xor`, `or`, `compare`: `compare` keeps A. */
  function Arithmetic(s: CpuState, kind: Instructions.AluKind, src: Operand): CpuState
  {
    var (s1, v) := ReadU8(s, src);
    var o := AluResult(kind, s1.regs.a, v, Cf(s1.regs));
    var r := WithFlags(s1.regs, o);
    s1.(regs := if kind == Instructions.Cp then r else r.(a := o.value))
  }

  /** `push_helper`: SP moves down two, the word is written there, then one more M-cycle. */
  function PushHelper(s: CpuState, v: Word): CpuState
  {
    var s1 := s.(regs := s.regs.(sp := s.regs.sp - 2));
    AddCycles(WriteShortCycle(s1, s1.regs.sp, v))
  }

  /** `ret`: one M-cycle for the condition, then a taken return pops PC and spends one more. */
  function Return(s: CpuState, cond: JumpModifier): CpuState
  {
    var s1 := AddCycles(s);
    if Matches(s1.regs, cond) then
      var (s2, pc) := ReadShortCycle(s1, s1.regs.sp);
      AddCycles(s2.(regs := s2.regs.(pc := pc, sp := s2.regs.sp + 2)))
    else s1
  }

  /** `pop`: the word at SP into the pair, then SP moves up two. */
  function PopStack(s: CpuState, x: Reg16): CpuState
  {
    var (s1, v) := ReadShortCycle(s, s.regs.sp);
    var r := SetPair(s1.regs, x, v);
    s1.(regs := r.(sp := r.sp + 2))
  }

  /** `jump`: the immediate word is always fetched, also for `JP HL`. */
  function JumpTo(s: CpuState, cond: JumpModifier): CpuState
  {
    var (s1, value) := GetInstrU16(s);
    if Matches(s1.regs, cond) then
      var target := if cond == JumpHL then FR.HL(s1.regs) else value;
      AddCycles(s1.(regs := s1.regs.(pc := target)))
    else s1
  }

  /** `call`: the address is fetched, then a taken call pushes PC and jumps. */
  function CallTo(s: CpuState, cond: JumpModifier): CpuState
  {
    var (s1, address) := GetInstrU16(s);
    if Matches(s1.regs, cond) then
      var s2 := PushHelper(s1, s1.regs.pc);
      s2.(regs := s2.regs.(pc := address))
    else s1
  }

  /** `push`. */
  function PushStack(s: CpuState, x: Reg16): CpuState
  {
    PushHelper(s, GetPair(s.regs, x))
  }

  /** `rst`: a call to the fixed address `vector`. */
  function Restart(s: CpuState, vector: Byte): CpuState
  {
    var s1 := PushHelper(s, s.regs.pc);
    s1.(regs := s1.regs.(pc := vector as Word))
  }

  /** `reti`: IME is set at once, then PC is popped and one more M-cycle spent. */
  function ReturnFromInterrupt(s: CpuState): CpuState
  {
    var s0 := s.(control := s.control.(ime := true));
    var (s1, pc) := ReadShortCycle(s0, s0.regs.sp);
    AddCycles(s1.(regs := s1.regs.(pc := pc, sp := s1.regs.sp + 2)))
  }

  /** `add_sp`: SP + e8 with Z and N cleared and H and C from the low byte; two extra M-cycles. */
  function AddToSp(s: CpuState): CpuState
  {
    var (s1, e) := GetInstrU8(s);
    var o := Arith.AddSigned(s1.regs.sp, e);
    var r := WithC(WithH(WithN(WithZ(s1.regs, false), false), o.h), o.c);
    AddCycles(AddCycles(s1.(regs := r.(sp := o.value))))
  }

  /** `load_sp_i`: HL = SP + e8 with the flags of `add_sp`; one extra M-cycle. */
  function LoadSpOffset(s: CpuState): CpuState
  {
    var (s1, e) := GetInstrU8(s);
    var o := Arith.AddSigned(s1.regs.sp, e);
    var r := WithC(WithH(WithN(WithZ(FR.SetHL(s1.regs, o.value), false), false), o.h), o.c);
    AddCycles(s1.(regs := r))
  }

  /** `load_sp_hl`. */
  function LoadSpFromHl(s: CpuState): CpuState
  {
    AddCycles(s.(regs := s.regs.(sp := FR.HL(s.regs))))
  }

  /** `1 << bit`. */
  function Mask(bit: Byte): Byte
    requires bit < 8
  {
    (1 as Byte) << bit
  }

  /** `bit`: Z is set when the bit is clear; N cleared, H set. */
  function TestBit(s: CpuState, bit: Byte, t: Operand): CpuState
    requires bit < 8
  {
    var (s1, v) := ReadU8(s, t);
    s1.(regs := WithH(WithN(WithZ(s1.regs, v & Mask(bit) == 0), false), true))
  }

  /** `set`. */
  function SetBit(s: CpuState, bit: Byte, t: Operand): CpuState
    requires bit < 8
  {
    var (s1, v) := ReadU8(s, t);
    WriteU8(s1, t, v | Mask(bit))
  }

  /** `res`. */
  function ResetBit(s: CpuState, bit: Byte, t: Operand): CpuState
    requires bit < 8
  {
    var (s1, v) := ReadU8(s, t);
    WriteU8(s1, t, v & !Mask(bit))
  }

  /** `execute_prefix`. */
  function ExecutePrefix(s: CpuState, opcode: Byte): CpuState
  {
    match DecodePrefixed(opcode)
    case Shift(kind, t) => Rotate(s, kind, t)
    case Bit(b, t) => TestBit(s, b, t)
    case Res(b, t) => ResetBit(s, b, t)
    case Set(b, t) => SetBit(s, b, t)
  }

  /** `cb_prefix_call`: the second opcode byte is fetched and run from the CB table. */
  function PrefixCall(s: CpuState): CpuState
  {
    var (s1, op) := GetInstrU8(s);
    ExecutePrefix(s1.(control := s1.control.(opcode := op)), op)
  }

  /**
   * `execute`: the instruction `opcode` dispatches to. `None` is a panic: the
   * eleven unused opcodes (`unknown`) and STOP (`unimplemented!`).
   */
  function ExecuteOpcode(s: CpuState, opcode: Byte): (r: Option<CpuState>)
  {
    Perform(s, Decode(opcode))
  }

  /** The arms of `execute`: what each decoded instruction does. */
  function Perform(s: CpuState, instr: Op): Option<CpuState>
  {
    match instr
    case Nop => Some(s)
    case LoadImm16(x) => Some(Load16Immediate(s, x))
    case StoreSp => Some(StoreStackPointer(s))
    case Load8(dst, src) => Some(Load8Bit(s, dst, src))
    case Inc16(x) => Some(Increment16(s, x))
    case Dec16(x) => Some(Decrement16(s, x))
    case Inc(t) => Some(Increment(s, t))
    case Dec(t) => Some(Decrement(s, t))
    case Rlca => Some(RotateA(s, Rlc))
    case Rrca => Some(RotateA(s, Rrc))
    case Rla => Some(RotateA(s, Rl))
    case Rra => Some(RotateA(s, Rr))
    case Stop => None
    case JumpRelative(cond) => Some(RelativeJump(s, cond))
    case Add16(x) => Some(AddHl(s, x))
    case Daa => Some(DecimalAdjust(s))
    case Cpl => Some(Complement(s))
    case Scf => Some(SetCarryFlag(s))
    case Ccf => Some(ComplementCarryFlag(s))
    case Halt => Some(s.(control := s.control.(halted := true)))
    case Alu(kind, src) => Some(Arithmetic(s, kind, src))
    case Ret(cond) => Some(Return(s, cond))
    case Pop(x) => Some(PopStack(s, x))
    case Jump(cond) => Some(JumpTo(s, cond))
    case Call(cond) => Some(CallTo(s, cond))
    case Push(x) => Some(PushStack(s, x))
    case Rst(v) => Some(Restart(s, v))
    case Prefix => Some(PrefixCall(s))
    case Unknown => None
    case Reti => Some(ReturnFromInterrupt(s))
    case AddSp => Some(AddToSp(s))
    case Di => Some(s.(control := s.control.(ime := false)))
    case Ei => Some(s.(control := s.control.(delayedIme := true)))
    case LoadSpI => Some(LoadSpOffset(s))
    case LoadSpHl => Some(LoadSpFromHl(s))
  }

  // ---------------------------------------------------------------------
  // Interrupts and the fetch-execute step

  /** The address each interrupt source jumps to. */
  function Vector(i: Interrupts.Interrupt): Word
  {
    match i
    case VBlank => 0x0040
    case LcdStat => 0x0048
    case Timer => 0x0050
    case Serial => 0x0058
    case Joypad => 0x0060
  }

  /** `interrupts_routine`: two wait M-cycles, IME and HALT cleared, PC pushed, then the jump. */
  function InterruptsRoutine(s: CpuState, i: Interrupts.Interrupt): CpuState
  {
    var s0 := AddCycles(AddCycles(s));
    var s1 := s0.(control := s0.control.(ime := false, halted := false));
    var s2 := PushHelper(s1, s1.regs.pc);
    s2.(regs := s2.regs.(pc := Vector(i)))
  }

  /**
   * `handle_interrupts`; the flag says whether a routine was entered. With
   * IME clear a pending enabled interrupt only ends HALT (one M-cycle). With
   * IME set, the first source in priority order that is both requested and
   * enabled is acknowledged, PC steps back over the opcode byte already
   * fetched, and its routine runs.
   */
  function HandleInterrupts(s: CpuState): (CpuState, bool)
  {
    var flags := s.bus.interruptFlag;
    if !s.control.ime then
      if flags & s.bus.interruptEnable != 0 then (AddCycles(s.(control := s.control.(halted := false))), false)
      else (s, false)
    else if flags == 0 then (s, false)
    else
      match Interrupts.FirstPending(flags & s.bus.interruptEnable)
      case None => (s, false)
      case Some(i) => (Dispatch(s, i), true)
  }

  /** The dispatch of `handle_interrupts`: the request is acknowledged, then the routine runs. */
  function Dispatch(s: CpuState, i: Interrupts.Interrupt): CpuState
  {
    InterruptsRoutine(Acknowledged(s, i), i)
  }

  /** The request is cleared in IF and PC steps back over the opcode byte already fetched. */
  function Acknowledged(s: CpuState, i: Interrupts.Interrupt): (r: CpuState)
    ensures r.regs == s.regs.(pc := s.regs.pc - 1)
    ensures r.bus.interruptFlag == s.bus.interruptFlag & !Interrupts.Bit(i)
    ensures r.cycles == s.cycles
  {
    var s1 := s.(bus := s.bus.(interruptFlag := s.bus.interruptFlag & !Interrupts.Bit(i)));
    s1.(regs := s1.regs.(pc := s1.regs.pc - 1))
  }

  /** `get_next_opcode`: after a dispatched interrupt the opcode is fetched again at the vector. */
  function GetNextOpcode(s: CpuState): (CpuState, Byte)
  {
    var (s1, opcode) := GetInstrU8(s);
    var (s2, fired) := HandleInterrupts(s1);
    if fired then GetInstrU8(s2) else (s2, opcode)
  }

  /** `added_vblank`: reports and clears the VBlank marker. */
  function AddedVblank(s: CpuState): (CpuState, bool)
  {
    if s.hadVblank then (s.(hadVblank := false), true) else (s, false)
  }

  /**
   * `step_cycle`: a halted CPU spends one M-cycle; otherwise a delayed EI
   * takes effect, the opcode is fetched and the instruction runs. `None` is
   * the panic of `execute`.
   */
  function StepCycle(s: CpuState): Option<CpuState>
  {
    if s.control.halted then Some(AddCycles(s))
    else
      var (t, opcode) := Fetch(s);
      ExecuteOpcode(t, opcode)
  }

  /**
   * The part of `step_cycle` before `execute`: a pending EI sets IME, then
   * the opcode at PC is fetched and remembered.
   */
  function Fetch(s: CpuState): (r: (CpuState, Byte))
    ensures r.1 == Read(s, s.regs.pc)
    ensures r.0.regs == s.regs.(pc := s.regs.pc + 1)
    ensures r.0.control == Control(s.control.ime || s.control.delayedIme, s.control.halted, false, r.1)
    ensures r.0.cycles == s.cycles + 4
    ensures r.0.bus.memory == s.bus.memory && r.0.bus.interruptEnable == s.bus.interruptEnable
  {
    var s0 := if s.control.delayedIme then s.(control := s.control.(ime := true, delayedIme := false)) else s;
    GetInstrU8Spec(s0);
    var (s1, opcode) := GetInstrU8(s0);
    (s1.(control := s1.control.(opcode := opcode)), opcode)
  }

  /** The register file after the boot ROM, which `CPU::new` installs when the boot ROM is skipped. */
  function PostBootRegisters(): FR.RegFile
  {
    var r := FR.DEFAULT.(pc := 0x100);
    var r1 := FR.SetHL(FR.SetDE(FR.SetBC(FR.SetAF(r, 0x01B0), 0x0013), 0x00D8), 0x014D);
    r1.(sp := 0xFFFE)
  }

  /** `CPU::new`: without a boot ROM to run, the registers and DIV are set to their post-boot values. */
  function New(bootRomFinished: bool, bus: Bus): CpuState
  {
    var s := CpuState(0, Control(false, false, false, 0), FR.DEFAULT, false, bus);
    if bootRomFinished then Write(s.(regs := PostBootRegisters()), 0xFF04, 0xAB) else s
  }

  // ---------------------------------------------------------------------
  // The stack

  /** `read_short_cycle` returns the little-endian word at `address` and spends two M-cycles. */
  lemma ReadShortSpec(s: CpuState, address: Word)
    ensures ReadShortCycle(s, address).1 == Peek16(s, address)
    ensures SameCpu(s, ReadShortCycle(s, address).0)
    ensures ReadShortCycle(s, address).0.cycles == s.cycles + 8
  {
    var s1 := AddCycles(s);
    var s2 := AddCycles(s1);
    assert ReadShortCycle(s, address) == (s2, Join(Read(s1, address + 1), Read(s, address)));
  }

  /**
   * `push_helper` moves SP down two, leaves the word there little-endian,
   * changes no other register and spends three M-cycles.
   */
  lemma PushHelperSpec(s: CpuState, v: Word)
    ensures PushHelper(s, v).regs == s.regs.(sp := s.regs.sp - 2)
    ensures Peek16(PushHelper(s, v), s.regs.sp - 2) == v
    ensures PushHelper(s, v).cycles == s.cycles + 12
    ensures PushHelper(s, v).control == s.control
  {
    var s1 := s.(regs := s.regs.(sp := s.regs.sp - 2));
    var w := WriteShortCycle(s1, s1.regs.sp, v);
    WriteShortSpec(s1, s1.regs.sp, v);
    WriteShortReadShort(s1, w, s1.regs.sp, v);
    assert PushHelper(s, v) == AddCycles(w);
  }

  /** `pop` loads the little-endian word at SP into the pair and moves SP up two, in two M-cycles. */
  lemma PopStackSpec(t: CpuState, x: Reg16)
    requires x != SP
    ensures PopStack(t, x).regs == SetPair(t.regs, x, Peek16(t, t.regs.sp)).(sp := t.regs.sp + 2)
    ensures PopStack(t, x).cycles == t.cycles + 8
  {
    ReadShortSpec(t, t.regs.sp);
    SetPairSpec(t.regs, x, Peek16(t, t.regs.sp));
  }

  /**
   * POP undoes PUSH: every register is restored, except that popping AF
   * drops the low nibble of F.
   */
  lemma PushPopRoundTrip(s: CpuState, x: Reg16)
    requires x != SP
    ensures PopStack(PushStack(s, x), x).regs == if x == AF then s.regs.(f := s.regs.f & 0xF0) else s.regs
  {
    PopAfterPush(s, GetPair(s.regs, x), x);
    SetPairOfGet(s.regs, x);
  }

  /** Popping a pair right after a word was pushed loads the word into the pair and puts SP back. */
  lemma PopAfterPush(s: CpuState, v: Word, x: Reg16)
    requires x != SP
    ensures PopStack(PushHelper(s, v), x).regs == SetPair(s.regs, x, v)
  {
    var t := PushHelper(s, v);
    PushHelperSpec(s, v);
    PopStackSpec(t, x);
    assert t.regs.sp + 2 == s.regs.sp;
    SetPairMovedStack(s.regs, x, v, s.regs.sp - 2);
    assert PopStack(t, x).regs == SetPair(s.regs.(sp := s.regs.sp - 2), x, v).(sp := s.regs.sp);
  }

  /** PUSH then POP takes five M-cycles. */
  lemma PushPopCycles(s: CpuState, x: Reg16)
    requires x != SP
    ensures PopStack(PushStack(s, x), x).cycles == s.cycles + 20
  {
    PushHelperSpec(s, GetPair(s.regs, x));
    PopStackSpec(PushStack(s, x), x);
  }

  /** Writing a pair other than SP is independent of SP. */
  lemma SetPairMovedStack(r: FR.RegFile, x: Reg16, v: Word, sp: Word)
    requires x != SP
    ensures SetPair(r.(sp := sp), x, v).(sp := r.sp) == SetPair(r, x, v)
  {
    match x
    case AF =>
    case BC =>
    case DE =>
    case HL =>
  }

  /** Writing a pair with its own value changes nothing, except that AF drops the low nibble of F. */
  lemma SetPairOfGet(r: FR.RegFile, x: Reg16)
    ensures SetPair(r, x, GetPair(r, x)) == if x == AF then r.(f := r.f & 0xF0) else r
  {
    match x
    case AF => FR.SetAFTruncates(r, FR.AF(r));
    case BC => assert Hi(FR.BC(r)) == r.b && Lo(FR.BC(r)) == r.c;
    case DE => assert Hi(FR.DE(r)) == r.d && Lo(FR.DE(r)) == r.e;
    case HL => assert Hi(FR.HL(r)) == r.h && Lo(FR.HL(r)) == r.l;
    case SP =>
  }

  /**
   * A taken CALL fetches the target, pushes the address of the next
   * instruction and jumps, in five M-cycles.
   */
  lemma CallTaken(s: CpuState, cond: JumpModifier)
    requires Matches(s.regs, cond)
    ensures CallTo(s, cond).regs == s.regs.(sp := s.regs.sp - 2, pc := Peek16(s, s.regs.pc))
    ensures CallTo(s, cond).cycles == s.cycles + 20
  {
    GetInstrU16Spec(s);
    var (s1, address) := GetInstrU16(s);
    PushHelperSpec(s1, s1.regs.pc);
  }

  /** An untaken CALL only skips its operand, in two M-cycles. */
  lemma CallNotTaken(s: CpuState, cond: JumpModifier)
    requires !Matches(s.regs, cond)
    ensures CallTo(s, cond).regs == s.regs.(pc := s.regs.pc + 2)
    ensures CallTo(s, cond).cycles == s.cycles + 8
  {
    GetInstrU16Spec(s);
  }

  /** A taken CALL leaves the address of the next instruction on the stack. */
  lemma CallPushesReturnAddress(s: CpuState, cond: JumpModifier)
    requires Matches(s.regs, cond)
    ensures Peek16(CallTo(s, cond), s.regs.sp - 2) == s.regs.pc + 2
  {
    GetInstrU16Spec(s);
    var (s1, address) := GetInstrU16(s);
    PushHelperSpec(s1, s1.regs.pc);
    var s2 := PushHelper(s1, s1.regs.pc);
    assert s1.regs.sp == s.regs.sp && s1.regs.pc == s.regs.pc + 2;
    assert CallTo(s, cond).bus.memory == s2.bus.memory;
    PeekSameMemory(CallTo(s, cond), s2, s.regs.sp - 2);
  }

  /** `Peek16` only looks at memory. */
  lemma PeekSameMemory(a: CpuState, b: CpuState, address: Word)
    requires a.bus.memory == b.bus.memory
    ensures Peek16(a, address) == Peek16(b, address)
  {
  }

  /** A taken RET pops PC and moves SP up two. */
  lemma ReturnTaken(s: CpuState, cond: JumpModifier)
    requires Matches(s.regs, cond)
    ensures Return(s, cond).regs == s.regs.(pc := Peek16(s, s.regs.sp), sp := s.regs.sp + 2)
  {
    var s1 := AddCycles(s);
    ReadShortSpec(s1, s.regs.sp);
  }

  /** A taken RET takes four M-cycles. */
  lemma ReturnTakenCycles(s: CpuState, cond: JumpModifier)
    requires Matches(s.regs, cond)
    ensures Return(s, cond).cycles == s.cycles + 16
  {
    var s1 := AddCycles(s);
    ReadShortSpec(s1, s.regs.sp);
  }

  /** An untaken RET spends the single M-cycle of the condition check. */
  lemma ReturnNotTaken(s: CpuState, cond: JumpModifier)
    requires !Matches(s.regs, cond)
    ensures Return(s, cond).regs == s.regs
    ensures Return(s, cond).cycles == s.cycles + 4
  {
  }

  /**
   * CALL then RET comes back to the instruction after the CALL (two bytes
   * of address past the PC the CALL started its operand fetch at) with
   * every other register as it was.
   */
  lemma CallReturnRoundTrip(s: CpuState)
    ensures Return(CallTo(s, Always), Always).regs == s.regs.(pc := s.regs.pc + 2)
  {
    var c := CallTo(s, Always);
    assert Matches(s.regs, Always);
    CallTaken(s, Always);
    CallPushesReturnAddress(s, Always);
    assert Matches(c.regs, Always);
    ReturnTaken(c, Always);
    assert c.regs.sp + 2 == s.regs.sp;
  }

  /** CALL then RET takes nine M-cycles. */
  lemma CallReturnCycles(s: CpuState)
    ensures Return(CallTo(s, Always), Always).cycles == s.cycles + 36
  {
    CallTaken(s, Always);
    ReturnTakenCycles(CallTo(s, Always), Always);
  }

  /** RST pushes the PC and jumps to the vector. */
  lemma RestartSpec(s: CpuState, vector: Byte)
    ensures Restart(s, vector).regs == s.regs.(sp := s.regs.sp - 2, pc := vector as Word)
    ensures Peek16(Restart(s, vector), s.regs.sp - 2) == s.regs.pc
    ensures Restart(s, vector).cycles == s.cycles + 12
  {
    PushHelperSpec(s, s.regs.pc);
  }

  /** The vectors are eight bytes apart from 0x40, in priority order. */
  lemma VectorSpec(i: Interrupts.Interrupt)
    ensures Vector(i) as int == 0x40 + 8 * Interrupts.Rank(i)
  {
  }

  /**
   * An interrupt routine takes five M-cycles, clears IME and HALT, leaves
   * the interrupted PC on the stack and continues at the source's vector.
   */
  lemma InterruptsRoutineSpec(s: CpuState, i: Interrupts.Interrupt)
    ensures InterruptsRoutine(s, i).regs == s.regs.(sp := s.regs.sp - 2, pc := Vector(i))
    ensures Peek16(InterruptsRoutine(s, i), s.regs.sp - 2) == s.regs.pc
    ensures !InterruptsRoutine(s, i).control.ime && !InterruptsRoutine(s, i).control.halted
    ensures InterruptsRoutine(s, i).cycles == s.cycles + 20
  {
    var s0 := AddCycles(AddCycles(s));
    var s1 := s0.(control := s0.control.(ime := false, halted := false));
    PushHelperSpec(s1, s1.regs.pc);
  }

  // ---------------------------------------------------------------------
  // Interrupt dispatch

  /** With nothing both requested and enabled, handling interrupts changes nothing. */
  lemma HandleIdle(s: CpuState)
    requires s.bus.interruptFlag & s.bus.interruptEnable == 0
    ensures HandleInterrupts(s) == (s, false)
  {
    Interrupts.FirstPendingIsHighestPriority(0);
  }

  /** With IME clear, an enabled request ends HALT after one M-cycle and no routine runs. */
  lemma HandleWakesWithoutIme(s: CpuState)
    requires !s.control.ime && s.bus.interruptFlag & s.bus.interruptEnable != 0
    ensures !HandleInterrupts(s).1
    ensures HandleInterrupts(s).0.regs == s.regs
    ensures !HandleInterrupts(s).0.control.halted && !HandleInterrupts(s).0.control.ime
    ensures HandleInterrupts(s).0.cycles == s.cycles + 4
  {
  }

  /** A routine runs exactly when IME is set and one of the five sources is both requested and enabled. */
  lemma HandleFiresIff(s: CpuState)
    ensures HandleInterrupts(s).1 <==>
              s.control.ime && (s.bus.interruptFlag & s.bus.interruptEnable) & 0x1F != 0
  {
    Interrupts.FirstPendingIsHighestPriority(s.bus.interruptFlag & s.bus.interruptEnable);
  }

  /**
   * A dispatch serves the first source in priority order that is requested
   * and enabled: PC steps back over the opcode byte already fetched, is
   * pushed, and execution continues at the source's vector with IME clear.
   */
  lemma HandleDispatch(s: CpuState, i: Interrupts.Interrupt)
    requires s.control.ime
    requires Interrupts.FirstPending(s.bus.interruptFlag & s.bus.interruptEnable) == Some(i)
    ensures HandleInterrupts(s) == (Dispatch(s, i), true)
  {
    NonzeroWhenPending(s.bus.interruptFlag, s.bus.interruptEnable, i);
  }

  /**
   * A dispatch continues at the source's vector with SP two lower, IME and
   * HALT clear, after five M-cycles.
   */
  lemma DispatchSpec(s: CpuState, i: Interrupts.Interrupt)
    ensures Dispatch(s, i).regs == s.regs.(sp := s.regs.sp - 2, pc := Vector(i))
    ensures !Dispatch(s, i).control.ime && !Dispatch(s, i).control.halted
    ensures Dispatch(s, i).cycles == s.cycles + 20
  {
    var s2 := Acknowledged(s, i);
    InterruptsRoutineSpec(s2, i);
    assert Dispatch(s, i).regs == s2.regs.(sp := s2.regs.sp - 2, pc := Vector(i));
  }

  /** The address pushed is PC stepped back over the opcode byte already fetched. */
  lemma DispatchSavesPc(s: CpuState, i: Interrupts.Interrupt)
    ensures Peek16(Dispatch(s, i), s.regs.sp - 2) == s.regs.pc - 1
  {
    var s2 := Acknowledged(s, i);
    InterruptsRoutineSpec(s2, i);
    assert Peek16(Dispatch(s, i), s2.regs.sp - 2) == s2.regs.pc;
  }

  lemma NonzeroWhenPending(flags: Byte, enable: Byte, i: Interrupts.Interrupt)
    requires Interrupts.FirstPending(flags & enable) == Some(i)
    ensures flags != 0
  {
    Interrupts.FirstPendingIsHighestPriority(flags & enable);
  }

  /** IF at `t` still holds every request IF held at `s`. */
  predicate KeepsRequests(s: CpuState, t: CpuState)
  {
    t.bus.interruptFlag & s.bus.interruptFlag == s.bus.interruptFlag
  }

  lemma KeepsRequestsTransitive(a: CpuState, b: CpuState, c: CpuState)
    requires KeepsRequests(a, b) && KeepsRequests(b, c)
    ensures KeepsRequests(a, c)
  {
  }

  lemma AddCyclesKeepsRequests(s: CpuState)
    ensures KeepsRequests(s, AddCycles(s))
  {
    AddCyclesRaises(s);
  }

  lemma WriteByteCycleKeepsRequests(s: CpuState, address: Word, v: Byte)
    ensures KeepsRequests(s, WriteByteCycle(s, address, v))
  {
    AddCyclesKeepsRequests(s);
  }

  lemma WriteShortCycleKeepsRequests(s: CpuState, address: Word, v: Word)
    ensures KeepsRequests(s, WriteShortCycle(s, address, v))
  {
    var a := WriteByteCycle(s, address, Lo(v));
    WriteByteCycleKeepsRequests(s, address, Lo(v));
    WriteByteCycleKeepsRequests(a, address + 1, Hi(v));
    KeepsRequestsTransitive(s, a, WriteByteCycle(a, address + 1, Hi(v)));
  }

  lemma PushHelperKeepsRequests(s: CpuState, v: Word)
    ensures KeepsRequests(s, PushHelper(s, v))
  {
    var s1 := s.(regs := s.regs.(sp := s.regs.sp - 2));
    var b := WriteShortCycle(s1, s1.regs.sp, v);
    WriteShortCycleKeepsRequests(s1, s1.regs.sp, v);
    AddCyclesKeepsRequests(b);
    KeepsRequestsTransitive(s1, b, AddCycles(b));
  }

  /** No step of an interrupt routine clears a request. */
  lemma InterruptsRoutineKeepsRequests(s: CpuState, i: Interrupts.Interrupt)
    ensures KeepsRequests(s, InterruptsRoutine(s, i))
  {
    var a := AddCycles(s);
    AddCyclesKeepsRequests(s);
    var b := AddCycles(a);
    AddCyclesKeepsRequests(a);
    KeepsRequestsTransitive(s, a, b);
    var s1 := b.(control := b.control.(ime := false, halted := false));
    PushHelperKeepsRequests(s1, s1.regs.pc);
    KeepsRequestsTransitive(s, s1, PushHelper(s1, s1.regs.pc));
  }

  /**
   * A dispatch clears only the request it serves: every other request
   * stays pending through the routine.
   */
  lemma DispatchKeepsOtherRequests(s: CpuState, i: Interrupts.Interrupt)
    ensures Dispatch(s, i).bus.interruptFlag & (s.bus.interruptFlag & !Interrupts.Bit(i)) ==
              s.bus.interruptFlag & !Interrupts.Bit(i)
  {
    InterruptsRoutineKeepsRequests(Acknowledged(s, i), i);
  }

  // ---------------------------------------------------------------------
  // Fetching and stepping

  /** Without a dispatch, `get_next_opcode` returns the byte at PC. */
  lemma GetNextOpcodeNoDispatch(s: CpuState)
    requires !HandleInterrupts(GetInstrU8(s).0).1
    ensures GetNextOpcode(s).1 == Read(s, s.regs.pc)
  {
    GetInstrU8Spec(s);
  }

  /**
   * After a dispatch, `get_next_opcode` returns the first byte of the
   * routine and continues after it.
   */
  lemma GetNextOpcodeAtVector(s: CpuState, i: Interrupts.Interrupt)
    requires s.control.ime
    requires Interrupts.FirstPending(GetInstrU8(s).0.bus.interruptFlag & GetInstrU8(s).0.bus.interruptEnable) == Some(i)
    ensures GetNextOpcode(s).1 == Read(Dispatch(GetInstrU8(s).0, i), Vector(i))
    ensures GetNextOpcode(s).0.regs.pc == Vector(i) + 1
  {
    var s1 := GetInstrU8(s).0;
    assert s1.control.ime;
    HandleDispatch(s1, i);
    var d := Dispatch(s1, i);
    DispatchSpec(s1, i);
    GetInstrU8Spec(d);
  }

  /** The address saved by a dispatch in `get_next_opcode` is that of the opcode it pre-empted. */
  lemma GetNextOpcodeSavesPc(s: CpuState, i: Interrupts.Interrupt)
    requires s.control.ime
    requires Interrupts.FirstPending(GetInstrU8(s).0.bus.interruptFlag & GetInstrU8(s).0.bus.interruptEnable) == Some(i)
    ensures Peek16(GetNextOpcode(s).0, s.regs.sp - 2) == s.regs.pc
  {
    var s1 := GetInstrU8(s).0;
    GetInstrU8Spec(s);
    assert s1.control.ime;
    HandleDispatch(s1, i);
    var d := Dispatch(s1, i);
    DispatchSavesPc(s1, i);
    GetInstrU8Spec(d);
    PeekSameMemory(GetInstrU8(d).0, d, s1.regs.sp - 2);
  }

  /** `added_vblank` reports the marker and clears it, so an immediate second call reports nothing. */
  lemma AddedVblankOnce(s: CpuState)
    ensures AddedVblank(s).1 == s.hadVblank
    ensures !AddedVblank(AddedVblank(s).0).1
    ensures AddedVblank(s).0.(hadVblank := s.hadVblank) == s
  {
  }

  /** A halted CPU spends one M-cycle and changes no register. */
  lemma StepHalted(s: CpuState)
    requires s.control.halted
    ensures StepCycle(s).Some?
    ensures StepCycle(s).value.regs == s.regs && StepCycle(s).value.control == s.control
    ensures StepCycle(s).value.cycles == s.cycles + 4
  {
  }

  /** `execute` panics exactly on STOP and the unused opcodes. */
  lemma ExecutePanics(s: CpuState, opcode: Byte)
    ensures ExecuteOpcode(s, opcode).None? <==> opcode == 0x10 || IsUnused(opcode)
  {
    UnknownOpcodes(opcode);
    StopOpcode(opcode);
  }

  /** A running CPU panics exactly when the byte at PC is STOP or an unused opcode. */
  lemma StepPanics(s: CpuState)
    requires !s.control.halted
    ensures StepCycle(s).None? <==> Read(s, s.regs.pc) == 0x10 || IsUnused(Read(s, s.regs.pc))
  {
    ExecutePanics(Fetch(s).0, Fetch(s).1);
  }

  /** EI only schedules IME: the instruction itself leaves IME as it was. */
  lemma StepEi(s: CpuState)
    requires !s.control.halted && !s.control.delayedIme && Read(s, s.regs.pc) == 0xFB
    ensures StepCycle(s).Some?
    ensures StepCycle(s).value.control.delayedIme
    ensures StepCycle(s).value.control.ime == s.control.ime
    ensures StepCycle(s).value.regs == s.regs.(pc := s.regs.pc + 1)
  {
    ExecuteControl(Fetch(s).0);
  }

  /** A scheduled EI takes effect before the next opcode is fetched. */
  lemma StepAfterEi(s: CpuState)
    requires !s.control.halted && s.control.delayedIme
    ensures Fetch(s).0.control.ime
  {
  }

  /** EI followed by NOP: IME is set once the NOP has run. */
  lemma EiThenNop(s: CpuState)
    requires !s.control.halted && !s.control.delayedIme
    requires Read(s, s.regs.pc) == 0xFB && Read(s, s.regs.pc + 1) == 0x00
    ensures StepCycle(s).Some? && StepCycle(StepCycle(s).value).Some?
    ensures StepCycle(StepCycle(s).value).value.control.ime
  {
    StepEi(s);
    var t := StepCycle(s).value;
    assert t.bus.memory == s.bus.memory;
    assert Read(t, t.regs.pc) == 0x00;
    ExecuteControl(Fetch(t).0);
  }

  /** NOP changes nothing; DI clears IME; EI only schedules it. */
  lemma ExecuteControl(s: CpuState)
    ensures ExecuteOpcode(s, 0x00) == Some(s)
    ensures ExecuteOpcode(s, 0xF3) == Some(s.(control := s.control.(ime := false)))
    ensures ExecuteOpcode(s, 0xFB) == Some(s.(control := s.control.(delayedIme := true)))
  {
    assert Decode(0x00) == Nop && Decode(0xF3) == Di && Decode(0xFB) == Ei;
  }

  /** DI clears IME at once and leaves the enable register IE alone. */
  lemma StepDi(s: CpuState)
    requires !s.control.halted && Read(s, s.regs.pc) == 0xF3
    ensures StepCycle(s).Some?
    ensures !StepCycle(s).value.control.ime
    ensures StepCycle(s).value.bus.interruptEnable == s.bus.interruptEnable
    ensures StepCycle(s).value.regs == s.regs.(pc := s.regs.pc + 1)
  {
    ExecuteControl(Fetch(s).0);
  }

  /** Without a boot ROM to run, the CPU starts at 0x100 with the post-boot registers and DIV. */
  lemma NewAfterBoot(bus: Bus)
    ensures New(true, bus).regs.pc == 0x100 && New(true, bus).regs.sp == 0xFFFE
    ensures FR.AF(New(true, bus).regs) == 0x01B0 && FR.BC(New(true, bus).regs) == 0x0013
    ensures FR.DE(New(true, bus).regs) == 0x00D8 && FR.HL(New(true, bus).regs) == 0x014D
    ensures Read(New(true, bus), 0xFF04) == 0xAB
    ensures !New(true, bus).control.ime && !New(true, bus).control.halted && New(true, bus).cycles == 0
  {
    var r := PostBootRegisters();
    assert Lo(0x01B0) == 0xB0 && Hi(0x01B0) == 0x01;
    assert Join(0x01, 0xB0) == 0x01B0;
  }

  /** With a boot ROM to run, the CPU starts from zeroed registers at address 0. */
  lemma NewWithBootRom(bus: Bus)
    ensures New(false, bus).regs == FR.DEFAULT && New(false, bus).regs.pc == 0
    ensures New(false, bus).bus == bus && !New(false, bus).control.ime
  {
  }

  // ---------------------------------------------------------------------
  // Operands and instructions

  /** The address a memory operand designates, with any immediate bytes read at PC. */
  function OperandAddress(s: CpuState, a: InstructionAddress): Word
  {
    match a
    case BCI => FR.BC(s.regs)
    case DEI => FR.DE(s.regs)
    case HLI => FR.HL(s.regs)
    case HLIP => FR.HL(s.regs)
    case HLIN => FR.HL(s.regs)
    case Direct => s.regs.pc
    case DirectMem => Peek16(s, s.regs.pc)
    case IoDirect => 0xFF00 | Read(s, s.regs.pc) as Word
    case IoC => 0xFF00 | s.regs.c as Word
  }

  /** The registers after a memory operand: HL stepped for (HL+) and (HL-), PC past any immediate bytes. */
  function AfterOperand(r: FR.RegFile, a: InstructionAddress): FR.RegFile
  {
    match a
    case HLIP => FR.SetHL(r, FR.HL(r) + 1)
    case HLIN => FR.SetHL(r, FR.HL(r) - 1)
    case Direct => r.(pc := r.pc + 1)
    case DirectMem => r.(pc := r.pc + 2)
    case IoDirect => r.(pc := r.pc + 1)
    case _ => r
  }

  /** The clocks a memory operand costs: one M-cycle per immediate byte and one for the access. */
  function OperandCycles(a: InstructionAddress): nat
  {
    match a
    case DirectMem => 12
    case IoDirect => 8
    case _ => 4
  }

  /** What reading the memory operand `a` does, in terms of the state before it. */
  predicate ReadsOperand(s: CpuState, a: InstructionAddress)
  {
    var (t, v) := ReadU8(s, Addr(a));
    v == Read(s, OperandAddress(s, a)) && t.regs == AfterOperand(s.regs, a) &&
    t.cycles == s.cycles + OperandCycles(a) && t.bus.memory == s.bus.memory
  }

  /** Reading a memory operand yields the byte at its address. */
  lemma ReadOperandSpec(s: CpuState, a: InstructionAddress)
    ensures ReadU8(s, Addr(a)).1 == Read(s, OperandAddress(s, a))
    ensures ReadU8(s, Addr(a)).0.regs == AfterOperand(s.regs, a)
    ensures ReadU8(s, Addr(a)).0.cycles == s.cycles + OperandCycles(a)
    ensures ReadU8(s, Addr(a)).0.bus.memory == s.bus.memory
  {
    match a
    case BCI => ReadBci(s);
    case DEI => ReadDei(s);
    case HLI => ReadHli(s);
    case HLIP => ReadHlip(s);
    case HLIN => ReadHlin(s);
    case Direct => ReadDirect(s);
    case DirectMem => ReadDirectMem(s);
    case IoDirect => ReadIoDirect(s);
    case IoC => ReadIoC(s);
  }

  lemma ReadAt(s: CpuState, address: Word)
    ensures ReadByteCycle(s, address).1 == Read(s, address)
    ensures ReadByteCycle(s, address).0.regs == s.regs
    ensures ReadByteCycle(s, address).0.cycles == s.cycles + 4
    ensures ReadByteCycle(s, address).0.bus.memory == s.bus.memory
  {
  }

  lemma ReadBci(s: CpuState) ensures ReadsOperand(s, BCI) { ReadAt(s, FR.BC(s.regs)); }
  lemma ReadDei(s: CpuState) ensures ReadsOperand(s, DEI) { ReadAt(s, FR.DE(s.regs)); }
  lemma ReadHli(s: CpuState) ensures ReadsOperand(s, HLI) { ReadAt(s, FR.HL(s.regs)); }
  lemma ReadHlip(s: CpuState) ensures ReadsOperand(s, HLIP) { ReadAt(s, FR.HL(s.regs)); }
  lemma ReadHlin(s: CpuState) ensures ReadsOperand(s, HLIN) { ReadAt(s, FR.HL(s.regs)); }
  lemma ReadDirect(s: CpuState) ensures ReadsOperand(s, Direct) { GetInstrU8Spec(s); }
  lemma ReadIoC(s: CpuState) ensures ReadsOperand(s, IoC) { ReadAt(s, 0xFF00 | s.regs.c as Word); }

  lemma ReadDirectMem(s: CpuState)
    ensures ReadsOperand(s, DirectMem)
  {
    GetInstrU16Spec(s);
    var (s1, address) := GetInstrU16(s);
    ReadAt(s1, address);
  }

  lemma ReadIoDirect(s: CpuState)
    ensures ReadsOperand(s, IoDirect)
  {
    GetInstrU8Spec(s);
    var (s1, offset) := GetInstrU8(s);
    ReadAt(s1, 0xFF00 | offset as Word);
  }

  /** What writing `v` to the memory operand `a` does, in terms of the state before it. */
  predicate WritesOperand(s: CpuState, a: InstructionAddress, v: Byte)
  {
    var t := WriteU8(s, Addr(a), v);
    t.bus.memory == s.bus.memory[Cell(OperandAddress(s, a)) := v] &&
    t.regs == AfterOperand(s.regs, a) && t.cycles == s.cycles + OperandCycles(a)
  }

  /** Writing a memory operand stores the byte at its address and nowhere else. */
  lemma WriteOperandSpec(s: CpuState, a: InstructionAddress, v: Byte)
    requires a != Direct
    ensures WriteU8(s, Addr(a), v).bus.memory == s.bus.memory[Cell(OperandAddress(s, a)) := v]
    ensures WriteU8(s, Addr(a), v).regs == AfterOperand(s.regs, a)
    ensures WriteU8(s, Addr(a), v).cycles == s.cycles + OperandCycles(a)
  {
    match a
    case BCI => WriteBci(s, v);
    case DEI => WriteDei(s, v);
    case HLI => WriteHli(s, v);
    case HLIP => WriteHlip(s, v);
    case HLIN => WriteHlin(s, v);
    case DirectMem => WriteDirectMem(s, v);
    case IoDirect => WriteIoDirect(s, v);
    case IoC => WriteIoC(s, v);
  }

  lemma WriteAt(s: CpuState, address: Word, v: Byte)
    ensures WriteByteCycle(s, address, v).bus.memory == s.bus.memory[Cell(address) := v]
    ensures WriteByteCycle(s, address, v).regs == s.regs
    ensures WriteByteCycle(s, address, v).cycles == s.cycles + 4
  {
  }

  lemma WriteBci(s: CpuState, v: Byte) ensures WritesOperand(s, BCI, v) { WriteAt(s, FR.BC(s.regs), v); }
  lemma WriteDei(s: CpuState, v: Byte) ensures WritesOperand(s, DEI, v) { WriteAt(s, FR.DE(s.regs), v); }
  lemma WriteHli(s: CpuState, v: Byte) ensures WritesOperand(s, HLI, v) { WriteAt(s, FR.HL(s.regs), v); }
  lemma WriteHlip(s: CpuState, v: Byte) ensures WritesOperand(s, HLIP, v) { WriteAt(s, FR.HL(s.regs), v); }
  lemma WriteHlin(s: CpuState, v: Byte) ensures WritesOperand(s, HLIN, v) { WriteAt(s, FR.HL(s.regs), v); }
  lemma WriteIoC(s: CpuState, v: Byte) ensures WritesOperand(s, IoC, v) { WriteAt(s, 0xFF00 | s.regs.c as Word, v); }

  lemma WriteDirectMem(s: CpuState, v: Byte)
    ensures var t := WriteU8(s, Addr(DirectMem), v);
            t.bus.memory == s.bus.memory[Cell(Peek16(s, s.regs.pc)) := v] &&
            t.regs == s.regs.(pc := s.regs.pc + 2) && t.cycles == s.cycles + 12
  {
    GetInstrU16Spec(s);
    var (s1, address) := GetInstrU16(s);
    assert WriteU8(s, Addr(DirectMem), v) == WriteByteCycle(s1, address, v);
    WriteAfter(s1, address, v, WriteByteCycle(s1, address, v));
  }

  /** The facts of `WriteAt` about a state already computed. */
  lemma WriteAfter(s: CpuState, address: Word, v: Byte, t: CpuState)
    requires t == WriteByteCycle(s, address, v)
    ensures t.bus.memory == s.bus.memory[Cell(address) := v] && t.regs == s.regs && t.cycles == s.cycles + 4
  {
    WriteAt(s, address, v);
  }

  lemma WriteIoDirect(s: CpuState, v: Byte)
    ensures WritesOperand(s, IoDirect, v)
  {
    GetInstrU8Spec(s);
    var (s1, offset) := GetInstrU8(s);
    WriteAt(s1, 0xFF00 | offset as Word, v);
  }

  /** LD r,(mem): the register receives the byte at the operand's address. */
  lemma LoadFromMemory(s: CpuState, x: Reg8, a: InstructionAddress)
    ensures Load8Bit(s, Reg(x), Addr(a)).regs ==
              SetReg(AfterOperand(s.regs, a), x, Read(s, OperandAddress(s, a)))
    ensures Load8Bit(s, Reg(x), Addr(a)).bus.memory == s.bus.memory
  {
    ReadOperandSpec(s, a);
  }

  /** LD (mem),r: the register's byte is stored at the operand's address. */
  lemma LoadToMemory(s: CpuState, a: InstructionAddress, x: Reg8)
    requires a != Direct
    ensures Load8Bit(s, Addr(a), Reg(x)).bus.memory == s.bus.memory[Cell(OperandAddress(s, a)) := GetReg(s.regs, x)]
    ensures Load8Bit(s, Addr(a), Reg(x)).regs == AfterOperand(s.regs, a)
  {
    WriteOperandSpec(s, a, GetReg(s.regs, x));
  }

  /** LD (HL+),A stores A at HL and moves HL up by one. */
  lemma LoadIncrementSpec(s: CpuState)
    ensures Read(Load8Bit(s, Addr(HLIP), Reg(A)), FR.HL(s.regs)) == s.regs.a
    ensures FR.HL(Load8Bit(s, Addr(HLIP), Reg(A)).regs) == FR.HL(s.regs) + 1
  {
    LoadToMemory(s, HLIP, A);
    FR.PairRoundTrip(s.regs, FR.HL(s.regs) + 1);
  }

  /** A byte stored through (HL) by one LD reads back through (HL) by the next. */
  lemma StoreLoadRoundTrip(s: CpuState, x: Reg8, y: Reg8)
    ensures GetReg(Load8Bit(Load8Bit(s, Addr(HLI), Reg(x)), Reg(y), Addr(HLI)).regs, y) == GetReg(s.regs, x)
  {
    var t := Load8Bit(s, Addr(HLI), Reg(x));
    LoadToMemory(s, HLI, x);
    LoadFromMemory(t, y, HLI);
    SetRegSpec(t.regs, y, y, Read(t, FR.HL(s.regs)));
  }

  /** Reading an operand never changes A or F. */
  lemma ReadKeepsAccumulator(s: CpuState, o: Operand)
    ensures ReadU8(s, o).0.regs.a == s.regs.a && ReadU8(s, o).0.regs.f == s.regs.f
  {
    match o
    case Reg(x) =>
    case Addr(a) =>
      ReadOperandSpec(s, a);
      AfterOperandKeepsAccumulator(s.regs, a);
  }

  lemma AfterOperandKeepsAccumulator(r: FR.RegFile, a: InstructionAddress)
    ensures AfterOperand(r, a).a == r.a && AfterOperand(r, a).f == r.f
  {
    match a
    case BCI => case DEI => case HLI => case HLIP => case HLIN =>
    case Direct => case DirectMem => case IoDirect => case IoC =>
  }

  /** Setting Z, N and H one after the other, as INC, DEC and BIT do, leaves C alone. */
  lemma WithZnhSpec(r: FR.RegFile, z: bool, n: bool, h: bool)
    ensures var r1 := WithH(WithN(WithZ(r, z), n), h);
      Zf(r1) == z && Nf(r1) == n && Hf(r1) == h && Cf(r1) == Cf(r) && r1.(f := r.f) == r
  {
  }

  /**
   * The 0x80-0xBF block and its immediate forms: A receives the ALU result
   * (CP keeps A), the four flags are the ALU's, and no other register changes
   * beyond what reading the operand does.
   */
  lemma ArithmeticSpec(s: CpuState, kind: Instructions.AluKind, src: Operand)
    ensures var v := ReadU8(s, src).1;
      var o := AluResult(kind, s.regs.a, v, Cf(s.regs));
      var r := Arithmetic(s, kind, src).regs;
      r.a == (if kind == Instructions.Cp then s.regs.a else o.value) &&
      Zf(r) == o.z && Nf(r) == o.n && Hf(r) == o.h && Cf(r) == o.c
  {
    ReadKeepsAccumulator(s, src);
    var t := ReadU8(s, src).0;
    var o := AluResult(kind, s.regs.a, ReadU8(s, src).1, Cf(s.regs));
    WithFlagsSpec(t.regs, o);
    var r := WithFlags(t.regs, o);
    assert Arithmetic(s, kind, src).regs == if kind == Instructions.Cp then r else r.(a := o.value);
  }

  /** Besides A and F, the registers after an ALU instruction are those after reading its operand. */
  lemma ArithmeticKeepsOthers(s: CpuState, kind: Instructions.AluKind, src: Operand)
    ensures var t := ReadU8(s, src).0;
      Arithmetic(s, kind, src).regs.(a := t.regs.a, f := t.regs.f) == t.regs
  {
    var t := ReadU8(s, src).0;
    var o := AluResult(kind, t.regs.a, ReadU8(s, src).1, Cf(t.regs));
    WithFlagsSpec(t.regs, o);
  }

  /** CP compares without storing: Z when A equals the operand, C when the operand is larger. */
  lemma CompareSpec(s: CpuState, x: Reg8)
    ensures Arithmetic(s, Instructions.Cp, Reg(x)).regs.a == s.regs.a
    ensures Zf(Arithmetic(s, Instructions.Cp, Reg(x)).regs) <==> s.regs.a == GetReg(s.regs, x)
    ensures Cf(Arithmetic(s, Instructions.Cp, Reg(x)).regs) <==> GetReg(s.regs, x) > s.regs.a
  {
    ArithmeticSpec(s, Instructions.Cp, Reg(x));
  }

  /** ADD A,r followed by SUB A,r gives A back when r is not A; the borrow mirrors the carry. */
  lemma AddThenSub(s: CpuState, x: Reg8)
    requires x != A
    ensures Arithmetic(Arithmetic(s, Instructions.Add, Reg(x)), Instructions.Sub, Reg(x)).regs.a == s.regs.a
    ensures Cf(Arithmetic(Arithmetic(s, Instructions.Add, Reg(x)), Instructions.Sub, Reg(x)).regs) ==
              Cf(Arithmetic(s, Instructions.Add, Reg(x)).regs)
  {
    var t := Arithmetic(s, Instructions.Add, Reg(x));
    ArithmeticSpec(s, Instructions.Add, Reg(x));
    assert GetReg(t.regs, x) == GetReg(s.regs, x);
    ArithmeticSpec(t, Instructions.Sub, Reg(x));
    Arith.AddSubRoundTrip(s.regs.a, GetReg(s.regs, x));
  }

  /** XOR A clears A and every flag but Z, which it sets. */
  lemma XorSelf(s: CpuState)
    ensures Arithmetic(s, Instructions.Xor, Reg(A)).regs.a == 0
    ensures Zf(Arithmetic(s, Instructions.Xor, Reg(A)).regs)
    ensures !Nf(Arithmetic(s, Instructions.Xor, Reg(A)).regs) && !Hf(Arithmetic(s, Instructions.Xor, Reg(A)).regs)
    ensures !Cf(Arithmetic(s, Instructions.Xor, Reg(A)).regs)
  {
    ArithmeticSpec(s, Instructions.Xor, Reg(A));
  }

  /** INC r: the register goes up by one, wrapping; Z on wrap to 0, N clear, H on a low-nibble carry, C kept. */
  lemma IncrementRegister(s: CpuState, x: Reg8)
    ensures var r := Increment(s, Reg(x)).regs; var v := GetReg(s.regs, x);
      GetReg(r, x) == v + 1 && (Zf(r) <==> v == 0xFF) && !Nf(r) &&
      (Hf(r) <==> v & 0xF == 0xF) && Cf(r) == Cf(s.regs)
    ensures Increment(s, Reg(x)).cycles == s.cycles
  {
    var v := GetReg(s.regs, x);
    var o := Arith.Inc(v, Cf(s.regs));
    Arith.IncDecSpec(v, Cf(s.regs));
    var r1 := WithH(WithN(WithZ(s.regs, o.z), o.n), o.h);
    WithZnhSpec(s.regs, o.z, o.n, o.h);
    SetRegSpec(r1, x, x, o.value);
    assert Increment(s, Reg(x)).regs == SetReg(r1, x, o.value);
  }

  /** DEC r: the register goes down by one, wrapping; Z on reaching 0, N set, H on a low-nibble borrow, C kept. */
  lemma DecrementRegister(s: CpuState, x: Reg8)
    ensures var r := Decrement(s, Reg(x)).regs; var v := GetReg(s.regs, x);
      GetReg(r, x) == v - 1 && (Zf(r) <==> v == 1) && Nf(r) &&
      (Hf(r) <==> v & 0xF == 0) && Cf(r) == Cf(s.regs)
    ensures Decrement(s, Reg(x)).cycles == s.cycles
  {
    var v := GetReg(s.regs, x);
    var o := Arith.Dec(v, Cf(s.regs));
    Arith.IncDecSpec(v, Cf(s.regs));
    var r1 := WithH(WithN(WithZ(s.regs, o.z), o.n), o.h);
    WithZnhSpec(s.regs, o.z, o.n, o.h);
    SetRegSpec(r1, x, x, o.value);
    assert Decrement(s, Reg(x)).regs == SetReg(r1, x, o.value);
  }

  /** DEC r undoes INC r. */
  lemma IncrementDecrementRoundTrip(s: CpuState, x: Reg8)
    ensures GetReg(Decrement(Increment(s, Reg(x)), Reg(x)).regs, x) == GetReg(s.regs, x)
  {
    IncrementRegister(s, x);
    DecrementRegister(Increment(s, Reg(x)), x);
  }

  /** INC (HL): the byte at HL goes up by one, in two M-cycles. */
  lemma IncrementMemory(s: CpuState)
    ensures Read(Increment(s, Addr(HLI)), FR.HL(s.regs)) == Read(s, FR.HL(s.regs)) + 1
    ensures Increment(s, Addr(HLI)).cycles == s.cycles + 8
  {
    ReadOperandSpec(s, HLI);
    var (t, v) := ReadU8(s, Addr(HLI));
    var o := Arith.Inc(v, Cf(t.regs));
    var t1 := t.(regs := WithH(WithN(WithZ(t.regs, o.z), o.n), o.h));
    WriteOperandSpec(t1, HLI, o.value);
  }

  /** BIT b,r: Z says whether the bit is clear; N clear, H set, C and every register kept. */
  lemma TestBitSpec(s: CpuState, bit: Byte, x: Reg8)
    requires bit < 8
    ensures Zf(TestBit(s, bit, Reg(x)).regs) <==> !BitSet(GetReg(s.regs, x), bit as nat)
    ensures !Nf(TestBit(s, bit, Reg(x)).regs) && Hf(TestBit(s, bit, Reg(x)).regs)
    ensures Cf(TestBit(s, bit, Reg(x)).regs) == Cf(s.regs)
    ensures TestBit(s, bit, Reg(x)).regs.(f := s.regs.f) == s.regs
  {
    var v := GetReg(s.regs, x);
    WithZnhSpec(s.regs, v & Mask(bit) == 0, false, true);
  }

  /** SET b,r sets that bit and no other. */
  lemma SetBitSpec(s: CpuState, bit: Byte, x: Reg8)
    requires bit < 8
    ensures BitSet(GetReg(SetBit(s, bit, Reg(x)).regs, x), bit as nat)
    ensures GetReg(SetBit(s, bit, Reg(x)).regs, x) & !Mask(bit) == GetReg(s.regs, x) & !Mask(bit)
  {
    var v := GetReg(s.regs, x);
    SetRegSpec(s.regs, x, x, v | Mask(bit));
    assert GetReg(SetBit(s, bit, Reg(x)).regs, x) == v | Mask(bit);
    MaskSet(v, bit);
  }

  /** Or-ing in `Mask(bit)` sets that bit and keeps the others. */
  lemma MaskSet(v: Byte, bit: Byte)
    requires bit < 8
    ensures BitSet(v | Mask(bit), bit as nat)
    ensures (v | Mask(bit)) & !Mask(bit) == v & !Mask(bit)
  {
    assert Mask(bit) == 1 << bit as nat;
  }

  /** RES b,r clears that bit and no other. */
  lemma ResetBitSpec(s: CpuState, bit: Byte, x: Reg8)
    requires bit < 8
    ensures !BitSet(GetReg(ResetBit(s, bit, Reg(x)).regs, x), bit as nat)
    ensures GetReg(ResetBit(s, bit, Reg(x)).regs, x) & !Mask(bit) == GetReg(s.regs, x) & !Mask(bit)
  {
    SetRegSpec(s.regs, x, x, GetReg(s.regs, x) & !Mask(bit));
  }

  /** BIT after SET of the same bit reports it set; after RES, clear. */
  lemma TestAfterSetAndReset(s: CpuState, bit: Byte, x: Reg8)
    requires bit < 8
    ensures !Zf(TestBit(SetBit(s, bit, Reg(x)), bit, Reg(x)).regs)
    ensures Zf(TestBit(ResetBit(s, bit, Reg(x)), bit, Reg(x)).regs)
  {
    SetBitSpec(s, bit, x);
    TestBitSpec(SetBit(s, bit, Reg(x)), bit, x);
    ResetBitSpec(s, bit, x);
    TestBitSpec(ResetBit(s, bit, Reg(x)), bit, x);
  }

  /** CPL inverts every bit of A and sets N and H; a second CPL restores A. */
  lemma ComplementSpec(s: CpuState)
    ensures Complement(s).regs.a == !s.regs.a
    ensures Nf(Complement(s).regs) && Hf(Complement(s).regs)
    ensures Zf(Complement(s).regs) == Zf(s.regs) && Cf(Complement(s).regs) == Cf(s.regs)
    ensures Complement(Complement(s)).regs.a == s.regs.a
  {
  }

  /** CCF toggles C and clears N and H; a second CCF restores C. */
  lemma ComplementCarrySpec(s: CpuState)
    ensures Cf(ComplementCarryFlag(s).regs) == !Cf(s.regs)
    ensures !Nf(ComplementCarryFlag(s).regs) && !Hf(ComplementCarryFlag(s).regs)
    ensures Zf(ComplementCarryFlag(s).regs) == Zf(s.regs)
    ensures Cf(ComplementCarryFlag(ComplementCarryFlag(s)).regs) == Cf(s.regs)
  {
  }

  /** SCF sets C and clears N and H; Z is kept. */
  lemma SetCarrySpec(s: CpuState)
    ensures Cf(SetCarryFlag(s).regs) && !Nf(SetCarryFlag(s).regs) && !Hf(SetCarryFlag(s).regs)
    ensures Zf(SetCarryFlag(s).regs) == Zf(s.regs)
  {
  }

  /** DAA: A and the flags are those of the ALU's decimal adjustment; H cleared, N kept. */
  lemma DecimalAdjustSpec(s: CpuState)
    ensures var o := Arith.Daa(s.regs.a, Nf(s.regs), Hf(s.regs), Cf(s.regs));
      var r := DecimalAdjust(s).regs;
      r.a == o.value && Zf(r) == o.z && Cf(r) == o.c && Nf(r) == Nf(s.regs) && !Hf(r)
  {
  }

  /** ADD A,r then DAA is decimal addition of two BCD bytes, with C the decimal carry out. */
  lemma AddThenDecimalAdjust(s: CpuState, x: Reg8)
    requires x != A && Arith.IsBcd(s.regs.a) && Arith.IsBcd(GetReg(s.regs, x))
    ensures DecimalAdjust(Arithmetic(s, Instructions.Add, Reg(x))).regs.a == Arith.BcdAdd(s.regs.a, GetReg(s.regs, x)).0
    ensures Cf(DecimalAdjust(Arithmetic(s, Instructions.Add, Reg(x))).regs) == Arith.BcdAdd(s.regs.a, GetReg(s.regs, x)).1
  {
    var t := Arithmetic(s, Instructions.Add, Reg(x));
    ArithmeticSpec(s, Instructions.Add, Reg(x));
    DecimalAdjustSpec(t);
    Arith.DaaAfterAdd(s.regs.a, GetReg(s.regs, x));
    Arith.DaaCarryAfterAdd(s.regs.a, GetReg(s.regs, x));
  }

  /** The condition flags are untouched by moving PC. */
  lemma MatchesIgnoresPc(r: FR.RegFile, pc: Word, cond: JumpModifier)
    ensures Matches(r.(pc := pc), cond) == Matches(r, cond)
  {
  }

  /**
   * JR cc,e: the offset byte is always consumed; when the condition holds PC
   * moves by the sign-extended offset from the next instruction, one more M-cycle.
   */
  lemma RelativeJumpSpec(s: CpuState, cond: JumpModifier)
    ensures RelativeJump(s, cond).regs.pc ==
              if Matches(s.regs, cond) then RelativeTarget(s.regs.pc + 1, Read(s, s.regs.pc)) else s.regs.pc + 1
    ensures RelativeJump(s, cond).regs.(pc := 0) == s.regs.(pc := 0)
    ensures RelativeJump(s, cond).cycles == s.cycles + (if Matches(s.regs, cond) then 8 else 4)
  {
    GetInstrU8Spec(s);
    MatchesIgnoresPc(s.regs, s.regs.pc + 1, cond);
  }

  /**
   * A relative jump moves forward by the offset byte when it is below 0x80 and
   * back by 256 minus it otherwise: the byte is a two's-complement distance.
   */
  lemma RelativeTargetSpec(pc: Word, offset: Byte)
    ensures offset < 0x80 ==> RelativeTarget(pc, offset) == pc + offset as Word
    ensures 0x80 <= offset ==> RelativeTarget(pc, offset) == pc - (0x100 - offset as Word)
  {
    var o := offset as Word;
    assert o < 0x100;
    assert 0xFF00 | o == 0xFF00 + o;
  }

  /** JR -2 jumps back to its own opcode. */
  lemma RelativeJumpSelfLoop(s: CpuState)
    requires Read(s, s.regs.pc) == 0xFE
    ensures RelativeJump(s, Always).regs.pc == s.regs.pc - 1
  {
    RelativeJumpSpec(s, Always);
  }

  /**
   * JP: the immediate word is always consumed; when the condition holds PC
   * becomes that word, or HL for `JP HL`, one more M-cycle.
   */
  lemma JumpSpec(s: CpuState, cond: JumpModifier)
    ensures JumpTo(s, cond).regs ==
              s.regs.(pc := if !Matches(s.regs, cond) then s.regs.pc + 2
                            else if cond == JumpHL then FR.HL(s.regs) else Peek16(s, s.regs.pc))
    ensures JumpTo(s, cond).cycles == s.cycles + (if Matches(s.regs, cond) then 12 else 8)
  {
    GetInstrU16Spec(s);
    MatchesIgnoresPc(s.regs, s.regs.pc + 2, cond);
  }
}
