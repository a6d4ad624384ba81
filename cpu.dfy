/**
 * The `CPU` struct of core/src/hardware/cpu/mod.rs and fetch.rs as a class:
 * the registers, IME, HALT, the pending EI, the last opcode and the cycle
 * count are fields that every instruction updates in place, one step after
 * the other as the source does. The memory mapper is the `CpuSpec.Bus` value
 * the CPU holds. Each method is proved to leave exactly the state the
 * matching function of module `CpuSpec` computes from the old state, so the
 * properties proved there (flags, stack round trips, interrupt priority,
 * the delayed EI) hold of the class.
 */
module Cpu {
  import opened Bits
  import opened Execute
  import FR = FlagRegisters
  import Arith = Alu
  import Instructions
  import Interrupts
  import Timer
  import CpuSpec

  class Cpu {
    var cyclesPerformed: nat
    var ime: bool
    var halted: bool
    var opcode: Byte
    var delayedIme: bool
    var registers: FR.RegFile
    var hadVblank: bool
    var mmu: CpuSpec.Bus

    /** The fields as one `CpuState`. */
    function State(): CpuSpec.CpuState
      reads this
    {
      CpuSpec.CpuState(cyclesPerformed, CpuSpec.Control(ime, halted, delayedIme, opcode), registers, hadVblank, mmu)
    }

    /** `CPU::new`: without a boot ROM to run, the post-boot registers and DIV = 0xAB. */
    constructor (bootRomFinished: bool, bus: CpuSpec.Bus)
      ensures State() == CpuSpec.New(bootRomFinished, bus)
    {
      opcode := 0;
      registers := FR.DEFAULT;
      mmu := bus;
      halted := false;
      cyclesPerformed := 0;
      ime := false;
      delayedIme := false;
      hadVblank := false;
      new;
      if bootRomFinished {
        registers := registers.(pc := 0x100);
        registers := FR.SetAF(registers, 0x01B0);
        registers := FR.SetBC(registers, 0x0013);
        registers := FR.SetDE(registers, 0x00D8);
        registers := FR.SetHL(registers, 0x014D);
        registers := registers.(sp := 0xFFFE);
        mmu := mmu.(memory := mmu.memory[CpuSpec.Cell(0xFF04) := 0xAB]);
      }
    }

    /** Sets SP. */
    method SetSp(sp: Word)
      modifies this
      ensures State() == old(State()).(regs := old(State()).regs.(sp := sp))
    {
      registers := registers.(sp := sp);
    }

    /** Sets PC. */
    method SetPc(pc: Word)
      modifies this
      ensures State() == old(State()).(regs := old(State()).regs.(pc := pc))
    {
      registers := registers.(pc := pc);
    }

    /** Replaces the register file. */
    method SetRegisters(r: FR.RegFile)
      modifies this
      ensures State() == old(State()).(regs := r)
    {
      registers := r;
    }

    /** Sets IME. */
    method SetIme(b: bool)
      modifies this
      ensures State() == old(State()).(control := old(State()).control.(ime := b))
    {
      ime := b;
    }

    /** Sets the HALT state. */
    method SetHalted(b: bool)
      modifies this
      ensures State() == old(State()).(control := old(State()).control.(halted := b))
    {
      halted := b;
    }

    /** Sets the pending EI. */
    method SetDelayedIme(b: bool)
      modifies this
      ensures State() == old(State()).(control := old(State()).control.(delayedIme := b))
    {
      delayedIme := b;
    }

    /** Records the opcode being run. */
    method SetOpcode(op: Byte)
      modifies this
      ensures State() == old(State()).(control := old(State()).control.(opcode := op))
    {
      opcode := op;
    }

    /** Sets the interrupt flag register IF. */
    method SetInterruptFlag(f: Byte)
      modifies this
      ensures State() == old(State()).(bus := old(State()).bus.(interruptFlag := f))
    {
      mmu := mmu.(interruptFlag := f);
    }

    /** Sets the HL pair. */
    method SetHl(w: Word)
      modifies this
      ensures State() == old(State()).(regs := FR.SetHL(old(State()).regs, w))
    {
      registers := FR.SetHL(registers, w);
    }

    // -------------------------------------------------------------------
    // fetch.rs

    /** `add_new_interrupts`. */
    method AddNewInterrupts(interrupt: Option<Byte>)
      modifies this
      ensures State() == CpuSpec.AddNewInterrupts(old(State()), interrupt)
    {
      if interrupt.Some? {
        if Interrupts.ContainsInterrupt(interrupt.value, Interrupts.VBlank) {
          hadVblank := true;
        }
        mmu := mmu.(interruptFlag := mmu.interruptFlag | interrupt.value);
      }
    }

    /** `add_cycles`: four clocks, then what the PPU and the timer raise joins IF. */
    method AddCycles()
      modifies this
      ensures State() == CpuSpec.AddCycles(old(State()))
    {
      cyclesPerformed := cyclesPerformed + 4;
      var interrupt := CpuSpec.PpuInterrupt(mmu, cyclesPerformed);
      AddNewInterrupts(interrupt);
      var tick := Timer.Tick(mmu.timers);
      mmu := mmu.(timers := tick.0);
      AddNewInterrupts(tick.1);
    }

    /** `read_byte_cycle`. */
    method ReadByteCycle(address: Word) returns (v: Byte)
      modifies this
      ensures (State(), v) == CpuSpec.ReadByteCycle(old(State()), address)
    {
      AddCycles();
      v := CpuSpec.Load(mmu.memory, address);
    }

    /** `write_byte_cycle`. */
    method WriteByteCycle(address: Word, v: Byte)
      modifies this
      ensures State() == CpuSpec.WriteByteCycle(old(State()), address, v)
    {
      AddCycles();
      mmu := mmu.(memory := mmu.memory[CpuSpec.Cell(address) := v]);
    }

    /** `get_instr_u8`. */
    method GetInstrU8() returns (v: Byte)
      modifies this
      ensures (State(), v) == CpuSpec.GetInstrU8(old(State()))
    {
      v := ReadByteCycle(registers.pc);
      registers := registers.(pc := registers.pc + 1);
    }

    /** `get_instr_u16`. */
    method GetInstrU16() returns (v: Word)
      modifies this
      ensures (State(), v) == CpuSpec.GetInstrU16(old(State()))
    {
      var lo := GetInstrU8();
      var hi := GetInstrU8();
      v := Join(hi, lo);
    }

    /** `read_short_cycle`. */
    method ReadShortCycle(address: Word) returns (v: Word)
      modifies this
      ensures (State(), v) == CpuSpec.ReadShortCycle(old(State()), address)
    {
      var lo := ReadByteCycle(address);
      var hi := ReadByteCycle(address + 1);
      v := Join(hi, lo);
    }

    /** `write_short_cycle`. */
    method WriteShortCycle(address: Word, v: Word)
      modifies this
      ensures State() == CpuSpec.WriteShortCycle(old(State()), address, v)
    {
      WriteByteCycle(address, Lo(v));
      WriteByteCycle(address + 1, Hi(v));
    }

    /** `added_vblank`. */
    method AddedVblank() returns (b: bool)
      modifies this
      ensures (State(), b) == CpuSpec.AddedVblank(old(State()))
    {
      if hadVblank {
        hadVblank := false;
        b := true;
      } else {
        b := false;
      }
    }

    /** `push_helper`. */
    method PushHelper(v: Word)
      modifies this
      ensures State() == CpuSpec.PushHelper(old(State()), v)
    {
      SetSp(registers.sp - 2);
      WriteShortCycle(registers.sp, v);
      AddCycles();
    }

    /** `interrupts_routine`. */
    method InterruptsRoutine(interrupt: Interrupts.Interrupt)
      modifies this
      ensures State() == CpuSpec.InterruptsRoutine(old(State()), interrupt)
    {
      AddCycles();
      AddCycles();
      SetIme(false);
      SetHalted(false);
      PushHelper(registers.pc);
      SetPc(CpuSpec.Vector(interrupt));
    }

    /**
     * `handle_interrupts`: with IME clear a pending enabled request only ends
     * HALT; with IME set the first source in priority order that is both
     * requested and enabled is acknowledged and its routine entered.
     */
    method HandleInterrupts() returns (fired: bool)
      modifies this
      ensures (State(), fired) == CpuSpec.HandleInterrupts(old(State()))
    {
      if !ime {
        WakeOnPending();
        fired := false;
      } else if mmu.interruptFlag == 0 {
        fired := false;
      } else {
        fired := DispatchPending();
      }
    }

    /** The branch of `handle_interrupts` with IME clear. */
    method WakeOnPending()
      requires !ime
      modifies this
      ensures (State(), false) == CpuSpec.HandleInterrupts(old(State()))
    {
      if mmu.interruptFlag & mmu.interruptEnable != 0 {
        SetHalted(false);
        AddCycles();
      }
    }

    /** The loop of `handle_interrupts` with IME set and some request in IF. */
    method DispatchPending() returns (fired: bool)
      requires ime && mmu.interruptFlag != 0
      modifies this
      ensures (State(), fired) == CpuSpec.HandleInterrupts(old(State()))
    {
      var found := FindPending(mmu.interruptFlag, mmu.interruptEnable);
      match found
      case None => fired := false;
      case Some(interrupt) =>
        Dispatch(interrupt);
        fired := true;
    }

    /** The request is acknowledged, then the routine runs. */
    method Dispatch(interrupt: Interrupts.Interrupt)
      modifies this
      ensures State() == CpuSpec.Dispatch(old(State()), interrupt)
    {
      Acknowledge(interrupt);
      InterruptsRoutine(interrupt);
    }

    /** The request is cleared in IF and PC steps back over the opcode byte. */
    method Acknowledge(interrupt: Interrupts.Interrupt)
      modifies this
      ensures State() == CpuSpec.Acknowledged(old(State()), interrupt)
    {
      SetInterruptFlag(mmu.interruptFlag & !Interrupts.Bit(interrupt));
      SetPc(registers.pc - 1);
    }

    /** `get_next_opcode`. */
    method GetNextOpcode() returns (op: Byte)
      modifies this
      ensures (State(), op) == CpuSpec.GetNextOpcode(old(State()))
    {
      op := GetInstrU8();
      var fired := HandleInterrupts();
      if fired {
        op := GetInstrU8();
      }
    }

    // -------------------------------------------------------------------
    // The operands (the `ToU8` and `SetU8` implementations)

    /** `ToU8::read_u8_value`: a register, or a read through an address operand. */
    method ReadU8Value(o: Operand) returns (v: Byte)
      modifies this
      ensures (State(), v) == CpuSpec.ReadU8(old(State()), o)
    {
      match o
      case Reg(x) => v := CpuSpec.GetReg(registers, x);
      case Addr(a) => v := ReadAddress(a);
    }

    /** The address operands of `ToU8`. */
    method ReadAddress(a: InstructionAddress) returns (v: Byte)
      modifies this
      ensures (State(), v) == CpuSpec.ReadU8(old(State()), Addr(a))
    {
      match a
      case BCI => v := ReadByteCycle(FR.BC(registers));
      case DEI => v := ReadByteCycle(FR.DE(registers));
      case HLI => v := ReadByteCycle(FR.HL(registers));
      case HLIP => v := ReadHlIncrement();
      case HLIN => v := ReadHlDecrement();
      case Direct => v := GetInstrU8();
      case DirectMem => v := ReadDirectMem();
      case IoDirect => v := ReadIoDirect();
      case IoC => v := ReadByteCycle(0xFF00 | registers.c as Word);
    }

    /** `(HL+)`: the read, then HL steps up by one. */
    method ReadHlIncrement() returns (v: Byte)
      modifies this
      ensures (State(), v) == CpuSpec.ReadU8(old(State()), Addr(HLIP))
    {
      var hl := FR.HL(registers);
      v := ReadByteCycle(hl);
      SetHl(hl + 1);
    }

    /** `(HL-)`: the read, then HL steps down by one. */
    method ReadHlDecrement() returns (v: Byte)
      modifies this
      ensures (State(), v) == CpuSpec.ReadU8(old(State()), Addr(HLIN))
    {
      var hl := FR.HL(registers);
      v := ReadByteCycle(hl);
      SetHl(hl - 1);
    }

    /** `(a16)`: the address is the next two instruction bytes. */
    method ReadDirectMem() returns (v: Byte)
      modifies this
      ensures (State(), v) == CpuSpec.ReadU8(old(State()), Addr(DirectMem))
    {
      var address := GetInstrU16();
      v := ReadByteCycle(address);
    }

    /** `(0xFF00 + a8)`: the offset is the next instruction byte. */
    method ReadIoDirect() returns (v: Byte)
      modifies this
      ensures (State(), v) == CpuSpec.ReadU8(old(State()), Addr(IoDirect))
    {
      var offset := GetInstrU8();
      v := ReadByteCycle(0xFF00 | offset as Word);
    }

    /** `SetU8::set_u8_value`: a register, or a write through an address operand. */
    method SetU8Value(o: Operand, v: Byte)
      modifies this
      ensures State() == CpuSpec.WriteU8(old(State()), o, v)
    {
      match o
      case Reg(x) => SetRegisters(CpuSpec.SetReg(registers, x, v));
      case Addr(a) => WriteAddress(a, v);
    }

    /** The address operands of `SetU8`; an immediate is never written. */
    method WriteAddress(a: InstructionAddress, v: Byte)
      modifies this
      ensures State() == CpuSpec.WriteU8(old(State()), Addr(a), v)
    {
      match a
      case BCI => WriteByteCycle(FR.BC(registers), v);
      case DEI => WriteByteCycle(FR.DE(registers), v);
      case HLI => WriteByteCycle(FR.HL(registers), v);
      case HLIP => WriteHlIncrement(v);
      case HLIN => WriteHlDecrement(v);
      case Direct =>
      case DirectMem => WriteDirectMem(v);
      case IoDirect => WriteIoDirect(v);
      case IoC => WriteByteCycle(0xFF00 | registers.c as Word, v);
    }

    /** `(HL+)`: the write, then HL steps up by one. */
    method WriteHlIncrement(v: Byte)
      modifies this
      ensures State() == CpuSpec.WriteU8(old(State()), Addr(HLIP), v)
    {
      var hl := FR.HL(registers);
      WriteByteCycle(hl, v);
      SetHl(hl + 1);
    }

    /** `(HL-)`: the write, then HL steps down by one. */
    method WriteHlDecrement(v: Byte)
      modifies this
      ensures State() == CpuSpec.WriteU8(old(State()), Addr(HLIN), v)
    {
      var hl := FR.HL(registers);
      WriteByteCycle(hl, v);
      SetHl(hl - 1);
    }

    /** `(a16)`: the address is the next two instruction bytes. */
    method WriteDirectMem(v: Byte)
      modifies this
      ensures State() == CpuSpec.WriteU8(old(State()), Addr(DirectMem), v)
    {
      var address := GetInstrU16();
      WriteByteCycle(address, v);
    }

    /** `(0xFF00 + a8)`: the offset is the next instruction byte. */
    method WriteIoDirect(v: Byte)
      modifies this
      ensures State() == CpuSpec.WriteU8(old(State()), Addr(IoDirect), v)
    {
      var offset := GetInstrU8();
      WriteByteCycle(0xFF00 | offset as Word, v);
    }

    // -------------------------------------------------------------------
    // The instructions (mod.rs)

    /** `load_16bit(rr, DIRECT)`. */
    method Load16Immediate(x: Reg16)
      modifies this
      ensures State() == CpuSpec.Load16Immediate(old(State()), x)
    {
      var v := GetInstrU16();
      SetRegisters(CpuSpec.SetPair(registers, x, v));
    }

    /** `load_16bit(DirectMem, SP)`. */
    method StoreStackPointer()
      modifies this
      ensures State() == CpuSpec.StoreStackPointer(old(State()))
    {
      var v := registers.sp;
      var address := GetInstrU16();
      WriteShortCycle(address, v);
    }

    /** `load_8bit`. */
    method Load8Bit(dst: Operand, src: Operand)
      modifies this
      ensures State() == CpuSpec.Load8Bit(old(State()), dst, src)
    {
      var v := ReadU8Value(src);
      SetU8Value(dst, v);
    }

    /** `increment`. */
    method Increment(t: Operand)
      modifies this
      ensures State() == CpuSpec.Increment(old(State()), t)
    {
      var v := ReadU8Value(t);
      var o := Arith.Inc(v, CpuSpec.Cf(registers));
      SetRegisters(CpuSpec.WithH(CpuSpec.WithN(CpuSpec.WithZ(registers, o.z), o.n), o.h));
      SetU8Value(t, o.value);
    }

    /** `decrement`. */
    method Decrement(t: Operand)
      modifies this
      ensures State() == CpuSpec.Decrement(old(State()), t)
    {
      var v := ReadU8Value(t);
      var o := Arith.Dec(v, CpuSpec.Cf(registers));
      SetRegisters(CpuSpec.WithH(CpuSpec.WithN(CpuSpec.WithZ(registers, o.z), o.n), o.h));
      SetU8Value(t, o.value);
    }

    /** `increment16`. */
    method Increment16(x: Reg16)
      modifies this
      ensures State() == CpuSpec.Increment16(old(State()), x)
    {
      SetRegisters(CpuSpec.SetPair(registers, x, CpuSpec.GetPair(registers, x) + 1));
      AddCycles();
    }

    /** `decrement16`. */
    method Decrement16(x: Reg16)
      modifies this
      ensures State() == CpuSpec.Decrement16(old(State()), x)
    {
      SetRegisters(CpuSpec.SetPair(registers, x, CpuSpec.GetPair(registers, x) - 1));
      AddCycles();
    }

    /** The rotates and shifts of the CB table. */
    method Rotate(kind: ShiftKind, t: Operand)
      modifies this
      ensures State() == CpuSpec.Rotate(old(State()), kind, t)
    {
      var v := ReadU8Value(t);
      var o := CpuSpec.ShiftResult(kind, v, CpuSpec.Cf(registers));
      SetRegisters(CpuSpec.WithFlags(registers, o));
      SetU8Value(t, o.value);
    }

    /** `rlca`, `rrca`, `rla`, `rra`. */
    method RotateA(kind: ShiftKind)
      modifies this
      ensures State() == CpuSpec.RotateA(old(State()), kind)
    {
      Rotate(kind, Reg(A));
      SetRegisters(CpuSpec.WithZ(registers, false));
    }

    /** `add16`. */
    method AddHl(x: Reg16)
      modifies this
      ensures State() == CpuSpec.AddHl(old(State()), x)
    {
      var o := Arith.Add16(FR.HL(registers), CpuSpec.GetPair(registers, x));
      var r := CpuSpec.WithH(CpuSpec.WithC(CpuSpec.WithN(registers, false), o.c), o.h);
      SetRegisters(FR.SetHL(r, o.value));
      AddCycles();
    }

    /** `relative_jump`. */
    method RelativeJump(cond: JumpModifier)
      modifies this
      ensures State() == CpuSpec.RelativeJump(old(State()), cond)
    {
      var offset := GetInstrU8();
      if CpuSpec.Matches(registers, cond) {
        SetPc(CpuSpec.RelativeTarget(registers.pc, offset));
        AddCycles();
      }
    }

    /** `daa`. */
    method DecimalAdjust()
      modifies this
      ensures State() == CpuSpec.DecimalAdjust(old(State()))
    {
      var r := registers;
      var o := Arith.Daa(r.a, CpuSpec.Nf(r), CpuSpec.Hf(r), CpuSpec.Cf(r));
      if !CpuSpec.Nf(r) && (CpuSpec.Cf(r) || r.a > 0x99) {
        r := CpuSpec.WithC(r, true);
      }
      SetRegisters(CpuSpec.WithH(CpuSpec.WithZ(r.(a := o.value), o.z), false));
    }

    /** `cpl`. */
    method Complement()
      modifies this
      ensures State() == CpuSpec.Complement(old(State()))
    {
      SetRegisters(CpuSpec.WithH(CpuSpec.WithN(registers.(a := !registers.a), true), true));
    }

    /** `scf`. */
    method SetCarryFlag()
      modifies this
      ensures State() == CpuSpec.SetCarryFlag(old(State()))
    {
      SetRegisters(CpuSpec.WithC(CpuSpec.WithH(CpuSpec.WithN(registers, false), false), true));
    }

    /** `ccf`. */
    method ComplementCarryFlag()
      modifies this
      ensures State() == CpuSpec.ComplementCarryFlag(old(State()))
    {
      var r := CpuSpec.WithH(CpuSpec.WithN(registers, false), false);
      SetRegisters(r.(f := r.f ^ FR.CF));
    }

    /** `add`, `adc`, `sub`, `sbc`, `and`, `xor`, `or` and `compare`. */
    method Arithmetic(kind: Instructions.AluKind, src: Operand)
      modifies this
      ensures State() == CpuSpec.Arithmetic(old(State()), kind, src)
    {
      var v := ReadU8Value(src);
      var o := CpuSpec.AluResult(kind, registers.a, v, CpuSpec.Cf(registers));
      var r := CpuSpec.WithFlags(registers, o);
      SetRegisters(if kind == Instructions.Cp then r else r.(a := o.value));
    }

    /** `ret`. */
    method Return(cond: JumpModifier)
      modifies this
      ensures State() == CpuSpec.Return(old(State()), cond)
    {
      AddCycles();
      if CpuSpec.Matches(registers, cond) {
        ReturnTaken();
      }
    }

    /** The taken branch of `ret`: PC is popped, then one more M-cycle. */
    method ReturnTaken()
      modifies this
      ensures State() ==
        var (s1, pc) := CpuSpec.ReadShortCycle(old(State()), old(State()).regs.sp);
        CpuSpec.AddCycles(s1.(regs := s1.regs.(pc := pc, sp := s1.regs.sp + 2)))
    {
      var pc := ReadShortCycle(registers.sp);
      PopPc(pc);
      AddCycles();
    }

    /** PC takes the word popped and SP moves up two. */
    method PopPc(pc: Word)
      modifies this
      ensures State() == old(State()).(regs := old(State()).regs.(pc := pc, sp := old(State()).regs.sp + 2))
    {
      registers := registers.(pc := pc, sp := registers.sp + 2);
    }

    /** `pop`. */
    method PopStack(x: Reg16)
      modifies this
      ensures State() == CpuSpec.PopStack(old(State()), x)
    {
      var v := ReadShortCycle(registers.sp);
      SetRegisters(CpuSpec.SetPair(registers, x, v));
      SetSp(registers.sp + 2);
    }

    /** `jump`. */
    method JumpTo(cond: JumpModifier)
      modifies this
      ensures State() == CpuSpec.JumpTo(old(State()), cond)
    {
      var value := GetInstrU16();
      if CpuSpec.Matches(registers, cond) {
        SetPc(if cond == JumpHL then FR.HL(registers) else value);
        AddCycles();
      }
    }

    /** `call`. */
    method CallTo(cond: JumpModifier)
      modifies this
      ensures State() == CpuSpec.CallTo(old(State()), cond)
    {
      var address := GetInstrU16();
      if CpuSpec.Matches(registers, cond) {
        PushHelper(registers.pc);
        SetPc(address);
      }
    }

    /** `push`. */
    method PushStack(x: Reg16)
      modifies this
      ensures State() == CpuSpec.PushStack(old(State()), x)
    {
      PushHelper(CpuSpec.GetPair(registers, x));
    }

    /** `rst`. */
    method Restart(vector: Byte)
      modifies this
      ensures State() == CpuSpec.Restart(old(State()), vector)
    {
      PushHelper(registers.pc);
      SetPc(vector as Word);
    }

    /** `reti`. */
    method ReturnFromInterrupt()
      modifies this
      ensures State() == CpuSpec.ReturnFromInterrupt(old(State()))
    {
      SetIme(true);
      var pc := ReadShortCycle(registers.sp);
      PopPc(pc);
      AddCycles();
    }

    /** `add_sp`. */
    method AddToSp()
      modifies this
      ensures State() == CpuSpec.AddToSp(old(State()))
    {
      var e := GetInstrU8();
      var o := Arith.AddSigned(registers.sp, e);
      var r := CpuSpec.WithC(CpuSpec.WithH(CpuSpec.WithN(CpuSpec.WithZ(registers, false), false), o.h), o.c);
      SetRegisters(r.(sp := o.value));
      AddCycles();
      AddCycles();
    }

    /** `load_sp_i`. */
    method LoadSpOffset()
      modifies this
      ensures State() == CpuSpec.LoadSpOffset(old(State()))
    {
      var e := GetInstrU8();
      var o := Arith.AddSigned(registers.sp, e);
      SetRegisters(CpuSpec.WithC(CpuSpec.WithH(CpuSpec.WithN(CpuSpec.WithZ(FR.SetHL(registers, o.value), false), false), o.h), o.c));
      AddCycles();
    }

    /** `load_sp_hl`. */
    method LoadSpFromHl()
      modifies this
      ensures State() == CpuSpec.LoadSpFromHl(old(State()))
    {
      SetSp(FR.HL(registers));
      AddCycles();
    }

    /** `bit`. */
    method TestBit(bit: Byte, t: Operand)
      requires bit < 8
      modifies this
      ensures State() == CpuSpec.TestBit(old(State()), bit, t)
    {
      var v := ReadU8Value(t);
      SetRegisters(CpuSpec.WithH(CpuSpec.WithN(CpuSpec.WithZ(registers, v & CpuSpec.Mask(bit) == 0), false), true));
    }

    /** `set`. */
    method SetBit(bit: Byte, t: Operand)
      requires bit < 8
      modifies this
      ensures State() == CpuSpec.SetBit(old(State()), bit, t)
    {
      var v := ReadU8Value(t);
      SetU8Value(t, v | CpuSpec.Mask(bit));
    }

    /** `res`. */
    method ResetBit(bit: Byte, t: Operand)
      requires bit < 8
      modifies this
      ensures State() == CpuSpec.ResetBit(old(State()), bit, t)
    {
      var v := ReadU8Value(t);
      SetU8Value(t, v & !CpuSpec.Mask(bit));
    }

    // -------------------------------------------------------------------
    // execute.rs and the fetch-execute step

    /** `execute_prefix`: the CB-table instruction `op` decodes to. */
    method ExecutePrefix(op: Byte)
      modifies this
      ensures State() == CpuSpec.ExecutePrefix(old(State()), op)
    {
      match DecodePrefixed(op)
      case Shift(kind, t) => Rotate(kind, t);
      case Bit(b, t) => TestBit(b, t);
      case Res(b, t) => ResetBit(b, t);
      case Set(b, t) => SetBit(b, t);
    }

    /** `cb_prefix_call`. */
    method PrefixCall()
      modifies this
      ensures State() == CpuSpec.PrefixCall(old(State()))
    {
      var op := GetInstrU8();
      SetOpcode(op);
      ExecutePrefix(op);
    }

    /**
     * `execute`: the instruction `op` decodes to. `ok` is false exactly for
     * the unused opcodes and STOP, where the source panics.
     */
    method Execute(op: Byte) returns (ok: bool)
      modifies this
      ensures CpuSpec.ExecuteOpcode(old(State()), op) == if ok then Some(State()) else None
    {
      ok := Perform(Decode(op));
    }

    /** The arms of `execute`. */
    method Perform(instr: Op) returns (ok: bool)
      modifies this
      ensures CpuSpec.Perform(old(State()), instr) == if ok then Some(State()) else None
    {
      ok := true;
      if IsTransfer(instr) {
        PerformTransfer(instr);
      } else if IsBranch(instr) {
        PerformBranch(instr);
      } else if IsArithmetic(instr) {
        PerformArithmetic(instr);
      } else {
        ok := PerformControl(instr);
      }
    }

    /** The remaining arms of `execute`: the rotates of A, the control instructions and the panics. */
    method PerformControl(instr: Op) returns (ok: bool)
      requires !IsTransfer(instr) && !IsBranch(instr) && !IsArithmetic(instr)
      modifies this
      ensures CpuSpec.Perform(old(State()), instr) == if ok then Some(State()) else None
    {
      ok := true;
      match instr
      case Nop =>
      case Stop => ok := false;
      case Unknown => ok := false;
      case Halt => SetHalted(true);
      case Prefix => PrefixCall();
      case Di => SetIme(false);
      case Ei => SetDelayedIme(true);
      case Rlca => RotateA(Rlc);
      case Rrca => RotateA(Rrc);
      case Rla => RotateA(Rl);
      case Rra => RotateA(Rr);
      case _ => assert false;
    }

    /** The loads, pushes and pops among the arms of `execute`. */
    method PerformTransfer(instr: Op)
      requires IsTransfer(instr)
      modifies this
      ensures CpuSpec.Perform(old(State()), instr) == Some(State())
    {
      match instr
      case LoadImm16(x) => Load16Immediate(x);
      case StoreSp => StoreStackPointer();
      case Load8(dst, src) => Load8Bit(dst, src);
      case Pop(x) => PopStack(x);
      case Push(x) => PushStack(x);
      case LoadSpI => LoadSpOffset();
      case LoadSpHl => LoadSpFromHl();
      case _ => assert false;
    }

    /** The jumps, calls and returns among the arms of `execute`. */
    method PerformBranch(instr: Op)
      requires IsBranch(instr)
      modifies this
      ensures CpuSpec.Perform(old(State()), instr) == Some(State())
    {
      match instr
      case JumpRelative(cond) => RelativeJump(cond);
      case Ret(cond) => Return(cond);
      case Jump(cond) => JumpTo(cond);
      case Call(cond) => CallTo(cond);
      case Rst(v) => Restart(v);
      case Reti => ReturnFromInterrupt();
      case _ => assert false;
    }

    /** The ALU arms of `execute`. */
    method PerformArithmetic(instr: Op)
      requires IsArithmetic(instr)
      modifies this
      ensures CpuSpec.Perform(old(State()), instr) == Some(State())
    {
      match instr
      case Inc16(x) => Increment16(x);
      case Dec16(x) => Decrement16(x);
      case Inc(t) => Increment(t);
      case Dec(t) => Decrement(t);
      case Add16(x) => AddHl(x);
      case Alu(kind, src) => Arithmetic(kind, src);
      case AddSp => AddToSp();
      case Daa => DecimalAdjust();
      case Cpl => Complement();
      case Scf => SetCarryFlag();
      case Ccf => ComplementCarryFlag();
      case _ => assert false;
    }

    /** The part of `step_cycle` before `execute`: a pending EI takes effect, then the opcode is fetched. */
    method Fetch() returns (op: Byte)
      modifies this
      ensures (State(), op) == CpuSpec.Fetch(old(State()))
    {
      if delayedIme {
        SetIme(true);
        SetDelayedIme(false);
      }
      op := GetInstrU8();
      SetOpcode(op);
    }

    /**
     * `step_cycle`: a halted CPU spends one M-cycle; otherwise the opcode is
     * fetched and run. `ok` is false where `execute` panics.
     */
    method StepCycle() returns (ok: bool)
      modifies this
      ensures CpuSpec.StepCycle(old(State())) == if ok then Some(State()) else None
    {
      if halted {
        AddCycles();
        return true;
      }
      var op := Fetch();
      ok := Execute(op);
    }
  }

  /**
   * The loop of `handle_interrupts`: the sources are tried in priority
   * order and the first one both requested and enabled is the one taken.
   */
  method FindPending(flags: Byte, enable: Byte) returns (found: Option<Interrupts.Interrupt>)
    ensures found == Interrupts.FirstPending(flags & enable)
  {
    var k := 0;
    while k < |Interrupts.PRIORITY|
      invariant k <= |Interrupts.PRIORITY|
      invariant Interrupts.FirstPendingFrom(flags & enable, k) == Interrupts.FirstPending(flags & enable)
    {
      var interrupt := Interrupts.PRIORITY[k];
      if Interrupts.Bit(interrupt) & flags & enable != 0 {
        assert Interrupts.IsPending(flags & enable, interrupt);
        return Some(interrupt);
      }
      k := k + 1;
    }
    return None;
  }

  /** The loads, pushes and pops. */
  predicate IsTransfer(instr: Op)
  {
    match instr
    case LoadImm16(_) | StoreSp | Load8(_, _) | Pop(_) | Push(_) | LoadSpI | LoadSpHl => true
    case _ => false
  }

  /** The jumps, calls and returns. */
  predicate IsBranch(instr: Op)
  {
    match instr
    case JumpRelative(_) | Ret(_) | Jump(_) | Call(_) | Rst(_) | Reti => true
    case _ => false
  }

  /** The 8- and 16-bit arithmetic outside the rotates of A. */
  predicate IsArithmetic(instr: Op)
  {
    match instr
    case Inc16(_) | Dec16(_) | Inc(_) | Dec(_) | Add16(_) | Alu(_, _) | AddSp | Daa | Cpl | Scf | Ccf => true
    case _ => false
  }
}
