/**
 * Cartridges without a memory bank controller and with an MBC1
 * (core/src/hardware/cartridge/mbc.rs). Reads that index past the end of the
 * ROM image panic in the source; they return `None` here.
 */
module Mbc {
  import opened Bits
  import opened MemoryMap

  /** 8 KiB of external RAM per bank. */
  const EXTERNAL_RAM_SIZE: nat := 8192

  /** The external RAM window 0xA000-0xBFFF that the bus routes to the cartridge. */
  predicate IsExRam(address: Word)
  {
    0xA000 <= address as int <= 0xBFFF
  }

  /** The offset of an external RAM address inside its 8 KiB bank. */
  function ExRamOffset(address: Word): (i: nat)
    requires IsExRam(address)
    ensures i < EXTERNAL_RAM_SIZE
  {
    address as int - 0xA000
  }

  /** `rom[index]`, or `None` where the source's index panics. */
  function RomAt(rom: seq<Byte>, index: nat): (r: Option<Byte>)
    ensures r.Some? <==> index < |rom|
    ensures r.Some? ==> r.value == rom[index]
  {
    if index < |rom| then Some(rom[index]) else None
  }

  /** `MBC0`: the ROM is mapped as is and 8 KiB of RAM sit at 0xA000. */
  class Mbc0 {
    const rom: seq<Byte>
    const ram: array<Byte>

    predicate Valid()
      reads this
    {
      ram.Length == EXTERNAL_RAM_SIZE
    }

    /** `MBC0::new`: the RAM starts filled with 0xFF. */
    constructor (rom: seq<Byte>)
      ensures Valid() && fresh(ram) && this.rom == rom
      ensures forall i :: 0 <= i < EXTERNAL_RAM_SIZE ==> ram[i] == 0xFF
    {
      this.rom := rom;
      ram := new Byte[EXTERNAL_RAM_SIZE](_ => 0xFF);
    }

    function Read3fff(address: Word): (r: Option<Byte>)
      reads this
    {
      RomAt(rom, address as nat)
    }

    function Read7fff(address: Word): (r: Option<Byte>)
      reads this
    {
      RomAt(rom, address as nat)
    }

    function ReadExRam(address: Word): (v: Byte)
      requires Valid() && IsExRam(address)
      reads this, ram
    {
      ram[ExRamOffset(address)]
    }

    /** `write_byte`: only the RAM window is writable; the ROM never changes. */
    method WriteByte(address: Word, value: Byte)
      requires Valid()
      modifies ram
      ensures IsExRam(address) ==> ram[..] == old(ram[..])[ExRamOffset(address) := value]
      ensures IsExRam(address) ==> ReadExRam(address) == value
      ensures !IsExRam(address) ==> ram[..] == old(ram[..])
    {
      if IsExRam(address) {
        ram[ExRamOffset(address)] := value;
      }
    }
  }

  // ------------------------------------------------------------------ MBC1

  /** The four MBC1 control registers. */
  datatype Mbc1Regs = Mbc1Regs(ramEnabled: bool, bankingModeSelect: bool, romBank: Byte, ramBank: Byte)

  /** `MBC1::new`. */
  const MBC1_INITIAL := Mbc1Regs(false, false, 1, 0)

  /** The ROM bank is a seven-bit number and the RAM bank one of four. */
  predicate ValidRegs(r: Mbc1Regs)
  {
    r.romBank < 0x80 && r.ramBank <= 3
  }

  /** `enable_ram`: a low nibble of 0xA enables, anything else disables. */
  function WithRamEnable(r: Mbc1Regs, value: Byte): Mbc1Regs
  {
    r.(ramEnabled := value & 0xF == 0xA)
  }

  /** `set_lower_rom_bank`: bits 0-4 from the value; a whole bank of 0 becomes 1. */
  function WithLowerBank(r: Mbc1Regs, value: Byte): Mbc1Regs
  {
    var bank := (r.romBank & 0xE0) | (value & 0x1F);
    r.(romBank := if bank == 0 then 1 else bank)
  }

  /**
   * `set_higher_rom_bank` as the source writes it: the mask 0x60 keeps bits
   * 5-6 and clears bits 0-4, the opposite of "turn off bits 5 and 6", and the
   * unmasked `value << 5` can set bit 7.
   */
  function WithHigherBankAsWritten(r: Mbc1Regs, value: Byte): Mbc1Regs
  {
    if !r.bankingModeSelect then r.(romBank := (r.romBank & 0x60) | (value << 5))
    else r.(ramBank := value & 0x03)
  }

  /** `set_higher_rom_bank` as intended: bits 5-6 replaced by the value's two low bits. */
  function WithHigherBank(r: Mbc1Regs, value: Byte): Mbc1Regs
  {
    if !r.bankingModeSelect then r.(romBank := (r.romBank & 0x1F) | ((value & 0x03) << 5))
    else r.(ramBank := value & 0x03)
  }

  /** `write_byte` on the register range 0x0000-0x7FFF. */
  function WriteRegister(r: Mbc1Regs, address: Word, value: Byte): Mbc1Regs
    requires address <= 0x7FFF
  {
    if address <= 0x1FFF then WithRamEnable(r, value)
    else if address <= 0x3FFF then WithLowerBank(r, value)
    else if address <= 0x5FFF then WithHigherBank(r, value)
    else r.(bankingModeSelect := value == 1)
  }

  /**
   * Each register range changes one thing: the RAM enable (low nibble 0xA),
   * bits 0-4 of the ROM bank (never leaving bank 0 selected), bits 5-6 of the
   * ROM bank or, in RAM banking mode, the RAM bank, and the banking mode
   * (a write of exactly 1).
   */
  lemma WriteRegisterSpec(r: Mbc1Regs, address: Word, value: Byte)
    requires ValidRegs(r) && address <= 0x7FFF
    ensures var r' := WriteRegister(r, address, value);
            ValidRegs(r') &&
            (address <= 0x1FFF ==> r' == r.(ramEnabled := value & 0x0F == 0x0A)) &&
            (0x2000 <= address <= 0x3FFF ==>
               r'.romBank != 0 && r'.romBank & 0x60 == r.romBank & 0x60 &&
               (r.romBank & 0x60 != 0 || value & 0x1F != 0 ==> r'.romBank & 0x1F == value & 0x1F) &&
               r' == r.(romBank := r'.romBank)) &&
            (0x4000 <= address <= 0x5FFF && !r.bankingModeSelect ==>
               r'.romBank & 0x1F == r.romBank & 0x1F && r'.romBank >> 5 == value & 0x03 &&
               r' == r.(romBank := r'.romBank)) &&
            (0x4000 <= address <= 0x5FFF && r.bankingModeSelect ==> r' == r.(ramBank := value & 0x03)) &&
            (0x6000 <= address ==> r' == r.(bankingModeSelect := value == 1))
  {
  }

  /**
   * The intended bank number: a lower write then an upper write in ROM
   * banking mode select bank `upper << 5 | lower`, whatever was selected
   * before.
   */
  lemma BankFromTwoWrites(r: Mbc1Regs, lower: Byte, upper: Byte)
    requires ValidRegs(r) && !r.bankingModeSelect && lower & 0x1F != 0
    ensures WithHigherBank(WithLowerBank(r, lower), upper).romBank == ((upper & 0x03) << 5) | (lower & 0x1F)
  {
  }

  /**
   * As written, the upper write discards the five bits the lower write
   * selected: lower 3 then upper 1 selects bank 0x20 instead of 0x23.
   */
  lemma UpperWriteLosesLowerBits()
    ensures WithHigherBankAsWritten(WithLowerBank(MBC1_INITIAL, 3), 1).romBank == 0x20
    ensures WithHigherBank(WithLowerBank(MBC1_INITIAL, 3), 1).romBank == 0x23
  {
  }

  /** `read_7fff` as written: `0x4000 * rom_bank` and the sum are `u16`, wrapping from bank 4 on. */
  function RomIndexAsWritten(r: Mbc1Regs, address: Word): nat
    requires 0x4000 <= address as int <= 0x7FFF
  {
    ((address - ROM_BANK_NN_START) + ROM_BANK_NN_START * (r.romBank as Word)) as nat
  }

  /** `read_7fff` as intended: the offset in the selected 16 KiB bank, computed in `usize`. */
  function RomIndex(r: Mbc1Regs, address: Word): nat
    requires 0x4000 <= address as int <= 0x7FFF
  {
    address as int - 0x4000 + 0x4000 * r.romBank as nat
  }

  /**
   * The switchable window shows bank `rom_bank`: the index lies in that
   * bank's 16 KiB and keeps the address's offset, within MBC1's 2 MiB.
   */
  lemma RomIndexSpec(r: Mbc1Regs, address: Word)
    requires ValidRegs(r) && 0x4000 <= address as int <= 0x7FFF
    ensures RomIndex(r, address) / 0x4000 == r.romBank as nat
    ensures RomIndex(r, address) % 0x4000 == address as int - 0x4000
    ensures RomIndex(r, address) < 0x200000
  {
    BankOffset(r.romBank as nat, address as int - 0x4000);
  }

  /** Splitting a flat index into a 16 KiB bank and an offset inside it. */
  lemma BankOffset(bank: nat, offset: int)
    requires 0 <= offset < 0x4000
    ensures (offset + 0x4000 * bank) / 0x4000 == bank
    ensures (offset + 0x4000 * bank) % 0x4000 == offset
  {
  }

  /** As written, bank 4 at 0x4000 reads ROM byte 0 instead of byte 0x10000. */
  lemma RomIndexWraps()
    ensures var r := MBC1_INITIAL.(romBank := 4);
            RomIndexAsWritten(r, 0x4000) == 0 && RomIndex(r, 0x4000) == 0x10000
  {
  }

  /** `write_ram`: the RAM bank offset applies only in RAM banking mode. */
  function RamIndex(r: Mbc1Regs, address: Word): (i: nat)
    requires ValidRegs(r) && IsExRam(address)
    ensures i < 4 * EXTERNAL_RAM_SIZE
  {
    ExRamOffset(address) + if r.bankingModeSelect then r.ramBank as nat * EXTERNAL_RAM_SIZE else 0
  }

  /** `read_ex_ram` as written: the RAM bank offset applies in both modes. */
  function ReadRamIndexAsWritten(r: Mbc1Regs, address: Word): (i: nat)
    requires ValidRegs(r) && IsExRam(address)
    ensures i < 4 * EXTERNAL_RAM_SIZE
  {
    ExRamOffset(address) + r.ramBank as nat * EXTERNAL_RAM_SIZE
  }

  /**
   * As written, after a RAM bank is selected and the mode is switched back to
   * ROM banking, a write to 0xA000 lands in bank 0 but a read of 0xA000
   * reads bank 1.
   */
  lemma RamReadMissesWrite()
    ensures var r := MBC1_INITIAL.(ramEnabled := true, ramBank := 1);
            RamIndex(r, 0xA000) == 0 && ReadRamIndexAsWritten(r, 0xA000) == 0x2000
  {
  }

  /** `MBC1`: the registers and 32 KiB of RAM, updated in place. */
  class Mbc1 {
    var ramEnabled: bool
    var bankingModeSelect: bool
    var romBank: Byte
    var ramBank: Byte
    const rom: seq<Byte>
    const ram: array<Byte>

    function Regs(): Mbc1Regs
      reads this
    {
      Mbc1Regs(ramEnabled, bankingModeSelect, romBank, ramBank)
    }

    predicate Valid()
      reads this
    {
      ram.Length == 4 * EXTERNAL_RAM_SIZE && ValidRegs(Regs())
    }

    /** `MBC1::new`: bank 1, RAM disabled and filled with 0xFF. */
    constructor (rom: seq<Byte>)
      ensures Valid() && fresh(ram) && this.rom == rom && Regs() == MBC1_INITIAL
      ensures forall i :: 0 <= i < 4 * EXTERNAL_RAM_SIZE ==> ram[i] == 0xFF
    {
      this.rom := rom;
      ramEnabled := false;
      bankingModeSelect := false;
      romBank := 1;
      ramBank := 0;
      ram := new Byte[4 * EXTERNAL_RAM_SIZE](_ => 0xFF);
    }

    function Read3fff(address: Word): (r: Option<Byte>)
      reads this
    {
      RomAt(rom, address as nat)
    }

    function Read7fff(address: Word): (r: Option<Byte>)
      requires 0x4000 <= address as int <= 0x7FFF
      reads this
    {
      RomAt(rom, RomIndex(Regs(), address))
    }

    function ReadExRam(address: Word): (v: Byte)
      requires Valid() && IsExRam(address)
      reads this, ram
    {
      ram[RamIndex(Regs(), address)]
    }

    method EnableRam(value: Byte)
      modifies this`ramEnabled
      ensures Regs() == WithRamEnable(old(Regs()), value)
    {
      ramEnabled := value & 0xF == 0xA;
    }

    method SetLowerRomBank(value: Byte)
      modifies this`romBank
      ensures Regs() == WithLowerBank(old(Regs()), value)
    {
      var bank := value & 0x1F;
      romBank := romBank & 0xE0;
      romBank := romBank | bank;
      if romBank == 0 {
        romBank := 1;
      }
    }

    method SetHigherRomBank(value: Byte)
      modifies this`romBank, this`ramBank
      ensures Regs() == WithHigherBank(old(Regs()), value)
    {
      if !bankingModeSelect {
        romBank := romBank & 0x1F;
        romBank := romBank | ((value & 0x03) << 5);
      } else {
        ramBank := value & 0x03;
      }
    }

    /** `write_ram`: ignored while the RAM is disabled. */
    method WriteRam(address: Word, value: Byte)
      requires Valid() && IsExRam(address)
      modifies ram
      ensures ramEnabled ==> ram[..] == old(ram[..])[RamIndex(Regs(), address) := value]
      ensures ramEnabled ==> ReadExRam(address) == value
      ensures !ramEnabled ==> ram[..] == old(ram[..])
    {
      if ramEnabled {
        ram[RamIndex(Regs(), address)] := value;
      }
    }

    /** `write_byte`: register writes below 0x8000, RAM writes at 0xA000-0xBFFF. */
    method WriteByte(address: Word, value: Byte)
      requires Valid()
      modifies this, ram
      ensures Valid()
      ensures address <= 0x7FFF ==> Regs() == WriteRegister(old(Regs()), address, value) && ram[..] == old(ram[..])
      ensures IsExRam(address) ==> Regs() == old(Regs())
      ensures IsExRam(address) && ramEnabled ==> ram[..] == old(ram[..])[RamIndex(Regs(), address) := value]
      ensures IsExRam(address) && !ramEnabled ==> ram[..] == old(ram[..])
      ensures 0x8000 <= address && !IsExRam(address) ==> Regs() == old(Regs()) && ram[..] == old(ram[..])
    {
      if address <= 0x1FFF {
        EnableRam(value);
      } else if address <= 0x3FFF {
        SetLowerRomBank(value);
      } else if address <= 0x5FFF {
        SetHigherRomBank(value);
      } else if address <= 0x7FFF {
        bankingModeSelect := value == 1;
      } else if IsExRam(address) {
        WriteRam(address, value);
      }
      if address <= 0x7FFF {
        WriteRegisterSpec(old(Regs()), address, value);
      }
    }
  }
}
