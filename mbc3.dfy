/**
 * The MBC3 controller without its real-time clock
 * (core/src/hardware/cartridge/mbc3.rs): up to 128 ROM banks of 16 KiB and
 * RAM banks of 8 KiB.
 */
module Mbc3 {
  import opened Bits
  import Mbc

  const ROM_BANK_SIZE: nat := 0x4000
  const EXTERNAL_RAM_SIZE: nat := 8192

  /** The MBC3 registers; `effective_banks` is fixed at construction. */
  datatype Mbc3Regs = Mbc3Regs(ramEnabled: bool, romBank: nat, ramBank: Byte, effectiveBanks: nat)

  /** `(rom.len() / ROM_BANK_SIZE) as u16`, truncated to 16 bits like the cast. */
  function EffectiveBanks(romLength: nat): (n: nat)
    ensures n < 0x10000
  {
    (romLength / ROM_BANK_SIZE) % 0x10000
  }

  /**
   * `set_lower_rom_bank`: seven bits of the value, 0 replaced by 1, then
   * reduced modulo the number of banks in the image. `None` is the panic of
   * `%` when the image holds less than one bank.
   */
  function WithLowerBank(r: Mbc3Regs, value: Byte): (r': Option<Mbc3Regs>)
  {
    var bank := (value & 0x7F) as nat;
    var bank' := if bank == 0 then 1 else bank;
    if r.effectiveBanks == 0 then None else Some(r.(romBank := bank' % r.effectiveBanks))
  }

  /**
   * A bank write selects `value & 0x7F` (1 for 0) wrapped into the ROM
   * image: the selected bank always exists in the image, and it is the
   * written number itself when the image is large enough. A wrap can still
   * land on bank 0.
   */
  lemma WithLowerBankSpec(r: Mbc3Regs, value: Byte)
    ensures WithLowerBank(r, value).Some? <==> r.effectiveBanks != 0
    ensures WithLowerBank(r, value).Some? ==>
              var r' := WithLowerBank(r, value).value;
              r' == r.(romBank := r'.romBank) &&
              r'.romBank < r.effectiveBanks &&
              (var bank := (value & 0x7F) as nat;
               var n := if bank == 0 then 1 else bank;
               n < r.effectiveBanks ==> r'.romBank == n)
  {
    if r.effectiveBanks != 0 {
      var bank := (value & 0x7F) as nat;
      WrappedBank(if bank == 0 then 1 else bank, r.effectiveBanks);
    }
  }

  /** A bank number reduced modulo the bank count exists, and a bank that exists is kept. */
  lemma WrappedBank(n: nat, banks: nat)
    requires banks != 0
    ensures n % banks < banks
    ensures n < banks ==> n % banks == n
  {
  }

  /** A two-bank image maps bank 2 back onto bank 0. */
  lemma WrapToBankZero()
    ensures WithLowerBank(Mbc3Regs(false, 1, 0, 2), 2) == Some(Mbc3Regs(false, 0, 0, 2))
  {
  }

  /** `write_byte` on 0x0000-0x5FFF; `None` is the panic of the bank write. */
  function WriteRegister(r: Mbc3Regs, address: Word, value: Byte): Option<Mbc3Regs>
    requires address as int <= 0x5FFF
  {
    if address as int <= 0x1FFF then Some(r.(ramEnabled := value & 0xF == 0xA))
    else if address as int <= 0x3FFF then WithLowerBank(r, value)
    else Some(r.(ramBank := value & 0xA))
  }

  /**
   * RAM is enabled exactly by a low nibble of 0xA, and the RAM bank keeps
   * bits 1 and 3 of the written value, so only banks 0, 2, 8 and 10 can be
   * selected.
   */
  lemma WriteRegisterSpec(r: Mbc3Regs, address: Word, value: Byte)
    requires address as int <= 0x5FFF
    ensures address as int <= 0x1FFF ==>
              WriteRegister(r, address, value) == Some(r.(ramEnabled := value & 0x0F == 0x0A))
    ensures 0x4000 <= address as int ==>
              WriteRegister(r, address, value).Some? &&
              WriteRegister(r, address, value).value.ramBank in {0, 2, 8, 10} &&
              WriteRegister(r, address, value).value.ramBank == value & 0x0A &&
              WriteRegister(r, address, value).value == r.(ramBank := value & 0x0A)
  {
  }

  /** `read_7fff`: the low 14 address bits under the bank number shifted by 14. */
  function RomIndex(r: Mbc3Regs, address: Word): nat
  {
    (address & 0x3FFF) as nat + r.romBank * ROM_BANK_SIZE
  }

  /**
   * `(address & 0x3FFF) | rom_bank << 14`: the OR never overlaps, so the
   * switchable window shows 16 KiB of bank `rom_bank`, and a bank that the
   * image holds is always read in bounds.
   */
  lemma RomIndexSpec(r: Mbc3Regs, address: Word, romLength: nat)
    requires r.romBank * ROM_BANK_SIZE + ROM_BANK_SIZE <= romLength
    ensures RomIndex(r, address) / ROM_BANK_SIZE == r.romBank
    ensures RomIndex(r, address) < romLength
  {
    var masked := address & 0x3FFF;
    assert masked <= 0x3FFF;
    var offset := masked as nat;
    assert offset < ROM_BANK_SIZE;
    Mbc.BankOffset(r.romBank, offset);
  }

  /** The RAM cell of an external RAM address in the selected bank. */
  function RamIndex(r: Mbc3Regs, address: Word): nat
    requires Mbc.IsExRam(address)
  {
    Mbc.ExRamOffset(address) + EXTERNAL_RAM_SIZE * r.ramBank as nat
  }

  /** `MBC3`: bank registers and a RAM vector, updated in place. */
  class Mbc3 {
    const hasBattery: bool
    var ramEnabled: bool
    var romBank: nat
    var ramBank: Byte
    const effectiveBanks: nat
    const rom: seq<Byte>
    const ram: array<Byte>

    function Regs(): Mbc3Regs
      reads this
    {
      Mbc3Regs(ramEnabled, romBank, ramBank, effectiveBanks)
    }

    /**
     * `MBC3::new`: bank 1, RAM disabled; the RAM is the saved battery RAM
     * when there is one, otherwise `ramSize` bytes of 0xFF.
     */
    constructor (rom: seq<Byte>, hasBattery: bool, ramSize: nat, savedRam: Option<seq<Byte>>)
      ensures this.rom == rom && this.hasBattery == hasBattery && fresh(ram)
      ensures Regs() == Mbc3Regs(false, 1, 0, EffectiveBanks(|rom|))
      ensures savedRam.Some? ==> ram[..] == savedRam.value
      ensures savedRam.None? ==> ram.Length == ramSize && forall i :: 0 <= i < ramSize ==> ram[i] == 0xFF
    {
      this.rom := rom;
      this.hasBattery := hasBattery;
      ramEnabled := false;
      romBank := 1;
      ramBank := 0;
      effectiveBanks := EffectiveBanks(|rom|);
      if savedRam.Some? {
        var saved := savedRam.value;
        ram := new Byte[|saved|](i requires 0 <= i < |saved| => saved[i]);
      } else {
        ram := new Byte[ramSize](_ => 0xFF);
      }
    }

    function Read3fff(address: Word): (r: Option<Byte>)
      reads this
    {
      Mbc.RomAt(rom, address as nat)
    }

    function Read7fff(address: Word): (r: Option<Byte>)
      reads this
    {
      Mbc.RomAt(rom, RomIndex(Regs(), address))
    }

    /**
     * `read_ex_ram`: 0xFF while the RAM is disabled; `None` where the bank
     * offset runs past the RAM vector and the source's index panics.
     */
    function ReadExRam(address: Word): (r: Option<Byte>)
      requires Mbc.IsExRam(address)
      reads this, ram
      ensures !ramEnabled ==> r == Some(0xFF)
      ensures ramEnabled ==> (r.Some? <==> RamIndex(Regs(), address) < ram.Length)
    {
      if ramEnabled then
        var i := RamIndex(Regs(), address);
        if i < ram.Length then Some(ram[i]) else None
      else Some(0xFF)
    }

    /** `get_battery_ram`: the RAM is saved only for a cartridge with a battery. */
    function GetBatteryRam(): (r: Option<seq<Byte>>)
      reads this, ram
      ensures r.Some? <==> hasBattery
      ensures r.Some? ==> r.value == ram[..]
    {
      if hasBattery then Some(ram[..]) else None
    }

    method SetLowerRomBank(value: Byte) returns (ok: bool)
      modifies this`romBank
      ensures ok <==> effectiveBanks != 0
      ensures ok ==> Some(Regs()) == WithLowerBank(old(Regs()), value)
      ensures !ok ==> Regs() == old(Regs())
    {
      var bank := (value & 0x7F) as nat;
      if bank == 0 {
        bank := 1;
      }
      if effectiveBanks == 0 {
        return false;
      }
      romBank := bank % effectiveBanks;
      ok := true;
    }

    /**
     * `write_byte`. `ok` is false where the source panics: a bank write with
     * an image of less than one bank, or a RAM write past the RAM vector.
     * Nothing changes then.
     */
    method WriteByte(address: Word, value: Byte) returns (ok: bool)
      modifies this`ramEnabled, this`romBank, this`ramBank, ram
      ensures address as int <= 0x5FFF ==>
                ram[..] == old(ram[..]) &&
                (ok <==> WriteRegister(old(Regs()), address, value).Some?) &&
                (ok ==> Regs() == WriteRegister(old(Regs()), address, value).value) &&
                (!ok ==> Regs() == old(Regs()))
      ensures Mbc.IsExRam(address) ==> Regs() == old(Regs())
      ensures Mbc.IsExRam(address) && ramEnabled ==>
                (ok <==> RamIndex(Regs(), address) < ram.Length) &&
                (ok ==> ram[..] == old(ram[..])[RamIndex(Regs(), address) := value]) &&
                (!ok ==> ram[..] == old(ram[..]))
      ensures Mbc.IsExRam(address) && !ramEnabled ==> ok && ram[..] == old(ram[..])
      ensures 0x6000 <= address as int && !Mbc.IsExRam(address) ==>
                ok && Regs() == old(Regs()) && ram[..] == old(ram[..])
    {
      ok := true;
      if address as int <= 0x1FFF {
        ramEnabled := value & 0xF == 0xA;
      } else if address as int <= 0x3FFF {
        ok := SetLowerRomBank(value);
      } else if address as int <= 0x5FFF {
        ramBank := value & 0xA;
      } else if Mbc.IsExRam(address) {
        if ramEnabled {
          var i := RamIndex(Regs(), address);
          if i < ram.Length {
            ram[i] := value;
          } else {
            ok := false;
          }
        }
      }
    }
  }
}
