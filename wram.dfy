/**
 * Work RAM: eight 4 KiB banks, bank 0 fixed at 0xC000-0xCFFF and a switchable
 * bank at 0xD000-0xDFFF, mirrored 0x2000 higher by echo RAM
 * (core/src/hardware/mmu/wram.rs).
 */
module Wram {
  import opened Bits

  const WRAM_BANK_SIZE: nat := 0x1000
  const WRAM_SIZE: nat := 0x8000
  const ECHO_RAM_OFFSET: int := 0x2000

  /** The cell of a bank-0 address: its offset from 0xC000. */
  function Bank0Index(address: int): (i: int)
  {
    address - 0xC000
  }

  /** The cell of a switchable-bank address: the bank's base plus the offset from 0xD000. */
  function BankNIndex(internalBank: nat, address: int): (i: int)
  {
    internalBank * 0x1000 + (address - 0xD000)
  }

  /**
   * The cell behind an echo address: `address - 0x2000` routed to bank 0 or
   * the switchable bank. `None` is the panic on an address below 0x2000 (the
   * subtraction underflows) or one that does not land in 0xC000-0xDFFF.
   */
  function EchoIndex(internalBank: nat, address: int): (r: Option<int>)
    requires internalBank <= 7
    ensures r.Some? ==> 0 <= r.value < WRAM_SIZE
  {
    var m := address - ECHO_RAM_OFFSET;
    if m < 0 then None
    else if 0xC000 <= m <= 0xCFFF then Some(Bank0Index(m))
    else if 0xD000 <= m <= 0xDFFF then Some(BankNIndex(internalBank, m))
    else None
  }

  /**
   * Echo RAM is defined exactly from 0xE000 upwards, and there it uses the
   * same cell as the address 0x2000 lower: bank 0 for 0xE000-0xEFFF, the
   * selected bank above.
   */
  lemma EchoMirrorsWram(internalBank: nat, address: int)
    requires 1 <= internalBank <= 7
    requires address <= 0xFFFF
    ensures EchoIndex(internalBank, address).Some? <==> address >= 0xE000
    ensures 0xE000 <= address <= 0xEFFF ==>
              EchoIndex(internalBank, address) == Some(Bank0Index(address - 0x2000)) &&
              0 <= EchoIndex(internalBank, address).value < WRAM_BANK_SIZE
    ensures 0xF000 <= address ==>
              EchoIndex(internalBank, address) == Some(BankNIndex(internalBank, address - 0x2000)) &&
              internalBank * WRAM_BANK_SIZE <= EchoIndex(internalBank, address).value < (internalBank + 1) * WRAM_BANK_SIZE
  {
  }

  /**
   * `write_bank_select`: SVBK keeps the low three bits of the value, and a
   * zero there selects bank 1; returns the stored register and the bank used.
   */
  function SelectBank(value: Byte): (r: (Byte, nat))
  {
    var bank := value & 0x7;
    (bank, if bank == 0 then 1 else bank as nat)
  }

  /** `read_bank_select`: the unused upper five bits read as one. */
  function BankSelectRegister(bankSelect: Byte): (v: Byte)
  {
    0xF8 | bankSelect
  }

  /**
   * The switchable bank is never bank 0: it is the written bank number
   * (bits 0-2) or 1 when that is zero, and reading SVBK back returns the
   * written bits 0-2 with bits 3-7 set.
   */
  lemma SelectBankSpec(value: Byte)
    ensures SelectBank(value).0 == value & 7
    ensures 1 <= SelectBank(value).1 <= 7
    ensures SelectBank(value).1 == (if value & 7 == 0 then 1 else (value & 7) as nat)
    ensures BankSelectRegister(SelectBank(value).0) & 7 == value & 7
    ensures BankSelectRegister(SelectBank(value).0) & 0xF8 == 0xF8
  {
  }

  class Wram {
    const memory: array<Byte>
    var internalBankSelect: nat
    var bankSelect: Byte

    /** The buffer is 32 KiB and the selected bank is one of 1-7, derived from SVBK. */
    predicate Valid()
      reads this
    {
      memory.Length == WRAM_SIZE && 1 <= internalBankSelect <= 7 &&
      SelectBank(bankSelect) == (bankSelect, internalBankSelect)
    }

    /** `Wram::new`: every cell reads 0xFF and bank 1 is selected. */
    constructor ()
      ensures Valid() && fresh(memory)
      ensures bankSelect == 1 && internalBankSelect == 1
      ensures forall i :: 0 <= i < WRAM_SIZE ==> memory[i] == 0xFF
    {
      memory := new Byte[WRAM_SIZE](_ => 0xFF);
      internalBankSelect := 1;
      bankSelect := 1;
    }

    function ReadBank0(address: Address): (v: Byte)
      requires Valid() && 0xC000 <= address
      reads this, memory
    {
      memory[Bank0Index(address)]
    }

    function ReadBankN(address: Address): (v: Byte)
      requires Valid() && 0xD000 <= address
      requires BankNIndex(internalBankSelect, address) < WRAM_SIZE
      reads this, memory
    {
      memory[BankNIndex(internalBankSelect, address)]
    }

    /** `read_echo_ram`: the cell EchoIndex routes to; `None` is the panic. */
    function ReadEchoRam(address: Address): (r: Option<Byte>)
      requires Valid()
      reads this, memory
      ensures r.Some? <==> address >= 0xE000
    {
      EchoMirrorsWram(internalBankSelect, address);
      match EchoIndex(internalBankSelect, address)
      case Some(i) => Some(memory[i])
      case None => None
    }

    function ReadBankSelect(): (v: Byte)
      reads this
      ensures v == BankSelectRegister(bankSelect)
    {
      0xF8 | bankSelect
    }

    method WriteBank0(address: Address, value: Byte)
      requires Valid() && 0xC000 <= address
      modifies memory
      ensures memory[..] == old(memory[..])[Bank0Index(address) := value]
    {
      memory[Bank0Index(address)] := value;
    }

    method WriteBankN(address: Address, value: Byte)
      requires Valid() && 0xD000 <= address
      requires BankNIndex(internalBankSelect, address) < WRAM_SIZE
      modifies memory
      ensures memory[..] == old(memory[..])[BankNIndex(internalBankSelect, address) := value]
    {
      memory[BankNIndex(internalBankSelect, address)] := value;
    }

    /** `write_echo_ram`; `ok` is false, and nothing changes, where the source panics. */
    method WriteEchoRam(address: Address, value: Byte) returns (ok: bool)
      requires Valid()
      modifies memory
      ensures ok <==> address >= 0xE000
      ensures ok ==> memory[..] == old(memory[..])[EchoIndex(internalBankSelect, address).value := value]
      ensures !ok ==> memory[..] == old(memory[..])
    {
      EchoMirrorsWram(internalBankSelect, address);
      match EchoIndex(internalBankSelect, address)
      case Some(i) =>
        memory[i] := value;
        ok := true;
      case None =>
        ok := false;
    }

    method WriteBankSelect(value: Byte)
      modifies this`bankSelect, this`internalBankSelect
      ensures (bankSelect, internalBankSelect) == SelectBank(value)
      ensures Valid() <==> memory.Length == WRAM_SIZE
    {
      bankSelect := value & 0x7;
      internalBankSelect := bankSelect as nat;
      if internalBankSelect == 0 {
        internalBankSelect := 1;
      }
      SelectBankSpec(value);
    }
  }
}
