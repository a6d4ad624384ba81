/** High RAM, 0xFF80-0xFFFE (core/src/hardware/mmu/hram.rs). */
module Hram {
  import opened Bits
  import opened MemoryMap

  /** 0xFFFE - 0xFF80 + 1 cells. */
  const HRAM_SIZE: nat := 0x7F

  /** The addresses whose offset from HRAM_START indexes the array. */
  predicate InRange(address: Address)
  {
    HRAM_START as int <= address <= HRAM_END as int
  }

  /** `(address - HRAM_OFFSET) as usize`. */
  function Index(address: Address): (i: nat)
    requires InRange(address)
    ensures i < HRAM_SIZE
  {
    address - HRAM_START as int
  }

  class Hram {
    const memory: array<Byte>

    predicate Valid()
      reads this
    {
      memory.Length == HRAM_SIZE
    }

    /** `Hram::new`: every cell reads INVALID_READ. */
    constructor ()
      ensures Valid() && fresh(memory)
      ensures forall i :: 0 <= i < HRAM_SIZE ==> memory[i] == INVALID_READ
    {
      memory := new Byte[HRAM_SIZE](_ => INVALID_READ);
    }

    function ReadByte(address: Address): (v: Byte)
      requires Valid() && InRange(address)
      reads this, memory
    {
      memory[Index(address)]
    }

    /** `set_byte`: the addressed cell reads back the value and no other cell changes. */
    method SetByte(address: Address, value: Byte)
      requires Valid() && InRange(address)
      modifies memory
      ensures memory[..] == old(memory[..])[Index(address) := value]
      ensures ReadByte(address) == value
      ensures forall a :: InRange(a) && a != address ==> ReadByte(a) == old(ReadByte(a))
    {
      memory[Index(address)] := value;
    }
  }
}
