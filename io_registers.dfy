/** The miscellaneous I/O registers, 0xFF00-0xFF7F (core/src/io/io_registers.rs). */
module IoRegisters {
  import opened Bits
  import opened MemoryMap

  const IO_SIZE: nat := 0x80

  /** The index `address & 0xFF`, which must fall inside the 0x80-byte array. */
  function Index(address: Address): (i: nat)
    ensures i < 0x100
  {
    address % 0x100
  }

  predicate InRange(address: Address)
  {
    Index(address) < IO_SIZE
  }

  /** The I/O window 0xFF00-0xFF7F indexes the array one to one. */
  lemma IoWindowInRange(address: Address)
    requires IO_START as int <= address <= IO_END as int
    ensures InRange(address) && Index(address) == address - 0xFF00
  {
  }

  class IORegisters {
    const memory: array<Byte>

    predicate Valid()
      reads this
    {
      memory.Length == IO_SIZE
    }

    /** `IORegisters::new`: every register reads INVALID_READ. */
    constructor ()
      ensures Valid() && fresh(memory)
      ensures forall i :: 0 <= i < IO_SIZE ==> memory[i] == INVALID_READ
    {
      memory := new Byte[IO_SIZE](_ => INVALID_READ);
    }

    function ReadByte(address: Address): (v: Byte)
      requires Valid() && InRange(address)
      reads this, memory
    {
      memory[Index(address)]
    }

    /** `write_byte`: the addressed register reads back the value; registers at another index keep theirs. */
    method WriteByte(address: Address, value: Byte)
      requires Valid() && InRange(address)
      modifies memory
      ensures memory[..] == old(memory[..])[Index(address) := value]
      ensures ReadByte(address) == value
      ensures forall a :: InRange(a) && Index(a) != Index(address) ==> ReadByte(a) == old(ReadByte(a))
    {
      memory[Index(address)] := value;
    }
  }
}
