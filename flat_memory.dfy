/**
 * The flat byte array of core/src/hardware/memory.rs. It holds 0xFFFF bytes,
 * one short of the address space, so address 0xFFFF has no cell.
 */
module FlatMemory {
  import opened Bits

  const MEMORY_SIZE: nat := 0xFFFF

  /** The addresses with a cell: all but 0xFFFF. */
  predicate InRange(address: Word)
  {
    (address as int) < MEMORY_SIZE
  }

  /** The cell of an address is the address itself. */
  function Index(address: Word): (i: nat)
    requires InRange(address)
    ensures i < MEMORY_SIZE
  {
    address as nat
  }

  class Memory {
    const memory: array<Byte>

    predicate Valid()
      reads this
    {
      memory.Length == MEMORY_SIZE
    }

    /** `Memory::default()`: every cell is zero. */
    constructor ()
      ensures Valid() && fresh(memory)
      ensures forall i :: 0 <= i < MEMORY_SIZE ==> memory[i] == 0
    {
      memory := new Byte[MEMORY_SIZE](_ => 0);
    }

    /** `read_byte`: the byte in the address's cell; 0xFFFF is out of bounds. */
    function ReadByte(address: Word): (v: Byte)
      requires Valid() && InRange(address)
      reads this, memory
    {
      memory[Index(address)]
    }

    /** `set_byte`: the addressed cell holds the value and no other cell changes. */
    method SetByte(address: Word, value: Byte)
      requires Valid() && InRange(address)
      modifies memory
      ensures memory[..] == old(memory[..])[Index(address) := value]
      ensures ReadByte(address) == value
    {
      var i := Index(address);
      memory[i] := value;
    }
  }
}
