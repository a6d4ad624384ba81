/** The 256-byte boot ROM (core/src/io/bootrom.rs). */
module BootRom {
  import opened Bits

  const BOOTROM_SIZE: nat := 0x100

  datatype BootRom = BootRom(isFinished: bool, data: seq<Byte>)

  predicate Valid(b: BootRom)
  {
    |b.data| == BOOTROM_SIZE
  }

  /**
   * `BootRom::new`: with an image the ROM still has to run and holds the
   * image; without one it counts as finished and holds zeros.
   */
  function New(data: Option<seq<Byte>>): (b: BootRom)
    requires data.Some? ==> |data.value| == BOOTROM_SIZE
    ensures Valid(b)
    ensures b.isFinished <==> data.None?
    ensures data.Some? ==> b.data == data.value
    ensures data.None? ==> forall i :: 0 <= i < BOOTROM_SIZE ==> b.data[i] == 0
  {
    match data
    case Some(rom) => BootRom(false, rom)
    case None => BootRom(true, seq(BOOTROM_SIZE, _ => 0))
  }

  /** `read_byte`: indexes the image; the index must be below 0x100. */
  function ReadByte(b: BootRom, address: Word): (v: Byte)
    requires Valid(b) && (address as nat) < BOOTROM_SIZE
  {
    b.data[address as nat]
  }

  /** Reading an image-built ROM returns the image byte. */
  lemma ReadNew(rom: seq<Byte>, address: Word)
    requires |rom| == BOOTROM_SIZE && (address as nat) < BOOTROM_SIZE
    ensures ReadByte(New(Some(rom)), address) == rom[address as nat]
    ensures !New(Some(rom)).isFinished
  {
  }
}
