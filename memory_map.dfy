/**
 * The Game Boy address map shared by the bus and the memories behind it
 * (the constants of core/src/hardware/mmu/mod.rs).
 */
module MemoryMap {
  import opened Bits

  const MEMORY_SIZE: nat := 0x10000

  const ROM_BANK_00_START: Word := 0x0000
  const ROM_BANK_00_END: Word := 0x3FFF
  const ROM_BANK_NN_START: Word := 0x4000
  const ROM_BANK_NN_END: Word := 0x7FFF
  const VRAM_START: Word := 0x8000
  const VRAM_END: Word := 0x9FFF
  const EXTERNAL_RAM_START: Word := 0xA000
  const EXTERNAL_RAM_END: Word := 0xBFFF
  const WRAM_BANK_00_START: Word := 0xC000
  const WRAM_BANK_00_END: Word := 0xCFFF
  const WRAM_BANK_NN_START: Word := 0xD000
  const WRAM_BANK_NN_END: Word := 0xDFFF
  const ECHO_RAM_START: Word := 0xE000
  const ECHO_RAM_END: Word := 0xFDFF
  const ECHO_RAM_OFFSET: Word := 0x2000
  const OAM_ATTRIBUTE_START: Word := 0xFE00
  const OAM_ATTRIBUTE_END: Word := 0xFE9F
  const NOT_USABLE_START: Word := 0xFEA0
  const NOT_USABLE_END: Word := 0xFEFF
  const IO_START: Word := 0xFF00
  const IO_END: Word := 0xFF7F
  const CGB_PREPARE_SWITCH: Word := 0xFF4D
  const CGB_VRAM_BANK_REGISTER: Word := 0xFF4F
  const CGB_HDMA_1: Word := 0xFF51
  const CGB_HDMA_2: Word := 0xFF52
  const CGB_HDMA_3: Word := 0xFF53
  const CGB_HDMA_4: Word := 0xFF54
  const CGB_HDMA_5: Word := 0xFF55
  const CGB_RP: Word := 0xFF56
  const CGB_OBJECT_PRIORITY_MODE: Word := 0xFF6C
  const CGB_WRAM_BANK: Word := 0xFF70
  const INTERRUPTS_FLAG: Word := 0xFF0F
  const HRAM_START: Word := 0xFF80
  const HRAM_END: Word := 0xFFFE
  const INTERRUPTS_ENABLE: Word := 0xFFFF

  /** What an unmapped or blocked read returns. */
  const INVALID_READ: Byte := 0xFF
}
