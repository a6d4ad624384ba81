/**
 * Byte and word helpers shared by every module of the model.
 *
 * Rust's `u8` and `u16` are modelled as the bit-vector types `bv8` and `bv16`,
 * so `+`, `-` and `<<` wrap exactly like `wrapping_add`, `wrapping_sub` and
 * `wrapping_shl` do; a carry or borrow is computed on `int` where the source
 * asks for one (`overflowing_add`, a comparison such as `> 0xFF`).
 */
module Bits {

  type Byte = bv8
  type Word = bv16

  /**
   * A `u16` address held as an integer, for the memories that index arrays
   * with it: the verifier relates integer ranges to array indices far more
   * cheaply than it relates `bv16` values to integers.
   */
  type Address = a: int | 0 <= a <= 0xFFFF

  datatype Option<T> = None | Some(value: T)

  /** The high byte of a word (`(w >> 8) as u8`). */
  function Hi(w: Word): Byte { (w >> 8) as Byte }

  /** The low byte of a word (`w as u8`). */
  function Lo(w: Word): Byte { (w & 0xFF) as Byte }

  /** `(hi as u16) << 8 | lo as u16`. */
  function Join(hi: Byte, lo: Byte): (w: Word)
    ensures Hi(w) == hi && Lo(w) == lo
  {
    ((hi as Word) << 8) | (lo as Word)
  }

  lemma SplitJoin(w: Word)
    ensures Join(Hi(w), Lo(w)) == w
  {
  }

  /** Whether bit `n` of `v` is set. */
  predicate BitSet(v: Byte, n: nat)
    requires n < 8
  {
    v & (1 << n) != 0
  }

  /** Whether any bit of `mask` is set in the word `w` (`w & mask != 0`). */
  predicate IsSet(w: Word, mask: Word)
  {
    w & mask != 0
  }

  function BoolBit(b: bool): Byte { if b then 1 else 0 }
}
