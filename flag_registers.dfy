/**
 * The older register file whose F register is a `Flags` bit field
 * (core/src/hardware/registers.rs).
 */
module FlagRegisters {
  import opened Bits

  // The `Flags` bit layout.
  const ZF: Byte := 0x80
  const N: Byte := 0x40
  const H: Byte := 0x20
  const CF: Byte := 0x10

  /** Every declared flag bit. */
  const ALL_FLAGS: Byte := ZF | N | H | CF

  /** `Flags::from_bits_truncate`: keeps the declared flag bits. */
  function FromBitsTruncate(v: Byte): (f: Byte)
  {
    v & ALL_FLAGS
  }

  /** The flags occupy exactly the high nibble, one bit each. */
  lemma FlagLayout()
    ensures ALL_FLAGS == 0xF0
    ensures ZF == 1 << 7 && N == 1 << 6 && H == 1 << 5 && CF == 1 << 4
  {
  }

  /** Truncation keeps the high nibble, is idempotent, and is the identity on flag values. */
  lemma TruncateSpec(v: Byte)
    ensures FromBitsTruncate(v) == v & 0xF0
    ensures FromBitsTruncate(FromBitsTruncate(v)) == FromBitsTruncate(v)
    ensures FromBitsTruncate(v) == v <==> v & 0x0F == 0
  {
  }

  /** `Flags::contains`. */
  predicate Contains(f: Byte, flag: Byte)
  {
    f & flag == flag
  }

  /** `Flags::set`: inserts or removes `flag`. */
  function SetFlag(f: Byte, flag: Byte, value: bool): (f': Byte)
  {
    if value then f | flag else f & !flag
  }

  /**
   * Setting one flag makes it read back as the value and leaves every other
   * bit of F as it was.
   */
  lemma SetFlagSpec(f: Byte, flag: Byte, value: bool)
    requires flag == ZF || flag == N || flag == H || flag == CF
    ensures Contains(SetFlag(f, flag, value), flag) == value
    ensures SetFlag(f, flag, value) & !flag == f & !flag
  {
  }

  /** The value of every register. */
  datatype RegFile = RegFile(
    a: Byte, b: Byte, c: Byte, d: Byte, e: Byte, f: Byte, h: Byte, l: Byte,
    sp: Word, pc: Word)

  /** `Registers::default()`. */
  const DEFAULT: RegFile := RegFile(0, 0, 0, 0, 0, 0, 0, 0, 0, 0)

  function AF(r: RegFile): (w: Word) { Join(r.a, r.f) }
  function BC(r: RegFile): (w: Word) { Join(r.b, r.c) }
  function DE(r: RegFile): (w: Word) { Join(r.d, r.e) }
  function HL(r: RegFile): (w: Word) { Join(r.h, r.l) }

  function SetAF(r: RegFile, v: Word): (r': RegFile) { r.(a := Hi(v), f := FromBitsTruncate(Lo(v))) }
  function SetBC(r: RegFile, v: Word): (r': RegFile) { r.(b := Hi(v), c := Lo(v)) }
  function SetDE(r: RegFile, v: Word): (r': RegFile) { r.(d := Hi(v), e := Lo(v)) }
  function SetHL(r: RegFile, v: Word): (r': RegFile) { r.(h := Hi(v), l := Lo(v)) }

  /** The pair setters round-trip through the getters and change only their two registers. */
  lemma PairRoundTrip(r: RegFile, v: Word)
    ensures BC(SetBC(r, v)) == v && SetBC(r, v).(b := r.b, c := r.c) == r
    ensures DE(SetDE(r, v)) == v && SetDE(r, v).(d := r.d, e := r.e) == r
    ensures HL(SetHL(r, v)) == v && SetHL(r, v).(h := r.h, l := r.l) == r
  {
    SplitJoin(v);
  }

  /** `set_af` truncates F to the flag bits, so AF reads back `v & 0xFFF0`. */
  lemma SetAFTruncates(r: RegFile, v: Word)
    ensures SetAF(r, v).a == Hi(v) && SetAF(r, v).f == Lo(v) & 0xF0
    ensures AF(SetAF(r, v)) == v & 0xFFF0
    ensures SetAF(r, v).(a := r.a, f := r.f) == r
  {
    MaskedJoin(v);
  }

  lemma MaskedJoin(v: Word)
    ensures Join(Hi(v), Lo(v) & 0xF0) == v & 0xFFF0
  {
    SplitJoin(v);
  }

  /** `Registers`: the fields, updated in place by the setters. */
  class Registers {
    var a: Byte
    var b: Byte
    var c: Byte
    var d: Byte
    var e: Byte
    var f: Byte
    var h: Byte
    var l: Byte
    var sp: Word
    var pc: Word

    /** The abstract value of the fields. */
    function State(): RegFile
      reads this
    {
      RegFile(a, b, c, d, e, f, h, l, sp, pc)
    }

    /** `Registers::new()`. */
    constructor ()
      ensures State() == DEFAULT
    {
      a, b, c, d, e, f, h, l := 0, 0, 0, 0, 0, 0, 0, 0;
      sp, pc := 0, 0;
    }

    function Af(): (w: Word)
      reads this
      ensures w == AF(State())
    {
      ((a as Word) << 8) | (f as Word)
    }

    function Bc(): (w: Word)
      reads this
      ensures w == BC(State())
    {
      ((b as Word) << 8) | (c as Word)
    }

    function De(): (w: Word)
      reads this
      ensures w == DE(State())
    {
      ((d as Word) << 8) | (e as Word)
    }

    function Hl(): (w: Word)
      reads this
      ensures w == HL(State())
    {
      ((h as Word) << 8) | (l as Word)
    }

    /** The flag getters test their own bit of F. */
    function Zf(): (z: bool)
      reads this
      ensures z <==> f & ZF != 0
    {
      Contains(f, ZF)
    }

    function NFlag(): (n: bool)
      reads this
      ensures n <==> f & N != 0
    {
      Contains(f, N)
    }

    function HFlag(): (hf: bool)
      reads this
      ensures hf <==> f & H != 0
    {
      Contains(f, H)
    }

    function Cf(): (cf: bool)
      reads this
      ensures cf <==> f & CF != 0
    {
      Contains(f, CF)
    }

    method SetAf(value: Word)
      modifies this`a, this`f
      ensures State() == SetAF(old(State()), value)
    {
      a := (value >> 8) as Byte;
      f := FromBitsTruncate((value & 0xFF) as Byte);
    }

    method SetBc(value: Word)
      modifies this`b, this`c
      ensures State() == SetBC(old(State()), value)
    {
      b := (value >> 8) as Byte;
      c := (value & 0xFF) as Byte;
    }

    method SetDe(value: Word)
      modifies this`d, this`e
      ensures State() == SetDE(old(State()), value)
    {
      d := (value >> 8) as Byte;
      e := (value & 0xFF) as Byte;
    }

    method SetHl(value: Word)
      modifies this`h, this`l
      ensures State() == SetHL(old(State()), value)
    {
      h := (value >> 8) as Byte;
      l := (value & 0xFF) as Byte;
    }

    method SetZf(value: bool)
      modifies this`f
      ensures f == SetFlag(old(f), ZF, value)
    {
      f := SetFlag(f, ZF, value);
    }

    method SetN(value: bool)
      modifies this`f
      ensures f == SetFlag(old(f), N, value)
    {
      f := SetFlag(f, N, value);
    }

    method SetH(value: bool)
      modifies this`f
      ensures f == SetFlag(old(f), H, value)
    {
      f := SetFlag(f, H, value);
    }

    method SetCf(value: bool)
      modifies this`f
      ensures f == SetFlag(old(f), CF, value)
    {
      f := SetFlag(f, CF, value);
    }
  }
}
