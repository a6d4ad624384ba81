/**
 * The CPU register file with the four flags kept as separate booleans
 * (core/src/hardware/cpu/registers.rs).
 */
module CpuRegisters {
  import opened Bits

  // The `Flags` bit layout used to pack and unpack F.
  const ZF: Byte := 0x80
  const N: Byte := 0x40
  const H: Byte := 0x20
  const CF: Byte := 0x10

  /** The value of every register. */
  datatype RegFile = RegFile(
    a: Byte, b: Byte, c: Byte, d: Byte, e: Byte, h: Byte, l: Byte,
    sp: Word, pc: Word,
    zf: bool, cf: bool, hf: bool, nf: bool)

  /** `Registers::default()`: everything zero and every flag clear. */
  const DEFAULT: RegFile := RegFile(0, 0, 0, 0, 0, 0, 0, 0, 0, false, false, false, false)

  /** `f()`: Z, N, H and C packed into bits 7, 6, 5 and 4. */
  function F(r: RegFile): (f: Byte)
  {
    (BoolBit(r.zf) << 7) | (BoolBit(r.nf) << 6) | (BoolBit(r.hf) << 5) | (BoolBit(r.cf) << 4)
  }

  /** Packing the four flags puts each one in its own bit and leaves the low nibble clear. */
  lemma FLayout(r: RegFile)
    ensures F(r) & 0x0F == 0
    ensures (F(r) & ZF != 0) == r.zf && (F(r) & N != 0) == r.nf
    ensures (F(r) & H != 0) == r.hf && (F(r) & CF != 0) == r.cf
  {
  }

  function AF(r: RegFile): (w: Word) { Join(r.a, F(r)) }
  function BC(r: RegFile): (w: Word) { Join(r.b, r.c) }
  function DE(r: RegFile): (w: Word) { Join(r.d, r.e) }
  function HL(r: RegFile): (w: Word) { Join(r.h, r.l) }

  /** `af()` is A in the high byte and `f()` in the low byte, whose low nibble is clear. */
  lemma AFSpec(r: RegFile)
    ensures Hi(AF(r)) == r.a && Lo(AF(r)) == F(r)
    ensures AF(r) & 0x000F == 0
  {
    FLayout(r);
    LowNibbleOfJoin(r.a, F(r));
  }

  lemma LowNibbleOfJoin(hi: Byte, lo: Byte)
    requires lo & 0x0F == 0
    ensures Join(hi, lo) & 0x000F == 0
  {
  }

  /** `set_af`: A from the high byte; each flag from its bit of the low byte. */
  function SetAF(r: RegFile, v: Word): (r': RegFile)
  {
    var flags := Lo(v);
    r.(a := Hi(v), zf := flags & ZF != 0, hf := flags & H != 0, cf := flags & CF != 0, nf := flags & N != 0)
  }

  function SetBC(r: RegFile, v: Word): (r': RegFile) { r.(b := Hi(v), c := Lo(v)) }
  function SetDE(r: RegFile, v: Word): (r': RegFile) { r.(d := Hi(v), e := Lo(v)) }
  function SetHL(r: RegFile, v: Word): (r': RegFile) { r.(h := Hi(v), l := Lo(v)) }

  /** Writing a pair and reading it back gives the value written, and no other register changes. */
  lemma PairRoundTrip(r: RegFile, v: Word)
    ensures BC(SetBC(r, v)) == v && SetBC(r, v).(b := r.b, c := r.c) == r
    ensures DE(SetDE(r, v)) == v && SetDE(r, v).(d := r.d, e := r.e) == r
    ensures HL(SetHL(r, v)) == v && SetHL(r, v).(h := r.h, l := r.l) == r
  {
    SplitJoin(v);
  }

  /**
   * `set_af` keeps the flag bits of the low byte and drops its low nibble:
   * reading AF back gives `v & 0xFFF0`, so AF round-trips exactly when the
   * low nibble of `v` is clear.
   */
  lemma SetAFDropsLowNibble(r: RegFile, v: Word)
    ensures SetAF(r, v).a == Hi(v) && F(SetAF(r, v)) == Lo(v) & 0xF0
    ensures AF(SetAF(r, v)) == v & 0xFFF0
    ensures (AF(SetAF(r, v)) == v) <==> v & 0x000F == 0
    ensures SetAF(r, v).(a := r.a, zf := r.zf, nf := r.nf, hf := r.hf, cf := r.cf) == r
  {
    var r' := SetAF(r, v);
    FlagsRepack(Lo(v));
    assert F(r') == Lo(v) & 0xF0;
    JoinMasked(Hi(v), Lo(v));
    SplitJoin(v);
  }

  /** Unpacking the four flag bits of a byte and packing them again keeps exactly the high nibble. */
  lemma FlagsRepack(x: Byte)
    ensures (BoolBit(x & ZF != 0) << 7) | (BoolBit(x & N != 0) << 6) |
            (BoolBit(x & H != 0) << 5) | (BoolBit(x & CF != 0) << 4) == x & 0xF0
  {
  }

  lemma JoinMasked(hi: Byte, lo: Byte)
    ensures Join(hi, lo & 0xF0) == Join(hi, lo) & 0xFFF0
  {
  }

  /** A flag set with `set_af` from the packed byte of another file gives back its flags. */
  lemma SetAFOfAF(r: RegFile, s: RegFile)
    ensures SetAF(r, AF(s)).a == s.a
    ensures SetAF(r, AF(s)).zf == s.zf && SetAF(r, AF(s)).nf == s.nf
    ensures SetAF(r, AF(s)).hf == s.hf && SetAF(r, AF(s)).cf == s.cf
  {
    AFSpec(s);
    FLayout(s);
  }

  /** `Registers`: the fields, updated in place by the setters. */
  class Registers {
    var a: Byte
    var b: Byte
    var c: Byte
    var d: Byte
    var e: Byte
    var h: Byte
    var l: Byte
    var sp: Word
    var pc: Word
    var zf: bool
    var cf: bool
    var hf: bool
    var nf: bool

    /** The abstract value of the fields. */
    function State(): RegFile
      reads this
    {
      RegFile(a, b, c, d, e, h, l, sp, pc, zf, cf, hf, nf)
    }

    /** `Registers::new()`. */
    constructor ()
      ensures State() == DEFAULT
    {
      a, b, c, d, e, h, l := 0, 0, 0, 0, 0, 0, 0;
      sp, pc := 0, 0;
      zf, cf, hf, nf := false, false, false, false;
    }

    function Af(): (w: Word)
      reads this
      ensures w == AF(State())
    {
      ((a as Word) << 8) | (Flags() as Word)
    }

    function Bc(): (w: Word)
      reads this
      ensures w == BC(State())
    {
      ((b as Word) << 8) | (c as Word)
    }

    function De(): (w: Word)
      reads this
      ensures w == DE(State())
    {
      ((d as Word) << 8) | (e as Word)
    }

    function Hl(): (w: Word)
      reads this
      ensures w == HL(State())
    {
      ((h as Word) << 8) | (l as Word)
    }

    /** `f()`. */
    function Flags(): (f: Byte)
      reads this
      ensures f == F(State())
    {
      (BoolBit(zf) << 7) | (BoolBit(nf) << 6) | (BoolBit(hf) << 5) | (BoolBit(cf) << 4)
    }

    method SetAf(value: Word)
      modifies this`a, this`zf, this`hf, this`cf, this`nf
      ensures State() == SetAF(old(State()), value)
    {
      a := (value >> 8) as Byte;
      var flags := (value & 0xFF) as Byte;
      zf := flags & ZF == ZF;
      hf := flags & H == H;
      cf := flags & CF == CF;
      nf := flags & N == N;
    }

    method SetBc(value: Word)
      modifies this`b, this`c
      ensures State() == SetBC(old(State()), value)
    {
      b := (value >> 8) as Byte;
      c := (value & 0xFF) as Byte;
    }

    method SetDe(value: Word)
      modifies this`d, this`e
      ensures State() == SetDE(old(State()), value)
    {
      d := (value >> 8) as Byte;
      e := (value & 0xFF) as Byte;
    }

    method SetHl(value: Word)
      modifies this`h, this`l
      ensures State() == SetHL(old(State()), value)
    {
      h := (value >> 8) as Byte;
      l := (value & 0xFF) as Byte;
    }

    /** Each flag setter changes its own flag and nothing else. */
    method SetZf(value: bool)
      modifies this`zf
      ensures State() == old(State()).(zf := value)
    {
      zf := value;
    }

    method SetN(value: bool)
      modifies this`nf
      ensures State() == old(State()).(nf := value)
    {
      nf := value;
    }

    method SetH(value: bool)
      modifies this`hf
      ensures State() == old(State()).(hf := value)
    {
      hf := value;
    }

    method SetCf(value: bool)
      modifies this`cf
      ensures State() == old(State()).(cf := value)
    {
      cf := value;
    }
  }
}
