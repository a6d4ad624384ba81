/**
 * The cartridge header at 0x0100-0x014F (core/src/hardware/cartridge/header.rs):
 * a handful of fields read straight from fixed ROM offsets.
 *
 * The title is kept as the UTF-8 bytes of the Rust `String`: `from_utf8` only
 * validates them, and trimming the character NUL equals trimming the byte 0,
 * because 0 never occurs inside a multi-byte UTF-8 sequence.
 */
module Header {
  import opened Bits

  /** The two ways `CartridgeHeader::new` panics: a short slice index and `expect` on the title. */
  datatype HeaderError = RomTooShort | TitleNotUtf8

  datatype Result<T> = Ok(value: T) | Err(error: HeaderError)

  datatype CartridgeHeader = CartridgeHeader(
    title: seq<Byte>,
    cgbFlag: bool,
    newLicenseeCode: Word,
    sgbFlag: bool,
    cartridgeType: Byte,
    romSize: Byte,
    ramSize: Byte,
    isJapanese: bool,
    oldLicenseeCode: Byte,
    maskRomVersionNumber: Byte,
    headerChecksum: Byte,
    globalChecksum: Word)

  /** A continuation byte 10xxxxxx within `lo..hi`. */
  predicate InRange(b: Byte, lo: Byte, hi: Byte)
  {
    lo <= b <= hi
  }

  /**
   * Well-formed UTF-8 as `std::str::from_utf8` accepts it: the byte sequences
   * of table 3-7 of the Unicode standard (no overlong forms, no surrogates,
   * nothing above U+10FFFF).
   */
  predicate ValidUtf8(s: seq<Byte>)
    decreases |s|
  {
    if s == [] then true
    else
      var b := s[0];
      if b < 0x80 then ValidUtf8(s[1..])
      else if 0xC2 <= b <= 0xDF then
        |s| >= 2 && InRange(s[1], 0x80, 0xBF) && ValidUtf8(s[2..])
      else if 0xE0 <= b <= 0xEF then
        var lo: Byte := if b == 0xE0 then 0xA0 else 0x80;
        var hi: Byte := if b == 0xED then 0x9F else 0xBF;
        |s| >= 3 && InRange(s[1], lo, hi) && InRange(s[2], 0x80, 0xBF) && ValidUtf8(s[3..])
      else if 0xF0 <= b <= 0xF4 then
        var lo: Byte := if b == 0xF0 then 0x90 else 0x80;
        var hi: Byte := if b == 0xF4 then 0x8F else 0xBF;
        |s| >= 4 && InRange(s[1], lo, hi) && InRange(s[2], 0x80, 0xBF) && InRange(s[3], 0x80, 0xBF) &&
        ValidUtf8(s[4..])
      else false
  }

  /** Every ASCII title is valid UTF-8, so `from_utf8` never rejects it. */
  lemma {:induction false} AsciiIsUtf8(s: seq<Byte>)
    requires forall i :: 0 <= i < |s| ==> s[i] < 0x80
    ensures ValidUtf8(s)
  {
    if s != [] {
      AsciiIsUtf8(s[1..]);
    }
  }

  /** `trim_start_matches('\0')`: drops the leading NULs and nothing else. */
  function TrimStart(s: seq<Byte>): (r: seq<Byte>)
    ensures |r| <= |s| && r == s[|s| - |r|..]
    ensures forall i :: 0 <= i < |s| - |r| ==> s[i] == 0
    ensures r != [] ==> r[0] != 0
  {
    if s != [] && s[0] == 0 then TrimStart(s[1..]) else s
  }

  /** `trim_end_matches('\0')`: drops the trailing NULs and nothing else. */
  function TrimEnd(s: seq<Byte>): (r: seq<Byte>)
    ensures |r| <= |s| && r == s[..|r|]
    ensures forall i :: |r| <= i < |s| ==> s[i] == 0
    ensures r != [] ==> r[|r| - 1] != 0
  {
    if s != [] && s[|s| - 1] == 0 then TrimEnd(s[..|s| - 1]) else s
  }

  /** `trim_matches(char::from(0))`. */
  function TrimNul(s: seq<Byte>): seq<Byte>
  {
    TrimEnd(TrimStart(s))
  }

  /**
   * The trimmed title is a contiguous piece of the raw field with only NULs
   * cut off on either side, and it neither starts nor ends with a NUL.
   */
  lemma TrimNulSpec(s: seq<Byte>)
    ensures var i := |s| - |TrimStart(s)|;
            var r := TrimNul(s);
            i + |r| <= |s| && r == s[i..i + |r|] &&
            (forall k :: 0 <= k < i ==> s[k] == 0) &&
            (forall k :: i + |r| <= k < |s| ==> s[k] == 0)
    ensures TrimNul(s) != [] ==> TrimNul(s)[0] != 0 && TrimNul(s)[|TrimNul(s)| - 1] != 0
  {
    var t := TrimStart(s);
    TrimmedSlice(s, |s| - |t|, TrimEnd(t));
  }

  /** A prefix of `s[i..]` followed only by NULs is the slice `s[i..i + |r|]`, with NULs after it. */
  lemma TrimmedSlice(s: seq<Byte>, i: nat, r: seq<Byte>)
    requires i <= |s| && |r| <= |s| - i && r == s[i..][..|r|]
    requires forall k :: |r| <= k < |s| - i ==> s[i..][k] == 0
    ensures r == s[i..i + |r|]
    ensures forall k :: i + |r| <= k < |s| ==> s[k] == 0
  {
    forall k | i + |r| <= k < |s|
      ensures s[k] == 0
    {
      assert s[k] == s[i..][k - i];
    }
  }

  /** Trailing NUL padding never survives the trim. */
  lemma {:induction false} TrimEndPadding(r: seq<Byte>, n: nat)
    ensures TrimEnd(r + seq(n, _ => 0)) == TrimEnd(r)
  {
    if n > 0 {
      var s := r + seq(n, _ => 0);
      assert s[|s| - 1] == 0;
      assert s[..|s| - 1] == r + seq(n - 1, _ => 0);
      assert TrimEnd(s) == TrimEnd(s[..|s| - 1]);
      TrimEndPadding(r, n - 1);
    } else {
      assert r + seq(n, _ => 0) == r;
    }
  }

  /** `read_cgb_flag`: 0x80 (CGB-enhanced) and 0xC0 (CGB only) both count. */
  predicate ReadCgbFlag(rom: seq<Byte>)
    requires |rom| > 0x143
  {
    rom[0x143] == 0x80 || rom[0x143] == 0xC0
  }

  /** The raw title bytes: eleven in CGB mode, sixteen otherwise. */
  function TitleField(rom: seq<Byte>, cgbMode: bool): (f: seq<Byte>)
    requires |rom| > 0x143
  {
    if cgbMode then rom[0x134..0x13F] else rom[0x134..0x144]
  }

  /**
   * `CartridgeHeader::new`, whose field initialisers run in order: the CGB
   * flag (index 0x143), the title (UTF-8 check), then the fields up to 0x14F.
   */
  function ParseHeader(rom: seq<Byte>): (r: Result<CartridgeHeader>)
  {
    if |rom| <= 0x143 then Err(RomTooShort)
    else
      var cgb := ReadCgbFlag(rom);
      var field := TitleField(rom, cgb);
      if !ValidUtf8(field) then Err(TitleNotUtf8)
      else if |rom| < 0x150 then Err(RomTooShort)
      else Ok(CartridgeHeader(
        title := TrimNul(field),
        cgbFlag := cgb,
        newLicenseeCode := Join(rom[0x144], rom[0x145]),
        sgbFlag := rom[0x146] == 0x03,
        cartridgeType := rom[0x147],
        romSize := rom[0x148],
        ramSize := rom[0x149],
        isJapanese := rom[0x14A] == 0x00,
        oldLicenseeCode := rom[0x14B],
        maskRomVersionNumber := rom[0x14C],
        headerChecksum := rom[0x14D],
        globalChecksum := Join(rom[0x14E], rom[0x14F])))
  }

  /**
   * Parsing succeeds exactly on a ROM of at least 0x150 bytes whose title
   * field is valid UTF-8; the two-byte codes are big-endian, the flags test
   * their documented values and the one-byte fields are the raw bytes.
   */
  lemma ParseHeaderSpec(rom: seq<Byte>)
    ensures ParseHeader(rom).Ok? <==> |rom| >= 0x150 && ValidUtf8(TitleField(rom, ReadCgbFlag(rom)))
    ensures ParseHeader(rom).Ok? ==>
              var h := ParseHeader(rom).value;
              (h.cgbFlag <==> rom[0x143] in {0x80, 0xC0}) &&
              Hi(h.newLicenseeCode) == rom[0x144] && Lo(h.newLicenseeCode) == rom[0x145] &&
              Hi(h.globalChecksum) == rom[0x14E] && Lo(h.globalChecksum) == rom[0x14F] &&
              (h.sgbFlag <==> rom[0x146] == 0x03) && (h.isJapanese <==> rom[0x14A] == 0x00) &&
              h.cartridgeType == rom[0x147] && h.romSize == rom[0x148] && h.ramSize == rom[0x149] &&
              h.oldLicenseeCode == rom[0x14B] && h.maskRomVersionNumber == rom[0x14C] &&
              h.headerChecksum == rom[0x14D] &&
              |h.title| <= (if h.cgbFlag then 11 else 16)
  {
  }

  /** Only the header bytes 0x134-0x14F decide the parsed header. */
  lemma ParseHeaderLocal(rom: seq<Byte>, rom': seq<Byte>)
    requires |rom| >= 0x150 && |rom'| >= 0x150
    requires rom[0x134..0x150] == rom'[0x134..0x150]
    ensures ParseHeader(rom) == ParseHeader(rom')
  {
    assert forall i :: 0x134 <= i < 0x150 ==> rom[i] == rom'[i] by {
      forall i | 0x134 <= i < 0x150
        ensures rom[i] == rom'[i]
      {
        assert rom[i] == rom[0x134..0x150][i - 0x134];
      }
    }
    assert TitleField(rom, ReadCgbFlag(rom)) == TitleField(rom', ReadCgbFlag(rom'));
  }

  /** The source's own example: "Hello Wor" padded with NULs in a DMG title field. */
  lemma TitleExample()
    ensures TrimNul([0x48, 0x65, 0x6c, 0x6c, 0x6f, 0x20, 0x57, 0x6f, 0x72, 0, 0, 0, 0, 0, 0, 0]) ==
            [0x48, 0x65, 0x6c, 0x6c, 0x6f, 0x20, 0x57, 0x6f, 0x72]
  {
    var r: seq<Byte> := [0x48, 0x65, 0x6c, 0x6c, 0x6f, 0x20, 0x57, 0x6f, 0x72];
    var s := r + seq(7, _ => 0);
    assert s == [0x48, 0x65, 0x6c, 0x6c, 0x6f, 0x20, 0x57, 0x6f, 0x72, 0, 0, 0, 0, 0, 0, 0];
    assert TrimStart(s) == s;
    TrimEndPadding(r, 7);
    assert TrimEnd(r) == r;
  }
}
