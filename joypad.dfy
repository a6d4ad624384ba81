/**
 * The joypad register P1 at 0xFF00 (core/src/io/joypad.rs): two groups of four
 * keys share the low nibble, and the game selects a group by writing a zero to
 * bit 4 (directions) or bit 5 (buttons). The register is active low: a pressed
 * key of a selected group reads as 0.
 */
module Joypad {
  import opened Bits

  datatype InputKey = Start | Select | A | B | Up | Down | Left | Right

  const RIGHT_A: Byte := 0x01
  const LEFT_B: Byte := 0x02
  const UP_SELECT: Byte := 0x04
  const DOWN_START: Byte := 0x08
  const DIRECTION_KEYS: Byte := 0x10
  const BUTTON_KEYS: Byte := 0x20

  predicate IsDirection(k: InputKey)
  {
    k in {Up, Down, Left, Right}
  }

  /** `get_flag_value`: the bit a key shares with its counterpart in the other group. */
  function KeyFlag(k: InputKey): (f: Byte)
  {
    match k
    case Start | Down => DOWN_START
    case Select | Up => UP_SELECT
    case B | Left => LEFT_B
    case A | Right => RIGHT_A
  }

  /** The key in the other group wired to the same bit. */
  function Counterpart(k: InputKey): InputKey
  {
    match k
    case Start => Down
    case Down => Start
    case Select => Up
    case Up => Select
    case B => Left
    case Left => B
    case A => Right
    case Right => A
  }

  /**
   * Every key owns exactly one of the low four bits, and two keys share it
   * exactly when they are the same key or counterparts (START/DOWN,
   * SELECT/UP, B/LEFT, A/RIGHT).
   */
  lemma KeyFlagsShared(k: InputKey, j: InputKey)
    ensures KeyFlag(k) in {0x01, 0x02, 0x04, 0x08}
    ensures KeyFlag(k) == KeyFlag(j) <==> k == j || Counterpart(k) == j
    ensures IsDirection(k) != IsDirection(Counterpart(k))
  {
  }

  /** The three bytes of `JoyPad`; every bit pattern is a valid `JoypadFlags`. */
  datatype JoypadState = JoypadState(pressedButtons: Byte, pressedDirections: Byte, selectedMode: Byte)

  /** Pressed keys only ever occupy the low nibble. */
  predicate Valid(s: JoypadState)
  {
    s.pressedButtons & 0xF0 == 0 && s.pressedDirections & 0xF0 == 0
  }

  /** `JoyPad::new`: nothing pressed, every bit of the selection set. */
  function New(): JoypadState
  {
    JoypadState(0, 0, 0xFF)
  }

  /** `get_register`. */
  function Register(s: JoypadState): Byte
  {
    !s.selectedMode
  }

  /**
   * `update_flags`: only the two select bits of the stored (inverted) mode
   * survive, and each selected group contributes its pressed keys.
   */
  function Refresh(s: JoypadState): JoypadState
  {
    var mode := s.selectedMode & 0x30;
    var withButtons := if mode & BUTTON_KEYS == BUTTON_KEYS then mode | s.pressedButtons else mode;
    var withDirections := if withButtons & DIRECTION_KEYS == DIRECTION_KEYS then withButtons | s.pressedDirections else withButtons;
    s.(selectedMode := withDirections)
  }

  /** `set_register`: the written byte is stored inverted, then refreshed. */
  function WriteRegister(s: JoypadState, mode: Byte): JoypadState
  {
    Refresh(s.(selectedMode := !mode))
  }

  function Press(s: JoypadState, k: InputKey): JoypadState
  {
    var s1 := if IsDirection(k) then s.(pressedDirections := s.pressedDirections | KeyFlag(k))
              else s.(pressedButtons := s.pressedButtons | KeyFlag(k));
    Refresh(s1)
  }

  function Release(s: JoypadState, k: InputKey): JoypadState
  {
    var s1 := if IsDirection(k) then s.(pressedDirections := s.pressedDirections & !KeyFlag(k))
              else s.(pressedButtons := s.pressedButtons & !KeyFlag(k));
    Refresh(s1)
  }

  /** Whether `k` is held down in `s`. */
  predicate Pressed(s: JoypadState, k: InputKey)
  {
    (if IsDirection(k) then s.pressedDirections else s.pressedButtons) & KeyFlag(k) != 0
  }

  /** A fresh joypad reads 0x00: nothing has been selected through `set_register`. */
  lemma NewReadsZero()
    ensures Register(New()) == 0x00
    ensures Valid(New())
  {
  }

  /**
   * After the game writes `mode`, bits 4-5 read back as written, bits 6-7 read
   * as 1, and the low nibble is the inverse of the keys pressed in the groups
   * whose select bit was written as 0.
   */
  lemma SetRegisterSpec(s: JoypadState, mode: Byte)
    requires Valid(s)
    ensures Register(WriteRegister(s, mode)) & 0xF0 == 0xC0 | (mode & 0x30)
    ensures Register(WriteRegister(s, mode)) & 0x0F ==
              !((if mode & BUTTON_KEYS == 0 then s.pressedButtons else 0) |
                (if mode & DIRECTION_KEYS == 0 then s.pressedDirections else 0)) & 0x0F
    ensures WriteRegister(s, mode).pressedButtons == s.pressedButtons
    ensures WriteRegister(s, mode).pressedDirections == s.pressedDirections
  {
  }

  /**
   * A pressed key reads as 0 in its bit whenever its group is selected; a
   * bit reads as 1 when neither of the keys wired to it is pressed in a
   * selected group.
   */
  lemma PressedKeyReadsLow(s: JoypadState, mode: Byte, k: InputKey)
    requires Valid(s)
    ensures var selected := mode & (if IsDirection(k) then DIRECTION_KEYS else BUTTON_KEYS) == 0;
            var other := mode & (if IsDirection(k) then BUTTON_KEYS else DIRECTION_KEYS) == 0;
            (Register(WriteRegister(s, mode)) & KeyFlag(k) == 0 <==>
               (selected && Pressed(s, k)) || (other && Pressed(s, Counterpart(k))))
  {
    SetRegisterSpec(s, mode);
  }

  /**
   * Pressing a key marks it, and only it, in its own group and leaves the
   * other group alone.
   */
  lemma PressSpec(s: JoypadState, k: InputKey, j: InputKey)
    requires Valid(s)
    ensures Valid(Press(s, k))
    ensures Pressed(Press(s, k), k)
    ensures j != k ==> (Pressed(Press(s, k), j) <==> Pressed(s, j))
    ensures IsDirection(k) ==> Press(s, k).pressedButtons == s.pressedButtons
    ensures !IsDirection(k) ==> Press(s, k).pressedDirections == s.pressedDirections
  {
    match k
    case Start | Select | A | B =>
    case Up | Down | Left | Right =>
  }

  /** Releasing a key clears its mark and keeps every other key's. */
  lemma ReleaseSpec(s: JoypadState, k: InputKey, j: InputKey)
    requires Valid(s)
    ensures Valid(Release(s, k))
    ensures !Pressed(Release(s, k), k)
    ensures j != k ==> (Pressed(Release(s, k), j) <==> Pressed(s, j))
  {
    KeyFlagsShared(k, j);
    KeyFlagsShared(j, k);
    if IsDirection(k) {
      ClearFlag(s.pressedDirections, KeyFlag(k), KeyFlag(j));
      assert Release(s, k).pressedDirections == s.pressedDirections & !KeyFlag(k);
      assert Release(s, k).pressedButtons == s.pressedButtons;
    } else {
      ClearFlag(s.pressedButtons, KeyFlag(k), KeyFlag(j));
      assert Release(s, k).pressedButtons == s.pressedButtons & !KeyFlag(k);
      assert Release(s, k).pressedDirections == s.pressedDirections;
    }
  }

  /** Clearing one key bit of a group byte clears it and keeps the other bits. */
  lemma ClearFlag(v: Byte, f: Byte, g: Byte)
    requires f in {0x01, 0x02, 0x04, 0x08} && g in {0x01, 0x02, 0x04, 0x08}
    ensures (v & !f) & f == 0
    ensures f != g ==> ((v & !f) & g != 0 <==> v & g != 0)
    ensures v & 0xF0 == 0 ==> (v & !f) & 0xF0 == 0
  {
  }

  class JoyPad {
    var pressedButtons: Byte
    var pressedDirections: Byte
    var selectedMode: Byte

    function State(): JoypadState
      reads this
    {
      JoypadState(pressedButtons, pressedDirections, selectedMode)
    }

    constructor ()
      ensures State() == New()
    {
      pressedButtons := 0;
      pressedDirections := 0;
      selectedMode := 0xFF;
    }

    function GetRegister(): (v: Byte)
      reads this
      ensures v == Register(State())
    {
      !selectedMode
    }

    method SetRegister(mode: Byte)
      modifies this`selectedMode
      ensures State() == WriteRegister(old(State()), mode)
    {
      selectedMode := !mode;
      UpdateFlags();
    }

    method PressKey(k: InputKey)
      modifies this
      ensures State() == Press(old(State()), k)
    {
      if IsDirection(k) {
        pressedDirections := pressedDirections | KeyFlag(k);
      } else {
        pressedButtons := pressedButtons | KeyFlag(k);
      }
      UpdateFlags();
    }

    method ReleaseKey(k: InputKey)
      modifies this
      ensures State() == Release(old(State()), k)
    {
      if IsDirection(k) {
        pressedDirections := pressedDirections & !KeyFlag(k);
      } else {
        pressedButtons := pressedButtons & !KeyFlag(k);
      }
      UpdateFlags();
    }

    method UpdateFlags()
      modifies this`selectedMode
      ensures State() == Refresh(old(State()))
    {
      selectedMode := selectedMode & 0x30;
      if selectedMode & BUTTON_KEYS == BUTTON_KEYS {
        selectedMode := selectedMode | pressedButtons;
      }
      if selectedMode & DIRECTION_KEYS == DIRECTION_KEYS {
        selectedMode := selectedMode | pressedDirections;
      }
    }
  }
}
