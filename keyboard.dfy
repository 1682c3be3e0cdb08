/** The keyboard processor of the webrender backend: it turns native
    character and key events into the host's `input_event` records,
    tracking the platform modifier state and whether plain character events
    are currently suppressed (after a special key was pressed). */
module Keyboard {
  import opened Wrappers
  import opened Lisp

  /** The platform modifier state, reduced to the four flags read here. */
  datatype ModifiersState = ModifiersState(shift: bool, ctrl: bool, alt: bool, logo: bool)

  const EMPTY_MODIFIERS: ModifiersState := ModifiersState(false, false, false, false)

  // The host's modifier bits (its `termhooks.h`).
  const SUPER_MODIFIER: bv32 := 0x0800000
  const SHIFT_MODIFIER: bv32 := 0x2000000
  const CTRL_MODIFIER: bv32 := 0x4000000
  const META_MODIFIER: bv32 := 0x8000000

  const HOST_MODIFIER_MASK: bv32 := SUPER_MODIFIER | SHIFT_MODIFIER | CTRL_MODIFIER | META_MODIFIER

  /** A platform virtual key code, by the discriminant that `as u32` yields. */
  datatype VirtualKeyCode = VirtualKeyCode(ordinal: nat)

  const ESCAPE: VirtualKeyCode := VirtualKeyCode(36)
  const BACK: VirtualKeyCode := VirtualKeyCode(74)
  const RETURN: VirtualKeyCode := VirtualKeyCode(75)

  datatype EventKind = AsciiKeystrokeEvent | NonAsciiKeystrokeEvent

  datatype ScrollBarPart = ScrollBarNowhere

  /** The host's `input_event` record. */
  datatype InputEvent = InputEvent(
    kind: EventKind,
    part: ScrollBarPart,
    code: nat,
    modifiers: bv32,
    x: int,
    y: int,
    timestamp: nat,
    frameOrWindow: LispObject,
    arg: LispObject)

  /** A keystroke event as both constructors of the source build it: no
      position, timestamp 0, no argument, scroll-bar part "nowhere". */
  function Keystroke(kind: EventKind, code: nat, modifiers: bv32, topFrame: LispObject): (ev: InputEvent)
    ensures ev.kind == kind && ev.code == code && ev.modifiers == modifiers
    ensures ev.x == 0 && ev.y == 0 && ev.timestamp == 0
    ensures ev.frameOrWindow == topFrame && ev.arg == Nil
  {
    InputEvent(kind, ScrollBarNowhere, code, modifiers, 0, 0, 0, topFrame, Nil)
  }

  /** The host key name of a virtual key code; only three keys are named. */
  function KeyName(keyCode: VirtualKeyCode): (name: Option<string>)
    ensures name.Some? <==> keyCode == ESCAPE || keyCode == BACK || keyCode == RETURN
    ensures keyCode == ESCAPE ==> name == Some("escape")
    ensures keyCode == BACK ==> name == Some("backspace")
    ensures keyCode == RETURN ==> name == Some("return")
  {
    match keyCode.ordinal
    case 36 => Some("escape")
    case 74 => Some("backspace")
    case 75 => Some("return")
    case _ => None
  }

  /** The low byte of a character, as `c as u8` truncates it. */
  function LowByte(c: char): (b: nat)
    ensures b < 256
    ensures c as int < 256 ==> b == c as int
    ensures (c as int - b) % 256 == 0
  {
    c as int % 256
  }

  /** What a terminal control character stands for, stated by the keys
      that produce it: ^A..^Z give the lower-case letters a..z, the other
      six control bytes (^@ ^[ ^\ ^] ^^ ^_) give @ [ \ ] ^ _, and every
      other byte is itself. */
  function Uncontrolled(c: char): (r: char)
    ensures 32 <= r as int < 256
  {
    var b := LowByte(c);
    if 1 <= b <= 26 then ('a' as int + (b - 1)) as char
    else if b == 0 then '@'
    else if b < 32 then ('[' as int + (b - 27)) as char
    else b as char
  }

  /** The host modifier bitmask of a platform modifier state, one bit per
      flag (alt is the host's meta). */
  function ModifierBits(m: ModifiersState): (bits: bv32)
    ensures bits & !HOST_MODIFIER_MASK == 0
  {
    (if m.alt then META_MODIFIER else 0)
    + (if m.shift then SHIFT_MODIFIER else 0)
    + (if m.ctrl then CTRL_MODIFIER else 0)
    + (if m.logo then SUPER_MODIFIER else 0)
  }

  class KeyboardProcessor {
    var modifiers: ModifiersState
    var suppressChars: bool

    /** `new`: no modifiers held, characters not suppressed. */
    constructor ()
      ensures modifiers == EMPTY_MODIFIERS && !suppressChars
    {
      modifiers := EMPTY_MODIFIERS;
      suppressChars := false;
    }

    /** `receive_char`: an ASCII keystroke for the character, unless
        characters are suppressed. It does not change the processor. */
    method ReceiveChar(c: char, topFrame: LispObject) returns (ev: Option<InputEvent>)
      ensures suppressChars ==> ev == None
      ensures !suppressChars ==>
        ev == Some(Keystroke(AsciiKeystrokeEvent, Uncontrolled(c) as int, ModifierBits(modifiers), topFrame))
    {
      if suppressChars {
        return None;
      }
      var code := RemoveControl(c);
      var mods := ToEmacsModifiers(modifiers);
      ev := Some(Keystroke(AsciiKeystrokeEvent, code as int, mods, topFrame));
    }

    /** `key_pressed`: a named key yields a non-ASCII keystroke carrying
        the key code and suppresses the character event that follows it;
        any other key yields nothing and changes nothing. */
    method KeyPressed(keyCode: VirtualKeyCode, topFrame: LispObject) returns (ev: Option<InputEvent>)
      modifies this
      ensures modifiers == old(modifiers)
      ensures KeyName(keyCode).None? ==> ev == None && suppressChars == old(suppressChars)
      ensures KeyName(keyCode).Some? ==>
        suppressChars &&
        ev == Some(Keystroke(NonAsciiKeystrokeEvent, keyCode.ordinal, ModifierBits(modifiers), topFrame))
    {
      if KeyName(keyCode).None? {
        return None;
      }
      suppressChars := true;
      var mods := ToEmacsModifiers(modifiers);
      ev := Some(Keystroke(NonAsciiKeystrokeEvent, keyCode.ordinal, mods, topFrame));
    }

    /** `key_released`: characters are no longer suppressed. */
    method KeyReleased()
      modifies this
      ensures !suppressChars && modifiers == old(modifiers)
    {
      suppressChars := false;
    }

    /** `change_modifiers`: replace the modifier state, nothing else. */
    method ChangeModifiers(m: ModifiersState)
      modifies this
      ensures modifiers == m && suppressChars == old(suppressChars)
    {
      modifiers := m;
    }

    /** `remove_control`, step by step as the source does it: truncate to
        a byte, and map a control byte b to b + 64, lower-cased when that
        is an upper-case letter. */
    static method RemoveControl(c: char) returns (r: char)
      ensures r == Uncontrolled(c)
    {
      var b := LowByte(c);
      if b < 32 {
        var newC := b + 64;
        if 65 <= newC <= 90 {
          newC := newC + 32;
        }
        b := newC;
      }
      r := b as char;
    }

    /** `to_emacs_modifiers`: start from 0 and OR in one host bit per set
        platform flag. */
    static method ToEmacsModifiers(m: ModifiersState) returns (bits: bv32)
      ensures bits == ModifierBits(m)
    {
      bits := 0;
      if m.alt {
        bits := bits | META_MODIFIER;
      }
      if m.shift {
        bits := bits | SHIFT_MODIFIER;
      }
      if m.ctrl {
        bits := bits | CTRL_MODIFIER;
      }
      if m.logo {
        bits := bits | SUPER_MODIFIER;
      }
    }
  }

  /** Each platform flag sets exactly its own host bit. */
  lemma ModifierBitsPerFlag(m: ModifiersState)
    ensures (ModifierBits(m) & META_MODIFIER != 0) <==> m.alt
    ensures (ModifierBits(m) & SHIFT_MODIFIER != 0) <==> m.shift
    ensures (ModifierBits(m) & CTRL_MODIFIER != 0) <==> m.ctrl
    ensures (ModifierBits(m) & SUPER_MODIFIER != 0) <==> m.logo
  {
  }

  /** No flag gives 0, and it is the only state that does; distinct
      states give distinct masks. */
  lemma ModifierBitsInjective(m1: ModifiersState, m2: ModifiersState)
    ensures ModifierBits(m1) == 0 <==> m1 == EMPTY_MODIFIERS
    ensures ModifierBits(m1) == ModifierBits(m2) ==> m1 == m2
  {
    ModifierBitsPerFlag(m1);
    ModifierBitsPerFlag(m2);
  }

  /** The mask of a state is the OR of the masks of its single flags. */
  lemma ModifierBitsIsUnion(m: ModifiersState)
    ensures ModifierBits(m) ==
      ModifierBits(ModifiersState(false, false, m.alt, false))
      | ModifierBits(ModifiersState(m.shift, false, false, false))
      | ModifierBits(ModifiersState(false, m.ctrl, false, false))
      | ModifierBits(ModifiersState(false, false, false, m.logo))
  {
  }

  /** The control keys ^A, ^Z, ^@ and ^[ decode to 'a', 'z', '@' and '['. */
  lemma UncontrolledExamples()
    ensures Uncontrolled(1 as char) == 'a'
    ensures Uncontrolled(26 as char) == 'z'
    ensures Uncontrolled(0 as char) == '@'
    ensures Uncontrolled(27 as char) == '['
    ensures Uncontrolled('a') == 'a'
  {
  }

  /** Only the low byte matters, bytes from 32 up are left alone, and a
      control byte b decodes to b + 64, plus 32 when that is in 'A'..'Z'. */
  lemma UncontrolledByByte(c: char)
    ensures Uncontrolled(c) == Uncontrolled(LowByte(c) as char)
    ensures LowByte(c) >= 32 ==> Uncontrolled(c) as int == LowByte(c)
    ensures LowByte(c) < 32 ==>
      Uncontrolled(c) as int == LowByte(c) + 64 + (if 65 <= LowByte(c) + 64 <= 90 then 32 else 0)
  {
  }

  /** Decoding is idempotent: its result is never a control byte. */
  lemma UncontrolledIdempotent(c: char)
    ensures Uncontrolled(Uncontrolled(c)) == Uncontrolled(c)
  {
  }

  /** No upper-case letter ever comes out of a control byte. */
  lemma UncontrolledNeverUpper(c: char)
    requires LowByte(c) < 32
    ensures !('A' <= Uncontrolled(c) <= 'Z')
  {
  }

  /** After a named key is pressed, the character event that follows is
      suppressed until the key is released; then characters flow again. */
  method SpecialKeySuppressesNextChar(c: char, topFrame: LispObject)
    returns (pressed: Option<InputEvent>, during: Option<InputEvent>, after: Option<InputEvent>)
    ensures pressed == Some(Keystroke(NonAsciiKeystrokeEvent, 36, 0, topFrame))
    ensures during == None
    ensures after == Some(Keystroke(AsciiKeystrokeEvent, Uncontrolled(c) as int, 0, topFrame))
  {
    var p := new KeyboardProcessor();
    pressed := p.KeyPressed(ESCAPE, topFrame);
    during := p.ReceiveChar(c, topFrame);
    p.KeyReleased();
    after := p.ReceiveChar(c, topFrame);
  }
}
