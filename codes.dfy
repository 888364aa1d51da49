/** Linux evdev event codes used by the mapper, the three evdev -> USB HID
    translation tables, and the ordered table of BTN_* names used to give a
    button code its symbolic name. */
module Codes {

  /** One input event as the kernel's input layer carries it. */
  datatype Event = Event(evType: int, code: int, value: int)

  // Event types (linux/input-event-codes.h)
  const EV_SYN: int := 0x00
  const EV_KEY: int := 0x01
  const EV_REL: int := 0x02
  const EV_ABS: int := 0x03

  // Relative axes
  const REL_X: int := 0x00
  const REL_Y: int := 0x01

  // Absolute axes of the DualSense
  const ABS_X: int := 0x00   // left stick, horizontal
  const ABS_Y: int := 0x01   // left stick, vertical
  const ABS_Z: int := 0x02   // L2 trigger
  const ABS_RX: int := 0x03  // right stick, horizontal
  const ABS_RY: int := 0x04  // right stick, vertical
  const ABS_RZ: int := 0x05  // R2 trigger

  // Keyboard keys
  const KEY_ESC: int := 1
  const KEY_1: int := 2
  const KEY_2: int := 3
  const KEY_3: int := 4
  const KEY_4: int := 5
  const KEY_5: int := 6
  const KEY_6: int := 7
  const KEY_7: int := 8
  const KEY_8: int := 9
  const KEY_9: int := 10
  const KEY_0: int := 11
  const KEY_MINUS: int := 12
  const KEY_EQUAL: int := 13
  const KEY_BACKSPACE: int := 14
  const KEY_TAB: int := 15
  const KEY_Q: int := 16
  const KEY_W: int := 17
  const KEY_E: int := 18
  const KEY_R: int := 19
  const KEY_T: int := 20
  const KEY_Y: int := 21
  const KEY_U: int := 22
  const KEY_I: int := 23
  const KEY_O: int := 24
  const KEY_P: int := 25
  const KEY_LEFTBRACE: int := 26
  const KEY_RIGHTBRACE: int := 27
  const KEY_ENTER: int := 28
  const KEY_LEFTCTRL: int := 29
  const KEY_A: int := 30
  const KEY_S: int := 31
  const KEY_D: int := 32
  const KEY_F: int := 33
  const KEY_G: int := 34
  const KEY_H: int := 35
  const KEY_J: int := 36
  const KEY_K: int := 37
  const KEY_L: int := 38
  const KEY_SEMICOLON: int := 39
  const KEY_APOSTROPHE: int := 40
  const KEY_GRAVE: int := 41
  const KEY_LEFTSHIFT: int := 42
  const KEY_BACKSLASH: int := 43
  const KEY_Z: int := 44
  const KEY_X: int := 45
  const KEY_C: int := 46
  const KEY_V: int := 47
  const KEY_B: int := 48
  const KEY_N: int := 49
  const KEY_M: int := 50
  const KEY_COMMA: int := 51
  const KEY_DOT: int := 52
  const KEY_SLASH: int := 53
  const KEY_RIGHTSHIFT: int := 54
  const KEY_LEFTALT: int := 56
  const KEY_SPACE: int := 57
  const KEY_CAPSLOCK: int := 58
  const KEY_F1: int := 59
  const KEY_F2: int := 60
  const KEY_F3: int := 61
  const KEY_F4: int := 62
  const KEY_F5: int := 63
  const KEY_F6: int := 64
  const KEY_F7: int := 65
  const KEY_F8: int := 66
  const KEY_F9: int := 67
  const KEY_F10: int := 68
  const KEY_F11: int := 87
  const KEY_F12: int := 88
  const KEY_RIGHTCTRL: int := 97
  const KEY_RIGHTALT: int := 100
  const KEY_LEFTMETA: int := 125
  const KEY_RIGHTMETA: int := 126

  // Buttons
  const BTN_LEFT: int := 0x110
  const BTN_RIGHT: int := 0x111
  const BTN_MIDDLE: int := 0x112
  const BTN_SOUTH: int := 0x130
  const BTN_EAST: int := 0x131
  const BTN_NORTH: int := 0x133
  const BTN_WEST: int := 0x134
  const BTN_TL: int := 0x136
  const BTN_TR: int := 0x137
  const BTN_TL2: int := 0x138
  const BTN_TR2: int := 0x139

  /** evdev key code -> usage ID on the Keyboard/Keypad page (0x07) of the
      USB HID Usage Tables 1.12, section 10; the union of the five groups
      below, whose key sets are disjoint. */
  const EvdevToHid: map<int, bv8> :=
    LetterUsages + NumberUsages + BasicSymbolUsages + SymbolUsages + FunctionKeyUsages

  const LetterUsages: map<int, bv8> := map[
    KEY_A := 0x04, KEY_B := 0x05, KEY_C := 0x06, KEY_D := 0x07,
    KEY_E := 0x08, KEY_F := 0x09, KEY_G := 0x0A, KEY_H := 0x0B,
    KEY_I := 0x0C, KEY_J := 0x0D, KEY_K := 0x0E, KEY_L := 0x0F,
    KEY_M := 0x10, KEY_N := 0x11, KEY_O := 0x12, KEY_P := 0x13,
    KEY_Q := 0x14, KEY_R := 0x15, KEY_S := 0x16, KEY_T := 0x17,
    KEY_U := 0x18, KEY_V := 0x19, KEY_W := 0x1A, KEY_X := 0x1B,
    KEY_Y := 0x1C, KEY_Z := 0x1D
  ]

  const NumberUsages: map<int, bv8> := map[
    KEY_1 := 0x1E, KEY_2 := 0x1F, KEY_3 := 0x20, KEY_4 := 0x21,
    KEY_5 := 0x22, KEY_6 := 0x23, KEY_7 := 0x24, KEY_8 := 0x25,
    KEY_9 := 0x26, KEY_0 := 0x27
  ]

  const BasicSymbolUsages: map<int, bv8> := map[
    KEY_ENTER := 0x28, KEY_ESC := 0x29, KEY_BACKSPACE := 0x2A,
    KEY_TAB := 0x2B, KEY_SPACE := 0x2C
  ]

  const SymbolUsages: map<int, bv8> := map[
    KEY_MINUS := 0x2D, KEY_EQUAL := 0x2E, KEY_LEFTBRACE := 0x2F,
    KEY_RIGHTBRACE := 0x30, KEY_BACKSLASH := 0x31, KEY_SEMICOLON := 0x33,
    KEY_APOSTROPHE := 0x34, KEY_GRAVE := 0x35, KEY_COMMA := 0x36,
    KEY_DOT := 0x37, KEY_SLASH := 0x38, KEY_CAPSLOCK := 0x39
  ]

  const FunctionKeyUsages: map<int, bv8> := map[
    KEY_F1 := 0x3A, KEY_F2 := 0x3B, KEY_F3 := 0x3C, KEY_F4 := 0x3D,
    KEY_F5 := 0x3E, KEY_F6 := 0x3F, KEY_F7 := 0x40, KEY_F8 := 0x41,
    KEY_F9 := 0x42, KEY_F10 := 0x43, KEY_F11 := 0x44, KEY_F12 := 0x45
  ]

  /** evdev modifier key -> bit of the modifier byte (byte 0 of the boot
      keyboard report, Appendix B.1 of the USB HID 1.11 class definition). */
  const ModifierBits: map<int, bv8> := map[
    KEY_LEFTCTRL := 0x01, KEY_LEFTSHIFT := 0x02, KEY_LEFTALT := 0x04,
    KEY_LEFTMETA := 0x08, KEY_RIGHTCTRL := 0x10, KEY_RIGHTSHIFT := 0x20,
    KEY_RIGHTALT := 0x40, KEY_RIGHTMETA := 0x80
  ]

  /** evdev mouse button -> bit of the button byte (byte 0 of the boot mouse
      report, Appendix B.2 of the USB HID 1.11 class definition). */
  const MouseButtonBits: map<int, bv8> := map[
    BTN_LEFT := 0x01, BTN_RIGHT := 0x02, BTN_MIDDLE := 0x04
  ]

  /** The letter keys KEY_A .. KEY_Z in alphabetical order. */
  const Letters: seq<int> := [
    KEY_A, KEY_B, KEY_C, KEY_D, KEY_E, KEY_F, KEY_G, KEY_H, KEY_I, KEY_J, KEY_K, KEY_L, KEY_M,
    KEY_N, KEY_O, KEY_P, KEY_Q, KEY_R, KEY_S, KEY_T, KEY_U, KEY_V, KEY_W, KEY_X, KEY_Y, KEY_Z
  ]

  /** The digit keys KEY_1 .. KEY_9, KEY_0 in keyboard order. */
  const Digits: seq<int> := [KEY_1, KEY_2, KEY_3, KEY_4, KEY_5, KEY_6, KEY_7, KEY_8, KEY_9, KEY_0]

  /** The function keys KEY_F1 .. KEY_F12. */
  const FunctionKeys: seq<int> := [
    KEY_F1, KEY_F2, KEY_F3, KEY_F4, KEY_F5, KEY_F6, KEY_F7, KEY_F8, KEY_F9, KEY_F10, KEY_F11, KEY_F12
  ]

  /** The letters get the consecutive usage IDs a..z = 0x04..0x1D that the
      Keyboard/Keypad page assigns them (two halves, a..m and n..z). */
  lemma LettersConsecutive()
    ensures forall i | 0 <= i < |Letters| :: Letters[i] in LetterUsages && LetterUsages[Letters[i]] as int == 0x04 + i
  {
    FirstHalfOfLetters();
    SecondHalfOfLetters();
  }

  lemma FirstHalfOfLetters()
    ensures forall i | 0 <= i < 13 :: Letters[i] in LetterUsages && LetterUsages[Letters[i]] as int == 0x04 + i
  {
  }

  lemma SecondHalfOfLetters()
    ensures forall i | 13 <= i < 26 :: Letters[i] in LetterUsages && LetterUsages[Letters[i]] as int == 0x04 + i
  {
  }

  /** 1..9, 0 get the consecutive usage IDs 0x1E..0x27. */
  lemma DigitsConsecutive()
    ensures forall i | 0 <= i < |Digits| :: Digits[i] in NumberUsages && NumberUsages[Digits[i]] as int == 0x1E + i
  {
  }

  /** F1..F12 get the consecutive usage IDs 0x3A..0x45. */
  lemma FunctionKeysConsecutive()
    ensures forall i | 0 <= i < |FunctionKeys| :: FunctionKeys[i] in FunctionKeyUsages && FunctionKeyUsages[FunctionKeys[i]] as int == 0x3A + i
  {
  }

  lemma LetterBlock() ensures forall c | c in LetterUsages :: 0x04 <= LetterUsages[c] <= 0x1D && 1 <= c <= 88 {}
  lemma NumberBlock() ensures forall c | c in NumberUsages :: 0x1E <= NumberUsages[c] <= 0x27 && 1 <= c <= 88 {}
  lemma BasicSymbolBlock() ensures forall c | c in BasicSymbolUsages :: 0x28 <= BasicSymbolUsages[c] <= 0x2C && 1 <= c <= 88 {}
  lemma SymbolBlock() ensures forall c | c in SymbolUsages :: 0x2D <= SymbolUsages[c] <= 0x39 && SymbolUsages[c] != 0x32 && 1 <= c <= 88 {}
  lemma FunctionKeyBlock() ensures forall c | c in FunctionKeyUsages :: 0x3A <= FunctionKeyUsages[c] <= 0x45 && 1 <= c <= 88 {}

  /** Every translated key lands on a nonzero usage of the Keyboard/Keypad
      page between 0x04 (a) and 0x45 (F12); 0x32 (Non-US #) is not used. */
  lemma UsagesOnKeyboardPage()
    ensures forall c | c in EvdevToHid :: 0x04 <= EvdevToHid[c] <= 0x45 && EvdevToHid[c] != 0x32
  {
    LetterBlock(); NumberBlock(); BasicSymbolBlock(); SymbolBlock(); FunctionKeyBlock();
  }

  /** Each modifier key owns one distinct bit of the modifier byte, and each
      mouse button one distinct bit of the button byte. */
  lemma BitTablesAreSingleBits()
    ensures forall c | c in ModifierBits :: ModifierBits[c] != 0 && ModifierBits[c] & (ModifierBits[c] - 1) == 0
    ensures forall c, d | c in ModifierBits && d in ModifierBits && c != d :: ModifierBits[c] & ModifierBits[d] == 0
    ensures forall c | c in MouseButtonBits :: MouseButtonBits[c] != 0 && MouseButtonBits[c] & (MouseButtonBits[c] - 1) == 0
    ensures forall c, d | c in MouseButtonBits && d in MouseButtonBits && c != d :: MouseButtonBits[c] & MouseButtonBits[d] == 0
  {
  }

  /** The eight modifier keys of the modifier byte. */
  lemma ModifierCodes()
    ensures forall c | c in ModifierBits :: c in {KEY_LEFTCTRL, KEY_LEFTSHIFT, KEY_LEFTALT, KEY_LEFTMETA,
                                                   KEY_RIGHTCTRL, KEY_RIGHTSHIFT, KEY_RIGHTALT, KEY_RIGHTMETA}
  {
  }

  /** The usage table is the union of its five groups. */
  lemma TranslatedCodes()
    ensures EvdevToHid.Keys
      == LetterUsages.Keys + NumberUsages.Keys + BasicSymbolUsages.Keys + SymbolUsages.Keys + FunctionKeyUsages.Keys
  {
  }

  /** No code is in two tables, so the mouse -> modifier -> keyboard routing
      order never hides an entry. */
  lemma TablesDisjoint()
    ensures forall c | c in MouseButtonBits :: c !in ModifierBits && c !in EvdevToHid
    ensures forall c | c in ModifierBits :: c !in EvdevToHid
  {
    MouseButtonsNotTranslated();
    ModifiersNotTranslated();
  }

  lemma MouseButtonsNotTranslated()
    ensures forall c | c in MouseButtonBits :: c !in ModifierBits && c !in EvdevToHid
  {
    MouseButtonCodes();
    ModifierCodes();
    TranslatedKeysBelow89();
    assert BTN_LEFT !in EvdevToHid && BTN_RIGHT !in EvdevToHid && BTN_MIDDLE !in EvdevToHid;
  }

  /** The three mouse buttons of the button byte. */
  lemma MouseButtonCodes()
    ensures forall c | c in MouseButtonBits :: c in {BTN_LEFT, BTN_RIGHT, BTN_MIDDLE}
  {
  }

  /** Every translated key code is at most 88 (KEY_F12). */
  lemma TranslatedKeysBelow89()
    ensures forall c | c in EvdevToHid :: c <= 88
  {
    TranslatedCodes();
    LetterBlock(); NumberBlock(); BasicSymbolBlock(); SymbolBlock(); FunctionKeyBlock();
  }

  lemma ModifiersNotTranslated()
    ensures forall c | c in ModifierBits :: c !in EvdevToHid
  {
    ModifierCodes();
    TranslatedKeysBelow89();
    LowModifiersNotTranslated();
  }

  /** The four modifier keys numbered below 89 are in no group of the usage
      table. */
  lemma LowModifiersNotTranslated()
    ensures KEY_LEFTCTRL !in EvdevToHid && KEY_LEFTSHIFT !in EvdevToHid
    ensures KEY_LEFTALT !in EvdevToHid && KEY_RIGHTSHIFT !in EvdevToHid
  {
    TranslatedCodes();
    LowModifiersNotInLetters(); LowModifiersNotInNumbers(); LowModifiersNotInBasicSymbols();
    LowModifiersNotInSymbols(); LowModifiersNotInFunctionKeys();
  }

  lemma LowModifiersNotInLetters()
    ensures KEY_LEFTCTRL !in LetterUsages && KEY_LEFTSHIFT !in LetterUsages
    ensures KEY_LEFTALT !in LetterUsages && KEY_RIGHTSHIFT !in LetterUsages
  {
  }

  lemma LowModifiersNotInNumbers()
    ensures KEY_LEFTCTRL !in NumberUsages && KEY_LEFTSHIFT !in NumberUsages
    ensures KEY_LEFTALT !in NumberUsages && KEY_RIGHTSHIFT !in NumberUsages
  {
  }

  lemma LowModifiersNotInBasicSymbols()
    ensures KEY_LEFTCTRL !in BasicSymbolUsages && KEY_LEFTSHIFT !in BasicSymbolUsages
    ensures KEY_LEFTALT !in BasicSymbolUsages && KEY_RIGHTSHIFT !in BasicSymbolUsages
  {
  }

  lemma LowModifiersNotInSymbols()
    ensures KEY_LEFTCTRL !in SymbolUsages && KEY_LEFTSHIFT !in SymbolUsages
    ensures KEY_LEFTALT !in SymbolUsages && KEY_RIGHTSHIFT !in SymbolUsages
  {
  }

  lemma LowModifiersNotInFunctionKeys()
    ensures KEY_LEFTCTRL !in FunctionKeyUsages && KEY_LEFTSHIFT !in FunctionKeyUsages
    ensures KEY_LEFTALT !in FunctionKeyUsages && KEY_RIGHTSHIFT !in FunctionKeyUsages
  {
  }
}
