/**
  The C++ injector's table from DOM `KeyboardEvent.code` strings to usage
  IDs on the Keyboard/Keypad page (0x07) of the USB HID Usage Tables
  (`kCodeToUsage` and `map_code`). A code the table does not hold gets usage
  0, which the injector reads as "no key".

  `kCodeToUsage` is a hash map, so the order of its entries is irrelevant;
  its keys are distinct, and testing its groups of entries one after another,
  as MapCode does, finds the same entry as the hash lookup.
 */
module HidUsage {
  import KeyMap

  /** A `uint16_t` usage ID. */
  type Usage = x: int | 0 <= x < 0x1_0000

  /** Letters, usages 0x04 to 0x1D in alphabetical order. */
  function Letters(code: string): Usage
  {
    match code
    case "KeyA" => 0x04
    case "KeyB" => 0x05
    case "KeyC" => 0x06
    case "KeyD" => 0x07
    case "KeyE" => 0x08
    case "KeyF" => 0x09
    case "KeyG" => 0x0A
    case "KeyH" => 0x0B
    case "KeyI" => 0x0C
    case "KeyJ" => 0x0D
    case "KeyK" => 0x0E
    case "KeyL" => 0x0F
    case "KeyM" => 0x10
    case "KeyN" => 0x11
    case "KeyO" => 0x12
    case "KeyP" => 0x13
    case "KeyQ" => 0x14
    case "KeyR" => 0x15
    case "KeyS" => 0x16
    case "KeyT" => 0x17
    case "KeyU" => 0x18
    case "KeyV" => 0x19
    case "KeyW" => 0x1A
    case "KeyX" => 0x1B
    case "KeyY" => 0x1C
    case "KeyZ" => 0x1D
    case _ => 0
  }

  /** Top-row digits: Digit1 to Digit9 are 0x1E to 0x26 and Digit0 comes last at 0x27. */
  function Digits(code: string): Usage
  {
    match code
    case "Digit1" => 0x1E
    case "Digit2" => 0x1F
    case "Digit3" => 0x20
    case "Digit4" => 0x21
    case "Digit5" => 0x22
    case "Digit6" => 0x23
    case "Digit7" => 0x24
    case "Digit8" => 0x25
    case "Digit9" => 0x26
    case "Digit0" => 0x27
    case _ => 0
  }

  /** Enter, Escape, Backspace, Tab and Space, 0x28 to 0x2C. */
  function Controls(code: string): Usage
  {
    match code
    case "Enter" => 0x28
    case "Escape" => 0x29
    case "Backspace" => 0x2A
    case "Tab" => 0x2B
    case "Space" => 0x2C
    case _ => 0
  }

  /** Punctuation, 0x2D to 0x38; 0x32 (Keyboard Non-US # and ~) is not listed. */
  function Symbols(code: string): Usage
  {
    match code
    case "Minus" => 0x2D
    case "Equal" => 0x2E
    case "BracketLeft" => 0x2F
    case "BracketRight" => 0x30
    case "Backslash" => 0x31
    case "Semicolon" => 0x33
    case "Quote" => 0x34
    case "Backquote" => 0x35
    case "Comma" => 0x36
    case "Period" => 0x37
    case "Slash" => 0x38
    case _ => 0
  }

  /** CapsLock at 0x39, then F1 to F12 at 0x3A to 0x45. */
  function FunctionKeys(code: string): Usage
  {
    match code
    case "CapsLock" => 0x39
    case "F1" => 0x3A
    case "F2" => 0x3B
    case "F3" => 0x3C
    case "F4" => 0x3D
    case "F5" => 0x3E
    case "F6" => 0x3F
    case "F7" => 0x40
    case "F8" => 0x41
    case "F9" => 0x42
    case "F10" => 0x43
    case "F11" => 0x44
    case "F12" => 0x45
    case _ => 0
  }

  /** PrintScreen to ArrowUp, 0x46 to 0x52. */
  function Navigation(code: string): Usage
  {
    match code
    case "PrintScreen" => 0x46
    case "ScrollLock" => 0x47
    case "Pause" => 0x48
    case "Insert" => 0x49
    case "Home" => 0x4A
    case "PageUp" => 0x4B
    case "Delete" => 0x4C
    case "End" => 0x4D
    case "PageDown" => 0x4E
    case "ArrowRight" => 0x4F
    case "ArrowLeft" => 0x50
    case "ArrowDown" => 0x51
    case "ArrowUp" => 0x52
    case _ => 0
  }

  /** Modifiers, 0xE0 to 0xE7: left Control, Shift, Alt, GUI, then the right ones. */
  function Modifiers(code: string): Usage
  {
    match code
    case "ControlLeft" => 0xE0
    case "ShiftLeft" => 0xE1
    case "AltLeft" => 0xE2
    case "MetaLeft" => 0xE3
    case "ControlRight" => 0xE4
    case "ShiftRight" => 0xE5
    case "AltRight" => 0xE6
    case "MetaRight" => 0xE7
    case _ => 0
  }

  /** `map_code`: the usage of a code, or 0 for a code the table does not
      hold. */
  function MapCode(code: string): Usage
  {
    if Letters(code) != 0 then Letters(code) else
    if Digits(code) != 0 then Digits(code) else
    if Controls(code) != 0 then Controls(code) else
    if Symbols(code) != 0 then Symbols(code) else
    if FunctionKeys(code) != 0 then FunctionKeys(code) else
    if Navigation(code) != 0 then Navigation(code) else
    Modifiers(code)
  }

  // The codes of each group.
  const LettersCodes: set<string> := {
    "KeyA", "KeyB", "KeyC", "KeyD", "KeyE", "KeyF", "KeyG", "KeyH", "KeyI",
    "KeyJ", "KeyK", "KeyL", "KeyM", "KeyN", "KeyO", "KeyP", "KeyQ", "KeyR",
    "KeyS", "KeyT", "KeyU", "KeyV", "KeyW", "KeyX", "KeyY", "KeyZ"
  }
  const DigitsCodes: set<string> := {
    "Digit1", "Digit2", "Digit3", "Digit4", "Digit5", "Digit6", "Digit7",
    "Digit8", "Digit9", "Digit0"
  }
  const ControlsCodes: set<string> := {"Enter", "Escape", "Backspace", "Tab", "Space"}
  const SymbolsCodes: set<string> := {
    "Minus", "Equal", "BracketLeft", "BracketRight", "Backslash",
    "Semicolon", "Quote", "Backquote", "Comma", "Period", "Slash"
  }
  const FunctionKeysCodes: set<string> := {
    "CapsLock", "F1", "F2", "F3", "F4", "F5", "F6", "F7", "F8", "F9",
    "F10", "F11", "F12"
  }
  const NavigationCodes: set<string> := {
    "PrintScreen", "ScrollLock", "Pause", "Insert", "Home", "PageUp",
    "Delete", "End", "PageDown", "ArrowRight", "ArrowLeft", "ArrowDown",
    "ArrowUp"
  }
  const ModifiersCodes: set<string> := {
    "ControlLeft", "ShiftLeft", "AltLeft", "MetaLeft", "ControlRight",
    "ShiftRight", "AltRight", "MetaRight"
  }

  /** Every code in the table. */
  const TableCodes: set<string> :=
    LettersCodes
    + DigitsCodes
    + ControlsCodes
    + SymbolsCodes
    + FunctionKeysCodes
    + NavigationCodes
    + ModifiersCodes

  // ---------------------------------------------------------------------
  // Which group a code can belong to, by the fingerprint KeyMap.Shape.
  // Like the lemmas after them up to the next section, these are steps
  // for the verifier: comparing a code against all 86 literals in one
  // proof is beyond it, so each fact is stated per group and combined.
  // ---------------------------------------------------------------------

  lemma LettersShape(code: string)
    ensures Letters(code) != 0 ==>
      KeyMap.Shape(code) == (4, 'K', 'y')
  {
  }

  lemma DigitsShape(code: string)
    ensures Digits(code) != 0 ==>
      KeyMap.Shape(code) == (6, 'D', 't')
  {
  }

  lemma ControlsShape(code: string)
    ensures Controls(code) != 0 ==>
      KeyMap.Shape(code) == (3, 'T', 'a')
      || KeyMap.Shape(code) == (5, 'E', 'e')
      || KeyMap.Shape(code) == (5, 'S', 'c')
      || KeyMap.Shape(code) == (6, 'E', 'p')
      || KeyMap.Shape(code) == (9, 'B', 'c')
  {
  }

  lemma SymbolsShape(code: string)
    ensures Symbols(code) != 0 ==>
      KeyMap.Shape(code) == (5, 'C', 'm')
      || KeyMap.Shape(code) == (5, 'E', 'a')
      || KeyMap.Shape(code) == (5, 'M', 'u')
      || KeyMap.Shape(code) == (5, 'Q', 't')
      || KeyMap.Shape(code) == (5, 'S', 's')
      || KeyMap.Shape(code) == (6, 'P', 'o')
      || KeyMap.Shape(code) == (9, 'B', 's')
      || KeyMap.Shape(code) == (9, 'B', 't')
      || KeyMap.Shape(code) == (9, 'S', 'o')
      || KeyMap.Shape(code) == (11, 'B', 'f')
      || KeyMap.Shape(code) == (12, 'B', 'h')
  {
  }

  lemma FunctionKeysShape(code: string)
    ensures FunctionKeys(code) != 0 ==>
      KeyMap.Shape(code) == (2, 'F', 'F')
      || KeyMap.Shape(code) == (3, 'F', '1')
      || KeyMap.Shape(code) == (8, 'C', 'c')
  {
  }

  lemma NavigationShape(code: string)
    ensures Navigation(code) != 0 ==>
      KeyMap.Shape(code) == (3, 'E', 'n')
      || KeyMap.Shape(code) == (4, 'H', 'm')
      || KeyMap.Shape(code) == (5, 'P', 's')
      || KeyMap.Shape(code) == (6, 'D', 't')
      || KeyMap.Shape(code) == (6, 'I', 'r')
      || KeyMap.Shape(code) == (6, 'P', 'U')
      || KeyMap.Shape(code) == (7, 'A', 'U')
      || KeyMap.Shape(code) == (8, 'P', 'w')
      || KeyMap.Shape(code) == (9, 'A', 'f')
      || KeyMap.Shape(code) == (9, 'A', 'w')
      || KeyMap.Shape(code) == (10, 'A', 'h')
      || KeyMap.Shape(code) == (10, 'S', 'c')
      || KeyMap.Shape(code) == (11, 'P', 'e')
  {
  }

  lemma ModifiersShape(code: string)
    ensures Modifiers(code) != 0 ==>
      KeyMap.Shape(code) == (7, 'A', 'f')
      || KeyMap.Shape(code) == (8, 'A', 'h')
      || KeyMap.Shape(code) == (8, 'M', 'f')
      || KeyMap.Shape(code) == (9, 'M', 'h')
      || KeyMap.Shape(code) == (9, 'S', 'f')
      || KeyMap.Shape(code) == (10, 'S', 'h')
      || KeyMap.Shape(code) == (11, 'C', 'f')
      || KeyMap.Shape(code) == (12, 'C', 'h')
  {
  }

  /** A code of the Letters group is looked up there. */
  lemma InLetters(code: string)
    ensures Letters(code) != 0 ==> MapCode(code) == Letters(code)
  {
    LettersShape(code);
  }

  /** A code of the Digits group is looked up there. */
  lemma InDigits(code: string)
    ensures Digits(code) != 0 ==> MapCode(code) == Digits(code)
  {
    LettersShape(code);
    DigitsShape(code);
  }

  /** A code of the Controls group is looked up there. */
  lemma InControls(code: string)
    ensures Controls(code) != 0 ==> MapCode(code) == Controls(code)
  {
    LettersShape(code);
    DigitsShape(code);
    ControlsShape(code);
  }

  /** A code of the Symbols group is looked up there. */
  lemma InSymbols(code: string)
    ensures Symbols(code) != 0 ==> MapCode(code) == Symbols(code)
  {
    LettersShape(code);
    DigitsShape(code);
    ControlsShape(code);
    SymbolsShape(code);
  }

  /** A code of the FunctionKeys group is looked up there. */
  lemma InFunctionKeys(code: string)
    ensures FunctionKeys(code) != 0 ==> MapCode(code) == FunctionKeys(code)
  {
    LettersShape(code);
    DigitsShape(code);
    ControlsShape(code);
    SymbolsShape(code);
    FunctionKeysShape(code);
  }

  /** A code of the Navigation group is looked up there. */
  lemma InNavigation(code: string)
    ensures Navigation(code) != 0 ==> MapCode(code) == Navigation(code)
  {
    LettersShape(code);
    DigitsShape(code);
    ControlsShape(code);
    SymbolsShape(code);
    FunctionKeysShape(code);
    NavigationShape(code);
  }

  /** A code of the Modifiers group is looked up there. */
  lemma InModifiers(code: string)
    ensures Modifiers(code) != 0 ==> MapCode(code) == Modifiers(code)
  {
    LettersShape(code);
    DigitsShape(code);
    ControlsShape(code);
    SymbolsShape(code);
    FunctionKeysShape(code);
    NavigationShape(code);
    ModifiersShape(code);
  }

  lemma Found(code: string)
    ensures MapCode(code) == Letters(code)
      || MapCode(code) == Digits(code)
      || MapCode(code) == Controls(code)
      || MapCode(code) == Symbols(code)
      || MapCode(code) == FunctionKeys(code)
      || MapCode(code) == Navigation(code)
      || MapCode(code) == Modifiers(code)
  {
  }

  lemma LettersListed(code: string)
    ensures Letters(code) != 0 <==> code in LettersCodes
  {
  }

  lemma LettersRange(code: string)
    ensures Letters(code) != 0 ==> 0x04 <= Letters(code) <= 0x1D
  {
  }

  lemma LettersInjective(a: string, b: string)
    ensures Letters(a) != 0 && Letters(a) == Letters(b) ==> a == b
  {
  }

  lemma DigitsListed(code: string)
    ensures Digits(code) != 0 <==> code in DigitsCodes
  {
  }

  lemma DigitsRange(code: string)
    ensures Digits(code) != 0 ==> 0x1E <= Digits(code) <= 0x27
  {
  }

  lemma DigitsInjective(a: string, b: string)
    ensures Digits(a) != 0 && Digits(a) == Digits(b) ==> a == b
  {
  }

  lemma ControlsListed(code: string)
    ensures Controls(code) != 0 <==> code in ControlsCodes
  {
  }

  lemma ControlsRange(code: string)
    ensures Controls(code) != 0 ==> 0x28 <= Controls(code) <= 0x2C
  {
  }

  lemma ControlsInjective(a: string, b: string)
    ensures Controls(a) != 0 && Controls(a) == Controls(b) ==> a == b
  {
  }

  lemma SymbolsListed(code: string)
    ensures Symbols(code) != 0 <==> code in SymbolsCodes
  {
  }

  lemma SymbolsRange(code: string)
    ensures Symbols(code) != 0 ==> 0x2D <= Symbols(code) <= 0x38
  {
  }

  lemma SymbolsInjective(a: string, b: string)
    ensures Symbols(a) != 0 && Symbols(a) == Symbols(b) ==> a == b
  {
  }

  lemma FunctionKeysListed(code: string)
    ensures FunctionKeys(code) != 0 <==> code in FunctionKeysCodes
  {
  }

  lemma FunctionKeysRange(code: string)
    ensures FunctionKeys(code) != 0 ==> 0x39 <= FunctionKeys(code) <= 0x45
  {
  }

  lemma FunctionKeysInjective(a: string, b: string)
    ensures FunctionKeys(a) != 0 && FunctionKeys(a) == FunctionKeys(b) ==> a == b
  {
  }

  lemma NavigationListed(code: string)
    ensures Navigation(code) != 0 <==> code in NavigationCodes
  {
  }

  lemma NavigationRange(code: string)
    ensures Navigation(code) != 0 ==> 0x46 <= Navigation(code) <= 0x52
  {
  }

  lemma NavigationInjective(a: string, b: string)
    ensures Navigation(a) != 0 && Navigation(a) == Navigation(b) ==> a == b
  {
  }

  lemma ModifiersListed(code: string)
    ensures Modifiers(code) != 0 <==> code in ModifiersCodes
  {
  }

  lemma ModifiersRange(code: string)
    ensures Modifiers(code) != 0 ==> 0xE0 <= Modifiers(code) <= 0xE7
  {
  }

  lemma ModifiersInjective(a: string, b: string)
    ensures Modifiers(a) != 0 && Modifiers(a) == Modifiers(b) ==> a == b
  {
  }

  // ---------------------------------------------------------------------
  // Properties of the table
  // ---------------------------------------------------------------------

  /** `map_code` gives a nonzero usage exactly for the codes in the table. */
  lemma Listed(code: string)
    ensures MapCode(code) != 0 <==> code in TableCodes
  {
    Found(code);
    LettersListed(code);
    DigitsListed(code);
    ControlsListed(code);
    SymbolsListed(code);
    FunctionKeysListed(code);
    NavigationListed(code);
    ModifiersListed(code);
    InLetters(code);
    InDigits(code);
    InControls(code);
    InSymbols(code);
    InFunctionKeys(code);
    InNavigation(code);
    InModifiers(code);
  }

  /** No two codes share a usage. */
  lemma Injective(a: string, b: string)
    ensures MapCode(a) != 0 && MapCode(a) == MapCode(b) ==> a == b
  {
    Found(a);
    Found(b);
    LettersRange(a);
    LettersRange(b);
    DigitsRange(a);
    DigitsRange(b);
    ControlsRange(a);
    ControlsRange(b);
    SymbolsRange(a);
    SymbolsRange(b);
    FunctionKeysRange(a);
    FunctionKeysRange(b);
    NavigationRange(a);
    NavigationRange(b);
    ModifiersRange(a);
    ModifiersRange(b);
    LettersInjective(a, b);
    DigitsInjective(a, b);
    ControlsInjective(a, b);
    SymbolsInjective(a, b);
    FunctionKeysInjective(a, b);
    NavigationInjective(a, b);
    ModifiersInjective(a, b);
  }

  // ---------------------------------------------------------------------
  // Usages in order. Each range is proved a chunk of indices at a time,
  // since evaluating one code literal against the table costs the
  // verifier as much as a whole chunk should.
  // ---------------------------------------------------------------------

  lemma LetterChunk0(i: nat)
    requires 0 <= i < 2
    ensures Letters(KeyMap.LetterCode(i)) == 0x04 + i
  {
    if i == 0 {
      assert KeyMap.LetterCode(0) == "KeyA";
    } else {
      assert KeyMap.LetterCode(1) == "KeyB";
    }
  }

  lemma LetterChunk1(i: nat)
    requires 2 <= i < 4
    ensures Letters(KeyMap.LetterCode(i)) == 0x04 + i
  {
    if i == 2 {
      assert KeyMap.LetterCode(2) == "KeyC";
    } else {
      assert KeyMap.LetterCode(3) == "KeyD";
    }
  }

  lemma LetterChunk2(i: nat)
    requires 4 <= i < 6
    ensures Letters(KeyMap.LetterCode(i)) == 0x04 + i
  {
    if i == 4 {
      assert KeyMap.LetterCode(4) == "KeyE";
    } else {
      assert KeyMap.LetterCode(5) == "KeyF";
    }
  }

  lemma LetterChunk3(i: nat)
    requires 6 <= i < 8
    ensures Letters(KeyMap.LetterCode(i)) == 0x04 + i
  {
    if i == 6 {
      assert KeyMap.LetterCode(6) == "KeyG";
    } else {
      assert KeyMap.LetterCode(7) == "KeyH";
    }
  }

  lemma LetterChunk4(i: nat)
    requires 8 <= i < 10
    ensures Letters(KeyMap.LetterCode(i)) == 0x04 + i
  {
    if i == 8 {
      assert KeyMap.LetterCode(8) == "KeyI";
    } else {
      assert KeyMap.LetterCode(9) == "KeyJ";
    }
  }

  lemma LetterChunk5(i: nat)
    requires 10 <= i < 12
    ensures Letters(KeyMap.LetterCode(i)) == 0x04 + i
  {
    if i == 10 {
      assert KeyMap.LetterCode(10) == "KeyK";
    } else {
      assert KeyMap.LetterCode(11) == "KeyL";
    }
  }

  lemma LetterChunk6(i: nat)
    requires 12 <= i < 14
    ensures Letters(KeyMap.LetterCode(i)) == 0x04 + i
  {
    if i == 12 {
      assert KeyMap.LetterCode(12) == "KeyM";
    } else {
      assert KeyMap.LetterCode(13) == "KeyN";
    }
  }

  lemma LetterChunk7(i: nat)
    requires 14 <= i < 16
    ensures Letters(KeyMap.LetterCode(i)) == 0x04 + i
  {
    if i == 14 {
      assert KeyMap.LetterCode(14) == "KeyO";
    } else {
      assert KeyMap.LetterCode(15) == "KeyP";
    }
  }

  lemma LetterChunk8(i: nat)
    requires 16 <= i < 18
    ensures Letters(KeyMap.LetterCode(i)) == 0x04 + i
  {
    if i == 16 {
      assert KeyMap.LetterCode(16) == "KeyQ";
    } else {
      assert KeyMap.LetterCode(17) == "KeyR";
    }
  }

  lemma LetterChunk9(i: nat)
    requires 18 <= i < 20
    ensures Letters(KeyMap.LetterCode(i)) == 0x04 + i
  {
    if i == 18 {
      assert KeyMap.LetterCode(18) == "KeyS";
    } else {
      assert KeyMap.LetterCode(19) == "KeyT";
    }
  }

  lemma LetterChunk10(i: nat)
    requires 20 <= i < 22
    ensures Letters(KeyMap.LetterCode(i)) == 0x04 + i
  {
    if i == 20 {
      assert KeyMap.LetterCode(20) == "KeyU";
    } else {
      assert KeyMap.LetterCode(21) == "KeyV";
    }
  }

  lemma LetterChunk11(i: nat)
    requires 22 <= i < 24
    ensures Letters(KeyMap.LetterCode(i)) == 0x04 + i
  {
    if i == 22 {
      assert KeyMap.LetterCode(22) == "KeyW";
    } else {
      assert KeyMap.LetterCode(23) == "KeyX";
    }
  }

  lemma LetterChunk12(i: nat)
    requires 24 <= i < 26
    ensures Letters(KeyMap.LetterCode(i)) == 0x04 + i
  {
    if i == 24 {
      assert KeyMap.LetterCode(24) == "KeyY";
    } else {
      assert KeyMap.LetterCode(25) == "KeyZ";
    }
  }

  /** "KeyA" .. "KeyZ" have the consecutive usages 0x04 .. 0x1D. */
  lemma LetterUsages(i: nat)
    requires 0 <= i < 26
    ensures MapCode(KeyMap.LetterCode(i)) == 0x04 + i
  {
    InLetters(KeyMap.LetterCode(i));
    if i < 2 {
      LetterChunk0(i);
    } else if i < 4 {
      LetterChunk1(i);
    } else if i < 6 {
      LetterChunk2(i);
    } else if i < 8 {
      LetterChunk3(i);
    } else if i < 10 {
      LetterChunk4(i);
    } else if i < 12 {
      LetterChunk5(i);
    } else if i < 14 {
      LetterChunk6(i);
    } else if i < 16 {
      LetterChunk7(i);
    } else if i < 18 {
      LetterChunk8(i);
    } else if i < 20 {
      LetterChunk9(i);
    } else if i < 22 {
      LetterChunk10(i);
    } else if i < 24 {
      LetterChunk11(i);
    } else {
      LetterChunk12(i);
    }
  }

  lemma DigitChunk0(i: nat)
    requires 0 <= i < 2
    ensures Digits(KeyMap.DigitCode(i)) == if i == 0 then 0x27 else 0x1D + i
  {
    if i == 0 {
      assert KeyMap.DigitCode(0) == "Digit0";
    } else {
      assert KeyMap.DigitCode(1) == "Digit1";
    }
  }

  lemma DigitChunk1(i: nat)
    requires 2 <= i < 4
    ensures Digits(KeyMap.DigitCode(i)) == if i == 0 then 0x27 else 0x1D + i
  {
    if i == 2 {
      assert KeyMap.DigitCode(2) == "Digit2";
    } else {
      assert KeyMap.DigitCode(3) == "Digit3";
    }
  }

  lemma DigitChunk2(i: nat)
    requires 4 <= i < 6
    ensures Digits(KeyMap.DigitCode(i)) == if i == 0 then 0x27 else 0x1D + i
  {
    if i == 4 {
      assert KeyMap.DigitCode(4) == "Digit4";
    } else {
      assert KeyMap.DigitCode(5) == "Digit5";
    }
  }

  lemma DigitChunk3(i: nat)
    requires 6 <= i < 8
    ensures Digits(KeyMap.DigitCode(i)) == if i == 0 then 0x27 else 0x1D + i
  {
    if i == 6 {
      assert KeyMap.DigitCode(6) == "Digit6";
    } else {
      assert KeyMap.DigitCode(7) == "Digit7";
    }
  }

  lemma DigitChunk4(i: nat)
    requires 8 <= i < 10
    ensures Digits(KeyMap.DigitCode(i)) == if i == 0 then 0x27 else 0x1D + i
  {
    if i == 8 {
      assert KeyMap.DigitCode(8) == "Digit8";
    } else {
      assert KeyMap.DigitCode(9) == "Digit9";
    }
  }

  /** "Digit1" .. "Digit9" have the consecutive usages 0x1E .. 0x26, and
      "Digit0" follows them at 0x27. */
  lemma DigitUsages(i: nat)
    requires 0 <= i < 10
    ensures MapCode(KeyMap.DigitCode(i)) == if i == 0 then 0x27 else 0x1D + i
  {
    InDigits(KeyMap.DigitCode(i));
    if i < 2 {
      DigitChunk0(i);
    } else if i < 4 {
      DigitChunk1(i);
    } else if i < 6 {
      DigitChunk2(i);
    } else if i < 8 {
      DigitChunk3(i);
    } else {
      DigitChunk4(i);
    }
  }

  lemma FunctionKeyChunk0(i: nat)
    requires 1 <= i < 3
    ensures FunctionKeys(KeyMap.FunctionKeyCode(i)) == 0x39 + i
  {
    if i == 1 {
      assert KeyMap.FunctionKeyCode(1) == "F1";
    } else {
      assert KeyMap.FunctionKeyCode(2) == "F2";
    }
  }

  lemma FunctionKeyChunk1(i: nat)
    requires 3 <= i < 5
    ensures FunctionKeys(KeyMap.FunctionKeyCode(i)) == 0x39 + i
  {
    if i == 3 {
      assert KeyMap.FunctionKeyCode(3) == "F3";
    } else {
      assert KeyMap.FunctionKeyCode(4) == "F4";
    }
  }

  lemma FunctionKeyChunk2(i: nat)
    requires 5 <= i < 7
    ensures FunctionKeys(KeyMap.FunctionKeyCode(i)) == 0x39 + i
  {
    if i == 5 {
      assert KeyMap.FunctionKeyCode(5) == "F5";
    } else {
      assert KeyMap.FunctionKeyCode(6) == "F6";
    }
  }

  lemma FunctionKeyChunk3(i: nat)
    requires 7 <= i < 9
    ensures FunctionKeys(KeyMap.FunctionKeyCode(i)) == 0x39 + i
  {
    if i == 7 {
      assert KeyMap.FunctionKeyCode(7) == "F7";
    } else {
      assert KeyMap.FunctionKeyCode(8) == "F8";
    }
  }

  lemma FunctionKeyChunk4(i: nat)
    requires 9 <= i < 11
    ensures FunctionKeys(KeyMap.FunctionKeyCode(i)) == 0x39 + i
  {
    if i == 9 {
      assert KeyMap.FunctionKeyCode(9) == "F9";
    } else {
      assert KeyMap.FunctionKeyCode(10) == "F10";
    }
  }

  lemma FunctionKeyChunk5(i: nat)
    requires 11 <= i < 13
    ensures FunctionKeys(KeyMap.FunctionKeyCode(i)) == 0x39 + i
  {
    if i == 11 {
      assert KeyMap.FunctionKeyCode(11) == "F11";
    } else {
      assert KeyMap.FunctionKeyCode(12) == "F12";
    }
  }

  /** "F1" .. "F12" have the consecutive usages 0x3A .. 0x45; the table
      holds no code for F13 and above. */
  lemma FunctionKeyUsages(i: nat)
    requires 1 <= i < 13
    ensures MapCode(KeyMap.FunctionKeyCode(i)) == 0x39 + i
  {
    InFunctionKeys(KeyMap.FunctionKeyCode(i));
    if i < 3 {
      FunctionKeyChunk0(i);
    } else if i < 5 {
      FunctionKeyChunk1(i);
    } else if i < 7 {
      FunctionKeyChunk2(i);
    } else if i < 9 {
      FunctionKeyChunk3(i);
    } else if i < 11 {
      FunctionKeyChunk4(i);
    } else {
      FunctionKeyChunk5(i);
    }
  }

  lemma LettersWithinKeyMap(code: string)
    requires code in LettersCodes
    ensures code in KeyMap.LettersCodes
  {
  }

  lemma DigitsWithinKeyMap(code: string)
    requires code in DigitsCodes
    ensures code in KeyMap.DigitsCodes
  {
  }

  lemma ControlsWithinKeyMap(code: string)
    requires code in ControlsCodes
    ensures code in KeyMap.EditingCodes || code in KeyMap.SymbolsCodes
  {
  }

  lemma SymbolsWithinKeyMap(code: string)
    requires code in SymbolsCodes
    ensures code in KeyMap.SymbolsCodes
  {
  }

  lemma FunctionKeysWithinKeyMap(code: string)
    requires code in FunctionKeysCodes
    ensures code in KeyMap.EditingCodes || code in KeyMap.FunctionKeysCodes
  {
  }

  lemma NavigationWithinKeyMap(code: string)
    requires code in NavigationCodes
    ensures code in KeyMap.LocksCodes || code in KeyMap.NavigationCodes
  {
  }

  lemma ModifiersWithinKeyMap(code: string)
    requires code in ModifiersCodes
    ensures code in KeyMap.ModifiersCodes
  {
  }


  lemma LettersInKeyMap(code: string)
    requires Letters(code) != 0
    ensures KeyMap.MapCodeToKey(code) != KeyMap.Keys.None
  {
    LettersListed(code);
    LettersWithinKeyMap(code);
    KeyMap.LettersListed(code);
    KeyMap.InLetters(code);
  }

  lemma DigitsInKeyMap(code: string)
    requires Digits(code) != 0
    ensures KeyMap.MapCodeToKey(code) != KeyMap.Keys.None
  {
    DigitsListed(code);
    DigitsWithinKeyMap(code);
    KeyMap.DigitsListed(code);
    KeyMap.InDigits(code);
  }

  lemma ControlsInKeyMap(code: string)
    requires Controls(code) != 0
    ensures KeyMap.MapCodeToKey(code) != KeyMap.Keys.None
  {
    ControlsListed(code);
    ControlsWithinKeyMap(code);
    KeyMap.EditingListed(code);
    KeyMap.InEditing(code);
    KeyMap.SymbolsListed(code);
    KeyMap.InSymbols(code);
  }

  lemma SymbolsInKeyMap(code: string)
    requires Symbols(code) != 0
    ensures KeyMap.MapCodeToKey(code) != KeyMap.Keys.None
  {
    SymbolsListed(code);
    SymbolsWithinKeyMap(code);
    KeyMap.SymbolsListed(code);
    KeyMap.InSymbols(code);
  }

  lemma FunctionKeysInKeyMap(code: string)
    requires FunctionKeys(code) != 0
    ensures KeyMap.MapCodeToKey(code) != KeyMap.Keys.None
  {
    FunctionKeysListed(code);
    FunctionKeysWithinKeyMap(code);
    KeyMap.EditingListed(code);
    KeyMap.InEditing(code);
    KeyMap.FunctionKeysListed(code);
    KeyMap.InFunctionKeys(code);
  }

  lemma NavigationInKeyMap(code: string)
    requires Navigation(code) != 0
    ensures KeyMap.MapCodeToKey(code) != KeyMap.Keys.None
  {
    NavigationListed(code);
    NavigationWithinKeyMap(code);
    KeyMap.LocksListed(code);
    KeyMap.InLocks(code);
    KeyMap.NavigationListed(code);
    KeyMap.InNavigation(code);
  }

  lemma ModifiersInKeyMap(code: string)
    requires Modifiers(code) != 0
    ensures KeyMap.MapCodeToKey(code) != KeyMap.Keys.None
  {
    ModifiersListed(code);
    ModifiersWithinKeyMap(code);
    KeyMap.ModifiersListed(code);
    KeyMap.InModifiers(code);
  }

  /** The numpad digits are in the C# table and not in this one. */
  lemma NumpadOnlyInKeyMap(code: string)
    requires code in KeyMap.NumpadDigitsCodes
    ensures MapCode(code) == 0 && KeyMap.MapCodeToKey(code) != KeyMap.Keys.None
  {
    assert KeyMap.Shape(code) == (7, 'N', 'd');
    Found(code);
    LettersShape(code);
    DigitsShape(code);
    ControlsShape(code);
    SymbolsShape(code);
    FunctionKeysShape(code);
    NavigationShape(code);
    ModifiersShape(code);
    KeyMap.NumpadDigitsListed(code);
    KeyMap.InNumpadDigits(code);
  }

  /** Every code the C++ table holds is also one the C# table maps to a key
      (but not conversely: the C# table also knows the numpad, for one). */
  lemma TableWithinKeyMap(code: string)
    ensures MapCode(code) != 0 ==> KeyMap.MapCodeToKey(code) != KeyMap.Keys.None
  {
    if MapCode(code) != 0 {
      Found(code);
      if Letters(code) != 0 {
        LettersInKeyMap(code);
      } else if Digits(code) != 0 {
        DigitsInKeyMap(code);
      } else if Controls(code) != 0 {
        ControlsInKeyMap(code);
      } else if Symbols(code) != 0 {
        SymbolsInKeyMap(code);
      } else if FunctionKeys(code) != 0 {
        FunctionKeysInKeyMap(code);
      } else if Navigation(code) != 0 {
        NavigationInKeyMap(code);
      } else if Modifiers(code) != 0 {
        ModifiersInKeyMap(code);
      }
    }
  }
}
