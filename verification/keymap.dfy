/**
  The C# injector's table from DOM `KeyboardEvent.code` strings to the
  Windows Forms `Keys` value it presses (`KeyMap.MapCodeToKey`).

  Only the identity of each `Keys` member matters here, not its numeric
  value. The C# switch lists the codes group by group; no code appears twice
  (the C# compiler rejects a repeated case label), so testing the groups one
  after another, as MapCodeToKey does, picks the same arm as the switch.
 */
module KeyMap {
  import Utf8

  datatype Keys =
    | None
    | A | B | C | D | E | F | G | H | I | J
    | K | L | M | N | O | P | Q | R | S | T
    | U | V | W | X | Y | Z | D0 | D1 | D2 | D3
    | D4 | D5 | D6 | D7 | D8 | D9 | F1 | F2 | F3 | F4
    | F5 | F6 | F7 | F8 | F9 | F10 | F11 | F12 | F13 | F14
    | F15 | F16 | F17 | F18 | F19 | F20 | F21 | F22 | F23 | F24
    | LShiftKey | RShiftKey | LControlKey | RControlKey | LMenu | RMenu | LWin | RWin | Up | Down
    | Left | Right | Home | End | PageUp | PageDown | Insert | Delete | Back | Tab
    | Enter | Escape | CapsLock | Space | OemMinus | Oemplus | OemOpenBrackets | Oem6 | Oem5 | Oem1
    | Oem7 | Oem3 | Oemcomma | OemPeriod | OemQuestion | NumPad0 | NumPad1 | NumPad2 | NumPad3 | NumPad4
    | NumPad5 | NumPad6 | NumPad7 | NumPad8 | NumPad9 | Add | Subtract | Multiply | Divide | Decimal
    | NumLock | Scroll | PrintScreen | Pause

  /** Letters. */
  function Letters(code: string): Keys
  {
    match code
    case "KeyA" => Keys.A
    case "KeyB" => Keys.B
    case "KeyC" => Keys.C
    case "KeyD" => Keys.D
    case "KeyE" => Keys.E
    case "KeyF" => Keys.F
    case "KeyG" => Keys.G
    case "KeyH" => Keys.H
    case "KeyI" => Keys.I
    case "KeyJ" => Keys.J
    case "KeyK" => Keys.K
    case "KeyL" => Keys.L
    case "KeyM" => Keys.M
    case "KeyN" => Keys.N
    case "KeyO" => Keys.O
    case "KeyP" => Keys.P
    case "KeyQ" => Keys.Q
    case "KeyR" => Keys.R
    case "KeyS" => Keys.S
    case "KeyT" => Keys.T
    case "KeyU" => Keys.U
    case "KeyV" => Keys.V
    case "KeyW" => Keys.W
    case "KeyX" => Keys.X
    case "KeyY" => Keys.Y
    case "KeyZ" => Keys.Z
    case _ => Keys.None
  }

  /** Top-row digits. */
  function Digits(code: string): Keys
  {
    match code
    case "Digit0" => Keys.D0
    case "Digit1" => Keys.D1
    case "Digit2" => Keys.D2
    case "Digit3" => Keys.D3
    case "Digit4" => Keys.D4
    case "Digit5" => Keys.D5
    case "Digit6" => Keys.D6
    case "Digit7" => Keys.D7
    case "Digit8" => Keys.D8
    case "Digit9" => Keys.D9
    case _ => Keys.None
  }

  /** Function keys. */
  function FunctionKeys(code: string): Keys
  {
    match code
    case "F1" => Keys.F1
    case "F2" => Keys.F2
    case "F3" => Keys.F3
    case "F4" => Keys.F4
    case "F5" => Keys.F5
    case "F6" => Keys.F6
    case "F7" => Keys.F7
    case "F8" => Keys.F8
    case "F9" => Keys.F9
    case "F10" => Keys.F10
    case "F11" => Keys.F11
    case "F12" => Keys.F12
    case "F13" => Keys.F13
    case "F14" => Keys.F14
    case "F15" => Keys.F15
    case "F16" => Keys.F16
    case "F17" => Keys.F17
    case "F18" => Keys.F18
    case "F19" => Keys.F19
    case "F20" => Keys.F20
    case "F21" => Keys.F21
    case "F22" => Keys.F22
    case "F23" => Keys.F23
    case "F24" => Keys.F24
    case _ => Keys.None
  }

  /** Modifiers. */
  function Modifiers(code: string): Keys
  {
    match code
    case "ShiftLeft" => Keys.LShiftKey
    case "ShiftRight" => Keys.RShiftKey
    case "ControlLeft" => Keys.LControlKey
    case "ControlRight" => Keys.RControlKey
    case "AltLeft" => Keys.LMenu
    case "AltRight" => Keys.RMenu
    case "MetaLeft" => Keys.LWin
    case "MetaRight" => Keys.RWin
    case _ => Keys.None
  }

  /** Navigation. */
  function Navigation(code: string): Keys
  {
    match code
    case "ArrowUp" => Keys.Up
    case "ArrowDown" => Keys.Down
    case "ArrowLeft" => Keys.Left
    case "ArrowRight" => Keys.Right
    case "Home" => Keys.Home
    case "End" => Keys.End
    case "PageUp" => Keys.PageUp
    case "PageDown" => Keys.PageDown
    case "Insert" => Keys.Insert
    case "Delete" => Keys.Delete
    case _ => Keys.None
  }

  /** Editing. */
  function Editing(code: string): Keys
  {
    match code
    case "Backspace" => Keys.Back
    case "Tab" => Keys.Tab
    case "Enter" => Keys.Enter
    case "Escape" => Keys.Escape
    case "CapsLock" => Keys.CapsLock
    case _ => Keys.None
  }

  /** Symbols (US OEM). */
  function Symbols(code: string): Keys
  {
    match code
    case "Space" => Keys.Space
    case "Minus" => Keys.OemMinus
    case "Equal" => Keys.Oemplus
    case "BracketLeft" => Keys.OemOpenBrackets
    case "BracketRight" => Keys.Oem6
    case "Backslash" => Keys.Oem5
    case "Semicolon" => Keys.Oem1
    case "Quote" => Keys.Oem7
    case "Backquote" => Keys.Oem3
    case "Comma" => Keys.Oemcomma
    case "Period" => Keys.OemPeriod
    case "Slash" => Keys.OemQuestion
    case _ => Keys.None
  }

  /** Numpad digits. */
  function NumpadDigits(code: string): Keys
  {
    match code
    case "Numpad0" => Keys.NumPad0
    case "Numpad1" => Keys.NumPad1
    case "Numpad2" => Keys.NumPad2
    case "Numpad3" => Keys.NumPad3
    case "Numpad4" => Keys.NumPad4
    case "Numpad5" => Keys.NumPad5
    case "Numpad6" => Keys.NumPad6
    case "Numpad7" => Keys.NumPad7
    case "Numpad8" => Keys.NumPad8
    case "Numpad9" => Keys.NumPad9
    case _ => Keys.None
  }

  /** Numpad operators. */
  function NumpadOperators(code: string): Keys
  {
    match code
    case "NumpadAdd" => Keys.Add
    case "NumpadSubtract" => Keys.Subtract
    case "NumpadMultiply" => Keys.Multiply
    case "NumpadDivide" => Keys.Divide
    case "NumpadDecimal" => Keys.Decimal
    case "NumpadEnter" => Keys.Enter
    case _ => Keys.None
  }

  /** Locks & misc. */
  function Locks(code: string): Keys
  {
    match code
    case "NumLock" => Keys.NumLock
    case "ScrollLock" => Keys.Scroll
    case "PrintScreen" => Keys.PrintScreen
    case "Pause" => Keys.Pause
    case _ => Keys.None
  }

  /** International. */
  function International(code: string): Keys
  {
    match code
    case "IntlBackslash" => Keys.Oem5
    case "IntlRo" => Keys.None
    case "IntlYen" => Keys.None
    case "KanaMode" => Keys.None
    case "NonConvert" => Keys.None
    case "Convert" => Keys.None
    case "HangulMode" => Keys.None
    case "Hanja" => Keys.None
    case _ => Keys.None
  }

  /** `KeyMap.MapCodeToKey`: the key a code presses, or `Keys.None` for a
      code the table does not know or lists as unmapped. */
  function MapCodeToKey(code: string): (k: Keys)
  {
    if Letters(code) != Keys.None then Letters(code) else
    if Digits(code) != Keys.None then Digits(code) else
    if FunctionKeys(code) != Keys.None then FunctionKeys(code) else
    if Modifiers(code) != Keys.None then Modifiers(code) else
    if Navigation(code) != Keys.None then Navigation(code) else
    if Editing(code) != Keys.None then Editing(code) else
    if Symbols(code) != Keys.None then Symbols(code) else
    if NumpadDigits(code) != Keys.None then NumpadDigits(code) else
    if NumpadOperators(code) != Keys.None then NumpadOperators(code) else
    if Locks(code) != Keys.None then Locks(code) else
    International(code)
  }

  // The codes each group maps to a key.
  const LettersCodes: set<string> := {
    "KeyA", "KeyB", "KeyC", "KeyD", "KeyE", "KeyF", "KeyG", "KeyH", "KeyI",
    "KeyJ", "KeyK", "KeyL", "KeyM", "KeyN", "KeyO", "KeyP", "KeyQ", "KeyR",
    "KeyS", "KeyT", "KeyU", "KeyV", "KeyW", "KeyX", "KeyY", "KeyZ"
  }
  const DigitsCodes: set<string> := {
    "Digit0", "Digit1", "Digit2", "Digit3", "Digit4", "Digit5", "Digit6",
    "Digit7", "Digit8", "Digit9"
  }
  const FunctionKeysCodes: set<string> := {
    "F1", "F2", "F3", "F4", "F5", "F6", "F7", "F8", "F9", "F10", "F11",
    "F12", "F13", "F14", "F15", "F16", "F17", "F18", "F19", "F20", "F21",
    "F22", "F23", "F24"
  }
  const ModifiersCodes: set<string> := {
    "ShiftLeft", "ShiftRight", "ControlLeft", "ControlRight", "AltLeft",
    "AltRight", "MetaLeft", "MetaRight"
  }
  const NavigationCodes: set<string> := {
    "ArrowUp", "ArrowDown", "ArrowLeft", "ArrowRight", "Home", "End",
    "PageUp", "PageDown", "Insert", "Delete"
  }
  const EditingCodes: set<string> := {"Backspace", "Tab", "Enter", "Escape", "CapsLock"}
  const SymbolsCodes: set<string> := {
    "Space", "Minus", "Equal", "BracketLeft", "BracketRight", "Backslash",
    "Semicolon", "Quote", "Backquote", "Comma", "Period", "Slash"
  }
  const NumpadDigitsCodes: set<string> := {
    "Numpad0", "Numpad1", "Numpad2", "Numpad3", "Numpad4", "Numpad5",
    "Numpad6", "Numpad7", "Numpad8", "Numpad9"
  }
  const NumpadOperatorsCodes: set<string> := {
    "NumpadAdd", "NumpadSubtract", "NumpadMultiply", "NumpadDivide",
    "NumpadDecimal", "NumpadEnter"
  }
  const LocksCodes: set<string> := {"NumLock", "ScrollLock", "PrintScreen", "Pause"}
  const InternationalCodes: set<string> := {"IntlBackslash"}

  /** Every code the table maps to a key. */
  const MappedCodes: set<string> :=
    LettersCodes
    + DigitsCodes
    + FunctionKeysCodes
    + ModifiersCodes
    + NavigationCodes
    + EditingCodes
    + SymbolsCodes
    + NumpadDigitsCodes
    + NumpadOperatorsCodes
    + LocksCodes
    + InternationalCodes

  // ---------------------------------------------------------------------
  // Which group a code can belong to. Shape is a cheap fingerprint of a
  // code (its length, first and second-to-last character) that tells the
  // groups apart without comparing the code against the whole table.
  // Like the lemmas after them up to the next section, these are steps
  // for the verifier: comparing a code against all 123 literals in one
  // proof is beyond it, so each fact is stated per group and combined.
  // ---------------------------------------------------------------------

  function Shape(code: string): (int, char, char)
  {
    if |code| < 2 then (|code|, ' ', ' ') else (|code|, code[0], code[|code| - 2])
  }

  lemma LettersShape(code: string)
    ensures Letters(code) != Keys.None ==>
      Shape(code) == (4, 'K', 'y')
  {
  }

  lemma DigitsShape(code: string)
    ensures Digits(code) != Keys.None ==>
      Shape(code) == (6, 'D', 't')
  {
  }

  lemma FunctionKeysShape(code: string)
    ensures FunctionKeys(code) != Keys.None ==>
      Shape(code) == (2, 'F', 'F') || Shape(code) == (3, 'F', '1') || Shape(code) == (3, 'F', '2')
  {
  }

  lemma ModifiersShape(code: string)
    ensures Modifiers(code) != Keys.None ==>
      Shape(code) == (7, 'A', 'f')
      || Shape(code) == (8, 'A', 'h')
      || Shape(code) == (8, 'M', 'f')
      || Shape(code) == (9, 'M', 'h')
      || Shape(code) == (9, 'S', 'f')
      || Shape(code) == (10, 'S', 'h')
      || Shape(code) == (11, 'C', 'f')
      || Shape(code) == (12, 'C', 'h')
  {
  }

  lemma NavigationShape(code: string)
    ensures Navigation(code) != Keys.None ==>
      Shape(code) == (3, 'E', 'n')
      || Shape(code) == (4, 'H', 'm')
      || Shape(code) == (6, 'D', 't')
      || Shape(code) == (6, 'I', 'r')
      || Shape(code) == (6, 'P', 'U')
      || Shape(code) == (7, 'A', 'U')
      || Shape(code) == (8, 'P', 'w')
      || Shape(code) == (9, 'A', 'f')
      || Shape(code) == (9, 'A', 'w')
      || Shape(code) == (10, 'A', 'h')
  {
  }

  lemma EditingShape(code: string)
    ensures Editing(code) != Keys.None ==>
      Shape(code) == (3, 'T', 'a')
      || Shape(code) == (5, 'E', 'e')
      || Shape(code) == (6, 'E', 'p')
      || Shape(code) == (8, 'C', 'c')
      || Shape(code) == (9, 'B', 'c')
  {
  }

  lemma SymbolsShape(code: string)
    ensures Symbols(code) != Keys.None ==>
      Shape(code) == (5, 'C', 'm')
      || Shape(code) == (5, 'E', 'a')
      || Shape(code) == (5, 'M', 'u')
      || Shape(code) == (5, 'Q', 't')
      || Shape(code) == (5, 'S', 'c')
      || Shape(code) == (5, 'S', 's')
      || Shape(code) == (6, 'P', 'o')
      || Shape(code) == (9, 'B', 's')
      || Shape(code) == (9, 'B', 't')
      || Shape(code) == (9, 'S', 'o')
      || Shape(code) == (11, 'B', 'f')
      || Shape(code) == (12, 'B', 'h')
  {
  }

  lemma NumpadDigitsShape(code: string)
    ensures NumpadDigits(code) != Keys.None ==>
      Shape(code) == (7, 'N', 'd')
  {
  }

  lemma NumpadOperatorsShape(code: string)
    ensures NumpadOperators(code) != Keys.None ==>
      (|code| == 9 || 11 <= |code| <= 14) && code[0] == 'N'
  {
  }

  lemma LocksShape(code: string)
    ensures Locks(code) != Keys.None ==>
      Shape(code) == (5, 'P', 's')
      || Shape(code) == (7, 'N', 'c')
      || Shape(code) == (10, 'S', 'c')
      || Shape(code) == (11, 'P', 'e')
  {
  }

  lemma InternationalShape(code: string)
    ensures International(code) != Keys.None ==>
      Shape(code) == (5, 'H', 'j')
      || Shape(code) == (6, 'I', 'R')
      || Shape(code) == (7, 'C', 'r')
      || Shape(code) == (7, 'I', 'e')
      || Shape(code) == (8, 'K', 'd')
      || Shape(code) == (10, 'H', 'd')
      || Shape(code) == (10, 'N', 'r')
      || Shape(code) == (13, 'I', 's')
  {
  }

  /** A code of the Letters group is looked up there. */
  lemma InLetters(code: string)
    ensures Letters(code) != Keys.None ==> MapCodeToKey(code) == Letters(code)
  {
    LettersShape(code);
  }

  /** A code of the Digits group is looked up there. */
  lemma InDigits(code: string)
    ensures Digits(code) != Keys.None ==> MapCodeToKey(code) == Digits(code)
  {
    LettersShape(code);
    DigitsShape(code);
  }

  /** A code of the FunctionKeys group is looked up there. */
  lemma InFunctionKeys(code: string)
    ensures FunctionKeys(code) != Keys.None ==> MapCodeToKey(code) == FunctionKeys(code)
  {
    LettersShape(code);
    DigitsShape(code);
    FunctionKeysShape(code);
  }

  /** A code of the Modifiers group is looked up there. */
  lemma InModifiers(code: string)
    ensures Modifiers(code) != Keys.None ==> MapCodeToKey(code) == Modifiers(code)
  {
    LettersShape(code);
    DigitsShape(code);
    FunctionKeysShape(code);
    ModifiersShape(code);
  }

  /** A code of the Navigation group is looked up there. */
  lemma InNavigation(code: string)
    ensures Navigation(code) != Keys.None ==> MapCodeToKey(code) == Navigation(code)
  {
    LettersShape(code);
    DigitsShape(code);
    FunctionKeysShape(code);
    ModifiersShape(code);
    NavigationShape(code);
  }

  /** A code of the Editing group is looked up there. */
  lemma InEditing(code: string)
    ensures Editing(code) != Keys.None ==> MapCodeToKey(code) == Editing(code)
  {
    LettersShape(code);
    DigitsShape(code);
    FunctionKeysShape(code);
    ModifiersShape(code);
    NavigationShape(code);
    EditingShape(code);
  }

  /** A code of the Symbols group is looked up there. */
  lemma InSymbols(code: string)
    ensures Symbols(code) != Keys.None ==> MapCodeToKey(code) == Symbols(code)
  {
    LettersShape(code);
    DigitsShape(code);
    FunctionKeysShape(code);
    ModifiersShape(code);
    NavigationShape(code);
    EditingShape(code);
    SymbolsShape(code);
  }

  /** A code of the NumpadDigits group is looked up there. */
  lemma InNumpadDigits(code: string)
    ensures NumpadDigits(code) != Keys.None ==> MapCodeToKey(code) == NumpadDigits(code)
  {
    LettersShape(code);
    DigitsShape(code);
    FunctionKeysShape(code);
    ModifiersShape(code);
    NavigationShape(code);
    EditingShape(code);
    SymbolsShape(code);
    NumpadDigitsShape(code);
  }

  /** A code of the NumpadOperators group is looked up there. */
  lemma InNumpadOperators(code: string)
    ensures NumpadOperators(code) != Keys.None ==> MapCodeToKey(code) == NumpadOperators(code)
  {
    LettersShape(code);
    DigitsShape(code);
    FunctionKeysShape(code);
    ModifiersShape(code);
    NavigationShape(code);
    EditingShape(code);
    SymbolsShape(code);
    NumpadDigitsShape(code);
    NumpadOperatorsShape(code);
  }

  /** A code of the Locks group is looked up there. */
  lemma InLocks(code: string)
    ensures Locks(code) != Keys.None ==> MapCodeToKey(code) == Locks(code)
  {
    LettersShape(code);
    DigitsShape(code);
    FunctionKeysShape(code);
    ModifiersShape(code);
    NavigationShape(code);
    EditingShape(code);
    SymbolsShape(code);
    NumpadDigitsShape(code);
    NumpadOperatorsShape(code);
    LocksShape(code);
  }

  /** A code of the International group is looked up there. */
  lemma InInternational(code: string)
    ensures International(code) != Keys.None ==> MapCodeToKey(code) == International(code)
  {
    LettersShape(code);
    DigitsShape(code);
    FunctionKeysShape(code);
    ModifiersShape(code);
    NavigationShape(code);
    EditingShape(code);
    SymbolsShape(code);
    NumpadDigitsShape(code);
    NumpadOperatorsShape(code);
    LocksShape(code);
    InternationalShape(code);
  }

  lemma Found(code: string)
    ensures MapCodeToKey(code) == Letters(code)
      || MapCodeToKey(code) == Digits(code)
      || MapCodeToKey(code) == FunctionKeys(code)
      || MapCodeToKey(code) == Modifiers(code)
      || MapCodeToKey(code) == Navigation(code)
      || MapCodeToKey(code) == Editing(code)
      || MapCodeToKey(code) == Symbols(code)
      || MapCodeToKey(code) == NumpadDigits(code)
      || MapCodeToKey(code) == NumpadOperators(code)
      || MapCodeToKey(code) == Locks(code)
      || MapCodeToKey(code) == International(code)
  {
  }

  lemma LettersListed(code: string)
    ensures Letters(code) != Keys.None <==> code in LettersCodes
  {
  }

  lemma LettersAscii()
    ensures forall code :: code in LettersCodes ==> Utf8.IsAscii(code)
  {
  }

  lemma DigitsListed(code: string)
    ensures Digits(code) != Keys.None <==> code in DigitsCodes
  {
  }

  lemma DigitsAscii()
    ensures forall code :: code in DigitsCodes ==> Utf8.IsAscii(code)
  {
  }

  lemma FunctionKeysListed(code: string)
    ensures FunctionKeys(code) != Keys.None <==> code in FunctionKeysCodes
  {
  }

  lemma FunctionKeysAscii()
    ensures forall code :: code in FunctionKeysCodes ==> Utf8.IsAscii(code)
  {
  }

  lemma ModifiersListed(code: string)
    ensures Modifiers(code) != Keys.None <==> code in ModifiersCodes
  {
  }

  lemma ModifiersAscii()
    ensures forall code :: code in ModifiersCodes ==> Utf8.IsAscii(code)
  {
  }

  lemma NavigationListed(code: string)
    ensures Navigation(code) != Keys.None <==> code in NavigationCodes
  {
  }

  lemma NavigationAscii()
    ensures forall code :: code in NavigationCodes ==> Utf8.IsAscii(code)
  {
  }

  lemma EditingListed(code: string)
    ensures Editing(code) != Keys.None <==> code in EditingCodes
  {
  }

  lemma EditingAscii()
    ensures forall code :: code in EditingCodes ==> Utf8.IsAscii(code)
  {
  }

  lemma SymbolsListed(code: string)
    ensures Symbols(code) != Keys.None <==> code in SymbolsCodes
  {
  }

  lemma SymbolsAscii()
    ensures forall code :: code in SymbolsCodes ==> Utf8.IsAscii(code)
  {
  }

  lemma NumpadDigitsListed(code: string)
    ensures NumpadDigits(code) != Keys.None <==> code in NumpadDigitsCodes
  {
  }

  lemma NumpadDigitsAscii()
    ensures forall code :: code in NumpadDigitsCodes ==> Utf8.IsAscii(code)
  {
  }

  lemma NumpadOperatorsListed(code: string)
    ensures NumpadOperators(code) != Keys.None <==> code in NumpadOperatorsCodes
  {
  }

  lemma NumpadOperatorsAscii()
    ensures forall code :: code in NumpadOperatorsCodes ==> Utf8.IsAscii(code)
  {
  }

  lemma LocksListed(code: string)
    ensures Locks(code) != Keys.None <==> code in LocksCodes
  {
  }

  lemma LocksAscii()
    ensures forall code :: code in LocksCodes ==> Utf8.IsAscii(code)
  {
  }

  lemma InternationalListed(code: string)
    ensures International(code) != Keys.None <==> code in InternationalCodes
  {
  }

  lemma InternationalAscii()
    ensures forall code :: code in InternationalCodes ==> Utf8.IsAscii(code)
  {
  }

  // ---------------------------------------------------------------------
  // Properties of the table
  // ---------------------------------------------------------------------

  /** A code presses a key exactly when the table maps it: any other code,
      the default arm of the switch, presses nothing. */
  lemma Listed(code: string)
    ensures MapCodeToKey(code) != Keys.None <==> code in MappedCodes
  {
    Found(code);
    LettersListed(code);
    DigitsListed(code);
    FunctionKeysListed(code);
    ModifiersListed(code);
    NavigationListed(code);
    EditingListed(code);
    SymbolsListed(code);
    NumpadDigitsListed(code);
    NumpadOperatorsListed(code);
    LocksListed(code);
    InternationalListed(code);
    InLetters(code);
    InDigits(code);
    InFunctionKeys(code);
    InModifiers(code);
    InNavigation(code);
    InEditing(code);
    InSymbols(code);
    InNumpadDigits(code);
    InNumpadOperators(code);
    InLocks(code);
    InInternational(code);
  }

  /** Every mapped code is ASCII, so a code holding any other character
      presses nothing. */
  lemma NonAsciiUnmapped(code: string)
    ensures !Utf8.IsAscii(code) ==> MapCodeToKey(code) == Keys.None
  {
    Listed(code);
    LettersAscii();
    DigitsAscii();
    FunctionKeysAscii();
    ModifiersAscii();
    NavigationAscii();
    EditingAscii();
    SymbolsAscii();
    NumpadDigitsAscii();
    NumpadOperatorsAscii();
    LocksAscii();
    InternationalAscii();
  }

  // ---------------------------------------------------------------------
  // Keys in order. Each range is proved a chunk of indices at a time,
  // since evaluating one code literal against the table costs the
  // verifier as much as a whole chunk should.
  // ---------------------------------------------------------------------

  const LetterKeys: seq<Keys> := [
    Keys.A, Keys.B, Keys.C, Keys.D, Keys.E, Keys.F, Keys.G, Keys.H,
    Keys.I, Keys.J, Keys.K, Keys.L, Keys.M, Keys.N, Keys.O, Keys.P,
    Keys.Q, Keys.R, Keys.S, Keys.T, Keys.U, Keys.V, Keys.W, Keys.X,
    Keys.Y, Keys.Z
  ]

  /** "KeyA" .. "KeyZ". */
  function LetterCode(i: nat): string
    requires i < 26
  {
    "Key" + [('A' as int + i) as char]
  }

  lemma LetterChunk0(i: nat)
    requires 0 <= i < 2
    ensures Letters(LetterCode(i)) == LetterKeys[i]
  {
    if i == 0 {
      assert LetterCode(0) == "KeyA";
    } else {
      assert LetterCode(1) == "KeyB";
    }
  }

  lemma LetterChunk1(i: nat)
    requires 2 <= i < 4
    ensures Letters(LetterCode(i)) == LetterKeys[i]
  {
    if i == 2 {
      assert LetterCode(2) == "KeyC";
    } else {
      assert LetterCode(3) == "KeyD";
    }
  }

  lemma LetterChunk2(i: nat)
    requires 4 <= i < 6
    ensures Letters(LetterCode(i)) == LetterKeys[i]
  {
    if i == 4 {
      assert LetterCode(4) == "KeyE";
    } else {
      assert LetterCode(5) == "KeyF";
    }
  }

  lemma LetterChunk3(i: nat)
    requires 6 <= i < 8
    ensures Letters(LetterCode(i)) == LetterKeys[i]
  {
    if i == 6 {
      assert LetterCode(6) == "KeyG";
    } else {
      assert LetterCode(7) == "KeyH";
    }
  }

  lemma LetterChunk4(i: nat)
    requires 8 <= i < 10
    ensures Letters(LetterCode(i)) == LetterKeys[i]
  {
    if i == 8 {
      assert LetterCode(8) == "KeyI";
    } else {
      assert LetterCode(9) == "KeyJ";
    }
  }

  lemma LetterChunk5(i: nat)
    requires 10 <= i < 12
    ensures Letters(LetterCode(i)) == LetterKeys[i]
  {
    if i == 10 {
      assert LetterCode(10) == "KeyK";
    } else {
      assert LetterCode(11) == "KeyL";
    }
  }

  lemma LetterChunk6(i: nat)
    requires 12 <= i < 14
    ensures Letters(LetterCode(i)) == LetterKeys[i]
  {
    if i == 12 {
      assert LetterCode(12) == "KeyM";
    } else {
      assert LetterCode(13) == "KeyN";
    }
  }

  lemma LetterChunk7(i: nat)
    requires 14 <= i < 16
    ensures Letters(LetterCode(i)) == LetterKeys[i]
  {
    if i == 14 {
      assert LetterCode(14) == "KeyO";
    } else {
      assert LetterCode(15) == "KeyP";
    }
  }

  lemma LetterChunk8(i: nat)
    requires 16 <= i < 18
    ensures Letters(LetterCode(i)) == LetterKeys[i]
  {
    if i == 16 {
      assert LetterCode(16) == "KeyQ";
    } else {
      assert LetterCode(17) == "KeyR";
    }
  }

  lemma LetterChunk9(i: nat)
    requires 18 <= i < 20
    ensures Letters(LetterCode(i)) == LetterKeys[i]
  {
    if i == 18 {
      assert LetterCode(18) == "KeyS";
    } else {
      assert LetterCode(19) == "KeyT";
    }
  }

  lemma LetterChunk10(i: nat)
    requires 20 <= i < 22
    ensures Letters(LetterCode(i)) == LetterKeys[i]
  {
    if i == 20 {
      assert LetterCode(20) == "KeyU";
    } else {
      assert LetterCode(21) == "KeyV";
    }
  }

  lemma LetterChunk11(i: nat)
    requires 22 <= i < 24
    ensures Letters(LetterCode(i)) == LetterKeys[i]
  {
    if i == 22 {
      assert LetterCode(22) == "KeyW";
    } else {
      assert LetterCode(23) == "KeyX";
    }
  }

  lemma LetterChunk12(i: nat)
    requires 24 <= i < 26
    ensures Letters(LetterCode(i)) == LetterKeys[i]
  {
    if i == 24 {
      assert LetterCode(24) == "KeyY";
    } else {
      assert LetterCode(25) == "KeyZ";
    }
  }

  /** "KeyA" .. "KeyZ" press A .. Z. */
  lemma LetterInOrder(i: nat)
    requires 0 <= i < 26
    ensures MapCodeToKey(LetterCode(i)) == LetterKeys[i]
  {
    InLetters(LetterCode(i));
    if i < 2 {
      LetterChunk0(i);
    } else if i < 4 {
      LetterChunk1(i);
    } else if i < 6 {
      LetterChunk2(i);
    } else if i < 8 {
      LetterChunk3(i);
    } else if i < 10 {
      LetterChunk4(i);
    } else if i < 12 {
      LetterChunk5(i);
    } else if i < 14 {
      LetterChunk6(i);
    } else if i < 16 {
      LetterChunk7(i);
    } else if i < 18 {
      LetterChunk8(i);
    } else if i < 20 {
      LetterChunk9(i);
    } else if i < 22 {
      LetterChunk10(i);
    } else if i < 24 {
      LetterChunk11(i);
    } else {
      LetterChunk12(i);
    }
  }

  const DigitKeys: seq<Keys> := [
    Keys.D0, Keys.D1, Keys.D2, Keys.D3, Keys.D4, Keys.D5, Keys.D6, Keys.D7,
    Keys.D8, Keys.D9
  ]

  /** "Digit0" .. "Digit9". */
  function DigitCode(i: nat): string
    requires i < 10
  {
    "Digit" + [('0' as int + i) as char]
  }

  lemma DigitChunk0(i: nat)
    requires 0 <= i < 2
    ensures Digits(DigitCode(i)) == DigitKeys[i]
  {
    if i == 0 {
      assert DigitCode(0) == "Digit0";
    } else {
      assert DigitCode(1) == "Digit1";
    }
  }

  lemma DigitChunk1(i: nat)
    requires 2 <= i < 4
    ensures Digits(DigitCode(i)) == DigitKeys[i]
  {
    if i == 2 {
      assert DigitCode(2) == "Digit2";
    } else {
      assert DigitCode(3) == "Digit3";
    }
  }

  lemma DigitChunk2(i: nat)
    requires 4 <= i < 6
    ensures Digits(DigitCode(i)) == DigitKeys[i]
  {
    if i == 4 {
      assert DigitCode(4) == "Digit4";
    } else {
      assert DigitCode(5) == "Digit5";
    }
  }

  lemma DigitChunk3(i: nat)
    requires 6 <= i < 8
    ensures Digits(DigitCode(i)) == DigitKeys[i]
  {
    if i == 6 {
      assert DigitCode(6) == "Digit6";
    } else {
      assert DigitCode(7) == "Digit7";
    }
  }

  lemma DigitChunk4(i: nat)
    requires 8 <= i < 10
    ensures Digits(DigitCode(i)) == DigitKeys[i]
  {
    if i == 8 {
      assert DigitCode(8) == "Digit8";
    } else {
      assert DigitCode(9) == "Digit9";
    }
  }

  /** "Digit0" .. "Digit9" press D0 .. D9. */
  lemma DigitInOrder(i: nat)
    requires 0 <= i < 10
    ensures MapCodeToKey(DigitCode(i)) == DigitKeys[i]
  {
    InDigits(DigitCode(i));
    if i < 2 {
      DigitChunk0(i);
    } else if i < 4 {
      DigitChunk1(i);
    } else if i < 6 {
      DigitChunk2(i);
    } else if i < 8 {
      DigitChunk3(i);
    } else {
      DigitChunk4(i);
    }
  }

  const FunctionKeyList: seq<Keys> := [
    Keys.F1, Keys.F2, Keys.F3, Keys.F4, Keys.F5, Keys.F6, Keys.F7, Keys.F8,
    Keys.F9, Keys.F10, Keys.F11, Keys.F12, Keys.F13, Keys.F14, Keys.F15, Keys.F16,
    Keys.F17, Keys.F18, Keys.F19, Keys.F20, Keys.F21, Keys.F22, Keys.F23, Keys.F24
  ]

  /** "F1" .. "F24". */
  function FunctionKeyCode(n: nat): string
    requires 1 <= n <= 24
  {
    if n < 10 then "F" + [('0' as int + n) as char]
    else "F" + [('0' as int + n / 10) as char, ('0' as int + n % 10) as char]
  }

  lemma FunctionKeyChunk0(i: nat)
    requires 1 <= i < 3
    ensures FunctionKeys(FunctionKeyCode(i)) == FunctionKeyList[i - 1]
  {
    if i == 1 {
      assert FunctionKeyCode(1) == "F1";
    } else {
      assert FunctionKeyCode(2) == "F2";
    }
  }

  lemma FunctionKeyChunk1(i: nat)
    requires 3 <= i < 5
    ensures FunctionKeys(FunctionKeyCode(i)) == FunctionKeyList[i - 1]
  {
    if i == 3 {
      assert FunctionKeyCode(3) == "F3";
    } else {
      assert FunctionKeyCode(4) == "F4";
    }
  }

  lemma FunctionKeyChunk2(i: nat)
    requires 5 <= i < 7
    ensures FunctionKeys(FunctionKeyCode(i)) == FunctionKeyList[i - 1]
  {
    if i == 5 {
      assert FunctionKeyCode(5) == "F5";
    } else {
      assert FunctionKeyCode(6) == "F6";
    }
  }

  lemma FunctionKeyChunk3(i: nat)
    requires 7 <= i < 9
    ensures FunctionKeys(FunctionKeyCode(i)) == FunctionKeyList[i - 1]
  {
    if i == 7 {
      assert FunctionKeyCode(7) == "F7";
    } else {
      assert FunctionKeyCode(8) == "F8";
    }
  }

  lemma FunctionKeyChunk4(i: nat)
    requires 9 <= i < 11
    ensures FunctionKeys(FunctionKeyCode(i)) == FunctionKeyList[i - 1]
  {
    if i == 9 {
      assert FunctionKeyCode(9) == "F9";
    } else {
      assert FunctionKeyCode(10) == "F10";
    }
  }

  lemma FunctionKeyChunk5(i: nat)
    requires 11 <= i < 13
    ensures FunctionKeys(FunctionKeyCode(i)) == FunctionKeyList[i - 1]
  {
    if i == 11 {
      assert FunctionKeyCode(11) == "F11";
    } else {
      assert FunctionKeyCode(12) == "F12";
    }
  }

  lemma FunctionKeyChunk6(i: nat)
    requires 13 <= i < 15
    ensures FunctionKeys(FunctionKeyCode(i)) == FunctionKeyList[i - 1]
  {
    if i == 13 {
      assert FunctionKeyCode(13) == "F13";
    } else {
      assert FunctionKeyCode(14) == "F14";
    }
  }

  lemma FunctionKeyChunk7(i: nat)
    requires 15 <= i < 17
    ensures FunctionKeys(FunctionKeyCode(i)) == FunctionKeyList[i - 1]
  {
    if i == 15 {
      assert FunctionKeyCode(15) == "F15";
    } else {
      assert FunctionKeyCode(16) == "F16";
    }
  }

  lemma FunctionKeyChunk8(i: nat)
    requires 17 <= i < 19
    ensures FunctionKeys(FunctionKeyCode(i)) == FunctionKeyList[i - 1]
  {
    if i == 17 {
      assert FunctionKeyCode(17) == "F17";
    } else {
      assert FunctionKeyCode(18) == "F18";
    }
  }

  lemma FunctionKeyChunk9(i: nat)
    requires 19 <= i < 21
    ensures FunctionKeys(FunctionKeyCode(i)) == FunctionKeyList[i - 1]
  {
    if i == 19 {
      assert FunctionKeyCode(19) == "F19";
    } else {
      assert FunctionKeyCode(20) == "F20";
    }
  }

  lemma FunctionKeyChunk10(i: nat)
    requires 21 <= i < 23
    ensures FunctionKeys(FunctionKeyCode(i)) == FunctionKeyList[i - 1]
  {
    if i == 21 {
      assert FunctionKeyCode(21) == "F21";
    } else {
      assert FunctionKeyCode(22) == "F22";
    }
  }

  lemma FunctionKeyChunk11(i: nat)
    requires 23 <= i < 25
    ensures FunctionKeys(FunctionKeyCode(i)) == FunctionKeyList[i - 1]
  {
    if i == 23 {
      assert FunctionKeyCode(23) == "F23";
    } else {
      assert FunctionKeyCode(24) == "F24";
    }
  }

  /** "F1" .. "F24" press F1 .. F24. */
  lemma FunctionKeyInOrder(i: nat)
    requires 1 <= i < 25
    ensures MapCodeToKey(FunctionKeyCode(i)) == FunctionKeyList[i - 1]
  {
    InFunctionKeys(FunctionKeyCode(i));
    if i < 3 {
      FunctionKeyChunk0(i);
    } else if i < 5 {
      FunctionKeyChunk1(i);
    } else if i < 7 {
      FunctionKeyChunk2(i);
    } else if i < 9 {
      FunctionKeyChunk3(i);
    } else if i < 11 {
      FunctionKeyChunk4(i);
    } else if i < 13 {
      FunctionKeyChunk5(i);
    } else if i < 15 {
      FunctionKeyChunk6(i);
    } else if i < 17 {
      FunctionKeyChunk7(i);
    } else if i < 19 {
      FunctionKeyChunk8(i);
    } else if i < 21 {
      FunctionKeyChunk9(i);
    } else if i < 23 {
      FunctionKeyChunk10(i);
    } else {
      FunctionKeyChunk11(i);
    }
  }

  /** The eight modifier codes press eight different keys, so the left and
      right variant of each modifier stay apart. */
  lemma SideSpecificModifiers(a: string, b: string)
    requires a in ModifiersCodes && b in ModifiersCodes
    ensures MapCodeToKey(a) != Keys.None
    ensures MapCodeToKey(a) == MapCodeToKey(b) <==> a == b
  {
    InModifiers(a);
    InModifiers(b);
  }

  /** The table is not injective: "Enter" and "NumpadEnter" both press Enter, */
  lemma EnterShared(code: string)
    requires code in {"Enter", "NumpadEnter"}
    ensures MapCodeToKey(code) == Keys.Enter
  {
    InEditing(code);
    InNumpadOperators(code);
  }

  /** and "Backslash" and "IntlBackslash" both press Oem5. */
  lemma Oem5Shared(code: string)
    requires code in {"Backslash", "IntlBackslash"}
    ensures MapCodeToKey(code) == Keys.Oem5
  {
    InSymbols(code);
    InInternational(code);
  }

  /** The international codes the table lists, other than "IntlBackslash",
      press nothing. */
  lemma InternationalUnmapped(code: string)
    requires code in {"IntlRo", "IntlYen", "KanaMode", "NonConvert", "Convert", "HangulMode", "Hanja"}
    ensures MapCodeToKey(code) == Keys.None
  {
    LettersShape(code);
    DigitsShape(code);
    FunctionKeysShape(code);
    ModifiersShape(code);
    NavigationShape(code);
    EditingShape(code);
    SymbolsShape(code);
    NumpadDigitsShape(code);
    NumpadOperatorsShape(code);
    LocksShape(code);
  }
}

