/** Physical keys, as the evdev codes the window's key table gives them. */
module KeyTable {

  // The codes of the table, by where they sit: evdev numbers a keyboard area by area.

  datatype TopKey =
    Escape | Digit1 | Digit2 | Digit3 | Digit4 | Digit5 | Digit6 | Digit7 | Digit8 | Digit9 | Digit0
    | Minus | Equal | Backspace | Tab

  datatype UpperKey =
    KeyQ | KeyW | KeyE | KeyR | KeyT | KeyY | KeyU | KeyI | KeyO | KeyP | BracketLeft | BracketRight
    | Enter

  datatype HomeKey =
    ControlLeft | KeyA | KeyS | KeyD | KeyF | KeyG | KeyH | KeyJ | KeyK | KeyL | Semicolon | Quote
    | Backquote | ShiftLeft | Backslash

  datatype LowerKey =
    KeyZ | KeyX | KeyC | KeyV | KeyB | KeyN | KeyM | Comma | Period | Slash | ShiftRight
    | NumpadMultiply | AltLeft | Space | CapsLock

  datatype FunctionKey =
    F1 | F2 | F3 | F4 | F5 | F6 | F7 | F8 | F9 | F10 | NumLock | ScrollLock

  datatype PadKey =
    Numpad7 | Numpad8 | Numpad9 | NumpadSubtract | Numpad4 | Numpad5 | Numpad6 | NumpadAdd | Numpad1
    | Numpad2 | Numpad3 | Numpad0 | NumpadDecimal

  datatype RightKey =
    IntlBackslash | F11 | F12 | IntlRo | NumpadEnter | ControlRight | NumpadDivide | PrintScreen
    | AltRight

  datatype NavigationKey =
    Home | ArrowUp | PageUp | ArrowLeft | ArrowRight | End | ArrowDown | PageDown | Insert | Delete
    | AudioVolumeMute | AudioVolumeDown | AudioVolumeUp | Pause | IntlYen | MetaLeft | MetaRight
    | ContextMenu

  datatype FarFunctionKey =
    F13 | F14 | F15 | F16 | F17 | F18 | F19 | F20 | F21 | F22 | F23 | F24

  /** A `KeyboardEvent.code`: one of the table's, or any other. */
  datatype Code =
    | Top(keyTop: TopKey)
    | Upper(keyUpper: UpperKey)
    | Home(keyHome: HomeKey)
    | Lower(keyLower: LowerKey)
    | Function(keyFunction: FunctionKey)
    | Pad(keyPad: PadKey)
    | Right(keyRight: RightKey)
    | Navigation(keyNavigation: NavigationKey)
    | FarFunction(keyFarFunction: FarFunctionKey)
    | Other(name: string)

  function EvdevOfTop(key: TopKey): (n: nat)
    ensures 1 <= n < 16
  {
    match key
    case Escape => 1
    case Digit1 => 2
    case Digit2 => 3
    case Digit3 => 4
    case Digit4 => 5
    case Digit5 => 6
    case Digit6 => 7
    case Digit7 => 8
    case Digit8 => 9
    case Digit9 => 10
    case Digit0 => 11
    case Minus => 12
    case Equal => 13
    case Backspace => 14
    case Tab => 15
  }

  function EvdevOfUpper(key: UpperKey): (n: nat)
    ensures 16 <= n < 29
  {
    match key
    case KeyQ => 16
    case KeyW => 17
    case KeyE => 18
    case KeyR => 19
    case KeyT => 20
    case KeyY => 21
    case KeyU => 22
    case KeyI => 23
    case KeyO => 24
    case KeyP => 25
    case BracketLeft => 26
    case BracketRight => 27
    case Enter => 28
  }

  function EvdevOfHome(key: HomeKey): (n: nat)
    ensures 29 <= n < 44
  {
    match key
    case ControlLeft => 29
    case KeyA => 30
    case KeyS => 31
    case KeyD => 32
    case KeyF => 33
    case KeyG => 34
    case KeyH => 35
    case KeyJ => 36
    case KeyK => 37
    case KeyL => 38
    case Semicolon => 39
    case Quote => 40
    case Backquote => 41
    case ShiftLeft => 42
    case Backslash => 43
  }

  function EvdevOfLower(key: LowerKey): (n: nat)
    ensures 44 <= n < 59
  {
    match key
    case KeyZ => 44
    case KeyX => 45
    case KeyC => 46
    case KeyV => 47
    case KeyB => 48
    case KeyN => 49
    case KeyM => 50
    case Comma => 51
    case Period => 52
    case Slash => 53
    case ShiftRight => 54
    case NumpadMultiply => 55
    case AltLeft => 56
    case Space => 57
    case CapsLock => 58
  }

  function EvdevOfFunction(key: FunctionKey): (n: nat)
    ensures 59 <= n < 71
  {
    match key
    case F1 => 59
    case F2 => 60
    case F3 => 61
    case F4 => 62
    case F5 => 63
    case F6 => 64
    case F7 => 65
    case F8 => 66
    case F9 => 67
    case F10 => 68
    case NumLock => 69
    case ScrollLock => 70
  }

  function EvdevOfPad(key: PadKey): (n: nat)
    ensures 71 <= n < 86
  {
    match key
    case Numpad7 => 71
    case Numpad8 => 72
    case Numpad9 => 73
    case NumpadSubtract => 74
    case Numpad4 => 75
    case Numpad5 => 76
    case Numpad6 => 77
    case NumpadAdd => 78
    case Numpad1 => 79
    case Numpad2 => 80
    case Numpad3 => 81
    case Numpad0 => 82
    case NumpadDecimal => 83
  }

  function EvdevOfRight(key: RightKey): (n: nat)
    ensures 86 <= n < 102
  {
    match key
    case IntlBackslash => 86
    case F11 => 87
    case F12 => 88
    case IntlRo => 89
    case NumpadEnter => 96
    case ControlRight => 97
    case NumpadDivide => 98
    case PrintScreen => 99
    case AltRight => 100
  }

  function EvdevOfNavigation(key: NavigationKey): (n: nat)
    ensures 102 <= n < 183
  {
    match key
    case Home => 102
    case ArrowUp => 103
    case PageUp => 104
    case ArrowLeft => 105
    case ArrowRight => 106
    case End => 107
    case ArrowDown => 108
    case PageDown => 109
    case Insert => 110
    case Delete => 111
    case AudioVolumeMute => 113
    case AudioVolumeDown => 114
    case AudioVolumeUp => 115
    case Pause => 119
    case IntlYen => 124
    case MetaLeft => 125
    case MetaRight => 126
    case ContextMenu => 127
  }

  function EvdevOfFarFunction(key: FarFunctionKey): (n: nat)
    ensures 183 <= n < 200
  {
    match key
    case F13 => 183
    case F14 => 184
    case F15 => 185
    case F16 => 186
    case F17 => 187
    case F18 => 188
    case F19 => 189
    case F20 => 190
    case F21 => 191
    case F22 => 192
    case F23 => 193
    case F24 => 194
  }

  /** The physical key a code names, or zero for one the table does not know. */
  function EvdevOfCode(code: Code): nat {
    match code
    case Top(key) => EvdevOfTop(key)
    case Upper(key) => EvdevOfUpper(key)
    case Home(key) => EvdevOfHome(key)
    case Lower(key) => EvdevOfLower(key)
    case Function(key) => EvdevOfFunction(key)
    case Pad(key) => EvdevOfPad(key)
    case Right(key) => EvdevOfRight(key)
    case Navigation(key) => EvdevOfNavigation(key)
    case FarFunction(key) => EvdevOfFarFunction(key)
    case Other(_) => 0
  }

  lemma TopKeysDiffer(key: TopKey, key': TopKey)
    requires EvdevOfTop(key) == EvdevOfTop(key')
    ensures key == key'
  {
  }

  lemma UpperKeysDiffer(key: UpperKey, key': UpperKey)
    requires EvdevOfUpper(key) == EvdevOfUpper(key')
    ensures key == key'
  {
  }

  lemma HomeKeysDiffer(key: HomeKey, key': HomeKey)
    requires EvdevOfHome(key) == EvdevOfHome(key')
    ensures key == key'
  {
  }

  lemma LowerKeysDiffer(key: LowerKey, key': LowerKey)
    requires EvdevOfLower(key) == EvdevOfLower(key')
    ensures key == key'
  {
  }

  lemma FunctionKeysDiffer(key: FunctionKey, key': FunctionKey)
    requires EvdevOfFunction(key) == EvdevOfFunction(key')
    ensures key == key'
  {
  }

  lemma PadKeysDiffer(key: PadKey, key': PadKey)
    requires EvdevOfPad(key) == EvdevOfPad(key')
    ensures key == key'
  {
  }

  lemma RightKeysDiffer(key: RightKey, key': RightKey)
    requires EvdevOfRight(key) == EvdevOfRight(key')
    ensures key == key'
  {
  }

  lemma NavigationKeysDiffer(key: NavigationKey, key': NavigationKey)
    requires EvdevOfNavigation(key) == EvdevOfNavigation(key')
    ensures key == key'
  {
  }

  lemma FarFunctionKeysDiffer(key: FarFunctionKey, key': FarFunctionKey)
    requires EvdevOfFarFunction(key) == EvdevOfFarFunction(key')
    ensures key == key'
  {
  }

  // ----- Areas are numbered in order ---------------------------------------

  const TOP_KEYS: seq<TopKey> := [
    Escape, Digit1, Digit2, Digit3, Digit4, Digit5, Digit6, Digit7, Digit8, Digit9, Digit0, Minus, Equal,
    Backspace, Tab
  ]

  const UPPER_KEYS: seq<UpperKey> := [
    KeyQ, KeyW, KeyE, KeyR, KeyT, KeyY, KeyU, KeyI, KeyO, KeyP, BracketLeft, BracketRight, Enter
  ]

  const HOME_KEYS: seq<HomeKey> := [
    ControlLeft, KeyA, KeyS, KeyD, KeyF, KeyG, KeyH, KeyJ, KeyK, KeyL, Semicolon, Quote, Backquote,
    ShiftLeft, Backslash
  ]

  const LOWER_KEYS: seq<LowerKey> := [
    KeyZ, KeyX, KeyC, KeyV, KeyB, KeyN, KeyM, Comma, Period, Slash, ShiftRight, NumpadMultiply, AltLeft,
    Space, CapsLock
  ]

  const FUNCTION_KEYS: seq<FunctionKey> := [
    F1, F2, F3, F4, F5, F6, F7, F8, F9, F10, NumLock, ScrollLock
  ]

  const PAD_KEYS: seq<PadKey> := [
    Numpad7, Numpad8, Numpad9, NumpadSubtract, Numpad4, Numpad5, Numpad6, NumpadAdd, Numpad1, Numpad2,
    Numpad3, Numpad0, NumpadDecimal
  ]

  const FAR_FUNCTION_KEYS: seq<FarFunctionKey> := [
    F13, F14, F15, F16, F17, F18, F19, F20, F21, F22, F23, F24
  ]

  /** Evdev numbers each of these areas key by key, left to right and row by row, from its first number on. */
  lemma AreasAreNumbered()
    ensures forall i :: 0 <= i < |TOP_KEYS| ==> EvdevOfCode(Top(TOP_KEYS[i])) == 1 + i
    ensures forall i :: 0 <= i < |UPPER_KEYS| ==> EvdevOfCode(Upper(UPPER_KEYS[i])) == 16 + i
    ensures forall i :: 0 <= i < |HOME_KEYS| ==> EvdevOfCode(Code.Home(HOME_KEYS[i])) == 29 + i
    ensures forall i :: 0 <= i < |LOWER_KEYS| ==> EvdevOfCode(Lower(LOWER_KEYS[i])) == 44 + i
    ensures forall i :: 0 <= i < |FUNCTION_KEYS| ==> EvdevOfCode(Function(FUNCTION_KEYS[i])) == 59 + i
    ensures forall i :: 0 <= i < |PAD_KEYS| ==> EvdevOfCode(Pad(PAD_KEYS[i])) == 71 + i
    ensures forall i :: 0 <= i < |FAR_FUNCTION_KEYS| ==> EvdevOfCode(FarFunction(FAR_FUNCTION_KEYS[i])) == 183 + i
  {
  }

  /** No two codes of the table share a physical key. */
  lemma NoTwoCodesShareAKey(code: Code, code': Code)
    requires EvdevOfCode(code) == EvdevOfCode(code') != 0
    ensures code == code'
  {
    hide EvdevOfTop, EvdevOfUpper, EvdevOfHome, EvdevOfLower, EvdevOfFunction,
         EvdevOfPad, EvdevOfRight, EvdevOfNavigation, EvdevOfFarFunction;
    match code
    case Top(key) => if code'.Top? { TopKeysDiffer(key, code'.keyTop); }
    case Upper(key) => if code'.Upper? { UpperKeysDiffer(key, code'.keyUpper); }
    case Home(key) => if code'.Home? { HomeKeysDiffer(key, code'.keyHome); }
    case Lower(key) => if code'.Lower? { LowerKeysDiffer(key, code'.keyLower); }
    case Function(key) => if code'.Function? { FunctionKeysDiffer(key, code'.keyFunction); }
    case Pad(key) => if code'.Pad? { PadKeysDiffer(key, code'.keyPad); }
    case Right(key) => if code'.Right? { RightKeysDiffer(key, code'.keyRight); }
    case Navigation(key) => if code'.Navigation? { NavigationKeysDiffer(key, code'.keyNavigation); }
    case FarFunction(key) => if code'.FarFunction? { FarFunctionKeysDiffer(key, code'.keyFarFunction); }
    case Other(_) =>
  }
}
