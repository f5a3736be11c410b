/**
  The frame decoder of the C# injector (Program.cs, the body of the receive
  loop in `Run`): one datagram in, at most one mouse or keyboard action out.

  The VirtualInput mouse and keyboard calls become the constructors of
  Action; a frame that makes no call decodes to None.
 */
module CsInjector {
  import opened Wrappers
  import opened Bytes
  import opened Frame
  import Utf8
  import KeyMap

  datatype MouseButton = Left | Middle | Right

  datatype Action =
    | Move(dx: Int16, dy: Int16)
    | ButtonDown(button: MouseButton)
    | ButtonUp(button: MouseButton)
    | Wheel(delta: Int16)
    | KeyDown(key: KeyMap.Keys)
    | KeyUp(key: KeyMap.Keys)

  /** The button a button byte names: 0, 1 and 2 only. */
  function ButtonOf(b: Byte): (r: Option<MouseButton>)
    ensures r.Some? <==> b <= 2
  {
    if b == 0 then Some(Left)
    else if b == 1 then Some(Middle)
    else if b == 2 then Some(Right)
    else None
  }

  /** The byte that names a button. */
  function ButtonByte(b: MouseButton): (r: Byte)
    ensures ButtonOf(r) == Some(b)
  {
    match b
    case Left => 0
    case Middle => 1
    case Right => 2
  }

  /** How many bytes a frame of type `t` needs before it is acted on (for a
      key frame, before its length byte can be read). */
  function MinLength(t: Byte): nat
  {
    if t == MoveType then 6
    else if t == WheelType then 4
    else 3
  }

  predicate KnownType(t: Byte)
  {
    t == MoveType || t == ButtonDownType || t == ButtonUpType
    || t == WheelType || t == KeyDownType || t == KeyUpType
  }

  /** What one received datagram makes the injector do. */
  function Decode(data: seq<Byte>): (r: Option<Action>)
    ensures !HasHeader(data) ==> r.None?
    ensures r.Some? ==> KnownType(data[1]) && |data| >= MinLength(data[1])
    ensures r.Some? && (r.value.KeyDown? || r.value.KeyUp?) ==>
      3 + data[2] as int <= |data| && r.value.key != KeyMap.Keys.None
  {
    if |data| < 2 || data[0] != Version then None
    else
      var t := data[1];
      if t == MoveType then
        if |data| >= 6 then Some(Move(Int16At(data, 2), Int16At(data, 4))) else None
      else if t == ButtonDownType || t == ButtonUpType then
        if |data| < 3 then None
        else match ButtonOf(data[2])
          case None => None
          case Some(b) => Some(if t == ButtonDownType then ButtonDown(b) else ButtonUp(b))
      else if t == WheelType then
        if |data| >= 4 then Some(Wheel(Int16At(data, 2))) else None
      else if t == KeyDownType || t == KeyUpType then
        if |data| < 3 || 3 + data[2] as int > |data| then None
        else
          var k := KeyMap.MapCodeToKey(Utf8.Decode(KeyCode(data)));
          if k == KeyMap.Keys.None then None
          else Some(if t == KeyDownType then KeyDown(k) else KeyUp(k))
      else None
  }

  /** The frame a mouse action comes from (a key action has one frame per
      code that names its key, see KeyRoundTrip). */
  function Encode(a: Action): (f: seq<Byte>)
    requires !a.KeyDown? && !a.KeyUp?
  {
    match a
    case Move(dx, dy) => MoveFrame(dx, dy)
    case ButtonDown(b) => ButtonFrame(true, ButtonByte(b))
    case ButtonUp(b) => ButtonFrame(false, ButtonByte(b))
    case Wheel(delta) => WheelFrame(delta)
  }

  /** A mouse action's frame decodes to that action, whatever follows it. */
  lemma MouseRoundTrip(a: Action, rest: seq<Byte>)
    requires !a.KeyDown? && !a.KeyUp?
    ensures Decode(Encode(a) + rest) == Some(a)
  {
    match a
    case Move(dx, dy) => MoveFields(dx, dy, rest);
    case ButtonDown(b) =>
    case ButtonUp(b) =>
    case Wheel(delta) => WheelField(delta, rest);
  }

  /** Conversely, a frame that decodes to a mouse action starts with that
      action's frame. */
  lemma MouseFrameOf(data: seq<Byte>)
    requires Decode(data).Some?
    requires !Decode(data).value.KeyDown? && !Decode(data).value.KeyUp?
    ensures var a := Decode(data).value;
      |Encode(a)| <= |data| && data[..|Encode(a)|] == Encode(a)
  {
    var a := Decode(data).value;
    match a
    case Move(dx, dy) =>
      Int16Bytes16(data, 2);
      Int16Bytes16(data, 4);
      assert data[..6] == data[..2] + data[2..4] + data[4..6];
    case ButtonDown(b) =>
    case ButtonUp(b) =>
    case Wheel(delta) =>
      Int16Bytes16(data, 2);
      assert data[..4] == data[..2] + data[2..4];
  }

  /** A button byte other than 0, 1 or 2 does nothing. */
  lemma UnknownButton(down: bool, button: Byte, rest: seq<Byte>)
    requires button > 2
    ensures Decode(ButtonFrame(down, button) + rest) == None
  {
  }

  /** A key frame carrying the UTF-8 bytes of a code presses or releases the
      key the code maps to, and does nothing when it maps to none. */
  lemma KeyRoundTrip(down: bool, code: string, rest: seq<Byte>)
    requires |Utf8.Encode(code)| < 0x100
    ensures var k := KeyMap.MapCodeToKey(code);
      Decode(KeyFrame(down, Utf8.Encode(code)) + rest)
        == if k == KeyMap.Keys.None then None else Some(if down then KeyDown(k) else KeyUp(k))
  {
    KeyFrameCode(down, Utf8.Encode(code), rest);
    Utf8.DecodeEncode(code);
  }

  /** A key code with any byte from 0x80 up never presses a key: every code
      the table maps is ASCII, and such bytes never decode to ASCII. */
  lemma NonAsciiCodeIgnored(data: seq<Byte>)
    requires |data| >= 3 && 3 + data[2] as int <= |data|
    requires data[1] == KeyDownType || data[1] == KeyUpType
    requires !Utf8.AsciiBytes(KeyCode(data))
    ensures Decode(data) == None
  {
    Utf8.DecodeAscii(KeyCode(data));
    KeyMap.NonAsciiUnmapped(Utf8.Decode(KeyCode(data)));
  }

  /** Once a frame decodes, more bytes after it change nothing: every length
      check is a lower bound. */
  lemma ExtraBytesIgnored(data: seq<Byte>, extra: seq<Byte>)
    requires Decode(data).Some?
    ensures Decode(data + extra) == Decode(data)
  {
    var t := data[1];
    assert (data + extra)[..3] == data[..3] || |data| < 3;
    if t == MoveType {
      Int16Extended(data, 2, extra);
      Int16Extended(data, 4, extra);
    } else if t == WheelType {
      Int16Extended(data, 2, extra);
    } else if t == KeyDownType || t == KeyUpType {
      KeyCodeExtended(data, extra);
    }
  }
}
