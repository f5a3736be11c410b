/**
  The frame decoder of the C++ keyboard and mouse injector
  (injector_hid.cpp, the body of the receive loop in `main`). It reads the
  same frames as the C# injector, with two differences: a button byte is
  passed on as it is, and a key code is looked up as raw bytes (one
  character per byte, as `std::string` holds them) in the HID usage table.

  The `vi_*` calls become the constructors of Action; a frame that makes no
  call decodes to None.
 */
module HidInjector {
  import opened Wrappers
  import opened Bytes
  import opened Frame
  import Utf8
  import KeyMap
  import HidUsage
  import CsInjector

  datatype Action =
    | Move(dx: Int16, dy: Int16)
    | MouseDown(button: Byte)
    | MouseUp(button: Byte)
    | Wheel(delta: Int16)
    | KeyDown(usage: HidUsage.Usage)
    | KeyUp(usage: HidUsage.Usage)

  /** The size of the receive buffer. */
  const RecvBuffer := 1024

  predicate IsKey(a: Action)
  {
    a.KeyDown? || a.KeyUp?
  }

  /** What one received datagram makes the injector do. */
  function Decode(buf: seq<Byte>): (r: Option<Action>)
    ensures !HasHeader(buf) ==> r.None?
    ensures r.Some? ==> CsInjector.KnownType(buf[1]) && |buf| >= CsInjector.MinLength(buf[1])
    ensures r.Some? && IsKey(r.value) ==> 3 + buf[2] as int <= |buf| && r.value.usage != 0
  {
    if |buf| < 2 || buf[0] != Version then None
    else
      var t := buf[1];
      if t == MoveType && |buf| >= 6 then Some(Move(Int16At(buf, 2), Int16At(buf, 4)))
      else if (t == ButtonDownType || t == ButtonUpType) && |buf| >= 3 then
        Some(if t == ButtonDownType then MouseDown(buf[2]) else MouseUp(buf[2]))
      else if t == WheelType && |buf| >= 4 then Some(Wheel(Int16At(buf, 2)))
      else if t == KeyDownType || t == KeyUpType then
        if |buf| < 3 || 3 + buf[2] as int > |buf| then None
        else
          var usage := HidUsage.MapCode(Chars(KeyCode(buf)));
          if usage == 0 then None
          else Some(if t == KeyDownType then KeyDown(usage) else KeyUp(usage))
      else None
  }

  /** The frame a mouse action comes from. */
  function Encode(a: Action): (f: seq<Byte>)
    requires !IsKey(a)
  {
    match a
    case Move(dx, dy) => MoveFrame(dx, dy)
    case MouseDown(b) => ButtonFrame(true, b)
    case MouseUp(b) => ButtonFrame(false, b)
    case Wheel(delta) => WheelFrame(delta)
  }

  /** A mouse action's frame decodes to that action, whatever follows it;
      every button byte gets through, not only 0, 1 and 2. */
  lemma MouseRoundTrip(a: Action, rest: seq<Byte>)
    requires !IsKey(a)
    ensures Decode(Encode(a) + rest) == Some(a)
  {
    match a
    case Move(dx, dy) => MoveFields(dx, dy, rest);
    case MouseDown(b) =>
    case MouseUp(b) =>
    case Wheel(delta) => WheelField(delta, rest);
  }

  /** Conversely, a frame that decodes to a mouse action starts with that
      action's frame. */
  lemma MouseFrameOf(buf: seq<Byte>)
    requires Decode(buf).Some? && !IsKey(Decode(buf).value)
    ensures var a := Decode(buf).value;
      |Encode(a)| <= |buf| && buf[..|Encode(a)|] == Encode(a)
  {
    var a := Decode(buf).value;
    match a
    case Move(dx, dy) =>
      Int16Bytes16(buf, 2);
      Int16Bytes16(buf, 4);
      assert buf[..6] == buf[..2] + buf[2..4] + buf[4..6];
    case MouseDown(b) =>
    case MouseUp(b) =>
    case Wheel(delta) =>
      Int16Bytes16(buf, 2);
      assert buf[..4] == buf[..2] + buf[2..4];
  }

  lemma AsciiChars(bs: seq<Byte>)
    ensures Utf8.IsAscii(Chars(bs)) <==> Utf8.AsciiBytes(bs)
  {
    if !Utf8.AsciiBytes(bs) {
      var i :| 0 <= i < |bs| && bs[i] >= 0x80;
      assert Chars(bs)[i] as int == bs[i] as int;
    }
  }

  /** A non-ASCII code has no usage: the HID table only holds codes the C#
      table maps, and those are all ASCII. */
  lemma NonAsciiNoUsage(code: string)
    requires !Utf8.IsAscii(code)
    ensures HidUsage.MapCode(code) == 0
  {
    HidUsage.TableWithinKeyMap(code);
    KeyMap.NonAsciiUnmapped(code);
  }

  /** A key frame presses or releases the usage its code bytes name, read
      one character per byte. */
  lemma KeyFrameDecodes(down: bool, bytes: seq<Byte>, rest: seq<Byte>)
    requires |bytes| < 0x100
    ensures var u := HidUsage.MapCode(Chars(bytes));
      Decode(KeyFrame(down, bytes) + rest)
        == if u == 0 then None else Some(if down then KeyDown(u) else KeyUp(u))
  {
    KeyFrameCode(down, bytes, rest);
  }

  /** The byte-per-character reading of a code's UTF-8 bytes has the same
      usage as the code: the same text for an ASCII code, and no usage on
      either side for any other. */
  lemma SameUsage(code: string)
    ensures HidUsage.MapCode(Chars(Utf8.Encode(code))) == HidUsage.MapCode(code)
  {
    var bytes := Utf8.Encode(code);
    if Utf8.IsAscii(code) {
      Utf8.EncodeAsciiText(code);
    } else {
      Utf8.DecodeEncode(code);
      Utf8.DecodeAscii(bytes);
      AsciiChars(bytes);
      NonAsciiNoUsage(code);
      NonAsciiNoUsage(Chars(bytes));
    }
  }

  /** A key frame carrying the UTF-8 bytes of a code presses or releases the
      usage of that code, and does nothing when the code has none. */
  lemma KeyRoundTrip(down: bool, code: string, rest: seq<Byte>)
    requires |Utf8.Encode(code)| < 0x100
    ensures var u := HidUsage.MapCode(code);
      Decode(KeyFrame(down, Utf8.Encode(code)) + rest)
        == if u == 0 then None else Some(if down then KeyDown(u) else KeyUp(u))
  {
    KeyFrameDecodes(down, Utf8.Encode(code), rest);
    SameUsage(code);
  }

  /** Once a frame decodes, more bytes after it change nothing, as long as
      the datagram still fits the receive buffer (a longer one fails `recv`
      and is skipped). */
  lemma ExtraBytesIgnored(buf: seq<Byte>, extra: seq<Byte>)
    requires Decode(buf).Some? && |buf + extra| <= RecvBuffer
    ensures Decode(buf + extra) == Decode(buf)
  {
    var t := buf[1];
    assert (buf + extra)[..3] == buf[..3] || |buf| < 3;
    if t == MoveType {
      Int16Extended(buf, 2, extra);
      Int16Extended(buf, 4, extra);
    } else if t == WheelType {
      Int16Extended(buf, 2, extra);
    } else if t == KeyDownType || t == KeyUpType {
      KeyCodeExtended(buf, extra);
    }
  }

  // ---------------------------------------------------------------------
  // The two keyboard and mouse injectors side by side
  // ---------------------------------------------------------------------

  /** What the C# injector does for a mouse action of this one: the same
      move or wheel turn, and a button action only for button bytes 0, 1
      and 2. */
  function CsMouse(a: Action): (r: Option<CsInjector.Action>)
    requires !IsKey(a)
  {
    match a
    case Move(dx, dy) => Some(CsInjector.Move(dx, dy))
    case MouseDown(b) =>
      if CsInjector.ButtonOf(b).Some? then Some(CsInjector.ButtonDown(CsInjector.ButtonOf(b).value)) else None
    case MouseUp(b) =>
      if CsInjector.ButtonOf(b).Some? then Some(CsInjector.ButtonUp(CsInjector.ButtonOf(b).value)) else None
    case Wheel(delta) => Some(CsInjector.Wheel(delta))
  }

  /** On mouse frames the C# injector does what this one does, except that
      it drops unknown button bytes; it never acts on a mouse frame this one
      ignores. */
  lemma MouseAgrees(buf: seq<Byte>)
    requires HasHeader(buf) && buf[1] != KeyDownType && buf[1] != KeyUpType
    ensures Decode(buf).None? ==> CsInjector.Decode(buf).None?
    ensures Decode(buf).Some? ==> CsInjector.Decode(buf) == CsMouse(Decode(buf).value)
  {
  }

  /** Every key this injector presses, the C# injector presses too, for the
      key the same code names in its own table. */
  lemma KeysAgree(buf: seq<Byte>)
    requires Decode(buf).Some? && IsKey(Decode(buf).value)
    ensures var k := KeyMap.MapCodeToKey(Chars(KeyCode(buf)));
      k != KeyMap.Keys.None
      && CsInjector.Decode(buf) == Some(if buf[1] == KeyDownType then CsInjector.KeyDown(k) else CsInjector.KeyUp(k))
  {
    var code := KeyCode(buf);
    HidUsage.TableWithinKeyMap(Chars(code));
    KeyMap.NonAsciiUnmapped(Chars(code));
    AsciiChars(code);
    Utf8.DecodeAscii(code);
  }

  /** The converse fails: a numpad key frame presses a key through the C#
      injector and does nothing through this one. */
  lemma NumpadOnlyInCs(down: bool, code: string, rest: seq<Byte>)
    requires code in KeyMap.NumpadDigitsCodes
    ensures |Utf8.Encode(code)| < 0x100
    ensures var f := KeyFrame(down, Utf8.Encode(code)) + rest;
      Decode(f).None? && CsInjector.Decode(f).Some?
  {
    HidUsage.NumpadOnlyInKeyMap(code);
    NumpadEncoding(code);
    ShortAscii(code);
    KeyRoundTrip(down, code, rest);
    CsInjector.KeyRoundTrip(down, code, rest);
  }

  lemma NumpadEncoding(code: string)
    requires code in KeyMap.NumpadDigitsCodes
    ensures Utf8.IsAscii(code) && |code| < 0x100
  {
    KeyMap.NumpadDigitsAscii();
  }

  lemma ShortAscii(s: string)
    requires Utf8.IsAscii(s) && |s| < 0x100
    ensures |Utf8.Encode(s)| < 0x100
  {
    Utf8.EncodeAsciiText(s);
  }
}
