/**
  The binary frames the injectors receive over UDP. Byte 0 is the protocol
  version, which must be 1; byte 1 is the frame type; the payload starts at
  byte 2 and runs to the end of the datagram (there is no length field, so
  a decoder only knows how many bytes arrived).

  The decoders are in CsInjector (Program.cs), HidInjector (injector_hid.cpp)
  and PadInjector (injector_pad.cpp). The frame builders below lay out each
  type the way those decoders read it; they are the reference the decoders'
  round-trip lemmas are stated against.
 */
module Frame {
  import opened Bytes

  const Version: Byte := 0x01

  const MoveType: Byte := 0x01
  const ButtonDownType: Byte := 0x02
  const ButtonUpType: Byte := 0x03
  const KeyDownType: Byte := 0x04
  const KeyUpType: Byte := 0x05
  const WheelType: Byte := 0x06
  const PadType: Byte := 0x10

  /** The check every decoder makes first: two bytes at least, and the
      version byte is 1. */
  predicate HasHeader(f: seq<Byte>)
  {
    |f| >= 2 && f[0] == Version
  }

  /** A relative mouse move: two little-endian int16 at offsets 2 and 4. */
  function MoveFrame(dx: Int16, dy: Int16): (f: seq<Byte>)
    ensures |f| == 6 && HasHeader(f) && f[1] == MoveType
  {
    [Version, MoveType] + Int16Bytes(dx) + Int16Bytes(dy)
  }

  /** A mouse button press or release: the button byte at offset 2. */
  function ButtonFrame(down: bool, button: Byte): (f: seq<Byte>)
    ensures |f| == 3 && HasHeader(f) && f[2] == button
    ensures f[1] == (if down then ButtonDownType else ButtonUpType)
  {
    [Version, if down then ButtonDownType else ButtonUpType, button]
  }

  /** A wheel turn: one little-endian int16 at offset 2. */
  function WheelFrame(delta: Int16): (f: seq<Byte>)
    ensures |f| == 4 && HasHeader(f) && f[1] == WheelType
  {
    [Version, WheelType] + Int16Bytes(delta)
  }

  /** A key press or release: the length of the code at offset 2, then the
      code's bytes. */
  function KeyFrame(down: bool, code: seq<Byte>): (f: seq<Byte>)
    requires |code| < 0x100
    ensures |f| == 3 + |code| && HasHeader(f) && f[2] as int == |code|
    ensures f[1] == (if down then KeyDownType else KeyUpType)
    ensures f[3..] == code
  {
    [Version, if down then KeyDownType else KeyUpType, |code| as Byte] + code
  }

  /** The code bytes of a key frame, when all of them arrived. */
  function KeyCode(f: seq<Byte>): (code: seq<Byte>)
    requires |f| >= 3 && 3 + f[2] as int <= |f|
    ensures |code| == f[2] as int
  {
    f[3..3 + f[2] as int]
  }

  /** Bytes past those a frame type reads change nothing that was read. */
  lemma KeyCodeExtended(f: seq<Byte>, extra: seq<Byte>)
    requires |f| >= 3 && 3 + f[2] as int <= |f|
    ensures KeyCode(f + extra) == KeyCode(f)
  {
    assert (f + extra)[3..3 + f[2] as int] == f[3..3 + f[2] as int];
  }

  lemma Int16Extended(f: seq<Byte>, at: nat, extra: seq<Byte>)
    requires at + 2 <= |f|
    ensures Int16At(f + extra, at) == Int16At(f, at)
  {
    assert (f + extra)[at] == f[at] && (f + extra)[at + 1] == f[at + 1];
  }

  lemma UInt32Extended(f: seq<Byte>, at: nat, extra: seq<Byte>)
    requires at + 4 <= |f|
    ensures UInt32At(f + extra, at) == UInt32At(f, at)
  {
    assert (f + extra)[at] == f[at] && (f + extra)[at + 1] == f[at + 1];
    assert (f + extra)[at + 2] == f[at + 2] && (f + extra)[at + 3] == f[at + 3];
  }

  /** Reading the fields of a built move frame gives back its deltas. */
  lemma MoveFields(dx: Int16, dy: Int16, rest: seq<Byte>)
    ensures Int16At(MoveFrame(dx, dy) + rest, 2) == dx
    ensures Int16At(MoveFrame(dx, dy) + rest, 4) == dy
  {
    var f := MoveFrame(dx, dy) + rest;
    assert f == [Version, MoveType] + Int16Bytes(dx) + (Int16Bytes(dy) + rest);
    Int16RoundTrip(dx, [Version, MoveType], Int16Bytes(dy) + rest);
    assert f == [Version, MoveType] + Int16Bytes(dx) + Int16Bytes(dy) + rest;
    Int16RoundTrip(dy, [Version, MoveType] + Int16Bytes(dx), rest);
  }

  lemma WheelField(delta: Int16, rest: seq<Byte>)
    ensures Int16At(WheelFrame(delta) + rest, 2) == delta
  {
    Int16RoundTrip(delta, [Version, WheelType], rest);
  }

  lemma KeyFrameCode(down: bool, code: seq<Byte>, rest: seq<Byte>)
    requires |code| < 0x100
    ensures var f := KeyFrame(down, code) + rest;
      |f| >= 3 && 3 + f[2] as int <= |f| && KeyCode(f) == code
  {
    KeyCodeExtended(KeyFrame(down, code), rest);
  }
}
