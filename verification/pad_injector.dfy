/**
  The gamepad injector (injector_pad.cpp): a persistent Xbox 360 report,
  starting all zero, that each valid gamepad frame overwrites and then
  sends to the virtual controller.

  A gamepad frame is the header (version 1, type 0x10), four little-endian
  int16 stick axes at offsets 2, 4, 6 and 8, the two trigger bytes at 10 and
  11, and a little-endian uint32 button mask at 12: sixteen bytes at least.
  The controller's button flags are symbolic here (PadButton), and the
  report's button word is the set of flags it holds.
 */
module PadInjector {
  import opened Wrappers
  import opened Bytes
  import opened Frame

  datatype PadButton =
    | A | B | X | Y
    | LeftShoulder | RightShoulder
    | Back | Start
    | LeftThumb | RightThumb
    | DpadUp | DpadDown | DpadLeft | DpadRight

  datatype Report = Report(
    thumbLX: Int16, thumbLY: Int16, thumbRX: Int16, thumbRY: Int16,
    leftTrigger: Byte, rightTrigger: Byte,
    buttons: set<PadButton>)

  /** The report before any frame arrives. */
  const ZeroReport := Report(0, 0, 0, 0, 0, 0, {})

  const PadFrameLength := 16

  /** The size of the receive buffer. */
  const RecvBuffer := 64

  /** Bit `i` of the mask sets flag `ButtonBits[i]`. */
  const ButtonBits := [A, B, X, Y, LeftShoulder, RightShoulder, Back, Start,
                       LeftThumb, RightThumb, DpadUp, DpadDown, DpadLeft, DpadRight]

  /** The mask bit that sets a flag. */
  function BitIndex(b: PadButton): (i: nat)
    ensures i < |ButtonBits| && ButtonBits[i] == b
  {
    match b
    case A => 0
    case B => 1
    case X => 2
    case Y => 3
    case LeftShoulder => 4
    case RightShoulder => 5
    case Back => 6
    case Start => 7
    case LeftThumb => 8
    case RightThumb => 9
    case DpadUp => 10
    case DpadDown => 11
    case DpadLeft => 12
    case DpadRight => 13
  }

  /** The `set(i, flag)` calls from bit `i` on, each adding its flag to the
      button word when its bit is set. */
  function SetFlags(mask: UInt32, i: nat, acc: set<PadButton>): (r: set<PadButton>)
    requires i <= |ButtonBits|
    decreases |ButtonBits| - i
  {
    if i == |ButtonBits| then acc
    else SetFlags(mask, i + 1, if Bit(mask, i) then acc + {ButtonBits[i]} else acc)
  }

  /** The button word a mask gives, starting from zero. */
  function Flags(mask: UInt32): set<PadButton>
  {
    SetFlags(mask, 0, {})
  }

  lemma {:induction false} SetFlagsHas(mask: UInt32, i: nat, acc: set<PadButton>, b: PadButton)
    requires i <= |ButtonBits|
    ensures b in SetFlags(mask, i, acc) <==> b in acc || (i <= BitIndex(b) && Bit(mask, BitIndex(b)))
    decreases |ButtonBits| - i
  {
    if i < |ButtonBits| {
      var next := if Bit(mask, i) then acc + {ButtonBits[i]} else acc;
      SetFlagsHas(mask, i + 1, next, b);
      BitOfIndex(i);
      assert b in next <==> b in acc || (Bit(mask, i) && BitIndex(b) == i);
    }
  }

  /** No two mask bits set the same flag. */
  lemma BitOfIndex(i: nat)
    requires i < |ButtonBits|
    ensures BitIndex(ButtonBits[i]) == i
  {
  }

  /** A flag is in the button word exactly when its bit is set. */
  lemma FlagsHas(mask: UInt32, b: PadButton)
    ensures b in Flags(mask) <==> Bit(mask, BitIndex(b))
  {
    SetFlagsHas(mask, 0, {}, b);
  }

  /** Bits 14 to 31 of the mask set no flag. */
  lemma HighBitsIgnored(mask: UInt32)
    ensures Flags(mask) == Flags(mask % 0x4000)
  {
    assert Pow2(14) == 0x4000;
    forall b: PadButton
      ensures b in Flags(mask) <==> b in Flags(mask % 0x4000)
    {
      FlagsHas(mask, b);
      FlagsHas(mask % 0x4000, b);
      HighBits(mask % 0x4000, mask / 0x4000, 14, BitIndex(b));
    }
  }

  /** The report a gamepad frame carries, when the frame is valid. */
  function Decode(f: seq<Byte>): (r: Option<Report>)
    ensures r.Some? <==> HasHeader(f) && f[1] == PadType && |f| >= PadFrameLength
  {
    if |f| < 2 || f[0] != Version then None
    else if f[1] == PadType && |f| >= PadFrameLength then
      Some(Report(Int16At(f, 2), Int16At(f, 4), Int16At(f, 6), Int16At(f, 8),
                  f[10], f[11], Flags(UInt32At(f, 12))))
    else None
  }

  /** What one frame does: the report kept afterwards, and the report sent
      to the controller, if any. */
  datatype Step = Step(report: Report, sent: Option<Report>)

  function Receive(rep: Report, f: seq<Byte>): (s: Step)
    ensures s.sent.Some? ==> s.sent.value == s.report
    ensures s.sent.None? ==> s.report == rep
  {
    if |f| < 2 || f[0] != Version then Step(rep, None)
    else if f[1] == PadType && |f| >= PadFrameLength then
      var buttons := UInt32At(f, 12);
      var updated := rep.(thumbLX := Int16At(f, 2), thumbLY := Int16At(f, 4),
                          thumbRX := Int16At(f, 6), thumbRY := Int16At(f, 8),
                          leftTrigger := f[10], rightTrigger := f[11],
                          buttons := Flags(buttons));
      Step(updated, Some(updated))
    else Step(rep, None)
  }

  /** A valid frame sends exactly the report it carries, whatever the report
      held before; any other frame sends nothing and keeps the report. */
  lemma ReceiveDecodes(rep: Report, f: seq<Byte>)
    ensures Receive(rep, f).sent == Decode(f)
    ensures Decode(f).None? ==> Receive(rep, f).report == rep
  {
  }

  /** The frames of a session in arrival order: the report kept at the end
      and the reports sent, in order. */
  datatype Session = Session(report: Report, sent: seq<Report>)

  function RunFrom(rep: Report, frames: seq<seq<Byte>>): (s: Session)
    decreases |frames|
  {
    if |frames| == 0 then Session(rep, [])
    else
      var step := Receive(rep, frames[0]);
      var rest := RunFrom(step.report, frames[1..]);
      Session(rest.report, (if step.sent.Some? then [step.sent.value] else []) + rest.sent)
  }

  function Run(frames: seq<seq<Byte>>): Session
  {
    RunFrom(ZeroReport, frames)
  }

  /** The reports the valid frames carry, in order. */
  function Carried(frames: seq<seq<Byte>>): (r: seq<Report>)
    ensures |r| <= |frames|
  {
    if |frames| == 0 then []
    else (if Decode(frames[0]).Some? then [Decode(frames[0]).value] else []) + Carried(frames[1..])
  }

  /** Each valid frame sends one update, with its own report, and nothing
      else does; the report kept is the last one sent, or the starting
      report when no frame was valid. */
  lemma {:induction false} RunSends(rep: Report, frames: seq<seq<Byte>>)
    ensures RunFrom(rep, frames).sent == Carried(frames)
    ensures RunFrom(rep, frames).report
      == if |Carried(frames)| == 0 then rep else Carried(frames)[|Carried(frames)| - 1]
    decreases |frames|
  {
    if |frames| > 0 {
      ReceiveDecodes(rep, frames[0]);
      RunSends(Receive(rep, frames[0]).report, frames[1..]);
    }
  }

  /** A session sends the reports its valid frames carry, and before the
      first valid frame the report is all zero. */
  lemma RunFromZero(frames: seq<seq<Byte>>)
    ensures Run(frames).sent == Carried(frames)
    ensures |Carried(frames)| == 0 ==> Run(frames).report == ZeroReport
  {
    RunSends(ZeroReport, frames);
  }

  // ---------------------------------------------------------------------
  // Building gamepad frames
  // ---------------------------------------------------------------------

  /** The number whose bits, lowest first, are the given ones. */
  function Pack(bits: seq<bool>): (m: nat)
    ensures m < Pow2(|bits|)
  {
    if |bits| == 0 then 0
    else 2 * Pack(bits[1..]) + (if bits[0] then 1 else 0)
  }

  lemma {:induction false} PackBit(bits: seq<bool>, n: nat)
    requires n < |bits|
    ensures Bit(Pack(bits), n) == bits[n]
  {
    var m := Pack(bits[1..]);
    var b := if bits[0] then 1 else 0;
    assert Pack(bits) == 2 * m + b;
    if n > 0 {
      assert (2 * m + b) / 2 == m;
      PackBit(bits[1..], n - 1);
    } else {
      assert (2 * m + b) % 2 == b;
    }
  }

  /** The mask with exactly the bits of the given flags set. */
  function Mask(buttons: set<PadButton>): (m: UInt32)
    ensures m < 0x4000
  {
    assert Pow2(14) == 0x4000;
    Pack(seq(|ButtonBits|, i requires 0 <= i < |ButtonBits| => ButtonBits[i] in buttons))
  }

  lemma MaskFlags(buttons: set<PadButton>)
    ensures Flags(Mask(buttons)) == buttons
  {
    var bits := seq(|ButtonBits|, i requires 0 <= i < |ButtonBits| => ButtonBits[i] in buttons);
    forall b: PadButton
      ensures b in Flags(Mask(buttons)) <==> b in buttons
    {
      FlagsHas(Mask(buttons), b);
      PackBit(bits, BitIndex(b));
    }
  }

  /** The sixteen bytes of a gamepad frame carrying a report. */
  function PadFrame(r: Report): (f: seq<Byte>)
    ensures |f| == PadFrameLength && HasHeader(f) && f[1] == PadType
  {
    [Version, PadType]
      + Int16Bytes(r.thumbLX) + Int16Bytes(r.thumbLY)
      + Int16Bytes(r.thumbRX) + Int16Bytes(r.thumbRY)
      + [r.leftTrigger, r.rightTrigger]
      + UInt32Bytes(Mask(r.buttons))
  }

  lemma Int16Field(f: seq<Byte>, at: nat, v: Int16)
    requires at + 2 <= |f| && f[at] == Int16Bytes(v)[0] && f[at + 1] == Int16Bytes(v)[1]
    ensures Int16At(f, at) == v
  {
    assert f == f[..at] + Int16Bytes(v) + f[at + 2..];
    Int16RoundTrip(v, f[..at], f[at + 2..]);
  }

  lemma UInt32Field(f: seq<Byte>, at: nat, v: UInt32)
    requires at + 4 <= |f| && f[at..at + 4] == UInt32Bytes(v)
    ensures UInt32At(f, at) == v
  {
    assert f == f[..at] + UInt32Bytes(v) + f[at + 4..];
    UInt32RoundTrip(v, f[..at], f[at + 4..]);
  }

  /** A report's frame decodes to that report, whatever follows it. */
  lemma PadRoundTrip(r: Report, rest: seq<Byte>)
    ensures Decode(PadFrame(r) + rest) == Some(r)
  {
    var f := PadFrame(r) + rest;
    var head := [Version, PadType] + Int16Bytes(r.thumbLX) + Int16Bytes(r.thumbLY) + Int16Bytes(r.thumbRX);
    assert f == head + Int16Bytes(r.thumbRY) + ([r.leftTrigger, r.rightTrigger] + UInt32Bytes(Mask(r.buttons)) + rest);
    Int16Field(f, 2, r.thumbLX);
    Int16Field(f, 4, r.thumbLY);
    Int16Field(f, 6, r.thumbRX);
    Int16Field(f, 8, r.thumbRY);
    UInt32Field(f, 12, Mask(r.buttons));
    MaskFlags(r.buttons);
  }

  /** Once a frame is valid, more bytes after it change nothing, as long as
      the datagram still fits the receive buffer (a longer one fails `recv`
      and is skipped). */
  lemma ExtraBytesIgnored(f: seq<Byte>, extra: seq<Byte>)
    requires Decode(f).Some? && |f + extra| <= RecvBuffer
    ensures Decode(f + extra) == Decode(f)
  {
    Int16Extended(f, 2, extra);
    Int16Extended(f, 4, extra);
    Int16Extended(f, 6, extra);
    Int16Extended(f, 8, extra);
    UInt32Extended(f, 12, extra);
  }
}
