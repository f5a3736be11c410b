# Remote input: gateway gating, injector frame decoders and key tables

This project models the deterministic core of a remote-input relay, in two separate parts.

**The gateway** (`remote-input/server/gateway.py`) accepts WebRTC data-channel messages.
- A text message is parsed as JSON and classified by its `"t"` field (`"key"`, `"mouse"`, `"pad"`).
- It is checked against the session's configuration and, if allowed, forwarded as one UDP datagram.
- Keyboard and mouse events go to the keyboard/mouse sender; gamepad events go to the gamepad sender.
- Binary messages, malformed JSON and disabled or unknown kinds are dropped silently.
- A datagram is the event re-serialised with `json.dumps`, followed by a newline and encoded as UTF-8.

**The injectors** are three UDP consumers of binary frames:
- the C# keyboard/mouse injector (`Program.cs`, with the `KeyMap.cs` table);
- the C++ keyboard/mouse injector (`injector_hid.cpp`, with its HID usage table);
- the C++ gamepad injector (`injector_pad.cpp`).

A frame is laid out as follows:
- byte 0 is the version, which must be 1;
- byte 1 is the type;
- the payload starts at byte 2. There is no length field.

Each decoder works in the same way:
- it checks the header and switches on the type;
- it applies a minimum length per type;
- it reads little-endian `int16`/`uint32` fields.

Key frames carry a length-prefixed key-code string. The decoders map that string through a table:
- the C# injector maps it to a Windows Forms key;
- the C++ injector maps it to a USB HID Keyboard/Keypad usage.

The gamepad injector keeps a persistent Xbox 360 report. Each valid frame overwrites the report and sends it to the virtual controller.

Modules:
- `Wrappers`: the `Option` type.
- `Bytes`: bytes, little-endian `int16`/`uint32` fields, and bit tests.
- `Frame`: the frame header, type codes and frame builders.
- `Utf8`:
  - .NET `Encoding.UTF8.GetString`, which replaces each maximal ill-formed subpart with U+FFFD;
  - Python `str.encode("utf-8")`.
- `JsonValue`, `JsonEncode`, `JsonDecode`, `JsonRoundTrip` and `JsonFacts`: Python's `json.dumps` (default settings) and `json.loads` on the non-float value shapes, and the facts the gateway relies on.
- `Gateway`: `load_config`, the `handle` gate, datagram framing, and a session.
- `KeyMap`: `KeyMap.MapCodeToKey`, split into the source's comment groups.
- `HidUsage`: `kCodeToUsage` and `map_code`.
- `CsInjector`, `HidInjector` and `PadInjector`: the three receive loops, one frame at a time.

The calls into VirtualInput, the `vi_*` stubs and ViGEm are modelled as the constructors of an `Action` datatype, or as a sent report.

What the code does not have:
- **Frame layout:** the injectors read the payload from byte 2. There is no payload-length field.
- **Configuration:** `config.json` is read once per negotiated session and used as parsed. Nothing toggles a capability afterwards.
- **Binary messages:** the gateway drops every binary message. It sends no control frame of its own.

## Model

| member | source | states |
|---|---|---|
| Gateway.LoadConfig | remote-input/server/gateway.py:11-14 | Without config.json the configuration is the defaults. Otherwise it is what the JSON parser makes of the file, which is always well formed (unique keys). A file holding a float gives None (see Left out). |
| Gateway.Defaults | remote-input/server/gateway.py:11-14 | The defaults enable keyboard and mouse input and disable gamepad input. |
| Gateway.AbsentDisabled | remote-input/server/gateway.py:38-40 | A capability missing from a dict configuration is disabled, because `config.get` returns None. |
| Gateway.BinaryDropped | remote-input/server/gateway.py:34-35 | A `bytes`/`bytearray` message is never forwarded. |
| Gateway.KeyGated | remote-input/server/gateway.py:38 | A `"key"` event is sent iff `keyboard` is truthy, and then only to the keyboard/mouse sender, carrying that event. |
| Gateway.MouseGated | remote-input/server/gateway.py:39 | A `"mouse"` event is sent iff `mouse` is truthy, and then only to the keyboard/mouse sender. |
| Gateway.PadGated | remote-input/server/gateway.py:40 | A `"pad"` event is sent iff `gamepad` is truthy, and then only to the gamepad sender. |
| Gateway.OthersDropped | remote-input/server/gateway.py:33-42 | Each of these yields no send: unparsable text, JSON that is not an object, or a missing or unknown `"t"`. |
| Gateway.SinksSeparate | remote-input/server/gateway.py:38-40 | Anything forwarded was a JSON object. It reaches the gamepad sender exactly when its `"t"` is `"pad"`, so key and mouse events never reach the pad and pad events never reach the keyboard/mouse sender. |
| Gateway.DatagramFraming | remote-input/server/gateway.py:20 | A datagram is the serialised event as ASCII bytes, then one 0x0A byte. No other byte is 0x0A. |
| Gateway.Forwarded | remote-input/server/gateway.py:20 | Stripping the newline from a forwarded datagram, decoding it and parsing it gives back the event the message carried. The same holds with the newline left in. |
| Gateway.ServeForwards | remote-input/server/gateway.py:27-42 | Every send of a session is what handling one of its messages under the session's one configuration sends. |
| Gateway.ServeComplete | remote-input/server/gateway.py:27-44 | Whatever handling a message of the session sends, the session sends. This is the converse of ServeForwards. |
| Gateway.ServeCount | remote-input/server/gateway.py:27-44 | A session sends exactly once per message that handling forwards. |
| Gateway.ServeAppend | remote-input/server/gateway.py:43-44 | The sends of a session are those of its first messages followed by those of the rest. |
| Gateway.Serve | remote-input/server/gateway.py:27-44 | A session sends at most once per message. Its content is stated by ServeForwards, ServeComplete, ServeCount and ServeAppend. |
| Gateway.Handle | remote-input/server/gateway.py:32-42 | No contract of its own: `handle` for one message under a configuration. What it sends, where, and when is stated by KeyGated, MouseGated, PadGated, OthersDropped, BinaryDropped, SinksSeparate and Forwarded. |
| Gateway.Datagram | remote-input/server/gateway.py:20 | The datagram is one byte longer than the serialised event and ends in 0x0A. DatagramFraming and Forwarded state the rest. |
| Gateway.NoPadWhenDisabled | remote-input/server/gateway.py:27-42 | A session whose configuration disables the gamepad sends nothing to the gamepad sender, whatever its messages. |
| JsonEncode.Serialize | remote-input/server/gateway.py:20 | `json.dumps` output is non-empty and starts a JSON value. Its meaning is stated by JsonRoundTrip.ParseSerialize and JsonFacts.SerializePrintable. |
| JsonDecode.Parse | remote-input/server/gateway.py:36 | No contract of its own: `json.loads`, or None where it raises. It is related to Serialize by JsonRoundTrip.ParseSerialize and to well-formedness by JsonFacts.ParseWellFormed. |
| JsonRoundTrip.ParseSerialize | remote-input/server/gateway.py:20 | `json.loads(json.dumps(v))` gives back `v` for every value `json.loads` can return, with or without the trailing newline. |
| JsonFacts.SerializePrintable | remote-input/server/gateway.py:20 | `json.dumps` output is printable ASCII, so it holds no newline. |
| JsonFacts.ParseWellFormed | remote-input/server/gateway.py:36 | Every value `json.loads` returns has unique dict keys and no split surrogate pair. |
| Utf8.Decode | Program.cs:92 | `Encoding.UTF8.GetString` yields at most one character per byte. Utf8.DecodeEncode and Utf8.DecodeAscii relate it to encoding. |
| Utf8.DecodeEncode | Program.cs:92 | `Encoding.UTF8.GetString` undoes UTF-8 encoding for every string. |
| Utf8.DecodeAscii | Program.cs:92 | Decoded text is ASCII iff the bytes are. ASCII bytes decode one character per byte. |
| Utf8.EncodeAsciiText | remote-input/server/gateway.py:20 | An ASCII text encodes to one byte per character, the same character. |
| Bytes.Int16At | Program.cs:49-50 | A little-endian int16 read is negative iff the high byte's top bit is set. |
| Bytes.Int16RoundTrip | Program.cs:49-50 | Reading back a written int16 gives the value, wherever it sits. |
| Bytes.UInt32RoundTrip | remote-input/injectors/cpp-pad/injector_pad.cpp:36 | Reading back a written uint32 gives the value. |
| CsInjector.ButtonOf | Program.cs:60-63 | A button byte names a button iff it is 0, 1 or 2. |
| CsInjector.Decode | Program.cs:38-106 | These frames make no action: a frame without a 2-byte version-1 header, an unknown type, or one shorter than its type's minimum. A key action needs all n code bytes present and never carries `Keys.None`. |
| CsInjector.MouseRoundTrip | Program.cs:46-83 | Move, button and wheel frames decode to their action (little-endian int16 at offsets 2/4 and 2; button byte at 2), whatever bytes follow. |
| CsInjector.MouseFrameOf | Program.cs:46-83 | A frame that decodes to a mouse action begins with exactly that action's frame. |
| CsInjector.UnknownButton | Program.cs:57-75 | A button byte other than 0, 1 or 2 makes no action. |
| CsInjector.KeyRoundTrip | Program.cs:85-101 | A 0x04/0x05 frame carrying a code's UTF-8 bytes presses/releases the key the code maps to, and does nothing for `Keys.None`. |
| CsInjector.NonAsciiCodeIgnored | Program.cs:89-98 | A key code with any byte from 0x80 up makes no action. |
| CsInjector.ExtraBytesIgnored | Program.cs:44-106 | Bytes after a decodable frame change nothing, because every length check is a lower bound. |
| KeyMap.MapCodeToKey | remote-input/injectors/csharp-hid/KeyMap.cs:7-82 | No contract of its own: the switch, one comment group at a time. The KeyMap lemmas below state what it maps. |
| KeyMap.Listed | remote-input/injectors/csharp-hid/KeyMap.cs:7-82 | A code maps to a key other than `Keys.None` iff it is one of the listed codes (and not one listed as None). |
| KeyMap.NonAsciiUnmapped | remote-input/injectors/csharp-hid/KeyMap.cs:7-82 | Every non-ASCII code maps to `Keys.None`. |
| KeyMap.LetterInOrder | remote-input/injectors/csharp-hid/KeyMap.cs:10-16 | `KeyA`..`KeyZ` map to A..Z in order. |
| KeyMap.DigitInOrder | remote-input/injectors/csharp-hid/KeyMap.cs:19-22 | `Digit0`..`Digit9` map to D0..D9 in order. |
| KeyMap.FunctionKeyInOrder | remote-input/injectors/csharp-hid/KeyMap.cs:25-30 | `F1`..`F24` map to F1..F24 in order. |
| KeyMap.SideSpecificModifiers | remote-input/injectors/csharp-hid/KeyMap.cs:33-36 | The eight modifier codes map to eight distinct, non-None, side-specific keys. |
| KeyMap.EnterShared | remote-input/injectors/csharp-hid/KeyMap.cs:46-66 | `Enter` and `NumpadEnter` both map to Enter, so the map is not injective. |
| KeyMap.Oem5Shared | remote-input/injectors/csharp-hid/KeyMap.cs:53-73 | `Backslash` and `IntlBackslash` both map to Oem5. |
| KeyMap.InternationalUnmapped | remote-input/injectors/csharp-hid/KeyMap.cs:74-79 | `IntlRo`, `IntlYen`, `KanaMode`, `NonConvert`, `Convert`, `HangulMode` and `Hanja` map to `Keys.None`. |
| HidUsage.MapCode | injector_hid.cpp:40-43 | No contract of its own: the `kCodeToUsage` lookup, with 0 for a miss. The HidUsage lemmas below state what it maps. |
| HidUsage.Listed | injector_hid.cpp:13-43 | `map_code` is non-zero iff the code is in the table, and 0 otherwise. |
| HidUsage.Injective | injector_hid.cpp:13-38 | No two codes share a non-zero usage. |
| HidUsage.LetterUsages | injector_hid.cpp:14-20 | `KeyA`..`KeyZ` map to 0x04..0x1D consecutively. |
| HidUsage.DigitUsages | injector_hid.cpp:21-23 | `Digit1`..`Digit9` map to 0x1E..0x26, and `Digit0` maps to 0x27. |
| HidUsage.FunctionKeyUsages | injector_hid.cpp:29-31 | `F1`..`F12` map to 0x3A..0x45. |
| HidUsage.TableWithinKeyMap | injector_hid.cpp:13-38 | Every code with a usage also maps to a key in the C# table. |
| HidUsage.NumpadOnlyInKeyMap | injector_hid.cpp:13-38 | The numpad digit codes have no usage, though the C# table maps them. |
| HidInjector.Decode | injector_hid.cpp:59-80 | These frames make no action: a frame without a 2-byte version-1 header, an unknown type, or one below its type's minimum. A key action needs all n code bytes present and a non-zero usage. |
| HidInjector.MouseRoundTrip | injector_hid.cpp:61-69 | Move, button and wheel frames decode to their action whatever follows. Every button byte is passed through unfiltered. |
| HidInjector.MouseFrameOf | injector_hid.cpp:61-69 | A frame that decodes to a mouse action begins with that action's frame. |
| HidInjector.SameUsage | injector_hid.cpp:74-75 | Reading a code's UTF-8 bytes one character per byte gives the same usage as the code. |
| HidInjector.KeyRoundTrip | injector_hid.cpp:70-79 | A key frame carrying a code's UTF-8 bytes presses/releases that code's usage, and does nothing for usage 0. |
| HidInjector.ExtraBytesIgnored | injector_hid.cpp:56-80 | Bytes after a decodable frame change nothing, while the datagram fits the 1024-byte buffer. |
| HidInjector.MouseAgrees | injector_hid.cpp:61-69 | On mouse frames the C# injector does the same move, wheel turn or button action, but drops button bytes above 2. It never acts where this one does not. |
| HidInjector.KeysAgree | injector_hid.cpp:70-79 | Whenever the C++ injector presses or releases a key, the C# injector does too, for the key that code names. |
| HidInjector.NumpadOnlyInCs | injector_hid.cpp:70-79 | A numpad key frame acts through the C# injector but not through the C++ one, so KeysAgree has no converse. |
| PadInjector.Flags | remote-input/injectors/cpp-pad/injector_pad.cpp:45-60 | No contract of its own: the button word rebuilt from zero by the fourteen `set` calls. FlagsHas and HighBitsIgnored state it. |
| PadInjector.FlagsHas | remote-input/injectors/cpp-pad/injector_pad.cpp:45-60 | A flag is in the rebuilt button word iff its mask bit is set. Bit 0 is A through bit 13, DPad right. |
| PadInjector.HighBitsIgnored | remote-input/injectors/cpp-pad/injector_pad.cpp:46-60 | Bits 14..31 of the mask have no effect on the buttons. |
| PadInjector.Decode | remote-input/injectors/cpp-pad/injector_pad.cpp:27-36 | A frame carries a report iff it has the version-1 header, type 0x10 and at least 16 bytes. |
| PadInjector.PadRoundTrip | remote-input/injectors/cpp-pad/injector_pad.cpp:29-43 | A report's frame decodes to that report, whatever follows. The fields are the sticks at 2/4/6/8, the triggers at 10/11 and the mask at 12. |
| PadInjector.ExtraBytesIgnored | remote-input/injectors/cpp-pad/injector_pad.cpp:24-36 | Bytes past the sixteenth change nothing, while the datagram fits the 64-byte buffer. |
| PadInjector.Receive | remote-input/injectors/cpp-pad/injector_pad.cpp:27-62 | An invalid frame sends nothing and keeps the report. A valid one sends the report it keeps. |
| PadInjector.ReceiveDecodes | remote-input/injectors/cpp-pad/injector_pad.cpp:38-62 | A valid frame sends exactly the report it carries, whatever the report held before, so no earlier state leaks through. |
| PadInjector.RunSends | remote-input/injectors/cpp-pad/injector_pad.cpp:22-62 | Over a run of frames, each valid frame sends one update with its own report, in order, and nothing else does. The report kept is the last one sent, or the starting one. |
| PadInjector.RunFromZero | remote-input/injectors/cpp-pad/injector_pad.cpp:22 | The report starts all zero and stays so until a valid frame arrives. |

## Left out

- **Sockets and process setup:** socket setup, binding, `WSAStartup`, VirtualInput/ViGEm initialisation and its failure exits are not modelled. The injectors are modelled from the datagram received.
- **C# exception handling:** the C# catch-and-log around the dispatch (Program.cs:108-112) is left out. Nothing in the modelled decode throws; only the VirtualInput calls could, and those are constructors here.
- HidInjector.Decode: accepts a datagram of any length. The program's 1024-byte buffer makes `recv` fail on a longer datagram on Windows, and the frame is skipped. A key frame is at most 258 bytes. `HidInjector.ExtraBytesIgnored` is stated only within the buffer (`HidInjector.RecvBuffer`).
- PadInjector.Decode: accepts a frame of any length from 16 bytes up. The program's 64-byte buffer makes `recv` fail on a longer datagram on Windows, and the frame is skipped. `PadInjector.ExtraBytesIgnored` is stated only within the buffer (`PadInjector.RecvBuffer`).
- **Numeric values:** the numeric values of Windows Forms `Keys` and of the `XUSB_GAMEPAD_*` flags are not modelled. They are symbolic constructors (`KeyMap.Keys`, `PadInjector.PadButton`), and the button word is the set of flags it holds.
- **Gateway plumbing:**
  - WebRTC negotiation (gateway.py:25-31, 43-57), the aiohttp app, and `run_in_executor` are left out.
  - `create_task` is left out. The source schedules each `handle` call as its own task, so the order of a session's sends is not guaranteed.
  - A failing `sendto` is not modelled. The handler swallows it; the model counts the send as made.
- Gateway.ServeAppend: the message order it states is the model's. Because of `create_task`, the program promises only the set of sends (`Gateway.ServeForwards`, `Gateway.ServeComplete`) and their number (`Gateway.ServeCount`).
- Gateway.LoadConfig:
  - It takes config.json as already-decoded text. A file that is not valid UTF-8 is not modelled.
  - A file that `json.loads` rejects is None. In the source, the negotiation fails with an exception.
  - A config.json holding a float (a fraction, an exponent, `NaN` or `Infinity`) is also None, because this JSON model does not parse floats. Python loads such a file, and the session goes ahead with it.
- Gateway.Handle: the JSON model has no floats. A number with a fraction or exponent, `NaN` or `Infinity` makes `JsonDecode.Parse` fail, so such a message is dropped here, where Python would forward it.
- Gateway.Handle: CPython's limits are not modelled. These are the recursion limit on deeply nested documents and the 4300-digit limit on int conversion. The model parses and serialises any depth and any integer, where Python would raise and drop the message.
- KeyMap.MapCodeToKey: no inverse from keys back to codes is modelled, because several codes share a key (`KeyMap.EnterShared`). Its round trip is stated from codes to keys instead (`CsInjector.KeyRoundTrip`).
- **Byte representation:** bytes are an integer newtype (`Bytes.Byte`) rather than `bv8`. The little-endian reads are written out arithmetically.
- **Restructuring script:** `restructure_remote_input.py` is a one-off file-layout script, not part of the input path, and is not modelled.
- **Gateway and injectors are not connected:** the gateway's JSON datagrams go to ports 41234/41235, while the binary injectors listen on 9999/9998. No property here relates the two halves.
