/**
  The gateway's data-channel handler (gateway.py): each text message is
  parsed as JSON, classified by its "t" field and, when the session's
  configuration enables that kind of input, forwarded as one UDP datagram to
  the keyboard/mouse port (41234) or to the gamepad port (41235). Binary and
  malformed messages are dropped, and every exception the handler meets is
  swallowed, which here is a result of None.

  A datagram is the event written back out with `json.dumps`, a newline,
  and UTF-8 encoding.
 */
module Gateway {
  import opened Wrappers
  import opened Bytes
  import opened JsonValue
  import opened JsonEncode
  import opened JsonDecode
  import JsonFacts
  import JsonRoundTrip
  import Utf8

  /** A data-channel message: a `str` or a `bytes`/`bytearray`. */
  datatype Message = Text(text: string) | Binary(data: seq<Byte>)

  /** The two UDP senders of a session. */
  datatype Sink = KeyMouse | Gamepad

  const KeyboardCap := Py("keyboard")
  const MouseCap := Py("mouse")
  const GamepadCap := Py("gamepad")

  /** The configuration used when there is no config.json. */
  const DefaultConfig := Obj([Member(KeyboardCap, Bool(true)), Member(MouseCap, Bool(true)),
                              Member(GamepadCap, Bool(false))])

  /** `load_config()`: the parsed contents of config.json when the file
      exists (given here as its text), the defaults otherwise. None is a
      file that `json.loads` rejects, so that the negotiation fails, or one
      holding a float, which this JSON model does not parse. */
  function LoadConfig(file: Option<string>): (r: Option<Json>)
    ensures file.None? ==> r == Some(DefaultConfig)
    ensures file.Some? ==> r == Parse(file.value)
    ensures r.Some? ==> WellFormed(r.value)
  {
    match file
    case None =>
      assert DistinctKeys(DefaultConfig.members);
      Some(DefaultConfig)
    case Some(text) =>
      if Parse(text).Some? then JsonFacts.ParseWellFormed(text); Parse(text) else None
  }

  /** `config.get(cap)` is truthy. A configuration that is not a dict makes
      `config.get` raise, which the handler swallows: nothing is enabled. */
  predicate Enabled(config: Json, cap: PyString)
  {
    config.Obj? && Get(config.members, cap).Some? && Truthy(Get(config.members, cap).value)
  }

  /** `(json.dumps(msg) + "\n").encode("utf-8")`. */
  function Datagram(evt: Json): (d: seq<Byte>)
    ensures |d| == |Serialize(evt)| + 1 && d[|d| - 1] == 0x0A
  {
    var s := Serialize(evt);
    JsonFacts.SerializePrintable(evt);
    PrintableAscii(s);
    Utf8.EncodeAsciiText(s + "\n");
    Utf8.Encode(s + "\n")
  }

  /** The event's "t" field is the given string. */
  predicate HasType(ms: seq<Member>, t: string)
  {
    Get(ms, Py("t")) == Some(Str(Py(t)))
  }

  /** No "t" field names two kinds at once. */
  lemma TypesDistinct(ms: seq<Member>)
    ensures !(HasType(ms, "key") && HasType(ms, "mouse"))
    ensures !(HasType(ms, "key") && HasType(ms, "pad"))
    ensures !(HasType(ms, "mouse") && HasType(ms, "pad"))
  {
    assert Py("pad") != Py("key") by { assert Py("pad")[0] != Py("key")[0]; }
    assert Py("mouse") != Py("key") by { assert |Py("mouse")| != |Py("key")|; }
    assert Py("pad") != Py("mouse") by { assert |Py("pad")| != |Py("mouse")|; }
  }

  /** `handle(message)`: where the message goes, and the datagram sent. */
  function Handle(m: Message, config: Json): (r: Option<(Sink, seq<Byte>)>)
  {
    match m
    case Binary(_) => None
    case Text(text) =>
      match Parse(text)
      case None => None
      case Some(evt) =>
        if !evt.Obj? then None
        else if HasType(evt.members, "key") && Enabled(config, KeyboardCap) then Some((KeyMouse, Datagram(evt)))
        else if HasType(evt.members, "mouse") && Enabled(config, MouseCap) then Some((KeyMouse, Datagram(evt)))
        else if HasType(evt.members, "pad") && Enabled(config, GamepadCap) then Some((Gamepad, Datagram(evt)))
        else None
  }

  // ---------------------------------------------------------------------
  // What gets forwarded, and where
  // ---------------------------------------------------------------------

  /** A binary message is never forwarded. */
  lemma BinaryDropped(data: seq<Byte>, config: Json)
    ensures Handle(Binary(data), config) == None
  {
  }

  /** The event a text message carries: a JSON object. */
  predicate IsEvent(text: string)
  {
    Parse(text).Some? && Parse(text).value.Obj?
  }

  /** A "key" event goes to the keyboard/mouse sender exactly when the
      keyboard is enabled, and nowhere otherwise. */
  lemma KeyGated(text: string, config: Json)
    requires IsEvent(text) && HasType(Parse(text).value.members, "key")
    ensures Handle(Text(text), config).Some? <==> Enabled(config, KeyboardCap)
    ensures Handle(Text(text), config).Some? ==>
      Handle(Text(text), config).value == (KeyMouse, Datagram(Parse(text).value))
  {
    TypesDistinct(Parse(text).value.members);
  }

  /** A "mouse" event goes to the keyboard/mouse sender exactly when the
      mouse is enabled. */
  lemma MouseGated(text: string, config: Json)
    requires IsEvent(text) && HasType(Parse(text).value.members, "mouse")
    ensures Handle(Text(text), config).Some? <==> Enabled(config, MouseCap)
    ensures Handle(Text(text), config).Some? ==>
      Handle(Text(text), config).value == (KeyMouse, Datagram(Parse(text).value))
  {
    TypesDistinct(Parse(text).value.members);
  }

  /** A "pad" event goes to the gamepad sender exactly when the gamepad is
      enabled. */
  lemma PadGated(text: string, config: Json)
    requires IsEvent(text) && HasType(Parse(text).value.members, "pad")
    ensures Handle(Text(text), config).Some? <==> Enabled(config, GamepadCap)
    ensures Handle(Text(text), config).Some? ==>
      Handle(Text(text), config).value == (Gamepad, Datagram(Parse(text).value))
  {
    TypesDistinct(Parse(text).value.members);
  }

  /** Text that does not parse, JSON that is not an object, and an object
      whose "t" is missing or names no known kind are all dropped. */
  lemma OthersDropped(text: string, config: Json)
    requires !IsEvent(text)
      || (!HasType(Parse(text).value.members, "key") && !HasType(Parse(text).value.members, "mouse")
          && !HasType(Parse(text).value.members, "pad"))
    ensures Handle(Text(text), config) == None
  {
  }

  /** Key and mouse events only ever reach the keyboard/mouse sender, and
      pad events only the gamepad sender. */
  lemma SinksSeparate(m: Message, config: Json)
    requires Handle(m, config).Some?
    ensures m.Text? && IsEvent(m.text)
    ensures var ms := Parse(m.text).value.members;
      Handle(m, config).value.0 == Gamepad <==> HasType(ms, "pad") && !HasType(ms, "key") && !HasType(ms, "mouse")
  {
    TypesDistinct(Parse(m.text).value.members);
  }

  // ---------------------------------------------------------------------
  // Configuration
  // ---------------------------------------------------------------------

  /** A capability missing from a dict configuration is disabled. */
  lemma AbsentDisabled(ms: seq<Member>, cap: PyString)
    requires !HasKey(ms, cap)
    ensures !Enabled(Obj(ms), cap)
  {
  }

  /** Without config.json, keyboard and mouse input are forwarded and
      gamepad input is not. */
  lemma Defaults()
    ensures LoadConfig(None) == Some(DefaultConfig)
    ensures Enabled(DefaultConfig, KeyboardCap) && Enabled(DefaultConfig, MouseCap)
    ensures !Enabled(DefaultConfig, GamepadCap)
  {
    var ms := DefaultConfig.members;
    assert MouseCap != KeyboardCap by { assert |MouseCap| != |KeyboardCap|; }
    assert GamepadCap != KeyboardCap by { assert |GamepadCap| != |KeyboardCap|; }
    assert GamepadCap != MouseCap by { assert |GamepadCap| != |MouseCap|; }
    assert Get(ms, MouseCap) == Get(ms[1..], MouseCap);
    assert Get(ms, GamepadCap) == Get(ms[1..], GamepadCap) == Get(ms[2..], GamepadCap);
  }

  // ---------------------------------------------------------------------
  // The datagram
  // ---------------------------------------------------------------------

  lemma PrintableAscii(s: string)
    requires Printable(s)
    ensures Utf8.IsAscii(s + "\n")
  {
  }

  /** The datagram is the ASCII text of the event followed by one newline
      byte, and holds no other newline. */
  lemma {:induction false} DatagramFraming(evt: Json)
    ensures var d := Datagram(evt);
      d[|d| - 1] == 0x0A
      && (forall i :: 0 <= i < |d| - 1 ==> d[i] != 0x0A)
      && Chars(d[..|d| - 1]) == Serialize(evt)
  {
    var s := Serialize(evt);
    JsonFacts.SerializePrintable(evt);
    PrintableAscii(s);
    Utf8.EncodeAsciiText(s + "\n");
    var d := Datagram(evt);
    assert Chars(d) == s + "\n";
    forall i | 0 <= i < |d| - 1
      ensures d[i] != 0x0A
    {
      assert Chars(d)[i] == s[i];
    }
    assert Chars(d[..|d| - 1]) == Chars(d)[..|d| - 1];
  }

  /** What a forwarded datagram says: stripping its one newline, decoding
      and parsing gives back the event the message carried. */
  lemma Forwarded(m: Message, config: Json)
    requires Handle(m, config).Some?
    ensures var d := Handle(m, config).value.1;
      d[|d| - 1] == 0x0A
      && (forall i :: 0 <= i < |d| - 1 ==> d[i] != 0x0A)
      && Parse(Utf8.Decode(d[..|d| - 1])) == Parse(m.text)
      && Parse(Utf8.Decode(d)) == Parse(m.text)
  {
    var evt := Parse(m.text).value;
    var d := Datagram(evt);
    var s := Serialize(evt);
    DatagramFraming(evt);
    JsonFacts.ParseWellFormed(m.text);
    JsonRoundTrip.ParseSerialize(evt);
    Utf8.DecodeEncode(s + "\n");
    JsonFacts.SerializePrintable(evt);
    PrintableAscii(s);
    Utf8.EncodeAsciiText(s + "\n");
    assert d[..|d| - 1] == Utf8.AsciiOf(s + "\n")[..|s|];
    AsciiPrefix(s, "\n");
    Utf8.EncodeAsciiText(s);
    Utf8.DecodeEncode(s);
  }

  lemma AsciiPrefix(s: string, t: string)
    requires Utf8.IsAscii(s + t)
    ensures Utf8.IsAscii(s)
    ensures Utf8.AsciiOf(s + t)[..|s|] == Utf8.AsciiOf(s)
  {
    assert forall i :: 0 <= i < |s| ==> (s + t)[i] == s[i];
  }

  // ---------------------------------------------------------------------
  // A session
  // ---------------------------------------------------------------------

  /** The values of the present entries, in order. */
  function Present<T>(xs: seq<Option<T>>): (r: seq<T>)
    ensures |r| <= |xs|
  {
    if |xs| == 0 then []
    else (if xs[0].Some? then [xs[0].value] else []) + Present(xs[1..])
  }

  /** Every value kept comes from one of the entries. */
  lemma {:induction false} PresentFrom<T>(xs: seq<Option<T>>)
    ensures forall i :: 0 <= i < |Present(xs)| ==> exists j :: 0 <= j < |xs| && xs[j] == Some(Present(xs)[i])
  {
    if |xs| > 0 {
      PresentFrom(xs[1..]);
      var head := if xs[0].Some? then [xs[0].value] else [];
      var tail := Present(xs[1..]);
      forall i | 0 <= i < |Present(xs)|
        ensures exists j :: 0 <= j < |xs| && xs[j] == Some(Present(xs)[i])
      {
        if i < |head| {
          assert xs[0] == Some(Present(xs)[i]);
        } else {
          assert Present(xs)[i] == tail[i - |head|];
          var j :| 0 <= j < |xs[1..]| && xs[1..][j] == Some(tail[i - |head|]);
          assert xs[j + 1] == xs[1..][j];
        }
      }
    } else {
      assert |Present(xs)| == 0;
    }
  }

  /** What each message of a session leads to: its configuration, loaded
      once when the session is negotiated, applied to every message. */
  function Outcomes(config: Json, messages: seq<Message>): (r: seq<Option<(Sink, seq<Byte>)>>)
    ensures |r| == |messages|
  {
    seq(|messages|, i requires 0 <= i < |messages| => Handle(messages[i], config))
  }

  /** The sends of one session, one per forwarded message. */
  function Serve(config: Json, messages: seq<Message>): (sends: seq<(Sink, seq<Byte>)>)
    ensures |sends| <= |messages|
  {
    Present(Outcomes(config, messages))
  }

  /** Handling one of the messages under the configuration sends `s`. */
  predicate SentFor(config: Json, messages: seq<Message>, s: (Sink, seq<Byte>))
  {
    exists j :: 0 <= j < |messages| && Handle(messages[j], config) == Some(s)
  }

  /** Every datagram a session sends is what handling one of its messages
      under the session's configuration sends. */
  lemma ServeForwards(config: Json, messages: seq<Message>)
    ensures forall i :: 0 <= i < |Serve(config, messages)| ==> SentFor(config, messages, Serve(config, messages)[i])
  {
    var outcomes := Outcomes(config, messages);
    PresentFrom(outcomes);
    forall i | 0 <= i < |Serve(config, messages)|
      ensures SentFor(config, messages, Serve(config, messages)[i])
    {
      var j :| 0 <= j < |outcomes| && outcomes[j] == Some(Present(outcomes)[i]);
      assert Handle(messages[j], config) == outcomes[j];
    }
  }

  /** The values kept from `xs + ys` are those kept from `xs`, then those
      kept from `ys`. */
  lemma {:induction false} PresentAppend<T>(xs: seq<Option<T>>, ys: seq<Option<T>>)
    ensures Present(xs + ys) == Present(xs) + Present(ys)
    decreases |xs|
  {
    if |xs| > 0 {
      assert (xs + ys)[1..] == xs[1..] + ys;
      PresentAppend(xs[1..], ys);
    } else {
      assert xs + ys == ys;
    }
  }

  /** Every present entry's value is kept. */
  lemma PresentHas<T>(xs: seq<Option<T>>, j: nat)
    requires j < |xs| && xs[j].Some?
    ensures xs[j].value in Present(xs)
  {
    assert xs == xs[..j] + xs[j..];
    PresentAppend(xs[..j], xs[j..]);
    assert Present(xs[j..])[0] == xs[j].value;
  }

  /** One value is kept per present entry. */
  lemma {:induction false} PresentCount<T>(xs: seq<Option<T>>)
    ensures |Present(xs)| == |set j | 0 <= j < |xs| && xs[j].Some?|
    decreases |xs|
  {
    if |xs| > 0 {
      var n := |xs| - 1;
      var init := xs[..n];
      assert xs == init + [xs[n]];
      PresentAppend(init, [xs[n]]);
      PresentCount(init);
      var kept := set j | 0 <= j < |init| && init[j].Some?;
      var all := set j | 0 <= j < |xs| && xs[j].Some?;
      assert Present([xs[n]]) == (if xs[n].Some? then [xs[n].value] else []) + Present([xs[n]][1..]);
      if xs[n].Some? {
        assert all == kept + {n};
      } else {
        assert all == kept;
      }
    }
  }

  /** A session's sends are those of its first messages followed by those
      of the rest, so they keep the order of the messages. */
  lemma ServeAppend(config: Json, a: seq<Message>, b: seq<Message>)
    ensures Serve(config, a + b) == Serve(config, a) + Serve(config, b)
  {
    var joined, first, second := Outcomes(config, a + b), Outcomes(config, a), Outcomes(config, b);
    forall i | 0 <= i < |joined|
      ensures joined[i] == (first + second)[i]
    {
      if i < |a| {
        assert (a + b)[i] == a[i];
      } else {
        assert (a + b)[i] == b[i - |a|];
      }
    }
    assert joined == first + second;
    PresentAppend(first, second);
  }

  /** Conversely to ServeForwards, whatever handling a message sends, the
      session sends. */
  lemma ServeComplete(config: Json, messages: seq<Message>)
    ensures forall j :: 0 <= j < |messages| && Handle(messages[j], config).Some? ==>
      Handle(messages[j], config).value in Serve(config, messages)
  {
    forall j | 0 <= j < |messages| && Handle(messages[j], config).Some?
      ensures Handle(messages[j], config).value in Serve(config, messages)
    {
      PresentHas(Outcomes(config, messages), j);
    }
  }

  /** A session sends once per forwarded message. */
  lemma ServeCount(config: Json, messages: seq<Message>)
    ensures |Serve(config, messages)| == |set j | 0 <= j < |messages| && Handle(messages[j], config).Some?|
  {
    var outcomes := Outcomes(config, messages);
    PresentCount(outcomes);
    assert (set j | 0 <= j < |outcomes| && outcomes[j].Some?)
        == (set j | 0 <= j < |messages| && Handle(messages[j], config).Some?);
  }

  /** A session whose configuration leaves the gamepad disabled never sends
      to the gamepad sender, whatever its messages; so is a session without
      config.json. */
  lemma NoPadWhenDisabled(config: Json, messages: seq<Message>)
    requires !Enabled(config, GamepadCap)
    ensures forall i :: 0 <= i < |Serve(config, messages)| ==> Serve(config, messages)[i].0 == KeyMouse
  {
    ServeForwards(config, messages);
    forall i | 0 <= i < |Serve(config, messages)|
      ensures Serve(config, messages)[i].0 == KeyMouse
    {
      var j :| 0 <= j < |messages| && Handle(messages[j], config) == Some(Serve(config, messages)[i]);
      NotPad(messages[j], config);
    }
  }

  lemma NotPad(m: Message, config: Json)
    requires !Enabled(config, GamepadCap) && Handle(m, config).Some?
    ensures Handle(m, config).value.0 == KeyMouse
  {
  }
}
