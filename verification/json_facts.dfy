/**
  Two facts about the JSON model that the gateway relies on: every document
  `json.dumps` writes is printable ASCII (so it never holds a newline), and
  every value `json.loads` returns is well formed (unique dict keys, no split
  surrogate pair), which is what the round trip of `JsonRoundTrip` asks for.
 */
module JsonFacts {
  import opened Wrappers
  import opened JsonValue
  import opened JsonEncode
  import opened JsonDecode

  // ---------------------------------------------------------------------
  // Serialized text is printable ASCII
  // ---------------------------------------------------------------------

  lemma PrintableAppend(a: string, b: string)
    requires Printable(a) && Printable(b)
    ensures Printable(a + b)
  {
    assert forall i :: 0 <= i < |a + b| ==> (a + b)[i] == if i < |a| then a[i] else b[i - |a|];
  }

  lemma PrintableDigit(k: int)
    requires 0 <= k < 16
    ensures ' ' <= HexDigits[k] <= '~'
  {
    assert HexDigits == ['0', '1', '2', '3', '4', '5', '6', '7', '8', '9', 'a', 'b', 'c', 'd', 'e', 'f'];
  }

  lemma PrintableHex4(u: int)
    requires 0 <= u < 0x1_0000
    ensures Printable(Hex4(u))
  {
    PrintableDigit(u / 0x100 / 0x10);
    PrintableDigit(u / 0x100 % 0x10);
    PrintableDigit(u % 0x100 / 0x10);
    PrintableDigit(u % 0x100 % 0x10);
    PrintableAppend(Hex2(u / 0x100), Hex2(u % 0x100));
  }

  lemma PrintableUEscape(u: int)
    requires 0 <= u < 0x1_0000
    ensures Printable(UEscape(u))
  {
    PrintableHex4(u);
    PrintableAppend("\\u", Hex4(u));
  }

  lemma PrintableEscapeTail(c: CodePoint)
    requires !PlainChar(c)
    ensures Printable(EscapeTail(c))
  {
    if ShortEscapeLetter(c).None? {
      if c < 0x1_0000 {
        PrintableHex4(c);
        PrintableAppend("u", Hex4(c));
      } else {
        PrintableHex4(HighSurrogateOf(c));
        PrintableAppend("u", Hex4(HighSurrogateOf(c)));
        PrintableUEscape(LowSurrogateOf(c));
        PrintableAppend("u" + Hex4(HighSurrogateOf(c)), UEscape(LowSurrogateOf(c)));
      }
    }
  }

  lemma PrintableEscapeCodePoint(c: CodePoint)
    ensures Printable(EscapeCodePoint(c))
  {
    if !PlainChar(c) {
      PrintableEscapeTail(c);
      PrintableAppend("\\", EscapeTail(c));
    }
  }

  lemma {:induction false} PrintableEscapeText(s: PyString)
    ensures Printable(EscapeText(s))
  {
    if |s| > 0 {
      PrintableEscapeCodePoint(s[0]);
      PrintableEscapeText(s[1..]);
      PrintableAppend(EscapeCodePoint(s[0]), EscapeText(s[1..]));
    }
  }

  lemma PrintableQuote(s: PyString)
    ensures Printable(Quote(s))
  {
    PrintableEscapeText(s);
    PrintableAppend("\"", EscapeText(s));
    PrintableAppend("\"" + EscapeText(s), "\"");
  }

  lemma PrintableIntText(i: int)
    ensures Printable(IntText(i))
  {
    if i < 0 {
      PrintableAppend("-", NatText(-i));
    }
  }

  lemma PrintableWrap(open: string, inner: string, close: string)
    requires Printable(open) && Printable(inner) && Printable(close)
    ensures Printable(open + inner + close)
  {
    PrintableAppend(open, inner);
    PrintableAppend(open + inner, close);
  }

  /** `json.dumps` output never leaves the printable ASCII range. */
  lemma {:induction false} SerializePrintable(j: Json)
    ensures Printable(Serialize(j))
    decreases j, 1
  {
    match j
    case Null =>
    case Bool(b) =>
    case Int(i) => PrintableIntText(i);
    case Str(s) => PrintableQuote(s);
    case Arr(items) =>
      ItemsPrintable(items);
      PrintableWrap("[", SerializeItems(items), "]");
    case Obj(ms) =>
      MembersPrintable(ms);
      PrintableWrap("{", SerializeMembers(ms), "}");
  }

  lemma {:induction false} ItemsPrintable(items: seq<Json>)
    ensures Printable(SerializeItems(items))
    decreases items, 0
  {
    if |items| == 1 {
      SerializePrintable(items[0]);
    } else if |items| > 1 {
      SerializePrintable(items[0]);
      ItemsPrintable(items[1..]);
      PrintableWrap(Serialize(items[0]), ", ", SerializeItems(items[1..]));
    }
  }

  lemma {:induction false} MembersPrintable(ms: seq<Member>)
    ensures Printable(SerializeMembers(ms))
    decreases ms, 0
  {
    if |ms| > 0 {
      var entry := Quote(ms[0].key) + ": " + Serialize(ms[0].value);
      PrintableQuote(ms[0].key);
      SerializePrintable(ms[0].value);
      PrintableWrap(Quote(ms[0].key), ": ", Serialize(ms[0].value));
      if |ms| > 1 {
        MembersPrintable(ms[1..]);
        PrintableWrap(entry, ", ", SerializeMembers(ms[1..]));
      }
    }
  }

  // ---------------------------------------------------------------------
  // Parsed values are well formed
  // ---------------------------------------------------------------------

  /** An escape that decodes to a low surrogate is a `\u` escape of it. */
  lemma LowFromEscape(x: string)
    requires ParseEscape(x).Some? && IsLowSurrogate(ParseEscape(x).value.0)
    ensures |x| >= 1 && x[0] == 'u' && ParseHex4(x[1..]) == Some(ParseEscape(x).value.0)
  {
  }

  lemma LowAhead(s: string)
    requires |s| >= 2 && s[0] == '\\'
    requires ParseEscape(s[1..]).Some? && IsLowSurrogate(ParseEscape(s[1..]).value.0)
    ensures LowEscapeAhead(s)
  {
    LowFromEscape(s[1..]);
    assert s[1..][1..] == s[2..];
  }

  lemma NoSplitCons(c: CodePoint, cs: PyString)
    requires NoSplitPair(cs)
    requires |cs| > 0 && IsHighSurrogate(c) ==> !IsLowSurrogate(cs[0])
    ensures NoSplitPair([c] + cs)
  {
    assert forall i :: 0 < i < |[c] + cs| ==> ([c] + cs)[i] == cs[i - 1];
  }

  /** Decoded string bodies hold no split surrogate pair, and start with a
      low surrogate only when the text starts with its `\u` escape. */
  lemma {:induction false} StringBodyWellFormed(s: string)
    requires ParseStringBody(s).Some?
    ensures NoSplitPair(ParseStringBody(s).value.0)
    ensures var cs := ParseStringBody(s).value.0;
      |cs| > 0 && IsLowSurrogate(cs[0]) ==> LowEscapeAhead(s)
    decreases |s|
  {
    if s[0] == '"' {
    } else if s[0] == '\\' {
      var (c, rest) := ParseEscape(s[1..]).value;
      StringBodyWellFormed(rest);
      EscapeFollow(s[1..]);
      NoSplitCons(c, ParseStringBody(rest).value.0);
      if IsLowSurrogate(c) {
        LowAhead(s);
      }
    } else {
      StringBodyWellFormed(s[1..]);
      NoSplitCons(s[0] as int, ParseStringBody(s[1..]).value.0);
    }
  }

  /** After a lone escaped high surrogate the text does not start with an
      escaped low one: the parser would have joined them. */
  lemma EscapeFollow(x: string)
    requires ParseEscape(x).Some?
    ensures IsHighSurrogate(ParseEscape(x).value.0) ==> !LowEscapeAhead(ParseEscape(x).value.1)
  {
  }

  /** Storing an entry in a well-formed dict keeps it well formed. */
  lemma {:induction false} PutWellFormed(ms: seq<Member>, k: PyString, v: Json)
    requires WellFormed(Obj(ms)) && NoSplitPair(k) && WellFormed(v)
    ensures WellFormed(Obj(Put(ms, k, v)))
  {
    if |ms| == 0 {
    } else if ms[0].key == k {
      var r := [Member(k, v)] + ms[1..];
      assert forall i :: 0 < i < |r| ==> r[i] == ms[i];
    } else {
      var tail := ms[1..];
      assert forall i :: 0 <= i < |tail| ==> tail[i] == ms[i + 1];
      PutWellFormed(tail, k, v);
      PutKeys(tail, k, v);
      var r := [ms[0]] + Put(tail, k, v);
      assert forall i :: 0 < i < |r| ==> r[i] == Put(tail, k, v)[i - 1];
      forall i, j | 0 <= i < j < |r|
        ensures r[i].key != r[j].key
      {
        if i == 0 {
          var m := r[j];
          assert m.key == k || exists x :: 0 <= x < |tail| && tail[x].key == m.key;
        }
      }
    }
  }

  /** Every key of `Put(ms, k, v)` is `k` or a key of `ms`. */
  lemma {:induction false} PutKeys(ms: seq<Member>, k: PyString, v: Json)
    ensures forall i :: 0 <= i < |Put(ms, k, v)| ==>
      Put(ms, k, v)[i].key == k || exists x :: 0 <= x < |ms| && ms[x].key == Put(ms, k, v)[i].key
  {
    if |ms| > 0 && ms[0].key != k {
      PutKeys(ms[1..], k, v);
      var r := Put(ms, k, v);
      assert r == [ms[0]] + Put(ms[1..], k, v);
      forall i | 0 < i < |r|
        ensures r[i].key == k || exists x :: 0 <= x < |ms| && ms[x].key == r[i].key
      {
        assert r[i] == Put(ms[1..], k, v)[i - 1];
        if r[i].key != k {
          var x :| 0 <= x < |ms[1..]| && ms[1..][x].key == r[i].key;
          assert ms[x + 1].key == r[i].key;
        }
      }
    }
  }

  /** Every value `json.loads` returns is well formed. */
  lemma ParseWellFormed(text: string)
    requires Parse(text).Some?
    ensures WellFormed(Parse(text).value)
  {
    ValueWellFormed(SkipWs(text));
  }

  lemma {:induction false} ValueWellFormed(s: string)
    requires ParseValue(s).Some?
    ensures WellFormed(ParseValue(s).value.0)
    decreases |s|, 0
  {
    if s[0] == '"' {
      StringBodyWellFormed(s[1..]);
    } else if s[0] == '{' {
      ObjectWellFormed(s[1..]);
    } else if s[0] == '[' {
      ArrayWellFormed(s[1..]);
    }
  }

  lemma {:induction false} ArrayWellFormed(s: string)
    requires ParseArray(s).Some?
    ensures WellFormed(ParseArray(s).value.0)
    decreases |s|, 2
  {
    var t := SkipWs(s);
    if !(|t| > 0 && t[0] == ']') {
      ElementsWellFormed(t, []);
    }
  }

  lemma {:induction false} ElementsWellFormed(s: string, acc: seq<Json>)
    requires forall i :: 0 <= i < |acc| ==> WellFormed(acc[i])
    requires ParseElements(s, acc).Some?
    ensures WellFormed(ParseElements(s, acc).value.0)
    decreases |s|, 1
  {
    var (v, rest) := ParseValue(s).value;
    ValueWellFormed(s);
    var acc' := acc + [v];
    assert forall i :: 0 <= i < |acc'| ==> WellFormed(acc'[i]);
    match AfterItem(rest, ']')
    case Closed(after) =>
    case Comma(more) => ElementsWellFormed(more, acc');
  }

  lemma {:induction false} ObjectWellFormed(s: string)
    requires ParseObject(s).Some?
    ensures WellFormed(ParseObject(s).value.0)
    decreases |s|, 2
  {
    var t := SkipWs(s);
    if !(|t| > 0 && t[0] == '}') {
      MembersWellFormed(t, []);
    }
  }

  lemma {:induction false} EntryWellFormed(s: string)
    requires ParseEntry(s).Some?
    ensures NoSplitPair(ParseEntry(s).value.0) && WellFormed(ParseEntry(s).value.1)
    decreases |s|, 0
  {
    StringBodyWellFormed(s[1..]);
    var r1 := ParseStringBody(s[1..]).value.1;
    var r2 := SkipWs(r1);
    ValueWellFormed(SkipWs(r2[1..]));
  }

  lemma {:induction false} MembersWellFormed(s: string, acc: seq<Member>)
    requires WellFormed(Obj(acc))
    requires ParseMembers(s, acc).Some?
    ensures WellFormed(ParseMembers(s, acc).value.0)
    decreases |s|, 1
  {
    var (k, v, rest) := ParseEntry(s).value;
    EntryWellFormed(s);
    PutWellFormed(acc, k, v);
    match AfterItem(rest, '}')
    case Closed(after) =>
    case Comma(more) => MembersWellFormed(more, Put(acc, k, v));
  }
}
