/**
  What the gateway's forwarding relies on: parsing what `json.dumps` wrote
  gives back the value it was given, for every value `json.loads` can return.
 */
module JsonRoundTrip {
  import opened Wrappers
  import opened JsonValue
  import opened JsonEncode
  import opened JsonDecode

  /** What may follow a value in a document without extending it: the end, a
      separator, a closing bracket or whitespace. */
  predicate Delimits(rest: string)
  {
    |rest| == 0 || rest[0] == ',' || rest[0] == ']' || rest[0] == '}' || IsWs(rest[0])
  }

  lemma HexDigitValue(d: int)
    requires 0 <= d < 16
    ensures HexValue(HexDigits[d]) == Some(d)
  {
    if d < 10 {
      assert HexDigits[d] as int == '0' as int + d;
    } else {
      assert HexDigits[d] as int == 'a' as int + d - 10;
    }
  }

  /** Splitting off the first character of `[c] + x`. */
  lemma Uncons(c: char, x: string)
    ensures ([c] + x)[0] == c && ([c] + x)[1..] == x
  {
  }

  /** The first character of a concatenation with a non-empty head. */
  lemma FirstOf(x: string, y: string)
    requires |x| > 0
    ensures (x + y)[0] == x[0]
  {
  }

  /** A prefix and what follows it, taken apart again. */
  lemma PrefixSplit(p: string, rest: string)
    ensures (p + rest)[..|p|] == p && (p + rest)[|p|..] == rest
  {
  }

  lemma AppendEmpty(x: string)
    ensures x + "" == x
  {
  }

  lemma Hex4Chars(u: int, rest: string)
    requires 0 <= u < 0x1_0000
    ensures var s := Hex4(u) + rest;
      && |s| >= 4
      && s[0] == HexDigits[u / 0x100 / 0x10] && s[1] == HexDigits[u / 0x100 % 0x10]
      && s[2] == HexDigits[u % 0x100 / 0x10] && s[3] == HexDigits[u % 0x100 % 0x10]
      && s[4..] == rest
  {
  }

  /** Four hex digits read back as the number they spell. */
  lemma ParseHexDigits(s: string, a: int, b: int, c: int, d: int)
    requires 0 <= a < 16 && 0 <= b < 16 && 0 <= c < 16 && 0 <= d < 16
    requires |s| >= 4 && s[0] == HexDigits[a] && s[1] == HexDigits[b] && s[2] == HexDigits[c] && s[3] == HexDigits[d]
    ensures ParseHex4(s) == Some(a * 0x1000 + b * 0x100 + c * 0x10 + d)
  {
    HexDigitValue(a);
    HexDigitValue(b);
    HexDigitValue(c);
    HexDigitValue(d);
  }

  /** A code unit is its high byte's two digits followed by its low byte's. */
  lemma Hex4Digits(u: int)
    requires 0 <= u < 0x1_0000
    ensures (u / 0x100 / 0x10) * 0x1000 + (u / 0x100 % 0x10) * 0x100 + (u % 0x100 / 0x10) * 0x10 + u % 0x100 % 0x10 == u
  {
    var hi, lo := u / 0x100, u % 0x100;
    assert u == hi * 0x100 + lo;
    assert hi == (hi / 0x10) * 0x10 + hi % 0x10;
    assert lo == (lo / 0x10) * 0x10 + lo % 0x10;
  }

  lemma ParseHexOf(s: string, u: int)
    requires 0 <= u < 0x1_0000
    requires |s| >= 4
    requires s[0] == HexDigits[u / 0x100 / 0x10] && s[1] == HexDigits[u / 0x100 % 0x10]
    requires s[2] == HexDigits[u % 0x100 / 0x10] && s[3] == HexDigits[u % 0x100 % 0x10]
    ensures ParseHex4(s) == Some(u)
  {
    ParseHexDigits(s, u / 0x100 / 0x10, u / 0x100 % 0x10, u % 0x100 / 0x10, u % 0x100 % 0x10);
    Hex4Digits(u);
  }

  /** The four digits `Hex4` writes read back as the same code unit. */
  lemma Hex4RoundTrip(u: int, rest: string)
    requires 0 <= u < 0x1_0000
    ensures ParseHex4(Hex4(u) + rest) == Some(u)
  {
    Hex4Chars(u, rest);
    ParseHexOf(Hex4(u) + rest, u);
  }

  lemma JoinSplit(c: int)
    requires 0x1_0000 <= c < 0x11_0000
    ensures JoinSurrogates(HighSurrogateOf(c), LowSurrogateOf(c)) == c
  {
    var n := c - 0x1_0000;
    assert (n / 0x400) * 0x400 + n % 0x400 == n;
  }

  /** The seven two-character escapes read back as the code point they stand for. */
  lemma ShortEscapeRoundTrip(c: CodePoint, t: string)
    requires ShortEscapeLetter(c).Some?
    ensures ParseEscape([ShortEscapeLetter(c).value] + t) == Some((c, t))
  {
    Uncons(ShortEscapeLetter(c).value, t);
  }

  /** `u` and four hex digits, seen from the parser: the code unit, joined
      with a directly following escaped low surrogate when it is a high one. */
  lemma UnitEscape(u: int, x: string, t: string)
    requires 0 <= u < 0x1_0000
    requires x == Hex4(u) + t
    ensures ParseEscape("u" + x) ==
      if IsHighSurrogate(u) && LowEscapeAhead(t)
      then Some((JoinSurrogates(u, ParseHex4(t[2..]).value), t[6..]))
      else Some((u, t))
  {
    var s := "u" + x;
    Uncons('u', x);
    Hex4RoundTrip(u, t);
    Hex4Chars(u, t);
    DropTwice(s, 4);
    UnitEscapeAt(s, u, t);
  }

  lemma DropTwice(s: string, n: nat)
    requires 1 + n <= |s|
    ensures s[1..][n..] == s[1 + n..]
  {
  }

  /** A `u` followed by four hex digits, as the parser reads it. */
  lemma UnitEscapeAt(s: string, u: int, t: string)
    requires |s| >= 5 && s[0] == 'u' && ParseHex4(s[1..]) == Some(u) && s[5..] == t
    ensures ParseEscape(s) ==
      if IsHighSurrogate(u) && LowEscapeAhead(t)
      then Some((JoinSurrogates(u, ParseHex4(t[2..]).value), t[6..]))
      else Some((u, t))
  {
  }

  lemma Regroup3(a: string, b: string, c: string)
    ensures a + b + c == a + (b + c)
  {
  }

  lemma Regroup4(a: string, b: string, c: string, d: string)
    ensures a + b + c + d == a + (b + (c + d))
  {
  }

  lemma BmpEscapeRoundTrip(c: CodePoint, t: string)
    requires c < 0x1_0000
    requires IsHighSurrogate(c) ==> !LowEscapeAhead(t)
    ensures ParseEscape("u" + Hex4(c) + t) == Some((c, t))
  {
    Regroup3("u", Hex4(c), t);
    UnitEscape(c, Hex4(c) + t, t);
  }

  lemma LowEscapeOf(lo: int, t: string)
    requires IsLowSurrogate(lo)
    ensures LowEscapeAhead(UEscape(lo) + t)
    ensures ParseHex4((UEscape(lo) + t)[2..]) == Some(lo)
    ensures (UEscape(lo) + t)[6..] == t
  {
    var s := UEscape(lo) + t;
    assert s[0] == '\\' && s[1] == 'u';
    assert s[2..] == Hex4(lo) + t;
    Hex4RoundTrip(lo, t);
  }

  lemma PairEscapeRoundTrip(c: CodePoint, t: string)
    requires 0x1_0000 <= c
    ensures ParseEscape("u" + Hex4(HighSurrogateOf(c)) + UEscape(LowSurrogateOf(c)) + t) == Some((c, t))
  {
    var hi, lo := HighSurrogateOf(c), LowSurrogateOf(c);
    var after := UEscape(lo) + t;
    Regroup4("u", Hex4(hi), UEscape(lo), t);
    LowEscapeOf(lo, t);
    UnitEscape(hi, Hex4(hi) + after, after);
    JoinSplit(c);
  }

  /** The part of an escape after its backslash reads back as the code point
      it was written for, unless a high surrogate is directly followed by an
      escaped low one. */
  lemma EscapeRoundTrip(c: CodePoint, t: string)
    requires !PlainChar(c)
    requires IsHighSurrogate(c) ==> !LowEscapeAhead(t)
    ensures ParseEscape(EscapeTail(c) + t) == Some((c, t))
  {
    if ShortEscapeLetter(c).Some? {
      ShortEscapeRoundTrip(c, t);
    } else if c < 0x1_0000 {
      BmpEscapeRoundTrip(c, t);
    } else {
      PairEscapeRoundTrip(c, t);
    }
  }

  /** The escape tail of a code point that is not a low surrogate does not
      start with `u` and the four digits of a low surrogate. */
  /** What follows `u` in a `\u` escape of a unit that is not a low surrogate. */
  lemma NotLowUnit(hex: string, u: int, more: string)
    requires 0 <= u < 0x1_0000 && !IsLowSurrogate(u)
    requires hex == "u" + (Hex4(u) + more)
    ensures hex[0] == 'u' && ParseHex4(hex[1..]) == Some(u)
  {
    Uncons('u', Hex4(u) + more);
    Hex4RoundTrip(u, more);
  }

  lemma NoLowTail(c: CodePoint, after: string)
    requires !PlainChar(c) && !IsLowSurrogate(c)
    ensures var s := EscapeTail(c) + after;
      s[0] != 'u' || ParseHex4(s[1..]).None? || !IsLowSurrogate(ParseHex4(s[1..]).value)
  {
    if ShortEscapeLetter(c).Some? {
      Uncons(ShortEscapeLetter(c).value, after);
    } else if c < 0x1_0000 {
      assert EscapeTail(c) == "u" + Hex4(c);
      Regroup3("u", Hex4(c), after);
      NotLowUnit(EscapeTail(c) + after, c, after);
    } else {
      var hi := HighSurrogateOf(c);
      var more := UEscape(LowSurrogateOf(c)) + after;
      assert EscapeTail(c) == "u" + Hex4(hi) + UEscape(LowSurrogateOf(c));
      Regroup4("u", Hex4(hi), UEscape(LowSurrogateOf(c)), after);
      NotLowUnit(EscapeTail(c) + after, hi, more);
    }
  }

  /** A code point that is not a low surrogate is not written as a `\u`
      escape of a low surrogate. */
  lemma NoLowEscapeOf(c: CodePoint, after: string)
    requires !IsLowSurrogate(c)
    ensures !LowEscapeAhead(EscapeCodePoint(c) + after)
  {
    if PlainChar(c) {
      Uncons(c as char, after);
    } else {
      var s := EscapeTail(c) + after;
      Uncons('\\', s);
      assert ("\\" + s)[1] == s[0] && ("\\" + s)[2..] == s[1..];
      NoLowTail(c, after);
    }
  }

  lemma AppendAfter(whole: string, a: string, b: string, mid: string, rest: string)
    requires whole == a + b
    ensures whole + mid + rest == a + (b + mid + rest)
  {
  }

  lemma EscapeTextCons(s: PyString, rest: string)
    requires |s| > 0
    ensures EscapeText(s) + "\"" + rest == EscapeCodePoint(s[0]) + (EscapeText(s[1..]) + "\"" + rest)
  {
    AppendAfter(EscapeText(s), EscapeCodePoint(s[0]), EscapeText(s[1..]), "\"", rest);
  }

  /** After the escape of a string that does not start with a low surrogate,
      the text does not start with a `\u` escape of a low surrogate, so a
      preceding lone high surrogate is not joined with it. */
  lemma NoLowEscapeAhead(s: PyString, rest: string)
    requires |s| == 0 || !IsLowSurrogate(s[0])
    ensures !LowEscapeAhead(EscapeText(s) + "\"" + rest)
  {
    if |s| == 0 {
      assert EscapeText(s) + "\"" + rest == "\"" + rest;
      Uncons('"', rest);
    } else {
      EscapeTextCons(s, rest);
      NoLowEscapeOf(s[0], EscapeText(s[1..]) + "\"" + rest);
    }
  }

  lemma NoSplitPairTail(s: PyString)
    requires |s| > 0 && NoSplitPair(s)
    ensures NoSplitPair(s[1..])
    ensures IsHighSurrogate(s[0]) && |s| > 1 ==> !IsLowSurrogate(s[1])
  {
    var tail := s[1..];
    forall i | 0 <= i < |tail| - 1
      ensures !(IsHighSurrogate(tail[i]) && IsLowSurrogate(tail[i + 1]))
    {
      assert tail[i] == s[i + 1] && tail[i + 1] == s[i + 2];
    }
  }

  lemma PlainStep(c: CodePoint, t: string, cs: PyString, rest: string)
    requires PlainChar(c)
    requires ParseStringBody(t) == Some((cs, rest))
    ensures ParseStringBody([c as char] + t) == Some(([c] + cs, rest))
  {
    Uncons(c as char, t);
  }

  lemma EscapedStep(x: string, c: CodePoint, t: string, cs: PyString, rest: string)
    requires ParseEscape(x + t) == Some((c, t))
    requires ParseStringBody(t) == Some((cs, rest))
    ensures ParseStringBody("\\" + (x + t)) == Some(([c] + cs, rest))
  {
    Uncons('\\', x + t);
  }

  lemma EscapedForm(c: CodePoint, t: string)
    requires !PlainChar(c)
    ensures EscapeCodePoint(c) + t == "\\" + (EscapeTail(c) + t)
  {
    assert EscapeCodePoint(c) == "\\" + EscapeTail(c);
    Regroup3("\\", EscapeTail(c), t);
  }

  /** One escaped code point in front of a string body reads back as that
      code point in front of the body's code points. */
  lemma EscapeStep(c: CodePoint, t: string, cs: PyString, rest: string)
    requires ParseStringBody(t) == Some((cs, rest))
    requires IsHighSurrogate(c) ==> !LowEscapeAhead(t)
    ensures ParseStringBody(EscapeCodePoint(c) + t) == Some(([c] + cs, rest))
  {
    if PlainChar(c) {
      PlainStep(c, t, cs, rest);
    } else {
      EscapeRoundTrip(c, t);
      EscapedStep(EscapeTail(c), c, t, cs, rest);
      EscapedForm(c, t);
    }
  }

  /** Reading back an escaped string body gives the same code points, for any
      string without a high surrogate directly followed by a low one. */
  lemma {:induction false} StringRoundTrip(s: PyString, rest: string)
    requires NoSplitPair(s)
    ensures ParseStringBody(EscapeText(s) + "\"" + rest) == Some((s, rest))
    decreases |s|
  {
    if |s| == 0 {
      assert EscapeText(s) + "\"" + rest == "\"" + rest;
      Uncons('"', rest);
    } else {
      var c, tail := s[0], s[1..];
      NoSplitPairTail(s);
      StringRoundTrip(tail, rest);
      var t := EscapeText(tail) + "\"" + rest;
      if IsHighSurrogate(c) {
        assert |tail| == 0 || tail[0] == s[1];
        NoLowEscapeAhead(tail, rest);
      }
      EscapeStep(c, t, tail, rest);
      EscapeTextCons(s, rest);
      assert [c] + tail == s;
    }
  }

  lemma TailOfAppend(x: string, y: string)
    requires |x| > 0
    ensures (x + y)[1..] == x[1..] + y
  {
  }

  /** A run of digits followed by a non-digit is read as exactly that run. */
  lemma {:induction false} DigitRunAppend(ds: string, rest: string)
    requires forall i :: 0 <= i < |ds| ==> IsDigit(ds[i])
    requires |rest| == 0 || !IsDigit(rest[0])
    ensures DigitRun(ds + rest) == |ds|
    decreases |ds|
  {
    if |ds| == 0 {
      EmptyPrefix(rest);
    } else {
      FirstOf(ds, rest);
      TailOfAppend(ds, rest);
      DigitRunAppend(ds[1..], rest);
    }
  }

  /** The digits `str(n)` writes read back as `n`. */
  lemma {:induction false} NatTextValue(n: nat)
    ensures DigitsValue(NatText(n)) == n
    decreases n
  {
    var ds := NatText(n);
    if n < 10 {
      assert ds[..|ds| - 1] == [];
    } else {
      NatTextValue(n / 10);
      assert ds[..|ds| - 1] == NatText(n / 10);
    }
  }

  /** `str(n)` followed by a delimiter reads back as `n`. */
  lemma MagnitudeRoundTrip(n: nat, rest: string)
    requires Delimits(rest)
    ensures ParseMagnitude(NatText(n) + rest) == Some((n, rest))
  {
    var ds := NatText(n);
    var t := ds + rest;
    assert !FloatTail(rest);
    if n == 0 {
      assert t[0] == '0' && t[1..] == rest;
    } else {
      assert '1' <= t[0] <= '9';
      DigitRunAppend(ds, rest);
      assert t[..|ds|] == ds && t[|ds|..] == rest;
      NatTextValue(n);
    }
  }

  lemma MinusPrefix(i: int, rest: string)
    requires i < 0
    ensures IntText(i) + rest == "-" + (NatText(-i) + rest)
  {
  }

  lemma NumberAfterMinus(t: string, v: nat, after: string)
    requires ParseMagnitude(t) == Some((v, after))
    ensures ParseNumber("-" + t) == Some((Int(-(v as int)), after))
  {
    var s := "-" + t;
    assert s[0] == '-' && s[1..] == t;
  }

  lemma NumberWithoutMinus(s: string, v: nat, after: string)
    requires |s| > 0 && s[0] != '-'
    requires ParseMagnitude(s) == Some((v, after))
    ensures ParseNumber(s) == Some((Int(v), after))
  {
  }

  lemma NegativeRoundTrip(i: int, rest: string)
    requires i < 0 && Delimits(rest)
    ensures ParseNumber(IntText(i) + rest) == Some((Int(i), rest))
  {
    MagnitudeRoundTrip(-i, rest);
    NumberAfterMinus(NatText(-i) + rest, -i, rest);
    MinusPrefix(i, rest);
  }

  lemma NonNegativeRoundTrip(i: int, rest: string)
    requires 0 <= i && Delimits(rest)
    ensures ParseNumber(IntText(i) + rest) == Some((Int(i), rest))
  {
    MagnitudeRoundTrip(i, rest);
    NumberWithoutMinus(NatText(i) + rest, i, rest);
  }

  /** `str(i)` followed by a delimiter reads back as the int `i`. */
  lemma NumberRoundTrip(i: int, rest: string)
    requires Delimits(rest)
    ensures ParseNumber(IntText(i) + rest) == Some((Int(i), rest))
  {
    if i < 0 {
      NegativeRoundTrip(i, rest);
    } else {
      NonNegativeRoundTrip(i, rest);
    }
  }

  lemma SkipNothing(s: string)
    requires |s| == 0 || !IsWs(s[0])
    ensures SkipWs(s) == s
  {
  }

  lemma OpenBracket(body: string)
    ensures ParseValue("[" + body) == ParseArray(body)
  {
    assert ("[" + body)[0] == '[' && ("[" + body)[1..] == body;
  }

  lemma OpenBrace(body: string)
    ensures ParseValue("{" + body) == ParseObject(body)
  {
    assert ("{" + body)[0] == '{' && ("{" + body)[1..] == body;
  }

  lemma ValueOfNumber(s: string)
    requires |s| > 0 && (s[0] == '-' || IsDigit(s[0]))
    ensures ParseValue(s) == ParseNumber(s)
  {
    assert s[0] != '"' && s[0] != '{' && s[0] != '[';
    assert s[0] != 'n' && s[0] != 't' && s[0] != 'f';
  }

  lemma IntRoundTrip(i: int, rest: string)
    requires Delimits(rest)
    ensures ParseValue(IntText(i) + rest) == Some((Int(i), rest))
  {
    var input := IntText(i) + rest;
    assert input[0] == IntText(i)[0];
    assert input[0] == '-' || IsDigit(input[0]);
    ValueOfNumber(input);
    NumberRoundTrip(i, rest);
  }

  lemma QuoteParts(q: string, e: string, rest: string)
    requires q == "\"" + e + "\""
    ensures q + rest == "\"" + (e + "\"" + rest)
  {
  }

  lemma StrRoundTrip(s: PyString, rest: string)
    requires NoSplitPair(s)
    ensures ParseValue(Quote(s) + rest) == Some((Str(s), rest))
  {
    var body := EscapeText(s) + "\"" + rest;
    QuoteParts(Quote(s), EscapeText(s), rest);
    Uncons('"', body);
    StringRoundTrip(s, rest);
  }

  lemma NullRoundTrip(rest: string)
    ensures ParseValue("null" + rest) == Some((Null, rest))
  {
    FirstOf("null", rest);
    PrefixSplit("null", rest);
  }

  lemma TrueRoundTrip(rest: string)
    ensures ParseValue("true" + rest) == Some((Bool(true), rest))
  {
    FirstOf("true", rest);
    PrefixSplit("true", rest);
  }

  lemma FalseRoundTrip(rest: string)
    ensures ParseValue("false" + rest) == Some((Bool(false), rest))
  {
    FirstOf("false", rest);
    PrefixSplit("false", rest);
  }

  lemma LiteralRoundTrip(j: Json, rest: string)
    requires j.Null? || j.Bool?
    ensures ParseValue(Serialize(j) + rest) == Some((j, rest))
  {
    match j
    case Null => NullRoundTrip(rest);
    case Bool(b) => if b { TrueRoundTrip(rest); } else { FalseRoundTrip(rest); }
  }

  /** The leaf values: `null`, `true`, `false`, ints and strings. */
  lemma ScalarRoundTrip(j: Json, rest: string)
    requires !j.Arr? && !j.Obj?
    requires WellFormed(j) && Delimits(rest)
    ensures ParseValue(Serialize(j) + rest) == Some((j, rest))
  {
    match j
    case Int(i) => IntRoundTrip(i, rest);
    case Str(s) => StrRoundTrip(s, rest);
    case _ => LiteralRoundTrip(j, rest);
  }

  lemma Wrap(whole: string, open: string, inner: string, close: string, rest: string)
    requires whole == open + inner + close
    ensures whole + rest == open + (inner + close + rest)
  {
  }

  /** `json.dumps` output followed by a delimiter reads back as the same value,
      for every value `json.loads` can return. */
  lemma {:induction false} ValueRoundTrip(j: Json, rest: string)
    requires WellFormed(j) && Delimits(rest)
    ensures ParseValue(Serialize(j) + rest) == Some((j, rest))
    decreases j, 3
  {
    match j
    case Arr(items) =>
      Wrap(Serialize(j), "[", SerializeItems(items), "]", rest);
      OpenBracket(SerializeItems(items) + "]" + rest);
      ArrayRoundTrip(items, rest);
    case Obj(ms) =>
      Wrap(Serialize(j), "{", SerializeMembers(ms), "}", rest);
      OpenBrace(SerializeMembers(ms) + "}" + rest);
      ObjectRoundTrip(ms, rest);
    case _ =>
      ScalarRoundTrip(j, rest);
  }

  lemma ArrayEmpty(rest: string)
    ensures ParseArray("]" + rest) == Some((Arr([]), rest))
  {
    SkipCloser(']', rest);
  }

  lemma ArrayNonEmpty(body: string)
    requires |body| > 0 && !IsWs(body[0]) && body[0] != ']'
    ensures ParseArray(body) == ParseElements(body, [])
  {
    SkipNothing(body);
  }

  lemma ObjectEmpty(rest: string)
    ensures ParseObject("}" + rest) == Some((Obj([]), rest))
  {
    SkipCloser('}', rest);
  }

  lemma ObjectNonEmpty(body: string)
    requires |body| > 0 && !IsWs(body[0]) && body[0] != '}'
    ensures ParseObject(body) == ParseMembers(body, [])
  {
    SkipNothing(body);
  }

  lemma NoItems(items: seq<Json>, rest: string)
    requires |items| == 0
    ensures ParseArray(SerializeItems(items) + "]" + rest) == Some((Arr(items), rest))
  {
    assert SerializeItems(items) + "]" + rest == "]" + rest;
    ArrayEmpty(rest);
  }

  lemma NoMembers(ms: seq<Member>, rest: string)
    requires |ms| == 0
    ensures ParseObject(SerializeMembers(ms) + "}" + rest) == Some((Obj(ms), rest))
  {
    assert SerializeMembers(ms) + "}" + rest == "}" + rest;
    ObjectEmpty(rest);
  }

  lemma EmptyPrefix<T>(xs: seq<T>)
    ensures [] + xs == xs
  {
  }

  /** A list's body and closing bracket, after its `[`. */
  lemma {:induction false} ArrayRoundTrip(items: seq<Json>, rest: string)
    requires forall i :: 0 <= i < |items| ==> WellFormed(items[i])
    ensures ParseArray(SerializeItems(items) + "]" + rest) == Some((Arr(items), rest))
    decreases items, 2
  {
    if |items| == 0 {
      NoItems(items, rest);
    } else {
      ItemsStart(items, rest);
      ArrayNonEmpty(SerializeItems(items) + "]" + rest);
      ItemsRoundTrip(items, [], rest);
      EmptyPrefix(items);
    }
  }

  /** A dict's body and closing brace, after its `{`. */
  lemma {:induction false} ObjectRoundTrip(ms: seq<Member>, rest: string)
    requires DistinctKeys(ms)
    requires forall i :: 0 <= i < |ms| ==> NoSplitPair(ms[i].key) && WellFormed(ms[i].value)
    ensures ParseObject(SerializeMembers(ms) + "}" + rest) == Some((Obj(ms), rest))
    decreases ms, 2
  {
    if |ms| == 0 {
      NoMembers(ms, rest);
    } else {
      MembersStart(ms, rest);
      ObjectNonEmpty(SerializeMembers(ms) + "}" + rest);
      EmptyPrefix(ms);
      MembersRoundTrip(ms, [], rest);
    }
  }

  lemma SkipSpace(t: string)
    requires |t| == 0 || !IsWs(t[0])
    ensures SkipWs(" " + t) == t
  {
    var u := " " + t;
    assert u[0] == ' ' && u[1..] == t;
    SkipNothing(t);
  }

  /** A separator `sep` (`", "` or `": "`) with the space `json.dumps` writes
      after its punctuation. */
  lemma SkipSeparator(sep: string, t: string)
    requires |sep| == 2 && !IsWs(sep[0]) && sep[1] == ' '
    requires |t| == 0 || !IsWs(t[0])
    ensures SkipWs(sep + t) == sep + t
    ensures (sep + t)[0] == sep[0]
    ensures SkipWs((sep + t)[1..]) == t
  {
    var u := sep + t;
    assert u[0] == sep[0] && u[1..] == " " + t;
    SkipSpace(t);
  }

  /** A closing `c` needs no whitespace skipped before it. */
  lemma SkipCloser(c: char, rest: string)
    requires !IsWs(c)
    ensures SkipWs([c] + rest) == [c] + rest
    ensures ([c] + rest)[1..] == rest
  {
  }

  lemma CommaAfter(more: string, closer: char)
    requires |more| == 0 || !IsWs(more[0])
    requires closer != ','
    ensures AfterItem(", " + more, closer) == Comma(more)
  {
    SkipSeparator(", ", more);
  }

  lemma CloserAfter(closer: char, rest: string)
    requires !IsWs(closer)
    ensures AfterItem([closer] + rest, closer) == Closed(rest)
  {
    SkipCloser(closer, rest);
  }

  lemma ElementsLast(s: string, acc: seq<Json>, v: Json, rest: string)
    requires ParseValue(s) == Some((v, "]" + rest))
    ensures ParseElements(s, acc) == Some((Arr(acc + [v]), rest))
  {
    CloserAfter(']', rest);
  }

  lemma ElementsNext(s: string, acc: seq<Json>, v: Json, more: string)
    requires ParseValue(s) == Some((v, ", " + more))
    requires |more| == 0 || !IsWs(more[0])
    ensures ParseElements(s, acc) == ParseElements(more, acc + [v])
  {
    CommaAfter(more, ']');
  }

  lemma EntryStep(s: string, k: PyString, t: string, v: Json, after: string)
    requires |s| > 0 && s[0] == '"'
    requires ParseStringBody(s[1..]) == Some((k, ": " + t))
    requires |t| == 0 || !IsWs(t[0])
    requires ParseValue(t) == Some((v, after))
    ensures ParseEntry(s) == Some((k, v, after))
  {
    SkipSeparator(": ", t);
  }

  lemma MembersLast(s: string, acc: seq<Member>, k: PyString, v: Json, rest: string)
    requires ParseEntry(s) == Some((k, v, "}" + rest))
    ensures ParseMembers(s, acc) == Some((Obj(Put(acc, k, v)), rest))
  {
    CloserAfter('}', rest);
  }

  lemma MembersNext(s: string, acc: seq<Member>, k: PyString, v: Json, more: string)
    requires ParseEntry(s) == Some((k, v, ", " + more))
    requires |more| == 0 || !IsWs(more[0])
    ensures ParseMembers(s, acc) == ParseMembers(more, Put(acc, k, v))
  {
    CommaAfter(more, '}');
  }

  lemma Regroup(a: string, b: string, c: string, d: string, e: string)
    ensures a + b + c + d + e == a + (b + (c + d + e))
  {
  }

  lemma ItemsShape(items: seq<Json>, rest: string)
    requires |items| > 1
    ensures SerializeItems(items) + "]" + rest
         == Serialize(items[0]) + (", " + (SerializeItems(items[1..]) + "]" + rest))
  {
    var first, others := Serialize(items[0]), SerializeItems(items[1..]);
    assert SerializeItems(items) == first + ", " + others;
    Regroup(first, ", ", others, "]", rest);
  }

  lemma ItemsStart(items: seq<Json>, rest: string)
    requires |items| > 0
    ensures !IsWs((SerializeItems(items) + "]" + rest)[0])
    ensures (SerializeItems(items) + "]" + rest)[0] != ']'
  {
    var others := SerializeItems(items);
    FirstOf(others + "]", rest);
    FirstOf(others, "]");
  }

  lemma ItemsTail(items: seq<Json>, acc: seq<Json>)
    requires |items| > 0
    requires forall i :: 0 <= i < |items| ==> WellFormed(items[i])
    ensures forall i :: 0 <= i < |items[1..]| ==> WellFormed(items[1..][i])
    ensures acc + [items[0]] + items[1..] == acc + items
  {
    assert forall i :: 0 <= i < |items[1..]| ==> items[1..][i] == items[i + 1];
  }

  /** The last element of a list, followed by its closing bracket. */
  lemma ItemsLast(items: seq<Json>, acc: seq<Json>, rest: string)
    requires |items| == 1 && WellFormed(items[0])
    ensures ParseElements(SerializeItems(items) + "]" + rest, acc) == Some((Arr(acc + items), rest))
    decreases items, 0
  {
    var head := items[0];
    assert SerializeItems(items) + "]" + rest == Serialize(head) + ("]" + rest);
    ValueRoundTrip(head, "]" + rest);
    ElementsLast(Serialize(head) + ("]" + rest), acc, head, rest);
    assert items == [head];
  }

  /** An element followed by ", " hands the remaining elements on. */
  lemma ItemsHead(items: seq<Json>, acc: seq<Json>, rest: string)
    requires |items| > 1 && WellFormed(items[0])
    ensures ParseElements(SerializeItems(items) + "]" + rest, acc)
         == ParseElements(SerializeItems(items[1..]) + "]" + rest, acc + [items[0]])
    decreases items, 0
  {
    var head := items[0];
    var more := SerializeItems(items[1..]) + "]" + rest;
    ItemsShape(items, rest);
    ItemsStart(items[1..], rest);
    ValueRoundTrip(head, ", " + more);
    ElementsNext(Serialize(head) + (", " + more), acc, head, more);
  }

  /** The ", "-joined elements of a non-empty list and its closing bracket
      read back as those elements. */
  lemma {:induction false} ItemsRoundTrip(items: seq<Json>, acc: seq<Json>, rest: string)
    requires |items| > 0
    requires forall i :: 0 <= i < |items| ==> WellFormed(items[i])
    ensures ParseElements(SerializeItems(items) + "]" + rest, acc) == Some((Arr(acc + items), rest))
    decreases items, 1
  {
    ItemsTail(items, acc);
    if |items| == 1 {
      ItemsLast(items, acc, rest);
    } else {
      ItemsHead(items, acc, rest);
      ItemsRoundTrip(items[1..], acc + [items[0]], rest);
    }
  }

  /** Storing a key that is not yet in the dict appends its entry. */
  lemma PutFresh(acc: seq<Member>, ms: seq<Member>)
    requires |ms| > 0 && DistinctKeys(acc + ms)
    ensures Put(acc, ms[0].key, ms[0].value) == acc + [ms[0]]
  {
    assert !HasKey(acc, ms[0].key) by {
      forall i | 0 <= i < |acc|
        ensures acc[i].key != ms[0].key
      {
        assert (acc + ms)[i] == acc[i] && (acc + ms)[|acc|] == ms[0];
      }
    }
  }

  lemma AfterQuote(x: string)
    ensures ("\"" + x)[0] == '"' && ("\"" + x)[1..] == x
  {
  }

  lemma QuoteShape(k: PyString, t: string)
    ensures Quote(k) + ": " + t == "\"" + (EscapeText(k) + "\"" + (": " + t))
  {
  }

  lemma ValueNotWs(v: Json, after: string)
    ensures !IsWs((Serialize(v) + after)[0])
  {
    assert (Serialize(v) + after)[0] == Serialize(v)[0];
  }

  /** One `"key": value` entry reads back, given that its value does. */
  lemma EntryRoundTrip(k: PyString, v: Json, after: string)
    requires NoSplitPair(k)
    requires ParseValue(Serialize(v) + after) == Some((v, after))
    ensures ParseEntry(Quote(k) + ": " + (Serialize(v) + after)) == Some((k, v, after))
  {
    var t := Serialize(v) + after;
    var input := Quote(k) + ": " + t;
    QuoteShape(k, t);
    AfterQuote(EscapeText(k) + "\"" + (": " + t));
    StringRoundTrip(k, ": " + t);
    ValueNotWs(v, after);
    EntryStep(input, k, t, v, after);
  }

  lemma JoinOne(whole: string, e: string, v: string, rest: string)
    requires whole == e + ": " + v
    ensures whole + "}" + rest == e + ": " + (v + ("}" + rest))
  {
  }

  lemma JoinMore(whole: string, e: string, v: string, others: string, rest: string)
    requires whole == e + ": " + v + ", " + others
    ensures whole + "}" + rest == e + ": " + (v + (", " + (others + "}" + rest)))
  {
  }

  lemma MembersOne(ms: seq<Member>, rest: string)
    requires |ms| == 1
    ensures SerializeMembers(ms) + "}" + rest
         == Quote(ms[0].key) + ": " + (Serialize(ms[0].value) + ("}" + rest))
  {
    JoinOne(SerializeMembers(ms), Quote(ms[0].key), Serialize(ms[0].value), rest);
  }

  lemma MembersCons(ms: seq<Member>, rest: string)
    requires |ms| > 1
    ensures SerializeMembers(ms) + "}" + rest
         == Quote(ms[0].key) + ": " + (Serialize(ms[0].value) + (", " + (SerializeMembers(ms[1..]) + "}" + rest)))
  {
    JoinMore(SerializeMembers(ms), Quote(ms[0].key), Serialize(ms[0].value), SerializeMembers(ms[1..]), rest);
  }

  lemma MembersStart(ms: seq<Member>, rest: string)
    requires |ms| > 0
    ensures !IsWs((SerializeMembers(ms) + "}" + rest)[0])
    ensures (SerializeMembers(ms) + "}" + rest)[0] != '}'
  {
    var others := SerializeMembers(ms);
    FirstOf(others + "}", rest);
    FirstOf(others, "}");
  }

  lemma MembersTail(ms: seq<Member>, acc: seq<Member>)
    requires |ms| > 0
    requires DistinctKeys(acc + ms)
    requires forall i :: 0 <= i < |ms| ==> NoSplitPair(ms[i].key) && WellFormed(ms[i].value)
    ensures acc + [ms[0]] + ms[1..] == acc + ms
    ensures DistinctKeys(acc + [ms[0]] + ms[1..])
    ensures forall i :: 0 <= i < |ms[1..]| ==> NoSplitPair(ms[1..][i].key) && WellFormed(ms[1..][i].value)
  {
    assert acc + [ms[0]] + ms[1..] == acc + ms;
    assert forall i :: 0 <= i < |ms[1..]| ==> ms[1..][i] == ms[i + 1];
  }

  /** The last entry of a dict, followed by its closing brace. */
  lemma MembersLastRoundTrip(ms: seq<Member>, acc: seq<Member>, rest: string)
    requires |ms| == 1 && NoSplitPair(ms[0].key) && WellFormed(ms[0].value)
    requires Put(acc, ms[0].key, ms[0].value) == acc + ms
    ensures ParseMembers(SerializeMembers(ms) + "}" + rest, acc) == Some((Obj(acc + ms), rest))
    decreases ms, 0
  {
    var k, v := ms[0].key, ms[0].value;
    MembersOne(ms, rest);
    ValueRoundTrip(v, "}" + rest);
    EntryRoundTrip(k, v, "}" + rest);
    MembersLast(SerializeMembers(ms) + "}" + rest, acc, k, v, rest);
  }

  /** An entry followed by ", " hands the remaining entries on. */
  lemma MembersHead(ms: seq<Member>, acc: seq<Member>, rest: string)
    requires |ms| > 1 && NoSplitPair(ms[0].key) && WellFormed(ms[0].value)
    ensures ParseMembers(SerializeMembers(ms) + "}" + rest, acc)
         == ParseMembers(SerializeMembers(ms[1..]) + "}" + rest, Put(acc, ms[0].key, ms[0].value))
    decreases ms, 0
  {
    var k, v := ms[0].key, ms[0].value;
    var more := SerializeMembers(ms[1..]) + "}" + rest;
    MembersCons(ms, rest);
    ValueRoundTrip(v, ", " + more);
    EntryRoundTrip(k, v, ", " + more);
    MembersStart(ms[1..], rest);
    MembersNext(SerializeMembers(ms) + "}" + rest, acc, k, v, more);
  }

  /** The ", "-joined entries of a non-empty dict with distinct keys and its
      closing brace read back as those entries, in the same order. */
  lemma {:induction false} MembersRoundTrip(ms: seq<Member>, acc: seq<Member>, rest: string)
    requires |ms| > 0
    requires DistinctKeys(acc + ms)
    requires forall i :: 0 <= i < |ms| ==> NoSplitPair(ms[i].key) && WellFormed(ms[i].value)
    ensures ParseMembers(SerializeMembers(ms) + "}" + rest, acc) == Some((Obj(acc + ms), rest))
    decreases ms, 1
  {
    PutFresh(acc, ms);
    MembersTail(ms, acc);
    if |ms| == 1 {
      assert acc + [ms[0]] == acc + ms;
      MembersLastRoundTrip(ms, acc, rest);
    } else {
      MembersHead(ms, acc, rest);
      MembersRoundTrip(ms[1..], acc + [ms[0]], rest);
    }
  }

  /** `json.loads(json.dumps(j)) == j`, also with the trailing newline the
      gateway appends, which `json.loads` skips as whitespace. */
  lemma SkipNewline()
    ensures SkipWs("\n") == ""
  {
    assert "\n"[1..] == "";
  }

  lemma ParseSerialize(j: Json)
    requires WellFormed(j)
    ensures Parse(Serialize(j)) == Some(j)
    ensures Parse(Serialize(j) + "\n") == Some(j)
  {
    var text := Serialize(j);
    SkipNothing(text);
    FirstOf(text, "\n");
    SkipNothing(text + "\n");
    ValueRoundTrip(j, "");
    AppendEmpty(text);
    ValueRoundTrip(j, "\n");
    SkipNewline();
  }
}
