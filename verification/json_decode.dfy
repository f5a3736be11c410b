/**
  `json.loads(text)` as CPython's C scanner performs it, on the value shapes of
  `JsonValue`. A number with a fraction or an exponent, `NaN`, `Infinity` and
  `-Infinity` would decode to a Python float, which this model does not
  represent: they decode to None here, like malformed text.
 */
module JsonDecode {
  import opened Wrappers
  import opened JsonValue

  /** The four characters JSON allows between tokens. */
  predicate IsWs(c: char)
  {
    c == ' ' || c == '\t' || c == '\n' || c == '\r'
  }

  function SkipWs(s: string): (r: string)
    ensures |r| <= |s| && r == s[|s| - |r|..]
    ensures |r| > 0 ==> !IsWs(r[0])
  {
    if |s| > 0 && IsWs(s[0]) then SkipWs(s[1..]) else s
  }

  predicate IsDigit(c: char)
  {
    '0' <= c <= '9'
  }

  function HexValue(c: char): Option<int>
  {
    if '0' <= c <= '9' then Some(c as int - '0' as int)
    else if 'a' <= c <= 'f' then Some(c as int - 'a' as int + 10)
    else if 'A' <= c <= 'F' then Some(c as int - 'A' as int + 10)
    else None
  }

  /** The code unit written by the four hex digits at the head of `s`
      (either case), or None when there are fewer than four of them. */
  function ParseHex4(s: string): (r: Option<int>)
    ensures r.Some? ==> |s| >= 4 && 0 <= r.value < 0x1_0000
  {
    if |s| < 4 then None
    else
      match (HexValue(s[0]), HexValue(s[1]), HexValue(s[2]), HexValue(s[3]))
      case (Some(a), Some(b), Some(c), Some(d)) =>
        assert 0 <= a < 16 && 0 <= b < 16 && 0 <= c < 16 && 0 <= d < 16;
        Some(a * 0x1000 + b * 0x100 + c * 0x10 + d)
      case _ => None
  }

  function JoinSurrogates(hi: int, lo: int): (c: CodePoint)
    requires IsHighSurrogate(hi) && IsLowSurrogate(lo)
    ensures 0x1_0000 <= c
  {
    0x1_0000 + (hi - 0xD800) * 0x400 + (lo - 0xDC00)
  }

  /** `s` starts with a `\u` escape of a low surrogate. */
  predicate LowEscapeAhead(s: string)
  {
    && |s| >= 2 && s[0] == '\\' && s[1] == 'u'
    && ParseHex4(s[2..]).Some? && IsLowSurrogate(ParseHex4(s[2..]).value)
  }

  /** The escape after a backslash inside a string: the code point it stands
      for and the text after it. A `\u` escape of a high surrogate that is
      directly followed by a `\u` escape of a low surrogate is read as one
      supplementary code point; any other `\u` escape stands for its code unit
      alone, lone surrogates included. */
  function ParseEscape(s: string): (r: Option<(CodePoint, string)>)
    ensures r.Some? ==> |r.value.1| < |s|
  {
    if |s| == 0 then None
    else if s[0] == '"' then Some(('"' as int, s[1..]))
    else if s[0] == '\\' then Some(('\\' as int, s[1..]))
    else if s[0] == '/' then Some(('/' as int, s[1..]))
    else if s[0] == 'b' then Some((0x08, s[1..]))
    else if s[0] == 'f' then Some((0x0C, s[1..]))
    else if s[0] == 'n' then Some((0x0A, s[1..]))
    else if s[0] == 'r' then Some((0x0D, s[1..]))
    else if s[0] == 't' then Some((0x09, s[1..]))
    else if s[0] == 'u' then
      match ParseHex4(s[1..])
      case None => None
      case Some(u) =>
        var rest := s[5..];
        if IsHighSurrogate(u) && LowEscapeAhead(rest) then Some((JoinSurrogates(u, ParseHex4(rest[2..]).value), rest[6..]))
        else Some((u, rest))
    else None
  }

  /** The body of a string after its opening quote: the decoded code points
      and the text after the closing quote. A raw control character (below
      U+0020) is an error. */
  function ParseStringBody(s: string): (r: Option<(PyString, string)>)
    ensures r.Some? ==> |r.value.1| < |s|
  {
    if |s| == 0 then None
    else if s[0] == '"' then Some(([], s[1..]))
    else if s[0] == '\\' then
      match ParseEscape(s[1..])
      case None => None
      case Some((c, rest)) =>
        match ParseStringBody(rest)
        case None => None
        case Some((cs, rest')) => Some(([c] + cs, rest'))
    else if (s[0] as int) < 0x20 then None
    else
      match ParseStringBody(s[1..])
      case None => None
      case Some((cs, rest')) => Some(([s[0] as int] + cs, rest'))
  }

  /** Length of the run of decimal digits at the head of `s`. */
  function DigitRun(s: string): (n: nat)
    ensures n <= |s|
    ensures forall i :: 0 <= i < n ==> IsDigit(s[i])
    ensures n < |s| ==> !IsDigit(s[n])
  {
    if |s| > 0 && IsDigit(s[0]) then 1 + DigitRun(s[1..]) else 0
  }

  /** The value of a string of decimal digits. */
  function DigitsValue(ds: string): nat
    requires forall i :: 0 <= i < |ds| ==> IsDigit(ds[i])
  {
    if |ds| == 0 then 0
    else
      assert IsDigit(ds[|ds| - 1]);
      DigitsValue(ds[..|ds| - 1]) * 10 + (ds[|ds| - 1] as int - '0' as int)
  }

  /** What would make the number just read a float: a fraction `.d`, or an
      exponent `e`/`E` with an optional sign and at least one digit. */
  predicate FloatTail(s: string)
  {
    || (|s| >= 2 && s[0] == '.' && IsDigit(s[1]))
    || (|s| >= 2 && (s[0] == 'e' || s[0] == 'E')
        && (IsDigit(s[1]) || (|s| >= 3 && (s[1] == '+' || s[1] == '-') && IsDigit(s[2]))))
  }

  /** The digits of a number: `0` or a digit run without leading zero. A
      float tail makes it a float, outside this model. */
  function ParseMagnitude(s: string): (r: Option<(nat, string)>)
    ensures r.Some? ==> |r.value.1| < |s|
  {
    if |s| == 0 then None
    else if s[0] == '0' then
      if FloatTail(s[1..]) then None else Some((0, s[1..]))
    else if '1' <= s[0] <= '9' then
      var n := DigitRun(s);
      if FloatTail(s[n..]) then None else Some((DigitsValue(s[..n]), s[n..]))
    else None
  }

  /** A number: an optional minus, then its digits. */
  function ParseNumber(s: string): (r: Option<(Json, string)>)
    ensures r.Some? ==> |r.value.1| < |s|
  {
    if |s| > 0 && s[0] == '-' then
      match ParseMagnitude(s[1..])
      case None => None
      case Some((v, rest)) => Some((Int(-(v as int)), rest))
    else
      match ParseMagnitude(s)
      case None => None
      case Some((v, rest)) => Some((Int(v), rest))
  }

  /** One value at the head of `s` (no leading whitespace) and the text after it. */
  function ParseValue(s: string): (r: Option<(Json, string)>)
    ensures r.Some? ==> |r.value.1| < |s|
    decreases |s|, 0
  {
    if |s| == 0 then None
    else if s[0] == '"' then
      match ParseStringBody(s[1..])
      case None => None
      case Some((cs, rest)) => Some((Str(cs), rest))
    else if s[0] == '{' then ParseObject(s[1..])
    else if s[0] == '[' then ParseArray(s[1..])
    else if s[0] == 'n' then
      if |s| >= 4 && s[..4] == "null" then Some((Null, s[4..])) else None
    else if s[0] == 't' then
      if |s| >= 4 && s[..4] == "true" then Some((Bool(true), s[4..])) else None
    else if s[0] == 'f' then
      if |s| >= 5 && s[..5] == "false" then Some((Bool(false), s[5..])) else None
    else ParseNumber(s)
  }

  /** A list after its `[`. */
  function ParseArray(s: string): (r: Option<(Json, string)>)
    ensures r.Some? ==> |r.value.1| < |s|
    decreases |s|, 2
  {
    var t := SkipWs(s);
    if |t| > 0 && t[0] == ']' then Some((Arr([]), t[1..]))
    else ParseElements(t, [])
  }

  /** What follows a list element or a dict entry, once whitespace is skipped. */
  datatype After = Closed(rest: string) | Comma(more: string) | Stray

  /** After an element or entry: the closing `closer` and the text after it,
      or a comma and the (whitespace-skipped) text after it, or anything
      else, which is an error. */
  function AfterItem(r: string, closer: char): (a: After)
    ensures a.Closed? ==> |a.rest| < |r|
    ensures a.Comma? ==> |a.more| < |r|
  {
    var t := SkipWs(r);
    if |t| == 0 then Stray
    else if t[0] == closer then Closed(t[1..])
    else if t[0] == ',' then Comma(SkipWs(t[1..]))
    else Stray
  }

  /** The elements of a list from one that must be present, appended to `acc`. */
  function ParseElements(s: string, acc: seq<Json>): (r: Option<(Json, string)>)
    ensures r.Some? ==> |r.value.1| < |s|
    decreases |s|, 1
  {
    match ParseValue(s)
    case None => None
    case Some((v, rest)) =>
      match AfterItem(rest, ']')
      case Closed(after) => Some((Arr(acc + [v]), after))
      case Comma(more) => ParseElements(more, acc + [v])
      case Stray => None
  }

  /** A dict after its `{`. */
  function ParseObject(s: string): (r: Option<(Json, string)>)
    ensures r.Some? ==> |r.value.1| < |s|
    decreases |s|, 2
  {
    var t := SkipWs(s);
    if |t| > 0 && t[0] == '}' then Some((Obj([]), t[1..]))
    else ParseMembers(t, [])
  }

  /** One dict entry: a quoted key, a colon and a value, with optional
      whitespace around the colon. */
  function ParseEntry(s: string): (r: Option<(PyString, Json, string)>)
    ensures r.Some? ==> |r.value.2| < |s|
    decreases |s|, 0
  {
    if |s| == 0 || s[0] != '"' then None
    else
      match ParseStringBody(s[1..])
      case None => None
      case Some((k, r1)) =>
        var r2 := SkipWs(r1);
        if |r2| == 0 || r2[0] != ':' then None
        else
          match ParseValue(SkipWs(r2[1..]))
          case None => None
          case Some((v, r3)) => Some((k, v, r3))
  }

  /** The entries of a dict from one that must be present, stored into `acc`
      the way `d[key] = value` stores them (a repeated key keeps its first
      position and takes the last value). */
  function ParseMembers(s: string, acc: seq<Member>): (r: Option<(Json, string)>)
    ensures r.Some? ==> |r.value.1| < |s|
    decreases |s|, 1
  {
    match ParseEntry(s)
    case None => None
    case Some((k, v, rest)) =>
      match AfterItem(rest, '}')
      case Closed(after) => Some((Obj(Put(acc, k, v)), after))
      case Comma(more) => ParseMembers(more, Put(acc, k, v))
      case Stray => None
  }

  /** `json.loads(text)`: one value with optional whitespace around it. */
  function Parse(text: string): Option<Json>
  {
    match ParseValue(SkipWs(text))
    case None => None
    case Some((v, rest)) => if |SkipWs(rest)| == 0 then Some(v) else None
  }
}
