/**
  `json.dumps(obj)` with Python's default settings: `ensure_ascii=True`,
  item separator ", " and key separator ": ", no indentation, dict entries in
  insertion order.
 */
module JsonEncode {
  import opened Wrappers
  import opened JsonValue

  /** Characters from space to tilde: what an `ensure_ascii` document is made of. */
  predicate Printable(s: string)
  {
    forall i :: 0 <= i < |s| ==> ' ' <= s[i] <= '~'
  }

  /** The first character of every serialized value. */
  predicate ValueStart(c: char)
  {
    c == 'n' || c == 't' || c == 'f' || c == '-' || ('0' <= c <= '9') || c == '"' || c == '[' || c == '{'
  }

  const HexDigits: string := "0123456789abcdef"

  /** Two lower-case hex digits of a byte. */
  function Hex2(b: int): (r: string)
    requires 0 <= b < 0x100
    ensures |r| == 2
  {
    [HexDigits[b / 0x10], HexDigits[b % 0x10]]
  }

  /** Four lower-case hex digits, as `'{0:04x}'` formats a code unit. */
  function Hex4(u: int): (r: string)
    requires 0 <= u < 0x1_0000
    ensures |r| == 4
  {
    Hex2(u / 0x100) + Hex2(u % 0x100)
  }

  /** A `\uXXXX` escape of one UTF-16 code unit. */
  function UEscape(u: int): (r: string)
    requires 0 <= u < 0x1_0000
    ensures |r| == 6
  {
    "\\u" + Hex4(u)
  }

  function HighSurrogateOf(c: int): (u: int)
    requires 0x1_0000 <= c < 0x11_0000
    ensures IsHighSurrogate(u)
  {
    0xD800 + (c - 0x1_0000) / 0x400
  }

  function LowSurrogateOf(c: int): (u: int)
    requires 0x1_0000 <= c < 0x11_0000
    ensures IsLowSurrogate(u)
  {
    0xDC00 + (c - 0x1_0000) % 0x400
  }

  /** The code points written as themselves: space to tilde, except the
      quote and the backslash. */
  predicate PlainChar(c: CodePoint)
  {
    0x20 <= c <= 0x7E && c != 0x22 && c != 0x5C
  }

  /** The letter of the two-character escape of `c`, for the seven code
      points that have one. */
  function ShortEscapeLetter(c: CodePoint): Option<char>
  {
    if c == 0x22 then Some('"')
    else if c == 0x5C then Some('\\')
    else if c == 0x0A then Some('n')
    else if c == 0x0D then Some('r')
    else if c == 0x09 then Some('t')
    else if c == 0x08 then Some('b')
    else if c == 0x0C then Some('f')
    else None
  }

  /** What follows the backslash in the escape of a code point that is not
      written as itself: a short escape letter, or `u` and four hex digits,
      with a supplementary code point written as a surrogate pair. */
  function EscapeTail(c: CodePoint): (r: string)
    requires !PlainChar(c)
    ensures 0 < |r|
  {
    match ShortEscapeLetter(c)
    case Some(letter) => [letter]
    case None =>
      if c < 0x1_0000 then "u" + Hex4(c)
      else "u" + Hex4(HighSurrogateOf(c)) + UEscape(LowSurrogateOf(c))
  }

  /** How one code point of a string is written. */
  function EscapeCodePoint(c: CodePoint): (r: string)
    ensures 0 < |r|
  {
    if PlainChar(c) then [c as char] else "\\" + EscapeTail(c)
  }

  /** The escaped body of a string, without the surrounding quotes. */
  function EscapeText(s: PyString): (r: string)
  {
    if |s| == 0 then "" else EscapeCodePoint(s[0]) + EscapeText(s[1..])
  }

  function Quote(s: PyString): (r: string)
  {
    "\"" + EscapeText(s) + "\""
  }

  function DigitChar(d: int): (c: char)
    requires 0 <= d < 10
    ensures '0' <= c <= '9' && c as int - '0' as int == d
  {
    ('0' as int + d) as char
  }

  /** `str(n)` for a non-negative int: decimal, no leading zero. */
  function NatText(n: nat): (r: string)
    ensures 0 < |r|
    ensures forall i :: 0 <= i < |r| ==> '0' <= r[i] <= '9'
    ensures r[0] == '0' <==> n == 0
    ensures n == 0 ==> r == "0"
  {
    if n < 10 then [DigitChar(n)] else NatText(n / 10) + [DigitChar(n % 10)]
  }

  /** `str(i)` for an int. */
  function IntText(i: int): (r: string)
    ensures 0 < |r|
    ensures r[0] == '-' <==> i < 0
  {
    if i < 0 then "-" + NatText(-i) else NatText(i)
  }

  /** `json.dumps(j)`. Every document is printable ASCII, so it never holds the
      newline the gateway appends as the datagram terminator. */
  function Serialize(j: Json): (r: string)
    ensures 0 < |r| && ValueStart(r[0])
  {
    match j
    case Null => "null"
    case Bool(b) => if b then "true" else "false"
    case Int(i) => IntText(i)
    case Str(s) => Quote(s)
    case Arr(items) => "[" + SerializeItems(items) + "]"
    case Obj(ms) => "{" + SerializeMembers(ms) + "}"
  }

  /** List elements joined by ", ". */
  function SerializeItems(items: seq<Json>): (r: string)
    ensures |items| > 0 ==> 0 < |r| && ValueStart(r[0])
  {
    if |items| == 0 then ""
    else if |items| == 1 then Serialize(items[0])
    else Serialize(items[0]) + ", " + SerializeItems(items[1..])
  }

  /** Dict entries as `"key": value`, joined by ", ". */
  function SerializeMembers(ms: seq<Member>): (r: string)
    ensures |ms| > 0 ==> 0 < |r| && r[0] == '"'
  {
    if |ms| == 0 then ""
    else
      var entry := Quote(ms[0].key) + ": " + Serialize(ms[0].value);
      if |ms| == 1 then entry else entry + ", " + SerializeMembers(ms[1..])
  }
}
