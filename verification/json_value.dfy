/**
  Python's view of a decoded JSON document, as `json.loads` returns it and
  `json.dumps` consumes it.

  Only the value shapes that the gateway can meet without floating point are
  modelled: null, booleans, integers (Python ints are unbounded, like Dafny's),
  strings, lists and dicts.
 */
module JsonValue {
  import opened Wrappers

  /** One element of a Python `str`: any code point, surrogates included,
      because a `\uXXXX` escape can produce a lone surrogate. */
  type CodePoint = c: int | 0 <= c < 0x11_0000

  type PyString = seq<CodePoint>

  datatype Json =
    | Null
    | Bool(b: bool)
    | Int(i: int)
    | Str(s: PyString)
    | Arr(items: seq<Json>)
    | Obj(members: seq<Member>)

  /** A dict entry. A dict is kept as its entries in insertion order, which is
      the order `json.dumps` writes them in. */
  datatype Member = Member(key: PyString, value: Json)

  /** The Python string spelled by a Dafny string literal. */
  function Py(s: string): (r: PyString)
    ensures |r| == |s|
    ensures forall i :: 0 <= i < |s| ==> r[i] == s[i] as int
  {
    seq(|s|, i requires 0 <= i < |s| => s[i] as int)
  }

  predicate IsHighSurrogate(c: int) { 0xD800 <= c < 0xDC00 }

  predicate IsLowSurrogate(c: int) { 0xDC00 <= c < 0xE000 }

  /** No high surrogate is directly followed by a low one. `json.loads` never
      builds such a string: it joins an escaped high/low pair into one code point. */
  predicate NoSplitPair(s: PyString)
  {
    forall i :: 0 <= i < |s| - 1 ==> !(IsHighSurrogate(s[i]) && IsLowSurrogate(s[i + 1]))
  }

  predicate DistinctKeys(ms: seq<Member>)
  {
    forall i, j :: 0 <= i < j < |ms| ==> ms[i].key != ms[j].key
  }

  predicate HasKey(ms: seq<Member>, k: PyString)
  {
    exists i :: 0 <= i < |ms| && ms[i].key == k
  }

  /** The values `json.loads` can return: dict keys are unique and no string
      holds a high surrogate directly followed by a low one. */
  predicate WellFormed(j: Json)
  {
    match j
    case Str(s) => NoSplitPair(s)
    case Arr(items) => forall i :: 0 <= i < |items| ==> WellFormed(items[i])
    case Obj(ms) =>
      && DistinctKeys(ms)
      && forall i :: 0 <= i < |ms| ==> NoSplitPair(ms[i].key) && WellFormed(ms[i].value)
    case _ => true
  }

  /** `d.get(k)` on a dict: the value stored under `k`, or None when absent. */
  function Get(ms: seq<Member>, k: PyString): (r: Option<Json>)
    ensures r.None? <==> !HasKey(ms, k)
    ensures r.Some? ==> exists i :: 0 <= i < |ms| && ms[i] == Member(k, r.value)
  {
    if |ms| == 0 then None
    else if ms[0].key == k then Some(ms[0].value)
    else
      var r := Get(ms[1..], k);
      assert forall i :: 0 < i < |ms| ==> ms[i] == ms[1..][i - 1];
      r
  }

  /** `d[k] = v` on a dict: an existing key keeps its position and takes the
      new value; a new key is appended. */
  function Put(ms: seq<Member>, k: PyString, v: Json): (r: seq<Member>)
    ensures HasKey(ms, k) ==> |r| == |ms|
    ensures !HasKey(ms, k) ==> r == ms + [Member(k, v)]
  {
    if |ms| == 0 then [Member(k, v)]
    else if ms[0].key == k then [Member(k, v)] + ms[1..]
    else
      assert forall i :: 0 < i < |ms| ==> ms[i] == ms[1..][i - 1];
      assert HasKey(ms, k) ==> HasKey(ms[1..], k);
      [ms[0]] + Put(ms[1..], k, v)
  }

  /** Python truthiness of a decoded value, as `if config.get(...)` tests it. */
  predicate Truthy(j: Json)
  {
    match j
    case Null => false
    case Bool(b) => b
    case Int(i) => i != 0
    case Str(s) => |s| > 0
    case Arr(items) => |items| > 0
    case Obj(ms) => |ms| > 0
  }
}
