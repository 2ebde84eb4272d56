/**
  Python values and the few built-in operations of the Python runtime that the
  bot's code relies on: JSON payloads as `json.loads` returns them, the
  exceptions the code can raise, `in`, `[]`, `dict.get`, truthiness, slicing,
  `str()` of numbers, `str.join` and UTF-8 encoding.
 */
module Values {

  /** A decoded JSON value; `JNull` stands for Python's `None`. */
  datatype Json =
    | JNull
    | JBool(b: bool)
    | JInt(i: int)
    | JStr(s: string)
    | JArr(items: seq<Json>)
    | JObj(fields: map<string, Json>)

  /** The exceptions the modelled code raises or lets through. */
  datatype PyError =
    | KeyError(key: string)
    | TypeError(message: string)        // interpreter-raised ones carry ""
    | AttributeError(name: string)
    | AssertionError
    | IndexError
    | ValueError                        // a body that is not valid JSON
    | FileNotFound(path: string)
    | FormatError                       // `str.format` on a template with stray braces
    | TransportError(code: int)         // the HTTP client raised instead of returning
    | BotApiError(description: Json)
    | BotError(message: string)

  /** A value or the exception that was raised instead. */
  datatype Result<+T> = Ok(value: T) | Err(error: PyError) {
    predicate IsFailure() { Err? }
    function PropagateFailure<U>(): Result<U> requires Err? { Err(error) }
    function Extract(): T requires Ok? { value }
  }

  datatype Option<+T> = None | Some(value: T)

  /** The TypeError Python raises when an operation gets a value of a type it does not support. */
  const WrongType := TypeError("")

  /** Python's `key in container` for a string key. */
  function Contains(container: Json, key: string): (r: Result<bool>)
    ensures container.JObj? ==> r == Ok(key in container.fields)
    ensures r.Err? <==> !(container.JObj? || container.JArr? || container.JStr?)
  {
    match container
    case JObj(m) => Ok(key in m)
    case JArr(xs) => Ok(JStr(key) in xs)
    case JStr(s) => Ok(IsInfix(key, s))
    case _ => Err(WrongType)
  }

  /** The values `in` accepts on its right: a dict, a list or a string. */
  predicate IsContainer(j: Json) {
    j.JObj? || j.JArr? || j.JStr?
  }

  /** `key in container` once `container` is known to support `in`. */
  function In(container: Json, key: string): bool
    requires IsContainer(container)
  {
    Contains(container, key).value
  }

  /** Substring test: `k in s` for two strings (a prefix of some suffix of `s`). */
  function IsInfix(k: string, s: string): (r: bool)
    ensures k <= s ==> r
    ensures r ==> |k| <= |s|
  {
    k <= s || (|s| > 0 && IsInfix(k, s[1..]))
  }

  /** Python's `container[key]` for a string key. */
  function GetItem(container: Json, key: string): (r: Result<Json>)
    ensures r.Ok? <==> container.JObj? && key in container.fields
    ensures r.Ok? ==> r.value == container.fields[key]
    ensures r.Err? && container.JObj? ==> r.error == KeyError(key)
  {
    match container
    case JObj(m) => if key in m then Ok(m[key]) else Err(KeyError(key))
    case _ => Err(WrongType)
  }

  /** Python's `d.get(key, None)`: a JSON null reads as absent. */
  function Get(fields: map<string, Json>, key: string): (r: Option<Json>)
    ensures r == None <==> key !in fields || fields[key] == JNull
    ensures r.Some? ==> r.value == fields[key]
  {
    if key in fields && fields[key] != JNull then Some(fields[key]) else None
  }

  /** Python truthiness of a JSON value. */
  predicate Truthy(j: Json) {
    match j
    case JNull => false
    case JBool(b) => b
    case JInt(i) => i != 0
    case JStr(s) => s != ""
    case JArr(xs) => xs != []
    case JObj(m) => m != map[]
  }

  /** The integer a value stands for in Python (`bool` is a subclass of `int`). */
  function AsInt(j: Json): (r: Option<int>)
    ensures r.Some? <==> j.JInt? || j.JBool?
  {
    match j
    case JInt(i) => Some(i)
    case JBool(b) => Some(if b then 1 else 0)
    case _ => None
  }

  /** Where `s[:stop]` ends in a sequence of length `len`, following Python's clamping. */
  function StopIndex(len: nat, stop: int): (k: nat)
    ensures k <= len
    ensures 0 <= stop ==> k == if stop < len then stop else len
    ensures stop < 0 ==> k == if len + stop < 0 then 0 else len + stop
  {
    if 0 <= stop then (if stop < len then stop else len)
    else if len + stop < 0 then 0 else len + stop
  }

  /** Python's `v[:stop]`, with `stop` a JSON value (None means "to the end"). */
  function SliceTo(v: Json, stop: Json): (r: Result<Json>)
    ensures r.Ok? <==> (v.JStr? || v.JArr?) && (stop.JNull? || AsInt(stop).Some?)
    ensures r.Ok? && v.JStr? ==> r.value.JStr? && r.value.s <= v.s
    ensures r.Ok? && v.JArr? ==> r.value.JArr? && r.value.items <= v.items
  {
    match v
    case JStr(s) =>
      if stop.JNull? then Ok(v)
      else if AsInt(stop).Some? then Ok(JStr(s[..StopIndex(|s|, AsInt(stop).value)]))
      else Err(WrongType)
    case JArr(xs) =>
      if stop.JNull? then Ok(v)
      else if AsInt(stop).Some? then Ok(JArr(xs[..StopIndex(|xs|, AsInt(stop).value)]))
      else Err(WrongType)
    case _ => Err(WrongType)
  }

  function Digit(d: nat): (c: char)
    requires d < 10
    ensures '0' <= c <= '9'
  {
    "0123456789"[d]
  }

  /** Decimal digits of a natural number, as `str(n)` writes them. */
  function NatToString(n: nat): (s: string)
    ensures |s| >= 1
    ensures forall k :: 0 <= k < |s| ==> '0' <= s[k] <= '9'
  {
    if n < 10 then [Digit(n)] else NatToString(n / 10) + [Digit(n % 10)]
  }

  /** `str(i)` for a Python int. */
  function IntToString(i: int): (s: string)
    ensures |s| >= 1
    ensures (s[0] == '-') <==> i < 0
  {
    if i < 0 then "-" + NatToString(-i) else NatToString(i)
  }

  /** `str(v)` for the numeric JSON values; bools print as `True`/`False`. */
  function NumberToString(v: Json): (s: string)
    requires AsInt(v).Some?
    ensures v == JBool(true) ==> s == "True"
    ensures v == JBool(false) ==> s == "False"
  {
    match v
    case JBool(b) => if b then "True" else "False"
    case JInt(i) => IntToString(i)
  }

  /** Python's `sep.join(parts)`. */
  function Join(parts: seq<string>, sep: string): string
  {
    if |parts| == 0 then ""
    else if |parts| == 1 then parts[0]
    else parts[0] + sep + Join(parts[1..], sep)
  }

  /** Every part followed by the separator, with nothing between. */
  function Terminated(parts: seq<string>, sep: string): string
  {
    if |parts| == 0 then "" else parts[0] + sep + Terminated(parts[1..], sep)
  }

  /** Joining `lines + [last]` with `sep` terminates every line with `sep` and then appends `last`. */
  lemma {:induction false} JoinWithLast(lines: seq<string>, last: string, sep: string)
    ensures Join(lines + [last], sep) == Terminated(lines, sep) + last
  {
    if |lines| > 0 {
      assert (lines + [last])[1..] == lines[1..] + [last];
      JoinWithLast(lines[1..], last, sep);
    }
  }

  type uint8 = x: int | 0 <= x < 256

  /** The UTF-8 encoding of one Unicode scalar value. */
  function EncodeChar(c: char): (r: seq<uint8>)
    ensures 1 <= |r| <= 4
    ensures |r| == 1 <==> (c as int) < 0x80
    ensures (c as int) < 0x80 ==> r == [c as int]
  {
    var n := c as int;
    if n < 0x80 then [n]
    else if n < 0x800 then [0xC0 + n / 0x40, 0x80 + n % 0x40]
    else if n < 0x1_0000 then [0xE0 + n / 0x1000, 0x80 + (n / 0x40) % 0x40, 0x80 + n % 0x40]
    else [0xF0 + n / 0x4_0000, 0x80 + (n / 0x1000) % 0x40, 0x80 + (n / 0x40) % 0x40, 0x80 + n % 0x40]
  }

  /** `s.encode('utf-8')`. */
  function Encode(s: string): (r: seq<uint8>)
    ensures |r| >= |s|
  {
    if s == [] then [] else EncodeChar(s[0]) + Encode(s[1..])
  }

  /** Encoding distributes over concatenation. */
  lemma {:induction false} EncodeConcat(a: string, b: string)
    ensures Encode(a + b) == Encode(a) + Encode(b)
  {
    if a != [] {
      assert a + b != [];
      assert (a + b)[0] == a[0];
      assert (a + b)[1..] == a[1..] + b;
      EncodeConcat(a[1..], b);
    } else {
      assert a + b == b;
    }
  }

  predicate IsAscii(s: string) {
    forall k :: 0 <= k < |s| ==> (s[k] as int) < 0x80
  }

  /** An ASCII string encodes to one byte per character, each the character's code. */
  lemma {:induction false} EncodeAscii(s: string)
    requires IsAscii(s)
    ensures |Encode(s)| == |s|
    ensures forall k :: 0 <= k < |s| ==> Encode(s)[k] == s[k] as int
  {
    if s != [] {
      EncodeAscii(s[1..]);
    }
  }
}
