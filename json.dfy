/**
 * Decoded JSON documents, and the two ways the client reads a token-endpoint reply:
 * into a `map[string]any` and into a typed record.
 */
module Json {
  import opened Wrappers
  import Strconv

  /** A JSON value. Numbers are integers here; JSON fractions are not modelled. */
  datatype Json =
    | Null
    | Bool(b: bool)
    | Number(n: int)
    | Str(s: string)
    | Array(items: seq<Json>)
    | Object(members: map<string, Json>)

  /**
   * json.Unmarshal into a `map[string]any`: an object gives its members, `null` gives a
   * nil map (which reads like an empty one), and anything else is a decoding error.
   */
  function DecodeMap(doc: Json): (r: Option<map<string, Json>>)
    ensures r.Some? <==> doc.Object? || doc.Null?
    ensures doc.Object? ==> r == Some(doc.members)
    ensures doc.Null? ==> r == Some(map[])
  {
    match doc
    case Object(m) => Some(m)
    case Null => Some(map[])
    case _ => None
  }

  /** The type assertion `m[key].(string)`: the member when it is a JSON string. */
  function StringMember(m: map<string, Json>, key: string): (r: Option<string>)
    ensures r.Some? <==> key in m && m[key].Str?
    ensures r.Some? ==> r.value == m[key].s
  {
    if key in m && m[key].Str? then Some(m[key].s) else None
  }

  /** Decoding a JSON value into a Go `string`: `null` keeps the zero value. */
  function DecodeString(v: Json): Option<string>
  {
    match v
    case Str(s) => Some(s)
    case Null => Some("")
    case _ => None
  }

  /** Decoding into a Go `*string`: `null` is a nil pointer. */
  function DecodeStringPointer(v: Json): Option<Option<string>>
  {
    match v
    case Str(s) => Some(Some(s))
    case Null => Some(None)
    case _ => None
  }

  /** Decoding into a Go `int`: the number must fit in 64 bits. */
  function DecodeInt(v: Json): Option<int>
  {
    match v
    case Number(n) => if Strconv.MinInt64 <= n <= Strconv.MaxInt64 then Some(n) else None
    case Null => Some(0)
    case _ => None
  }

  /** Decoding into a Go `[]string`: `null` is a nil slice, `null` elements are "". */
  function DecodeStrings(v: Json): Option<Option<seq<string>>>
  {
    match v
    case Null => Some(None)
    case Array(items) =>
      var elems := DecodeStringItems(items);
      if elems.Some? then Some(Some(elems.value)) else None
    case _ => None
  }

  function DecodeStringItems(items: seq<Json>): (r: Option<seq<string>>)
    ensures r.Some? ==> |r.value| == |items|
  {
    if items == [] then Some([])
    else
      var head := DecodeString(items[0]);
      var tail := DecodeStringItems(items[1..]);
      if head.Some? && tail.Some? then Some([head.value] + tail.value) else None
  }
}
