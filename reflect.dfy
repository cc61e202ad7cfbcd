/**
 * The run-time values the query encoders inspect through Go's `reflect` package, made
 * explicit as a datatype, together with `reflect.Value.IsZero` and what `fmt`'s `%v`
 * verb prints for each of them.
 */
module Reflect {
  import opened GoStrings
  import opened Strconv
  import UrlValues

  /**
   * A Go value of the kinds that occur in option records. The nil pointer, slice, map
   * and interface are constructors of their own; a non-nil pointer carries the value it
   * points to and its address. `Named(under, text)` is a value of a named type with a
   * `String` method (`Scope` over a string, `CommercialLength` over an integer): `under`
   * is its underlying value and `text` what its `String` method returns for it.
   */
  datatype Value =
    | Str(s: string)
    | Int(i: int)
    | Bool(b: bool)
    | NilPtr
    | Ptr(target: Value, address: nat)
    | NilSlice
    | Slice(elems: seq<Value>)
    | NilMap
    | Map(entries: map<string, Value>)
    | NilIface
    | Iface(dynamic: Value)
    | Struct(fields: seq<Field>)
    | Named(under: Value, text: string)

  /**
   * A struct field: its Go name, the value of its `json` struct tag ("" when there is
   * none), whether it is embedded (anonymous), and its value.
   */
  datatype Field = Field(name: string, tag: string, embedded: bool, value: Value)

  /** reflect.Value.IsZero: the zero value of its type. */
  predicate IsZero(v: Value)
  {
    match v
    case Str(s) => s == ""
    case Int(i) => i == 0
    case Bool(b) => !b
    case NilPtr => true
    case NilSlice => true
    case NilMap => true
    case NilIface => true
    case Struct(fs) => forall i :: 0 <= i < |fs| ==> IsZero(fs[i].value)
    case Named(u, _) => IsZero(u)
    case _ => false
  }

  /** A field can be read through `Interface()` only when its name is exported. */
  predicate IsExported(name: string)
  {
    name != [] && 'A' <= name[0] <= 'Z'
  }

  /** reflect.Value.Interface: an interface value gives up its dynamic value. */
  function Interface(v: Value): Value
  {
    if v.Iface? then v.dynamic else v
  }

  // ---------------------------------------------------------------------------
  // Hexadecimal addresses.
  // ---------------------------------------------------------------------------

  const LowerHexDigits: string := "0123456789abcdef"

  /** The lower-case hexadecimal digits of `n`, most significant first. */
  function HexDigits(n: nat): (r: string)
    ensures r != []
    decreases n
  {
    if n < 16 then [LowerHexDigits[n]] else HexDigits(n / 16) + [LowerHexDigits[n % 16]]
  }

  /** The value of a hexadecimal digit of `HexDigits`. */
  function HexDigitValue(c: char): nat
  {
    if '0' <= c <= '9' then c as int - '0' as int
    else if 'a' <= c <= 'f' then c as int - 'a' as int + 10
    else 0
  }

  /** The number a string of lower-case hexadecimal digits denotes, read left to right. */
  function HexValue(s: string): nat
  {
    if s == [] then 0 else HexValue(s[..|s| - 1]) * 16 + HexDigitValue(s[|s| - 1])
  }

  lemma HexDigitRoundTrip(d: nat)
    requires d < 16
    ensures HexDigitValue(LowerHexDigits[d]) == d
  {
  }

  /** Reading the digits back gives the number: distinct addresses print differently. */
  lemma {:induction false} HexRoundTrip(n: nat)
    ensures HexValue(HexDigits(n)) == n
    decreases n
  {
    var s := HexDigits(n);
    if n < 16 {
      HexDigitRoundTrip(n);
      assert s[..|s| - 1] == [];
    } else {
      HexRoundTrip(n / 16);
      HexDigitRoundTrip(n % 16);
      assert s[..|s| - 1] == HexDigits(n / 16);
    }
  }

  lemma HexInjective(a: nat, b: nat)
    requires HexDigits(a) == HexDigits(b)
    ensures a == b
  {
    HexRoundTrip(a);
    HexRoundTrip(b);
  }

  // ---------------------------------------------------------------------------
  // fmt's %v.
  // ---------------------------------------------------------------------------

  /**
   * What `%v` prints for `v` at nesting depth `depth`. A value with a `String` method, or a
   * non-nil pointer to one (the method set of `*T` holds the methods of `T`), prints as
   * that method's text. A pointer to a struct, slice or map prints as `&` and its target
   * only at depth 0; every other non-nil pointer prints as its address in hexadecimal.
   * Slices and structs print their elements separated by spaces, maps their entries in
   * ascending key order.
   */
  function Format(v: Value, depth: nat): string
    decreases v
  {
    match v
    case Str(s) => s
    case Int(i) => Itoa(i)
    case Bool(b) => if b then "true" else "false"
    case NilPtr => "<nil>"
    case Ptr(t, a) =>
      if t.Named? then t.text
      else if depth == 0 && (t.Struct? || t.Slice? || t.NilSlice? || t.Map? || t.NilMap?)
      then "&" + Format(t, 1)
      else "0x" + HexDigits(a)
    case NilSlice => "[]"
    case Slice(es) =>
      "[" + Join(seq(|es|, i requires 0 <= i < |es| => Format(es[i], depth + 1)), " ") + "]"
    case NilMap => "map[]"
    case Map(m) =>
      var ks := UrlValues.SortedKeys(m.Keys);
      "map[" + Join(seq(|ks|, i requires 0 <= i < |ks| => ks[i] + ":" + Format(m[ks[i]], depth + 1)), " ") + "]"
    case NilIface => "<nil>"
    case Iface(x) => Format(x, depth + 1)
    case Struct(fs) =>
      "{" + Join(seq(|fs|, i requires 0 <= i < |fs| => Format(fs[i].value, depth + 1)), " ") + "}"
    case Named(_, t) => t
  }

  /**
   * A value with a `String` method prints as its text at every depth, also through a
   * non-nil pointer, while whether it is zero is decided by its underlying value.
   */
  lemma NamedPrintsText(u: Value, text: string, address: nat, depth: nat)
    ensures Format(Named(u, text), depth) == text
    ensures Format(Ptr(Named(u, text), address), depth) == text
    ensures IsZero(Named(u, text)) <==> IsZero(u)
  {
  }

  /** A string, an integer or a boolean. */
  predicate IsScalar(v: Value)
  {
    v.Str? || v.Int? || v.Bool?
  }

  /**
   * A non-nil pointer to a string, integer or boolean prints as its address, at every
   * depth: the value it points to does not appear.
   */
  lemma PointerPrintsAddress(t: Value, address: nat, depth: nat)
    requires IsScalar(t)
    ensures Format(Ptr(t, address), depth) == "0x" + HexDigits(address)
  {
  }

  /** Two pointers to scalars print the same only when they are the same address. */
  lemma PointerTextDeterminesAddress(t: Value, u: Value, a: nat, b: nat)
    requires IsScalar(t) && IsScalar(u)
    requires Format(Ptr(t, a), 0) == Format(Ptr(u, b), 0)
    ensures a == b
  {
    var x, y := HexDigits(a), HexDigits(b);
    assert "0x" + x == "0x" + y;
    assert x == ("0x" + x)[2..] && y == ("0x" + y)[2..];
    HexInjective(a, b);
  }

  /** A 64-bit integer prints as the decimal text that strconv.Atoi reads back. */
  lemma IntTextRoundTrip(i: int, depth: nat)
    requires MinInt64 <= i <= MaxInt64
    ensures Atoi(Format(Int(i), depth)) == Parsed(i, true)
  {
    AtoiItoa(i);
  }
}
