/**
 * util.go's `ParseOptions`: the second query encoder. It walks the fields of an options
 * struct by reflection, keys every value by the Go field name (never the `json` tag),
 * collects the values in a `url.Values` map with `Add` and `Set`, and returns that map's
 * encoding.
 */
module Util {
  import opened Wrappers
  import opened GoStrings
  import opened Reflect
  import opened UrlValues
  import opened Strconv

  // ---------------------------------------------------------------------------
  // Specification.
  // ---------------------------------------------------------------------------

  /** `fmt.Sprintf("%v", x.Interface())`: the text written for a field or an element. */
  function FieldText(v: Value): string
  {
    Format(Interface(v), 0)
  }

  /** The fields the loop passes over with `continue`: unexported, nil pointer, nil interface. */
  predicate Skipped(f: Field)
  {
    !IsExported(f.name) || f.value.NilPtr? || f.value.NilIface?
  }

  /** The fields that leave a key in the map: not skipped, and not an empty non-nil slice. */
  predicate Emits(f: Field)
  {
    !Skipped(f) && !(f.value.Slice? && f.value.elems == [])
  }

  /** The texts of a list of elements, in order. */
  function Texts(es: seq<Value>, text: Value -> string): (r: seq<string>)
    ensures |r| == |es|
  {
    seq(|es|, j requires 0 <= j < |es| => text(es[j]))
  }

  /** The values a single emitting field leaves under its key. */
  function FieldTexts(f: Field, text: Value -> string): seq<string>
  {
    if f.value.Slice? then Texts(f.value.elems, text) else [text(f.value)]
  }

  /** `params.Add(key, text(e))` for each element `e`, in order. */
  function AddAll(p: Values, key: string, es: seq<Value>, text: Value -> string): Values
    decreases |es|
  {
    if es == [] then p
    else Add(AddAll(p, key, es[..|es| - 1], text), key, text(es[|es| - 1]))
  }

  /** What one turn of the field loop does to `params`. */
  function Step(p: Values, f: Field, text: Value -> string): Values
  {
    if Skipped(f) then p
    else if f.value.Slice? then AddAll(p, f.name, f.value.elems, text)
    else Set(p, f.name, text(f.value))
  }

  /** `params` once the loop has visited the fields `fs`, values written by `text`. */
  function Collect(fs: seq<Field>, text: Value -> string): Values
    decreases |fs|
  {
    if fs == [] then map[] else Step(Collect(fs[..|fs| - 1], text), fs[|fs| - 1], text)
  }

  /**
   * The fields ParseOptions walks: those of a struct argument, or of the struct a non-nil
   * pointer argument points to; None for a nil pointer and for anything else.
   */
  function Target(options: Value): Option<seq<Field>>
  {
    var v := Interface(options);
    if v.Struct? then Some(v.fields)
    else if v.Ptr? && v.target.Struct? then Some(v.target.fields)
    else None
  }

  /** The result of ParseOptions when every value is written by `text`. */
  function Encoded(options: Value, text: Value -> string): string
  {
    match Target(options)
    case None => ""
    case Some(fs) => TrimSuffix(Encode(Collect(fs, text)), "&")
  }

  // ---------------------------------------------------------------------------
  // The encoder.
  // ---------------------------------------------------------------------------

  /** The inner loop of ParseOptions: `params.Add(key, %v of e)` for each element `e` of a slice. */
  method AddElements(params: Values, key: string, es: seq<Value>) returns (r: Values)
    ensures r == AddAll(params, key, es, FieldText)
  {
    r := params;
    var j := 0;
    while j < |es|
      invariant 0 <= j <= |es|
      invariant r == AddAll(params, key, es[..j], FieldText)
    {
      assert es[..j + 1][..j] == es[..j];
      r := Add(r, key, FieldText(es[j]));
      j := j + 1;
    }
    assert es[..j] == es;
  }

  /** The field loop of ParseOptions: `params` after visiting every field of the struct. */
  method CollectFields(fs: seq<Field>) returns (params: Values)
    ensures params == Collect(fs, FieldText)
  {
    params := map[];
    var i := 0;
    while i < |fs|
      invariant 0 <= i <= |fs|
      invariant params == Collect(fs[..i], FieldText)
    {
      var field := fs[i];
      assert fs[..i + 1][..i] == fs[..i];
      if !IsExported(field.name) || field.value.NilPtr? || field.value.NilIface? {
        i := i + 1;
        continue;
      }
      var key := field.name;
      if field.value.Slice? {
        params := AddElements(params, key, field.value.elems);
      } else {
        params := Set(params, key, FieldText(field.value));
      }
      i := i + 1;
    }
    assert fs[..i] == fs;
  }

  /** ParseOptions: the query string of `options`, keyed by Go field names. */
  method ParseOptions(options: Value) returns (r: string)
    ensures r == Encoded(options, FieldText)
  {
    var v := Interface(options);
    if v.NilPtr? {
      return "";
    }
    if v.Ptr? {
      v := v.target;
    }
    if !v.Struct? {
      return "";
    }
    var params := CollectFields(v.fields);
    var encoded := Encode(params);
    r := TrimSuffix(encoded, "&");
  }

  // ---------------------------------------------------------------------------
  // The map the loop builds.
  // ---------------------------------------------------------------------------

  /** Adding the elements of a slice: the key gains their texts in order, nothing else changes. */
  lemma {:induction false} AddAllEffect(p: Values, key: string, es: seq<Value>, text: Value -> string)
    ensures AddAll(p, key, es, text).Keys == p.Keys + (if es == [] then {} else {key})
    ensures key in AddAll(p, key, es, text) ==>
      AddAll(p, key, es, text)[key] == (if key in p then p[key] else []) + Texts(es, text)
    ensures forall k :: k in p && k != key ==> AddAll(p, key, es, text)[k] == p[k]
    decreases |es|
  {
    if es != [] {
      var init := es[..|es| - 1];
      AddAllEffect(p, key, init, text);
      assert Texts(es, text) == Texts(init, text) + [text(es[|es| - 1])];
    }
  }

  /** The map after the fields `fs + [f]` is one more step on the map after `fs`. */
  lemma CollectSnoc(fs: seq<Field>, f: Field, text: Value -> string)
    ensures Collect(fs + [f], text) == Step(Collect(fs, text), f, text)
  {
    assert (fs + [f])[..|fs|] == fs;
  }

  /**
   * The keys of the map are exactly the names of the emitting fields, and no key ever holds
   * an empty list.
   */
  lemma {:induction false} CollectKeys(fs: seq<Field>, text: Value -> string)
    ensures forall k :: k in Collect(fs, text) <==>
      exists i :: 0 <= i < |fs| && fs[i].name == k && Emits(fs[i])
    ensures forall k :: k in Collect(fs, text) ==> Collect(fs, text)[k] != []
    decreases |fs|
  {
    if fs != [] {
      var init, f := fs[..|fs| - 1], fs[|fs| - 1];
      CollectKeys(init, text);
      var p := Collect(init, text);
      if !Skipped(f) && f.value.Slice? {
        AddAllEffect(p, f.name, f.value.elems, text);
      }
      forall k
        ensures k in Collect(fs, text) <==> exists i :: 0 <= i < |fs| && fs[i].name == k && Emits(fs[i])
      {
        if k in p {
          var i :| 0 <= i < |init| && init[i].name == k && Emits(init[i]);
          assert fs[i] == init[i];
        }
        if exists i :: 0 <= i < |fs| && fs[i].name == k && Emits(fs[i]) {
          var i :| 0 <= i < |fs| && fs[i].name == k && Emits(fs[i]);
          if i < |init| {
            assert init[i] == fs[i];
          }
        }
      }
    }
  }

  /** Go field names within one struct are distinct. */
  predicate DistinctNames(fs: seq<Field>)
  {
    forall i, j :: 0 <= i < j < |fs| ==> fs[i].name != fs[j].name
  }

  /**
   * Within one struct every emitting field's key holds exactly that field's values: one
   * text for a scalar, the texts of the elements in order for a non-nil slice.
   */
  lemma {:induction false} CollectValues(fs: seq<Field>, text: Value -> string, i: nat)
    requires DistinctNames(fs)
    requires i < |fs| && Emits(fs[i])
    ensures fs[i].name in Collect(fs, text)
    ensures Collect(fs, text)[fs[i].name] == FieldTexts(fs[i], text)
    decreases |fs|
  {
    var init, f := fs[..|fs| - 1], fs[|fs| - 1];
    var p := Collect(init, text);
    CollectKeys(init, text);
    if !Skipped(f) && f.value.Slice? {
      AddAllEffect(p, f.name, f.value.elems, text);
    }
    if i == |fs| - 1 {
      assert forall j :: 0 <= j < |init| ==> init[j].name != f.name by {
        forall j | 0 <= j < |init|
          ensures init[j].name != f.name
        {
          assert init[j] == fs[j];
        }
      }
      assert f.name !in p;
    } else {
      assert init[i] == fs[i];
      CollectValues(init, text, i);
    }
  }

  /** A skipped field leaves the map as it was. */
  lemma SkippedFieldIgnored(fs: seq<Field>, f: Field, text: Value -> string)
    requires Skipped(f)
    ensures Collect(fs + [f], text) == Collect(fs, text)
  {
    CollectSnoc(fs, f, text);
  }

  /** A scalar field is written with Set: its one text replaces whatever the key held. */
  lemma LastSetWins(fs: seq<Field>, f: Field, text: Value -> string)
    requires !Skipped(f) && !f.value.Slice?
    ensures f.name in Collect(fs + [f], text)
    ensures Collect(fs + [f], text)[f.name] == [text(f.value)]
    ensures forall k :: k in Collect(fs, text) && k != f.name ==>
      k in Collect(fs + [f], text) && Collect(fs + [f], text)[k] == Collect(fs, text)[k]
  {
    CollectSnoc(fs, f, text);
  }

  /** A non-nil slice appends one text per element, in order, to what its key held. */
  lemma SliceAppends(fs: seq<Field>, f: Field, text: Value -> string)
    requires !Skipped(f) && f.value.Slice? && f.value.elems != []
    ensures f.name in Collect(fs + [f], text)
    ensures Collect(fs + [f], text)[f.name] ==
      (if f.name in Collect(fs, text) then Collect(fs, text)[f.name] else []) + Texts(f.value.elems, text)
  {
    CollectSnoc(fs, f, text);
    AddAllEffect(Collect(fs, text), f.name, f.value.elems, text);
  }

  /** An empty slice that is not nil adds nothing, not even its key. */
  lemma EmptySliceAddsNothing(fs: seq<Field>, f: Field, text: Value -> string)
    requires f.value == Slice([])
    ensures Collect(fs + [f], text) == Collect(fs, text)
  {
    CollectSnoc(fs, f, text);
  }

  /** A nil slice is not skipped: it takes the Set branch and is written as `[]`. */
  lemma NilSliceWritesBrackets(fs: seq<Field>, f: Field)
    requires IsExported(f.name) && f.value == NilSlice
    ensures Collect(fs + [f], FieldText)[f.name] == ["[]"]
  {
    LastSetWins(fs, f, FieldText);
  }

  /**
   * Zero values are not skipped: an exported field holding the zero value of a string,
   * integer, boolean, slice, map or struct type still leaves its key, written by `%v`.
   */
  lemma ZeroValuesKept(fs: seq<Field>, f: Field)
    requires IsExported(f.name) && IsZero(f.value)
    requires !f.value.NilPtr? && !f.value.NilIface?
    ensures f.name in Collect(fs + [f], FieldText)
    ensures Collect(fs + [f], FieldText)[f.name] == [FieldText(f.value)]
  {
    LastSetWins(fs, f, FieldText);
  }

  /** A field has the same effect on the map as another one. */
  predicate SameEffect(f: Field, g: Field, text: Value -> string)
  {
    && f.name == g.name
    && Skipped(f) == Skipped(g)
    && f.value.Slice? == g.value.Slice?
    && (f.value.Slice? ==> Texts(f.value.elems, text) == Texts(g.value.elems, text))
    && (!f.value.Slice? ==> text(f.value) == text(g.value))
  }

  lemma {:induction false} AddAllTexts(p: Values, key: string, es: seq<Value>, ds: seq<Value>, text: Value -> string)
    requires Texts(es, text) == Texts(ds, text)
    ensures AddAll(p, key, es, text) == AddAll(p, key, ds, text)
    decreases |es|
  {
    if es != [] {
      var n := |es| - 1;
      assert |ds| == |es|;
      assert Texts(es[..n], text) == Texts(ds[..n], text) by {
        forall j | 0 <= j < n
          ensures Texts(es[..n], text)[j] == Texts(ds[..n], text)[j]
        {
          assert Texts(es, text)[j] == Texts(ds, text)[j];
        }
      }
      assert text(es[n]) == Texts(es, text)[n] == Texts(ds, text)[n] == text(ds[n]);
      AddAllTexts(p, key, es[..n], ds[..n], text);
    }
  }

  /** Fields with the same effect, one for one, build the same map. */
  lemma {:induction false} CollectCongruent(fs: seq<Field>, gs: seq<Field>, text: Value -> string)
    requires |fs| == |gs|
    requires forall i :: 0 <= i < |fs| ==> SameEffect(fs[i], gs[i], text)
    ensures Collect(fs, text) == Collect(gs, text)
    decreases |fs|
  {
    if fs != [] {
      var n := |fs| - 1;
      CollectCongruent(fs[..n], gs[..n], text);
      var p := Collect(fs[..n], text);
      if !Skipped(fs[n]) && fs[n].value.Slice? {
        AddAllTexts(p, fs[n].name, fs[n].value.elems, gs[n].value.elems, text);
      }
    }
  }

  /**
   * Keys are Go field names: the `json` tag, and whether the field is embedded, make no
   * difference to the map.
   */
  lemma TagsIgnored(fs: seq<Field>, gs: seq<Field>, text: Value -> string)
    requires |fs| == |gs|
    requires forall i :: 0 <= i < |fs| ==> fs[i].name == gs[i].name && fs[i].value == gs[i].value
    ensures Collect(fs, text) == Collect(gs, text)
  {
    CollectCongruent(fs, gs, text);
  }

  // ---------------------------------------------------------------------------
  // The result.
  // ---------------------------------------------------------------------------

  /**
   * A nil pointer and any argument that is neither a struct nor a pointer to one give "";
   * a non-nil pointer to a struct gives what the struct gives, whatever its address.
   */
  lemma ArgumentCases(options: Value, text: Value -> string)
    ensures Interface(options).NilPtr? ==> Encoded(options, text) == ""
    ensures Target(options).None? ==> Encoded(options, text) == ""
    ensures Interface(options).Ptr? && Interface(options).target.Struct? ==>
      Encoded(options, text) == Encoded(Interface(options).target, text)
  {
  }

  /** Encoding a map whose lists are all non-empty gives "" only for the empty map. */
  lemma EncodeEmpty(p: Values)
    requires forall k :: k in p ==> p[k] != []
    ensures Encode(p) == "" <==> p == map[]
  {
    var keys := SortedKeys(p.Keys);
    if p != map[] {
      assert keys != [];
      var ps := Pairs(p, keys);
      var k := keys[0];
      assert k in p;
      assert ps[0] == QueryEscape(k) + "=" + QueryEscape(p[k][0]);
      assert |Join(ps, "&")| >= |ps[0]|;
    } else {
      assert keys == [];
    }
  }

  /**
   * The result is `url.Values.Encode` of the map: keys in ascending order, keys and values
   * query-escaped, pairs joined by `&`, and no trailing `&` for TrimSuffix to remove.
   */
  lemma EncodedIsEncode(options: Value, text: Value -> string)
    ensures Target(options).Some? ==> Encoded(options, text) == Encode(Collect(Target(options).value, text))
    ensures !HasSuffix(Encoded(options, text), "&")
  {
    if Target(options).Some? {
      EncodeNoTrailingAmpersand(Collect(Target(options).value, text));
    }
  }

  /** The result is "" exactly when there is no struct or none of its fields emits. */
  lemma {:induction false} EncodedEmptyIff(options: Value, text: Value -> string)
    ensures Encoded(options, text) == "" <==>
      (Target(options).None? || forall i :: 0 <= i < |Target(options).value| ==> !Emits(Target(options).value[i]))
  {
    match Target(options)
    case None =>
    case Some(fs) =>
      var p := Collect(fs, text);
      EncodedIsEncode(options, text);
      CollectKeys(fs, text);
      EncodeEmpty(p);
      if forall i :: 0 <= i < |fs| ==> !Emits(fs[i]) {
        assert p == map[];
      } else {
        var i :| 0 <= i < |fs| && Emits(fs[i]);
        assert fs[i].name in p;
      }
  }

  /** The result for a struct whose map has a single key. */
  lemma EncodedSingle(options: Value, text: Value -> string, k: string, vs: seq<string>)
    requires Target(options).Some? && Collect(Target(options).value, text) == map[k := vs]
    ensures Encoded(options, text) ==
      Join(seq(|vs|, j requires 0 <= j < |vs| => QueryEscape(k) + "=" + QueryEscape(vs[j])), "&")
  {
    EncodedIsEncode(options, text);
    EncodeSingle(k, vs);
  }

  /** A struct with one field that takes the Set branch. */
  lemma SingleSetField(f: Field, text: Value -> string, x: string)
    requires !Skipped(f) && !f.value.Slice? && text(f.value) == x
    ensures Collect([f], text) == map[f.name := [x]]
  {
    CollectSnoc([], f, text);
    assert [] + [f] == [f];
  }

  /** A struct with one non-empty slice field. */
  lemma SingleSliceField(f: Field, text: Value -> string)
    requires !Skipped(f) && f.value.Slice? && f.value.elems != []
    ensures Collect([f], text) == map[f.name := Texts(f.value.elems, text)]
  {
    CollectSnoc([], f, text);
    assert [] + [f] == [f];
    AddAllEffect(map[], f.name, f.value.elems, text);
    assert [] + Texts(f.value.elems, text) == Texts(f.value.elems, text);
  }

  /** The query of a map with one key holding one value: the single pair `key=value`. */
  lemma SinglePair(options: Value, text: Value -> string, k: string, x: string)
    requires Target(options).Some? && Collect(Target(options).value, text) == map[k := [x]]
    ensures Encoded(options, text) == QueryEscape(k) + "=" + QueryEscape(x)
  {
    EncodedSingle(options, text, k, [x]);
    var ps := seq(1, j requires 0 <= j < 1 => QueryEscape(k) + "=" + QueryEscape([x][j]));
    assert ps == [QueryEscape(k) + "=" + QueryEscape(x)];
  }

  /** The pairs of one key and three values, listed. */
  lemma ThreePairList(k: string, x: string, y: string, z: string)
    ensures seq(3, j requires 0 <= j < 3 => QueryEscape(k) + "=" + QueryEscape([x, y, z][j])) ==
      [QueryEscape(k) + "=" + QueryEscape(x), QueryEscape(k) + "=" + QueryEscape(y), QueryEscape(k) + "=" + QueryEscape(z)]
  {
  }

  /** Three pairs of text that needs no escaping, joined. */
  lemma ThreeJoined(k: string, x: string, y: string, z: string)
    requires AllUnreserved(k) && AllUnreserved(x) && AllUnreserved(y) && AllUnreserved(z)
    ensures Join(seq(3, j requires 0 <= j < 3 => QueryEscape(k) + "=" + QueryEscape([x, y, z][j])), "&") ==
      k + "=" + x + "&" + k + "=" + y + "&" + k + "=" + z
  {
    ThreePairList(k, x, y, z);
    QueryEscapeUnreserved(k);
    QueryEscapeUnreserved(x);
    QueryEscapeUnreserved(y);
    QueryEscapeUnreserved(z);
    JoinThree(k + "=" + x, k + "=" + y, k + "=" + z, "&");
  }

  /** The query of a map with one key holding three values that need no escaping. */
  lemma ThreePairs(options: Value, text: Value -> string, k: string, x: string, y: string, z: string)
    requires Target(options).Some? && Collect(Target(options).value, text) == map[k := [x, y, z]]
    requires AllUnreserved(k) && AllUnreserved(x) && AllUnreserved(y) && AllUnreserved(z)
    ensures Encoded(options, text) == k + "=" + x + "&" + k + "=" + y + "&" + k + "=" + z
  {
    EncodedSingle(options, text, k, [x, y, z]);
    ThreeJoined(k, x, y, z);
  }

  /** A non-nil pointer argument is walked as the struct it points to; see ArgumentCases. */
  lemma EmittingFieldMakesQuery(options: Value, text: Value -> string, i: nat)
    requires Target(options).Some? && i < |Target(options).value| && Emits(Target(options).value[i])
    ensures Encoded(options, text) != ""
  {
    EncodedEmptyIff(options, text);
  }

  // ---------------------------------------------------------------------------
  // Pointer fields.
  // ---------------------------------------------------------------------------

  lemma {:induction false} HexDigitsUnreserved(n: nat)
    ensures AllUnreserved(HexDigits(n))
    decreases n
  {
    if n >= 16 {
      HexDigitsUnreserved(n / 16);
    }
  }

  /**
   * As written, a non-nil pointer to a string, integer or boolean takes the Set branch and
   * `%v` prints the pointer itself: the query carries the hexadecimal address, not the value.
   */
  lemma PointerFieldPrintsAddress(name: string, tag: string, embedded: bool, t: Value, a: nat)
    requires IsExported(name) && IsScalar(t)
    ensures Encoded(Struct([Field(name, tag, embedded, Ptr(t, a))]), FieldText) ==
      QueryEscape(name) + "=" + "0x" + HexDigits(a)
  {
    var f := Field(name, tag, embedded, Ptr(t, a));
    var x := "0x" + HexDigits(a);
    PointerPrintsAddress(t, a, 0);
    SingleSetField(f, FieldText, x);
    SinglePair(Struct([f]), FieldText, name, x);
    HexDigitsUnreserved(a);
    assert AllUnreserved(x);
    QueryEscapeUnreserved(x);
    assert QueryEscape(name) + "=" + x == QueryEscape(name) + "=" + "0x" + HexDigits(a);
  }

  /** So two records that differ only in where a pointer field points give different queries. */
  lemma AddressLeaks(name: string, tag: string, t: Value, a: nat, b: nat)
    requires IsExported(name) && IsScalar(t) && a != b
    ensures Encoded(Struct([Field(name, tag, false, Ptr(t, a))]), FieldText) !=
      Encoded(Struct([Field(name, tag, false, Ptr(t, b))]), FieldText)
  {
    PointerFieldPrintsAddress(name, tag, false, t, a);
    PointerFieldPrintsAddress(name, tag, false, t, b);
    var pre := QueryEscape(name) + "=" + "0x";
    if pre + HexDigits(a) == pre + HexDigits(b) {
      assert HexDigits(a) == (pre + HexDigits(a))[|pre|..];
      assert HexDigits(b) == (pre + HexDigits(b))[|pre|..];
      HexInjective(a, b);
    }
  }

  /** The evident intent: a pointer to a string, integer or boolean is written as its target. */
  function IntendedText(v: Value): string
  {
    if v.Ptr? && IsScalar(v.target) then FieldText(v.target) else FieldText(v)
  }

  /** Under the intended writing, a pointer field carries the value it points to. */
  lemma PointerFieldPrintsTarget(name: string, tag: string, embedded: bool, t: Value, a: nat)
    requires IsExported(name) && IsScalar(t)
    ensures Encoded(Struct([Field(name, tag, embedded, Ptr(t, a))]), IntendedText) ==
      QueryEscape(name) + "=" + QueryEscape(FieldText(t))
  {
    var f := Field(name, tag, embedded, Ptr(t, a));
    SingleSetField(f, IntendedText, FieldText(t));
    SinglePair(Struct([f]), IntendedText, name, FieldText(t));
  }

  /** Two values that are equal, or non-nil pointers to the same string, integer or boolean. */
  predicate SameUpToAddress(v: Value, w: Value)
  {
    v == w || (v.Ptr? && w.Ptr? && v.target == w.target && IsScalar(v.target))
  }

  /** Under the intended writing, the map no longer depends on the addresses of pointers. */
  lemma IntendedIgnoresAddresses(fs: seq<Field>, gs: seq<Field>)
    requires |fs| == |gs|
    requires forall i :: 0 <= i < |fs| ==>
      fs[i].name == gs[i].name && SameUpToAddress(fs[i].value, gs[i].value)
    ensures Collect(fs, IntendedText) == Collect(gs, IntendedText)
  {
    CollectCongruent(fs, gs, IntendedText);
  }

  /**
   * A field of a type with a `String` method (a Scope, a CommercialLength), held directly
   * or through a non-nil pointer, is written as that method's text.
   */
  lemma NamedFieldPrintsText(name: string, tag: string, embedded: bool, u: Value, t: string, a: nat)
    requires IsExported(name)
    ensures Encoded(Struct([Field(name, tag, embedded, Named(u, t))]), FieldText) ==
      QueryEscape(name) + "=" + QueryEscape(t)
    ensures Encoded(Struct([Field(name, tag, embedded, Ptr(Named(u, t), a))]), FieldText) ==
      QueryEscape(name) + "=" + QueryEscape(t)
  {
    var f := Field(name, tag, embedded, Named(u, t));
    var g := Field(name, tag, embedded, Ptr(Named(u, t), a));
    SingleSetField(f, FieldText, t);
    SinglePair(Struct([f]), FieldText, name, t);
    SingleSetField(g, FieldText, t);
    SinglePair(Struct([g]), FieldText, name, t);
  }

  // ---------------------------------------------------------------------------
  // The cases of util_test.go.
  // ---------------------------------------------------------------------------

  /** `TestOptions{Name: "test", Count: 5, Items: []string{"a", "b", "c"}, Enabled: true}`. */
  function BasicFields(): seq<Field>
  {
    [ Field("Name", "name", false, Str("test")),
      Field("Count", "count", false, Int(5)),
      Field("Items", "items", false, Slice([Str("a"), Str("b"), Str("c")])),
      Field("Enabled", "enabled", false, Bool(true)) ]
  }

  /** `%v` of strings is the strings themselves. */
  lemma StringTexts(xs: seq<string>)
    ensures Texts(seq(|xs|, j requires 0 <= j < |xs| => Str(xs[j])), FieldText) == xs
  {
    var es := seq(|xs|, j requires 0 <= j < |xs| => Str(xs[j]));
    forall j | 0 <= j < |xs|
      ensures Texts(es, FieldText)[j] == xs[j]
    {
      assert FieldText(es[j]) == Format(Str(xs[j]), 0);
    }
  }

  /** A slice of three strings is written as the three strings. */
  lemma ThreeStringTexts(x: string, y: string, z: string)
    ensures Texts([Str(x), Str(y), Str(z)], FieldText) == [x, y, z]
  {
    var xs := [x, y, z];
    StringTexts(xs);
    assert seq(|xs|, j requires 0 <= j < |xs| => Str(xs[j])) == [Str(x), Str(y), Str(z)];
  }

  lemma BasicTexts()
    ensures FieldTexts(BasicFields()[0], FieldText) == ["test"]
    ensures FieldTexts(BasicFields()[1], FieldText) == ["5"]
    ensures FieldTexts(BasicFields()[2], FieldText) == ["a", "b", "c"]
    ensures FieldTexts(BasicFields()[3], FieldText) == ["true"]
  {
    assert Itoa(5) == "5";
    ThreeStringTexts("a", "b", "c");
  }

  /** Every field of the record is written under its Go name: `Name=test`, `Count=5`, ... */
  lemma BasicValues()
    ensures var m := Collect(BasicFields(), FieldText);
      && "Name" in m && m["Name"] == ["test"]
      && "Count" in m && m["Count"] == ["5"]
      && "Items" in m && m["Items"] == ["a", "b", "c"]
      && "Enabled" in m && m["Enabled"] == ["true"]
  {
    var fs := BasicFields();
    assert DistinctNames(fs);
    CollectValues(fs, FieldText, 0);
    CollectValues(fs, FieldText, 1);
    CollectValues(fs, FieldText, 2);
    CollectValues(fs, FieldText, 3);
    BasicTexts();
  }

  /** The record gives a non-empty query, and a pointer to it gives the same query. */
  lemma BasicArguments(fs: seq<Field>, a: nat)
    requires fs == BasicFields()
    ensures Encoded(Struct(fs), FieldText) != ""
    ensures Encoded(Ptr(Struct(fs), a), FieldText) == Encoded(Struct(fs), FieldText)
  {
    EmittingFieldMakesQuery(Struct(fs), FieldText, 0);
    ArgumentCases(Ptr(Struct(fs), a), FieldText);
  }

  /** A nil pointer and the integer 123 give "". */
  lemma NonStructExamples()
    ensures Encoded(NilPtr, FieldText) == ""
    ensures Encoded(Int(123), FieldText) == ""
  {
  }

  /** Proof helper: the literal texts of the slice example, spelled out. */
  lemma IdsTexts()
    ensures AllUnreserved("IDs") && AllUnreserved("123") && AllUnreserved("456") && AllUnreserved("789")
    ensures "IDs" + "=" + "123" + "&" + "IDs" + "=" + "456" + "&" + "IDs" + "=" + "789" == "IDs=123&IDs=456&IDs=789"
  {
  }

  /** `TestOptions{IDs: []string{"123", "456", "789"}}`: one pair per element, in order. */
  lemma SliceExample(f: Field)
    requires f == Field("IDs", "ids", false, Slice([Str("123"), Str("456"), Str("789")]))
    ensures Encoded(Struct([f]), FieldText) == "IDs=123&IDs=456&IDs=789"
  {
    SingleSliceField(f, FieldText);
    ThreeStringTexts("123", "456", "789");
    IdsTexts();
    ThreePairs(Struct([f]), FieldText, "IDs", "123", "456", "789");
  }

  /** Proof helper: the literal texts of the integer example, spelled out. */
  lemma ValueTexts()
    ensures FieldText(Int(42)) == "42"
    ensures AllUnreserved("Value") && AllUnreserved("42")
    ensures "Value" + "=" + "42" == "Value=42"
  {
    assert Itoa(42) == "42";
  }

  /** `TestOptions{Value: 42}`. */
  lemma IntExample(f: Field)
    requires f == Field("Value", "value", false, Int(42))
    ensures Encoded(Struct([f]), FieldText) == "Value=42"
  {
    ValueTexts();
    SingleSetField(f, FieldText, "42");
    SinglePair(Struct([f]), FieldText, "Value", "42");
    QueryEscapeUnreserved("Value");
    QueryEscapeUnreserved("42");
  }

  /** `TestOptions{}`: the zero string and the zero integer are both written. */
  lemma ZeroExample(fs: seq<Field>)
    requires fs == [Field("Name", "name", false, Str("")), Field("Count", "count", false, Int(0))]
    ensures var m := Collect(fs, FieldText);
      && "Count" in m && m["Count"] == ["0"]
      && "Name" in m && m["Name"] == [""]
  {
    assert DistinctNames(fs);
    CollectValues(fs, FieldText, 0);
    CollectValues(fs, FieldText, 1);
    assert Itoa(0) == "0";
  }

  /** A struct of a skipped field and a field written with Set. */
  lemma SkippedThenSet(g: Field, f: Field, text: Value -> string, x: string)
    requires Skipped(g) && !Skipped(f) && !f.value.Slice? && text(f.value) == x
    ensures Collect([g, f], text) == map[f.name := [x]]
  {
    CollectSnoc([g], f, text);
    SkippedFieldIgnored([], g, text);
    assert [] + [g] == [g] && [g] + [f] == [g, f];
    SingleSetField(f, text, x);
    CollectSnoc([], f, text);
    assert [] + [f] == [f];
  }

  /** Proof helper: the literal texts of the nil-fields example, spelled out. */
  lemma NilFieldsTexts()
    ensures FieldText(NilSlice) == "[]"
    ensures QueryEscape("[]") == "%5B%5D"
    ensures AllUnreserved("Items")
    ensures "Items" + "=" + "%5B%5D" == "Items=%5B%5D"
  {
    assert Utf8("[]") == [91, 93];
  }

  /** `TestOptions{Name: nil, Items: nil}`: the nil pointer is skipped, the nil slice prints `[]`. */
  lemma NilFieldsExample(g: Field, f: Field)
    requires g == Field("Name", "name", false, NilPtr) && f == Field("Items", "items", false, NilSlice)
    ensures Collect([g, f], FieldText) == map["Items" := ["[]"]]
    ensures Encoded(Struct([g, f]), FieldText) == "Items=%5B%5D"
  {
    NilFieldsTexts();
    SkippedThenSet(g, f, FieldText, "[]");
    SinglePair(Struct([g, f]), FieldText, "Items", "[]");
    QueryEscapeUnreserved("Items");
  }
}
