/**
 * The query-string builders of the API client: `parseOptions`, which turns an option
 * record into `key=value` pairs by its `json` tags, and `parseMixedParam`, which sends each
 * identifier to a numeric or a textual key, with their helpers `getJSONFieldName`,
 * `isZeroValue`, `isNumber` and `chooseKey`.
 */
module ApiQuery {
  import opened Wrappers
  import opened GoStrings
  import opened Strconv
  import opened Reflect
  import Objects

  // ---------------------------------------------------------------------------
  // Helpers.
  // ---------------------------------------------------------------------------

  /**
   * getJSONFieldName: the first comma-separated segment of the `json` tag, or "" when the
   * field has no tag.
   */
  function GetJsonFieldName(f: Field): string
  {
    if f.tag == "" then "" else BeforeFirst(f.tag, ',')
  }

  /**
   * The key is "" for an untagged field, and otherwise the part of the tag up to its first
   * comma: a prefix of the tag without a comma, followed in the tag by a comma unless it is
   * the whole tag.
   */
  lemma JsonFieldNameSegment(f: Field)
    ensures f.tag == "" ==> GetJsonFieldName(f) == ""
    ensures GetJsonFieldName(f) <= f.tag && ',' !in GetJsonFieldName(f)
    ensures GetJsonFieldName(f) != f.tag ==> f.tag[|GetJsonFieldName(f)|] == ','
  {
    BeforeFirstSegment(f.tag, ',');
  }

  /** isZeroValue: nil or empty slices and maps, nil pointers and interfaces, and zero values. */
  predicate IsZeroValue(v: Value)
  {
    match v
    case Slice(es) => |es| == 0
    case Map(m) => |m| == 0
    case Ptr(_, _) => false
    case Iface(_) => false
    case _ => IsZero(v)
  }

  /** isNumber: strconv.Atoi accepts the string. */
  predicate IsNumber(s: string)
  {
    Atoi(s).ok
  }

  /** chooseKey. */
  function ChooseKey(when: bool, ifTrue: string, ifFalse: string): (r: string)
    ensures when ==> r == ifTrue
    ensures !when ==> r == ifFalse
  {
    if when then ifTrue else ifFalse
  }

  // ---------------------------------------------------------------------------
  // parseOptions, specified.
  // ---------------------------------------------------------------------------

  /** One level of pointer indirection removed; `None` is the invalid value of a nil pointer. */
  function Deref(v: Value): Option<Value>
  {
    match v
    case NilPtr => None
    case Ptr(t, _) => Some(t)
    case _ => Some(v)
  }

  /** `key=element` for each element of a slice, in order. */
  function ElementParts(key: string, es: seq<Value>): (r: seq<string>)
    ensures |r| == |es|
  {
    seq(|es|, i requires 0 <= i < |es| => key + "=" + Format(es[i], 0))
  }

  /**
   * The pairs one (non-embedded) field contributes: none when the dereferenced value is
   * invalid or zero or the key is "" or "-", one per element for a slice, one otherwise.
   */
  function FieldParts(f: Field): seq<string>
  {
    var d := Deref(f.value);
    var key := GetJsonFieldName(f);
    if d.None? || IsZeroValue(d.value) || key == "" || key == "-" then []
    else if d.value.Slice? then ElementParts(key, d.value.elems)
    else [key + "=" + Format(d.value, 0)]
  }

  /** The parts of each element in turn, one after another. */
  function ConcatMap<T>(xs: seq<T>, parts: T -> seq<string>): seq<string>
  {
    if xs == [] then [] else ConcatMap(xs[..|xs| - 1], parts) + parts(xs[|xs| - 1])
  }

  lemma ConcatMapSnoc<T>(xs: seq<T>, x: T, parts: T -> seq<string>)
    ensures ConcatMap(xs + [x], parts) == ConcatMap(xs, parts) + parts(x)
  {
    assert (xs + [x])[..|xs|] == xs;
  }

  /** One more element's parts appended to the parts of a prefix are the parts of the longer prefix. */
  lemma ConcatMapStep<T>(parts: seq<string>, prefix: seq<T>, x: T, g: T -> seq<string>, r: seq<string>, r': seq<string>)
    requires r == parts + ConcatMap(prefix, g) && r' == r + g(x)
    ensures r' == parts + ConcatMap(prefix + [x], g)
  {
    ConcatMapSnoc(prefix, x, g);
  }

  lemma {:induction false} ConcatMapAppend<T>(a: seq<T>, b: seq<T>, parts: T -> seq<string>)
    ensures ConcatMap(a + b, parts) == ConcatMap(a, parts) + ConcatMap(b, parts)
    decreases |b|
  {
    if b == [] {
      assert a + b == a;
    } else {
      var b' := b[..|b| - 1];
      assert (a + b)[..|a + b| - 1] == a + b';
      ConcatMapAppend(a, b', parts);
    }
  }

  /** The pairs of the fields of an embedded struct, one level deep and in order. */
  function EmbeddedParts(fs: seq<Field>): seq<string>
  {
    ConcatMap(fs, FieldParts)
  }

  predicate IsEmbeddedStruct(f: Field)
  {
    f.embedded && f.value.Struct?
  }

  /** The pairs of one field of the record: an embedded struct is spliced in at its place. */
  function TopParts(f: Field): seq<string>
  {
    if IsEmbeddedStruct(f) then EmbeddedParts(f.value.fields) else FieldParts(f)
  }

  /** The pairs of the record's fields, in declaration order. */
  function OptionParts(fs: seq<Field>): seq<string>
  {
    ConcatMap(fs, TopParts)
  }

  /** The query string parseOptions builds: "" for a nil record. */
  function OptionsQuery(options: Option<seq<Field>>): string
  {
    if options.None? then "" else Join(OptionParts(options.value), "&")
  }

  // ---------------------------------------------------------------------------
  // parseOptions, as the loops that build it.
  // ---------------------------------------------------------------------------

  /** Appends the pairs of one field, expanding a slice element by element. */
  method AppendField(parts: seq<string>, f: Field) returns (r: seq<string>)
    ensures r == parts + FieldParts(f)
  {
    r := parts;
    var field := f.value;
    if field.Ptr? || field.NilPtr? {
      if field.NilPtr? {
        return;
      }
      field := field.target;
    }
    if IsZeroValue(field) {
      return;
    }
    var key := GetJsonFieldName(f);
    if key == "" || key == "-" {
      return;
    }
    if field.Slice? {
      var k := 0;
      while k < |field.elems|
        invariant 0 <= k <= |field.elems|
        invariant r == parts + ElementParts(key, field.elems[..k])
      {
        assert field.elems[..k + 1] == field.elems[..k] + [field.elems[k]];
        r := r + [key + "=" + Format(field.elems[k], 0)];
        k := k + 1;
      }
      assert field.elems[..k] == field.elems;
    } else {
      r := r + [key + "=" + Format(field, 0)];
    }
  }

  lemma ElementPartsSnoc(key: string, es: seq<Value>, x: Value)
    ensures ElementParts(key, es + [x]) == ElementParts(key, es) + [key + "=" + Format(x, 0)]
  {
  }

  /** Appends the pairs of the fields of an embedded struct, one after another. */
  method AppendEmbedded(parts: seq<string>, inner: seq<Field>) returns (r: seq<string>)
    ensures r == parts + EmbeddedParts(inner)
  {
    r := parts;
    var j := 0;
    while j < |inner|
      invariant 0 <= j <= |inner|
      invariant r == parts + EmbeddedParts(inner[..j])
    {
      var r' := AppendField(r, inner[j]);
      ConcatMapStep(parts, inner[..j], inner[j], FieldParts, r, r');
      assert inner[..j + 1] == inner[..j] + [inner[j]];
      r := r';
      j := j + 1;
    }
    assert inner[..j] == inner;
  }

  /** Appends the pairs of one field of the record: an embedded struct's fields in its place. */
  method AppendTopField(parts: seq<string>, f: Field) returns (r: seq<string>)
    ensures r == parts + TopParts(f)
  {
    if f.embedded && f.value.Struct? {
      r := AppendEmbedded(parts, f.value.fields);
    } else {
      r := AppendField(parts, f);
    }
  }

  /** parseOptions: the pairs of the record's fields, joined by `&`. */
  method ParseOptions(options: Option<seq<Field>>) returns (query: string)
    ensures query == OptionsQuery(options)
  {
    if options.None? {
      return "";
    }
    var fields := options.value;
    var parts: seq<string> := [];
    var i := 0;
    while i < |fields|
      invariant 0 <= i <= |fields|
      invariant parts == [] + OptionParts(fields[..i])
    {
      var parts' := AppendTopField(parts, fields[i]);
      ConcatMapStep([], fields[..i], fields[i], TopParts, parts, parts');
      assert fields[..i + 1] == fields[..i] + [fields[i]];
      parts := parts';
      i := i + 1;
    }
    assert fields[..i] == fields;
    assert parts == OptionParts(fields);
    query := Join(parts, "&");
  }

  // ---------------------------------------------------------------------------
  // parseOptions, properties.
  // ---------------------------------------------------------------------------

  /** The fields contribute their pairs in declaration order. */
  lemma OptionPartsAppend(a: seq<Field>, b: seq<Field>)
    ensures OptionParts(a + b) == OptionParts(a) + OptionParts(b)
  {
    ConcatMapAppend(a, b, TopParts);
  }

  /** A record of one field. */
  lemma OptionPartsSingle(f: Field)
    ensures OptionParts([f]) == TopParts(f)
  {
    ConcatMapSnoc([], f, TopParts);
    assert [] + [f] == [f];
  }

  /** A nil pointer, a pointer to a zero value, a zero value and an untagged field all add nothing. */
  lemma OmittedFields(f: Field)
    ensures f.value.NilPtr? ==> FieldParts(f) == []
    ensures f.value.Ptr? && IsZeroValue(f.value.target) ==> FieldParts(f) == []
    ensures !f.value.Ptr? && IsZeroValue(f.value) ==> FieldParts(f) == []
    ensures f.tag == "" || GetJsonFieldName(f) == "-" ==> FieldParts(f) == []
  {
  }

  /** Nil and empty slices and maps, and the zero scalars, are zero values. */
  lemma ZeroValues()
    ensures IsZeroValue(NilSlice) && IsZeroValue(Slice([])) && !IsZeroValue(Slice([Str("a")]))
    ensures IsZeroValue(NilMap) && IsZeroValue(Map(map[])) && !IsZeroValue(Map(map["a" := Int(1)]))
    ensures IsZeroValue(NilPtr) && forall a :: !IsZeroValue(Ptr(Str("test"), a))
    ensures IsZeroValue(Int(0)) && IsZeroValue(Str("")) && IsZeroValue(Bool(false))
    ensures !IsZeroValue(Int(42)) && !IsZeroValue(Str("test")) && !IsZeroValue(Bool(true))
  {
    assert |map["a" := Int(1)]| == 1;
  }

  /** The key of a tag `name,options…` is `name`. */
  lemma KeyBeforeComma(f: Field, name: string, rest: string)
    requires ',' !in name && name != "" && (f.tag == name || f.tag == name + "," + rest)
    ensures GetJsonFieldName(f) == name
  {
    if f.tag == name {
      BeforeFirstPrefix(name, ',', "");
      assert name + "" == name;
    } else {
      BeforeFirstPrefix(name, ',', "," + rest);
      assert name + ("," + rest) == f.tag;
    }
  }

  /** The tags of the `getJSONFieldName` unit test. */
  lemma JsonNameExamples(f: Field)
    ensures f.tag == "name" ==> GetJsonFieldName(f) == "name"
    ensures f.tag == "user_id,omitempty" ==> GetJsonFieldName(f) == "user_id"
    ensures f.tag == "-" ==> GetJsonFieldName(f) == "-"
    ensures f.tag == "" ==> GetJsonFieldName(f) == ""
  {
    if f.tag == "name" {
      KeyBeforeComma(f, "name", "");
    }
    if f.tag == "user_id,omitempty" {
      assert f.tag == "user_id" + "," + "omitempty";
      KeyBeforeComma(f, "user_id", "omitempty");
    }
    if f.tag == "-" {
      KeyBeforeComma(f, "-", "");
    }
  }

  /** A field whose key is usable. */
  predicate Keyed(f: Field, key: string)
  {
    GetJsonFieldName(f) == key && key != "" && key != "-"
  }

  /** A set string, directly or through a pointer, gives one pair with the text unescaped. */
  lemma StringField(f: Field, key: string, s: string)
    requires Keyed(f, key) && s != ""
    requires f.value == Str(s) || (f.value.Ptr? && f.value.target == Str(s))
    ensures FieldParts(f) == [key + "=" + s]
  {
  }

  /** A set integer, directly or through a pointer, gives one pair with its decimal text. */
  lemma IntField(f: Field, key: string, n: int)
    requires Keyed(f, key) && n != 0
    requires f.value == Int(n) || (f.value.Ptr? && f.value.target == Int(n))
    ensures FieldParts(f) == [key + "=" + Itoa(n)]
  {
  }

  /** A non-empty slice gives one pair per element, in order, all under the field's key. */
  lemma SliceField(f: Field, key: string, es: seq<Value>)
    requires Keyed(f, key) && es != []
    requires f.value == Slice(es) || (f.value.Ptr? && f.value.target == Slice(es))
    ensures |FieldParts(f)| == |es|
    ensures forall i :: 0 <= i < |es| ==> FieldParts(f)[i] == key + "=" + Format(es[i], 0)
  {
  }

  /** A slice of two strings gives its two pairs. */
  lemma TwoStringSliceField(f: Field, key: string, x: string, y: string)
    requires Keyed(f, key) && f.value == Slice([Str(x), Str(y)])
    ensures FieldParts(f) == [key + "=" + x, key + "=" + y]
  {
    SliceField(f, key, [Str(x), Str(y)]);
  }

  /** An embedded struct's pairs take its place among the record's pairs. */
  lemma EmbeddedSplice(before: seq<Field>, f: Field, after: seq<Field>)
    requires IsEmbeddedStruct(f)
    ensures OptionParts(before + [f] + after)
      == OptionParts(before) + EmbeddedParts(f.value.fields) + OptionParts(after)
  {
    OptionPartsAppend(before + [f], after);
    OptionPartsAppend(before, [f]);
    OptionPartsSingle(f);
  }

  /** The embedded fields contribute in their own declaration order. */
  lemma EmbeddedPartsAppend(a: seq<Field>, b: seq<Field>)
    ensures EmbeddedParts(a + b) == EmbeddedParts(a) + EmbeddedParts(b)
  {
    ConcatMapAppend(a, b, FieldParts);
  }

  /**
   * A struct embedded in an embedded struct has no tag, so it adds nothing: only one level
   * of embedding is spliced in.
   */
  lemma NestedEmbeddingDropped(inner: Field)
    requires inner.value.Struct? && inner.tag == ""
    ensures FieldParts(inner) == []
  {
  }

  // ---------------------------------------------------------------------------
  // The GetVideosOptions record of the unit tests.
  // ---------------------------------------------------------------------------

  function OmitEmpty(key: string): string { key + ",omitempty" }

  /** BaseOptions: First, After, Before. */
  function BaseOptions(first: Value, after: Value, before: Value): Field
  {
    Field("BaseOptions", "", true, Struct([
      Field("First", OmitEmpty("first"), false, first),
      Field("After", OmitEmpty("after"), false, after),
      Field("Before", OmitEmpty("before"), false, before)]))
  }

  /** GetVideosOptions with pointer fields nil unless given. */
  function VideosOptions(first: Value, id: Value, userId: Value, gameId: Value): seq<Field>
  {
    [ BaseOptions(first, NilPtr, NilPtr),
      Field("ID", OmitEmpty("id"), false, id),
      Field("UserID", OmitEmpty("user_id"), false, userId),
      Field("GameID", OmitEmpty("game_id"), false, gameId),
      Field("Language", OmitEmpty("language"), false, NilPtr),
      Field("Period", OmitEmpty("period"), false, NilPtr),
      Field("Sort", OmitEmpty("sort"), false, NilPtr),
      Field("Type", OmitEmpty("type"), false, NilPtr) ]
  }

  /** The key of a tag `key,omitempty` is `key`. */
  lemma OmitEmptyKey(f: Field, key: string)
    requires f.tag == OmitEmpty(key) && ',' !in key && key != ""
    ensures GetJsonFieldName(f) == key
  {
    KeyBeforeComma(f, key, "omitempty");
  }

  lemma ConcatMapThree<T>(a: T, b: T, c: T, g: T -> seq<string>)
    ensures ConcatMap([a, b, c], g) == g(a) + g(b) + g(c)
  {
    ConcatMapSnoc([], a, g);
    assert [] + [a] == [a];
    ConcatMapSnoc([a], b, g);
    assert [a] + [b] == [a, b];
    ConcatMapSnoc([a, b], c, g);
    assert [a, b] + [c] == [a, b, c];
  }

  lemma ConcatMapFour<T>(a: T, b: T, c: T, d: T, g: T -> seq<string>)
    ensures ConcatMap([a, b, c, d], g) == g(a) + g(b) + g(c) + g(d)
  {
    ConcatMapThree(a, b, c, g);
    ConcatMapSnoc([a, b, c], d, g);
    assert [a, b, c] + [d] == [a, b, c, d];
  }

  /** Eight elements of which the last four contribute nothing. */
  lemma ConcatMapLeadingFour<T>(xs: seq<T>, g: T -> seq<string>)
    requires |xs| == 8 && forall k :: 4 <= k < 8 ==> g(xs[k]) == []
    ensures ConcatMap(xs, g) == g(xs[0]) + g(xs[1]) + g(xs[2]) + g(xs[3])
  {
    var a, b := xs[..4], xs[4..];
    assert xs == a + b;
    assert a == [xs[0], xs[1], xs[2], xs[3]] && b == [xs[4], xs[5], xs[6], xs[7]];
    ConcatMapAppend(a, b, g);
    ConcatMapFour(xs[0], xs[1], xs[2], xs[3], g);
    ConcatMapFour(xs[4], xs[5], xs[6], xs[7], g);
  }

  /** An embedded struct of three fields whose last two are unset adds only its first field's pairs. */
  lemma FirstOfThree(f: Field)
    requires IsEmbeddedStruct(f) && |f.value.fields| == 3
    requires FieldParts(f.value.fields[1]) == [] && FieldParts(f.value.fields[2]) == []
    ensures TopParts(f) == FieldParts(f.value.fields[0])
  {
    var base := f.value.fields;
    assert base == [base[0], base[1], base[2]];
    ConcatMapThree(base[0], base[1], base[2], FieldParts);
  }

  /** A nil pointer and a nil slice add nothing. */
  lemma UnsetParts(f: Field)
    requires f.value.NilPtr? || f.value.NilSlice?
    ensures FieldParts(f) == []
  {
  }

  /** An unset pointer field that is not embedded adds nothing. */
  lemma UnsetField(f: Field)
    requires !f.embedded && f.value.NilPtr?
    ensures TopParts(f) == []
  {
  }

  /**
   * The shape of GetVideosOptions: BaseOptions embedded first with After and Before unset,
   * then three fields, then four unset pointer fields.
   */
  predicate VideosShaped(fs: seq<Field>)
  {
    && |fs| == 8 && IsEmbeddedStruct(fs[0]) && |fs[0].value.fields| == 3
    && (forall k :: 1 <= k < 3 ==> !fs[0].value.fields[k].embedded && fs[0].value.fields[k].value.NilPtr?)
    && (forall k :: 1 <= k < 8 ==> !fs[k].embedded)
    && (forall k :: 4 <= k < 8 ==> fs[k].value.NilPtr?)
  }

  lemma VideosOptionsShaped(first: Value, id: Value, userId: Value, gameId: Value)
    ensures VideosShaped(VideosOptions(first, id, userId, gameId))
  {
  }

  /** The keys of GetVideosOptions's first four fields, whatever their values. */
  lemma VideosKeys(first: Value, id: Value, userId: Value, gameId: Value)
    ensures var fs := VideosOptions(first, id, userId, gameId);
      && Keyed(fs[0].value.fields[0], "first") && Keyed(fs[1], "id")
      && Keyed(fs[2], "user_id") && Keyed(fs[3], "game_id")
  {
    var fs := VideosOptions(first, id, userId, gameId);
    VideosKeyTexts();
    TwoOmitEmptyKeys(fs[0].value.fields[0], "first", fs[1], "id");
    TwoOmitEmptyKeys(fs[2], "user_id", fs[3], "game_id");
  }

  /** Two fields tagged `key,omitempty` are keyed by their keys. */
  lemma TwoOmitEmptyKeys(f: Field, fk: string, g: Field, gk: string)
    requires f.tag == OmitEmpty(fk) && ',' !in fk && fk != "" && fk != "-"
    requires g.tag == OmitEmpty(gk) && ',' !in gk && gk != "" && gk != "-"
    ensures Keyed(f, fk) && Keyed(g, gk)
  {
    OmitEmptyKey(f, fk);
    OmitEmptyKey(g, gk);
  }

  /** Proof helper: the four keys of GetVideosOptions are non-empty and free of commas. */
  lemma VideosKeyTexts()
    ensures ',' !in "first" && ',' !in "id" && ',' !in "user_id" && ',' !in "game_id"
  {
  }

  lemma VideosShapedParts(fs: seq<Field>)
    requires VideosShaped(fs)
    ensures OptionParts(fs) == FieldParts(fs[0].value.fields[0]) + FieldParts(fs[1]) + FieldParts(fs[2]) + FieldParts(fs[3])
  {
    var base := fs[0].value.fields;
    UnsetField(base[1]);
    UnsetField(base[2]);
    FirstOfThree(fs[0]);
    forall k | 4 <= k < 8
      ensures TopParts(fs[k]) == []
    {
      UnsetField(fs[k]);
    }
    ConcatMapLeadingFour(fs, TopParts);
    assert TopParts(fs[1]) == FieldParts(fs[1]) && TopParts(fs[2]) == FieldParts(fs[2]);
    assert TopParts(fs[3]) == FieldParts(fs[3]);
  }

  /** The pairs of GetVideosOptions: first, then the ids, then user and game. */
  lemma VideosParts(first: Value, id: Value, userId: Value, gameId: Value)
    ensures var fs := VideosOptions(first, id, userId, gameId);
      OptionParts(fs) == FieldParts(fs[0].value.fields[0]) + FieldParts(fs[1]) + FieldParts(fs[2]) + FieldParts(fs[3])
  {
    VideosOptionsShaped(first, id, userId, gameId);
    VideosShapedParts(VideosOptions(first, id, userId, gameId));
  }

  /**
   * Four groups of pairs laid end to end, when all but the ones named are empty.
   */
  lemma Groups(w: seq<string>, x: seq<string>, y: seq<string>, z: seq<string>, r: seq<string>)
    requires |w| + |x| + |y| + |z| == |r|
    requires forall i :: 0 <= i < |w| ==> w[i] == r[i]
    requires forall i :: 0 <= i < |x| ==> x[i] == r[|w| + i]
    requires forall i :: 0 <= i < |y| ==> y[i] == r[|w| + |x| + i]
    requires forall i :: 0 <= i < |z| ==> z[i] == r[|w| + |x| + |y| + i]
    ensures w + x + y + z == r
  {
  }

  /** A GetVideosOptions-shaped record with only its third and fourth fields set to strings. */
  lemma UserAndGameParts(fs: seq<Field>, u: string, g: string, a: nat, b: nat)
    requires VideosShaped(fs) && fs[0].value.fields[0].value.NilPtr? && fs[1].value.NilSlice?
    requires Keyed(fs[2], "user_id") && fs[2].value == Ptr(Str(u), a) && u != ""
    requires Keyed(fs[3], "game_id") && fs[3].value == Ptr(Str(g), b) && g != ""
    ensures OptionParts(fs) == ["user_id" + "=" + u, "game_id" + "=" + g]
  {
    VideosShapedParts(fs);
    UnsetParts(fs[0].value.fields[0]);
    UnsetParts(fs[1]);
    StringField(fs[2], "user_id", u);
    StringField(fs[3], "game_id", g);
    var w, x, y, z := FieldParts(fs[0].value.fields[0]), FieldParts(fs[1]), FieldParts(fs[2]), FieldParts(fs[3]);
    Groups(w, x, y, z, [y[0], z[0]]);
  }

  /** A GetVideosOptions-shaped record with only its second field set, to a slice of two strings. */
  lemma IdsParts(fs: seq<Field>, x: string, y: string)
    requires VideosShaped(fs) && fs[0].value.fields[0].value.NilPtr?
    requires Keyed(fs[1], "id") && fs[1].value == Slice([Str(x), Str(y)])
    requires fs[2].value.NilPtr? && fs[3].value.NilPtr?
    ensures OptionParts(fs) == ["id" + "=" + x, "id" + "=" + y]
  {
    VideosShapedParts(fs);
    UnsetParts(fs[0].value.fields[0]);
    TwoStringSliceField(fs[1], "id", x, y);
    UnsetParts(fs[2]);
    UnsetParts(fs[3]);
    var p, q, r, t := FieldParts(fs[0].value.fields[0]), FieldParts(fs[1]), FieldParts(fs[2]), FieldParts(fs[3]);
    Groups(p, q, r, t, [q[0], q[1]]);
  }

  /** A GetVideosOptions-shaped record with its second field set to two strings and its fourth to one. */
  lemma IdsAndGameParts(fs: seq<Field>, x: string, y: string, g: string, b: nat)
    requires VideosShaped(fs) && fs[0].value.fields[0].value.NilPtr?
    requires Keyed(fs[1], "id") && fs[1].value == Slice([Str(x), Str(y)])
    requires fs[2].value.NilPtr?
    requires Keyed(fs[3], "game_id") && fs[3].value == Ptr(Str(g), b) && g != ""
    ensures OptionParts(fs) == ["id" + "=" + x, "id" + "=" + y, "game_id" + "=" + g]
  {
    VideosShapedParts(fs);
    UnsetParts(fs[0].value.fields[0]);
    TwoStringSliceField(fs[1], "id", x, y);
    UnsetParts(fs[2]);
    StringField(fs[3], "game_id", g);
    var p, q, r, t := FieldParts(fs[0].value.fields[0]), FieldParts(fs[1]), FieldParts(fs[2]), FieldParts(fs[3]);
    Groups(p, q, r, t, [q[0], q[1], t[0]]);
  }

  /** A GetVideosOptions-shaped record with the embedded First set to an integer and the third field to a string. */
  lemma FirstAndUserParts(fs: seq<Field>, n: int, u: string, a: nat, b: nat)
    requires VideosShaped(fs) && Keyed(fs[0].value.fields[0], "first") && fs[0].value.fields[0].value == Ptr(Int(n), a) && n != 0
    requires fs[1].value.NilSlice?
    requires Keyed(fs[2], "user_id") && fs[2].value == Ptr(Str(u), b) && u != ""
    requires fs[3].value.NilPtr?
    ensures OptionParts(fs) == ["first" + "=" + Itoa(n), "user_id" + "=" + u]
  {
    VideosShapedParts(fs);
    IntField(fs[0].value.fields[0], "first", n);
    UnsetParts(fs[1]);
    StringField(fs[2], "user_id", u);
    UnsetParts(fs[3]);
    var p, q, r, t := FieldParts(fs[0].value.fields[0]), FieldParts(fs[1]), FieldParts(fs[2]), FieldParts(fs[3]);
    Groups(p, q, r, t, [p[0], r[0]]);
  }

  /** The query of a record whose pairs are two, or three. */
  lemma QueryOfTwo(fs: seq<Field>, p: string, q: string)
    requires OptionParts(fs) == [p, q]
    ensures OptionsQuery(Some(fs)) == p + "&" + q
  {
    JoinTwo(p, q, "&");
  }

  lemma QueryOfThree(fs: seq<Field>, p: string, q: string, r: string)
    requires OptionParts(fs) == [p, q, r]
    ensures OptionsQuery(Some(fs)) == p + "&" + q + "&" + r
  {
    JoinThree(p, q, r, "&");
  }

  /** `{UserID: &u, GameID: &g}` has the pairs `user_id=u` and `game_id=g`. */
  lemma VideosUserAndGameParts(u: string, g: string, a: nat, b: nat)
    requires u != "" && g != ""
    ensures OptionParts(VideosOptions(NilPtr, NilSlice, Ptr(Str(u), a), Ptr(Str(g), b)))
      == ["user_id" + "=" + u, "game_id" + "=" + g]
  {
    var fs := VideosOptions(NilPtr, NilSlice, Ptr(Str(u), a), Ptr(Str(g), b));
    VideosOptionsShaped(NilPtr, NilSlice, Ptr(Str(u), a), Ptr(Str(g), b));
    VideosKeys(NilPtr, NilSlice, Ptr(Str(u), a), Ptr(Str(g), b));
    UserAndGameParts(fs, u, g, a, b);
  }

  /** `{ID: [x, y]}` has the pairs `id=x` and `id=y`. */
  lemma VideosIdsParts(x: string, y: string)
    ensures OptionParts(VideosOptions(NilPtr, Slice([Str(x), Str(y)]), NilPtr, NilPtr))
      == ["id" + "=" + x, "id" + "=" + y]
  {
    var fs := VideosOptions(NilPtr, Slice([Str(x), Str(y)]), NilPtr, NilPtr);
    VideosOptionsShaped(NilPtr, Slice([Str(x), Str(y)]), NilPtr, NilPtr);
    VideosKeys(NilPtr, Slice([Str(x), Str(y)]), NilPtr, NilPtr);
    IdsParts(fs, x, y);
  }

  /** `{ID: [x, y], GameID: &g}` has the pairs `id=x`, `id=y` and `game_id=g`. */
  lemma VideosIdsAndGameParts(x: string, y: string, g: string, b: nat)
    requires g != ""
    ensures OptionParts(VideosOptions(NilPtr, Slice([Str(x), Str(y)]), NilPtr, Ptr(Str(g), b)))
      == ["id" + "=" + x, "id" + "=" + y, "game_id" + "=" + g]
  {
    var fs := VideosOptions(NilPtr, Slice([Str(x), Str(y)]), NilPtr, Ptr(Str(g), b));
    VideosOptionsShaped(NilPtr, Slice([Str(x), Str(y)]), NilPtr, Ptr(Str(g), b));
    VideosKeys(NilPtr, Slice([Str(x), Str(y)]), NilPtr, Ptr(Str(g), b));
    IdsAndGameParts(fs, x, y, g, b);
  }

  /** `{UserID: &u}` with `First` set to `&n` has the pairs `first=n` and `user_id=u`, the embedded field first. */
  lemma VideosFirstAndUserParts(n: int, u: string, a: nat, b: nat)
    requires n != 0 && u != ""
    ensures OptionParts(VideosOptions(Ptr(Int(n), a), NilSlice, Ptr(Str(u), b), NilPtr))
      == ["first" + "=" + Itoa(n), "user_id" + "=" + u]
  {
    var fs := VideosOptions(Ptr(Int(n), a), NilSlice, Ptr(Str(u), b), NilPtr);
    VideosOptionsShaped(Ptr(Int(n), a), NilSlice, Ptr(Str(u), b), NilPtr);
    VideosKeys(Ptr(Int(n), a), NilSlice, Ptr(Str(u), b), NilPtr);
    FirstAndUserParts(fs, n, u, a, b);
  }

  lemma VideosUserAndGame(u: string, g: string, a: nat, b: nat)
    requires u != "" && g != ""
    ensures OptionsQuery(Some(VideosOptions(NilPtr, NilSlice, Ptr(Str(u), a), Ptr(Str(g), b))))
      == "user_id" + "=" + u + "&" + "game_id" + "=" + g
  {
    VideosUserAndGameParts(u, g, a, b);
    QueryOfTwo(VideosOptions(NilPtr, NilSlice, Ptr(Str(u), a), Ptr(Str(g), b)), "user_id" + "=" + u, "game_id" + "=" + g);
  }

  lemma VideosIds(x: string, y: string)
    ensures OptionsQuery(Some(VideosOptions(NilPtr, Slice([Str(x), Str(y)]), NilPtr, NilPtr)))
      == "id" + "=" + x + "&" + "id" + "=" + y
  {
    VideosIdsParts(x, y);
    QueryOfTwo(VideosOptions(NilPtr, Slice([Str(x), Str(y)]), NilPtr, NilPtr), "id" + "=" + x, "id" + "=" + y);
  }

  lemma VideosIdsAndGame(x: string, y: string, g: string, b: nat)
    requires g != ""
    ensures OptionsQuery(Some(VideosOptions(NilPtr, Slice([Str(x), Str(y)]), NilPtr, Ptr(Str(g), b))))
      == "id" + "=" + x + "&" + "id" + "=" + y + "&" + "game_id" + "=" + g
  {
    var fs := VideosOptions(NilPtr, Slice([Str(x), Str(y)]), NilPtr, Ptr(Str(g), b));
    VideosIdsAndGameParts(x, y, g, b);
    QueryOfThree(fs, "id" + "=" + x, "id" + "=" + y, "game_id" + "=" + g);
  }

  lemma VideosFirstAndUser(n: int, u: string, a: nat, b: nat)
    requires n != 0 && u != ""
    ensures OptionsQuery(Some(VideosOptions(Ptr(Int(n), a), NilSlice, Ptr(Str(u), b), NilPtr)))
      == "first" + "=" + Itoa(n) + "&" + "user_id" + "=" + u
  {
    VideosFirstAndUserParts(n, u, a, b);
    QueryOfTwo(VideosOptions(Ptr(Int(n), a), NilSlice, Ptr(Str(u), b), NilPtr), "first" + "=" + Itoa(n), "user_id" + "=" + u);
  }

  /** A CommercialLength as the encoder sees it: an integer whose `String` method names it. */
  function LengthValue(cl: Objects.CommercialLength): Value
  {
    Named(Int(cl as int), cl.String())
  }

  /** `StartCommercialOptions{BroadcasterID: b, Length: length}`. */
  function StartCommercialOptions(b: string, length: Value): seq<Field>
  {
    [ Field("BroadcasterID", "broadcaster_id", false, Str(b)),
      Field("Length", "length", false, length) ]
  }

  /** The keys of StartCommercialOptions, whatever its values. */
  lemma StartCommercialKeys(b: string, length: Value)
    ensures var fs := StartCommercialOptions(b, length);
      && |fs| == 2 && !fs[0].embedded && !fs[1].embedded
      && fs[0].value == Str(b) && fs[1].value == length
      && Keyed(fs[0], "broadcaster_id") && Keyed(fs[1], "length")
  {
    var fs := StartCommercialOptions(b, length);
    KeyTexts();
    KeyBeforeComma(fs[0], "broadcaster_id", "");
    KeyBeforeComma(fs[1], "length", "");
  }

  lemma OptionPartsTwo(f: Field, g: Field)
    ensures OptionParts([f, g]) == TopParts(f) + TopParts(g)
  {
    OptionPartsSingle(f);
    OptionPartsSingle(g);
    OptionPartsAppend([f], [g]);
    assert [f] + [g] == [f, g];
  }

  /** A value with a `String` method gives one pair with that text, unless its underlying value is zero. */
  lemma NamedField(f: Field, key: string, u: Value, text: string)
    requires Keyed(f, key) && f.value == Named(u, text)
    ensures IsZero(u) ==> FieldParts(f) == []
    ensures !IsZero(u) ==> FieldParts(f) == [key + "=" + text]
  {
  }

  /**
   * A commercial's length is written as the text of CommercialLength.String: its number
   * when valid, `invalid` otherwise, and nothing when it is zero.
   */
  lemma StartCommercialQuery(b: string, cl: Objects.CommercialLength)
    requires b != ""
    ensures cl != 0 ==>
      OptionsQuery(Some(StartCommercialOptions(b, LengthValue(cl)))) == "broadcaster_id" + "=" + b + "&" + "length" + "=" + cl.String()
    ensures cl == 0 ==> OptionsQuery(Some(StartCommercialOptions(b, LengthValue(cl)))) == "broadcaster_id" + "=" + b
  {
    if cl == 0 {
      StartCommercialZero(b, cl.String());
    } else {
      StartCommercialText(b, cl as int, cl.String());
    }
  }

  /** StartCommercialOptions with a length of underlying value `n` whose `String` text is `t`. */
  lemma StartCommercialText(b: string, n: int, t: string)
    requires b != ""
    ensures n != 0 ==>
      OptionsQuery(Some(StartCommercialOptions(b, Named(Int(n), t)))) == "broadcaster_id" + "=" + b + "&" + "length" + "=" + t
  {
    var fs := StartCommercialOptions(b, Named(Int(n), t));
    StartCommercialKeys(b, Named(Int(n), t));
    StringAndNamedQuery(fs, "broadcaster_id", b, "length", Int(n), t);
  }

  /** A zero length is left out. */
  lemma StartCommercialZero(b: string, t: string)
    requires b != ""
    ensures OptionsQuery(Some(StartCommercialOptions(b, Named(Int(0), t)))) == "broadcaster_id" + "=" + b
  {
    var fs := StartCommercialOptions(b, Named(Int(0), t));
    StartCommercialKeys(b, Named(Int(0), t));
    StringAndNamedQuery(fs, "broadcaster_id", b, "length", Int(0), t);
  }

  /** A record of a set string field and a field with a `String` method. */
  lemma StringAndNamedQuery(fs: seq<Field>, k: string, s: string, l: string, u: Value, text: string)
    requires |fs| == 2 && !fs[0].embedded && !fs[1].embedded && s != ""
    requires Keyed(fs[0], k) && fs[0].value == Str(s)
    requires Keyed(fs[1], l) && fs[1].value == Named(u, text)
    ensures !IsZero(u) ==> OptionsQuery(Some(fs)) == k + "=" + s + "&" + l + "=" + text
    ensures IsZero(u) ==> OptionsQuery(Some(fs)) == k + "=" + s
  {
    StringField(fs[0], k, s);
    NamedField(fs[1], l, u, text);
    OptionPartsTwo(fs[0], fs[1]);
    assert fs == [fs[0], fs[1]];
    if !IsZero(u) {
      QueryOfTwo(fs, k + "=" + s, l + "=" + text);
    }
  }

  /** `StartCommercialOptions{BroadcasterID: "1", Length: CommercialLength(45)}`. */
  lemma InvalidLengthExample()
    ensures OptionsQuery(Some(StartCommercialOptions("1", LengthValue(45)))) == "broadcaster_id=1&length=invalid"
  {
    StartCommercialQuery("1", 45);
    InvalidLengthText();
  }

  /** `StartCommercialOptions{BroadcasterID: "1", Length: CommercialLength60}`. */
  lemma ValidLengthExample()
    ensures OptionsQuery(Some(StartCommercialOptions("1", LengthValue(60)))) == "broadcaster_id=1&length=60"
  {
    StartCommercialQuery("1", 60);
    ValidLengthText();
  }

  // Proof helpers: the lemmas below only spell out concrete texts or regroup
  // concatenations, so that the examples that use them stay cheap to check. They state
  // nothing about the client themselves.

  lemma KeyTexts()
    ensures ',' !in "broadcaster_id" && "broadcaster_id" != ""
    ensures ',' !in "length" && "length" != ""
  {
  }

  lemma InvalidLengthText()
    ensures (45 as Objects.CommercialLength).String() == "invalid"
    ensures "broadcaster_id" + "=" + "1" + "&" + "length" + "=" + "invalid" == "broadcaster_id=1&length=invalid"
  {
  }

  lemma ValidLengthText()
    ensures (60 as Objects.CommercialLength).String() == "60"
    ensures "broadcaster_id" + "=" + "1" + "&" + "length" + "=" + "60" == "broadcaster_id=1&length=60"
  {
  }

  /** The query texts of the parseOptions unit test, assembled from their pairs. */
  lemma UserAndGameText()
    ensures "user_id" + "=" + "12345" + "&" + "game_id" + "=" + "twitch" == "user_id=12345&game_id=twitch"
  {
  }

  lemma IdsText()
    ensures "id" + "=" + "123" + "&" + "id" + "=" + "456" == "id=123&id=456"
  {
  }

  lemma IdsAndGameText()
    ensures "id" + "=" + "123" + "&" + "id" + "=" + "456" + "&" + "game_id" + "=" + "twitch" == "id=123&id=456&game_id=twitch"
  {
  }

  lemma FirstAndUserText()
    ensures "first" + "=" + Itoa(1) + "&" + "user_id" + "=" + "12345" == "first=1&user_id=12345"
  {
    assert Itoa(1) == "1";
  }

  /** The four cases of the parseOptions unit test. */
  lemma ParseOptionsUserAndGameExample(a: nat, b: nat)
    ensures OptionsQuery(Some(VideosOptions(NilPtr, NilSlice, Ptr(Str("12345"), a), Ptr(Str("twitch"), b))))
      == "user_id=12345&game_id=twitch"
  {
    VideosUserAndGame("12345", "twitch", a, b);
    UserAndGameText();
  }

  lemma ParseOptionsIdsExample()
    ensures OptionsQuery(Some(VideosOptions(NilPtr, Slice([Str("123"), Str("456")]), NilPtr, NilPtr)))
      == "id=123&id=456"
  {
    VideosIds("123", "456");
    IdsText();
  }

  lemma ParseOptionsIdsAndGameExample(b: nat)
    ensures OptionsQuery(Some(VideosOptions(NilPtr, Slice([Str("123"), Str("456")]), NilPtr, Ptr(Str("twitch"), b))))
      == "id=123&id=456&game_id=twitch"
  {
    VideosIdsAndGame("123", "456", "twitch", b);
    IdsAndGameText();
  }

  lemma ParseOptionsFirstAndUserExample(a: nat, b: nat)
    ensures OptionsQuery(Some(VideosOptions(Ptr(Int(1), a), NilSlice, Ptr(Str("12345"), b), NilPtr)))
      == "first=1&user_id=12345"
  {
    VideosFirstAndUser(1, "12345", a, b);
    FirstAndUserText();
  }

  // ---------------------------------------------------------------------------
  // isNumber.
  // ---------------------------------------------------------------------------

  /** A string is a number exactly when it is an optionally signed decimal that fits in 64 bits. */
  lemma IsNumberIff(s: string)
    ensures IsNumber(s) <==> IsDecimal(s) && MinInt64 <= DecimalOf(s) <= MaxInt64
  {
    AtoiAccepts(s);
  }

  /** A non-empty string that starts with neither a sign nor a digit is not a number. */
  lemma NotNumber(s: string)
    requires s == [] || (s[0] != '+' && s[0] != '-' && !IsDigit(s[0]))
    ensures !IsNumber(s)
  {
    AtoiAccepts(s);
  }

  /** Up to eighteen digits, leading zeros allowed, always make a number. */
  lemma ShortDigitsAreNumber(s: string)
    requires s != [] && |s| <= 18 && AllDigits(s)
    ensures IsNumber(s)
  {
    AccumulateBound(s, 0);
    Pow10Monotone(|s|, 18);
    Pow10Of19();
    AtoiAccepts(s);
  }

  /** Nineteen digits with a leading 1 are below 2 * 10^18, so they fit in 64 bits. */
  lemma LeadingOneIsNumber(rest: string)
    requires |rest| == 18 && AllDigits(rest)
    ensures IsNumber("1" + rest)
  {
    var s := "1" + rest;
    assert s[1..] == rest;
    AccumulateBound(rest, 1);
    Pow10Of19();
    AtoiAccepts(s);
  }

  /** The accepted cases of the isNumber unit test. */
  lemma IsNumberExamples()
    ensures IsNumber("123") && IsNumber("0000") && IsNumber("0")
  {
    ShortDigitsAreNumber("123");
    ShortDigitsAreNumber("0000");
    ShortDigitsAreNumber("0");
  }

  /** The nineteen-digit identifier of the isNumber unit test is accepted. */
  lemma LongNumberExample()
    ensures IsNumber("1425438400038830143")
  {
    assert "1425438400038830143" == "1" + "425438400038830143";
    LeadingOneIsNumber("425438400038830143");
  }

  /** The rejected cases of the isNumber unit test. */
  lemma NotNumberExamples()
    ensures !IsNumber("twitch") && !IsNumber("ABCDEF") && !IsNumber("DeadBeef")
    ensures !IsNumber("") && !IsNumber("O") && !IsNumber(" ")
  {
    NotNumber("twitch");
    NotNumber("ABCDEF");
    NotNumber("DeadBeef");
    NotNumber("");
    NotNumber("O");
    NotNumber(" ");
  }

  /** The cases of the chooseKey unit test, and the two keys trade places when the condition flips. */
  lemma ChooseKeyExamples(when: bool, a: string, b: string)
    ensures ChooseKey(true, "foo", "NEVER") == "foo" && ChooseKey(false, "NEVER", "bar") == "bar"
    ensures ChooseKey(!when, b, a) == ChooseKey(when, a, b)
  {
  }

  // ---------------------------------------------------------------------------
  // parseMixedParam.
  // ---------------------------------------------------------------------------

  /** The dynamic types parseMixedParam distinguishes; anything else is `Unsupported`. */
  datatype Mixed =
    | StringSlice(strings: seq<string>)
    | IntSlice(ints: seq<int>)
    | OneInt(n: int)
    | OneString(s: string)
    | Unsupported

  /** One value handed to the `addToQuery` closure. */
  datatype Item = IntItem(n: int) | StringItem(s: string)

  /** The values the closure is called with, in order. */
  function Items(values: Mixed): seq<Item>
  {
    match values
    case StringSlice(ss) => seq(|ss|, i requires 0 <= i < |ss| => StringItem(ss[i]))
    case IntSlice(ns) => seq(|ns|, i requires 0 <= i < |ns| => IntItem(ns[i]))
    case OneInt(n) => [IntItem(n)]
    case OneString(s) => [StringItem(s)]
    case Unsupported => []
  }

  /** The pair the closure appends: integers and numeric strings under the numeric key. */
  function ItemPart(item: Item, stringKey: string, numericKey: string): string
  {
    match item
    case IntItem(n) => numericKey + "=" + Itoa(n)
    case StringItem(s) => if !IsNumber(s) then stringKey + "=" + s else numericKey + "=" + s
  }

  function ItemParts(items: seq<Item>, stringKey: string, numericKey: string): (r: seq<string>)
    ensures |r| == |items|
  {
    seq(|items|, i requires 0 <= i < |items| => ItemPart(items[i], stringKey, numericKey))
  }

  /** The query parseMixedParam returns. */
  function MixedQuery(values: Mixed, stringKey: string, numericKey: string): string
  {
    Join(ItemParts(Items(values), stringKey, numericKey), "&")
  }

  /** The `addToQuery` closure. */
  method AddToQuery(query: seq<string>, value: Item, stringKey: string, numericKey: string)
    returns (r: seq<string>)
    ensures r == query + [ItemPart(value, stringKey, numericKey)]
  {
    match value
    case IntItem(n) =>
      r := query + [numericKey + "=" + Itoa(n)];
    case StringItem(v) =>
      if !IsNumber(v) {
        r := query + [stringKey + "=" + v];
      } else {
        r := query + [numericKey + "=" + v];
      }
  }

  /** parseMixedParam: one pair per value, joined by `&`. */
  method ParseMixedParam(values: Mixed, stringKey: string, numericKey: string) returns (result: string)
    ensures result == MixedQuery(values, stringKey, numericKey)
  {
    var query: seq<string> := [];
    var items := Items(values);
    match values {
    case StringSlice(ss) =>
      var i := 0;
      while i < |ss|
        invariant 0 <= i <= |ss|
        invariant query == ItemParts(items[..i], stringKey, numericKey)
      {
        assert items[..i + 1] == items[..i] + [StringItem(ss[i])];
        query := AddToQuery(query, StringItem(ss[i]), stringKey, numericKey);
        i := i + 1;
      }
      assert items[..i] == items;
    case IntSlice(ns) =>
      var i := 0;
      while i < |ns|
        invariant 0 <= i <= |ns|
        invariant query == ItemParts(items[..i], stringKey, numericKey)
      {
        assert items[..i + 1] == items[..i] + [IntItem(ns[i])];
        query := AddToQuery(query, IntItem(ns[i]), stringKey, numericKey);
        i := i + 1;
      }
      assert items[..i] == items;
    case OneInt(n) =>
      query := AddToQuery(query, IntItem(n), stringKey, numericKey);
    case OneString(s) =>
      query := AddToQuery(query, StringItem(s), stringKey, numericKey);
    case Unsupported =>
    }
    result := Join(query, "&");
  }

  /** One pair per value; no pair at all for a value of any other type. */
  lemma MixedPartsCount(values: Mixed, stringKey: string, numericKey: string)
    ensures var n := |ItemParts(Items(values), stringKey, numericKey)|;
      match values
      case StringSlice(ss) => n == |ss|
      case IntSlice(ns) => n == |ns|
      case OneInt(_) => n == 1
      case OneString(_) => n == 1
      case Unsupported => n == 0 && MixedQuery(values, stringKey, numericKey) == ""
  {
  }

  /** The i-th string goes under the numeric key exactly when it is a number, and keeps its text. */
  lemma StringSlicePart(ss: seq<string>, i: nat, stringKey: string, numericKey: string)
    requires i < |ss|
    ensures ItemParts(Items(StringSlice(ss)), stringKey, numericKey)[i]
      == (if IsNumber(ss[i]) then numericKey else stringKey) + "=" + ss[i]
  {
  }

  /** The i-th integer goes under the numeric key as its decimal text. */
  lemma IntSlicePart(ns: seq<int>, i: nat, stringKey: string, numericKey: string)
    requires i < |ns|
    ensures ItemParts(Items(IntSlice(ns)), stringKey, numericKey)[i] == numericKey + "=" + Itoa(ns[i])
  {
  }

  /** A 64-bit integer and its decimal text give the same query. */
  lemma IntAndTextAgree(n: int, stringKey: string, numericKey: string)
    requires MinInt64 <= n <= MaxInt64
    ensures MixedQuery(OneInt(n), stringKey, numericKey) == MixedQuery(OneString(Itoa(n)), stringKey, numericKey)
  {
    AtoiItoa(n);
    assert IsNumber(Itoa(n));
  }

  /** Two values give their two pairs joined by `&`. */
  lemma MixedTwo(values: Mixed, a: Item, b: Item, stringKey: string, numericKey: string)
    requires Items(values) == [a, b]
    ensures MixedQuery(values, stringKey, numericKey)
      == ItemPart(a, stringKey, numericKey) + "&" + ItemPart(b, stringKey, numericKey)
  {
    var parts := ItemParts([a, b], stringKey, numericKey);
    assert parts == [ItemPart(a, stringKey, numericKey), ItemPart(b, stringKey, numericKey)];
    JoinTwo(ItemPart(a, stringKey, numericKey), ItemPart(b, stringKey, numericKey), "&");
  }

  /** Two strings, each under the key its kind selects. */
  lemma MixedTwoStrings(x: string, y: string, stringKey: string, numericKey: string)
    ensures MixedQuery(StringSlice([x, y]), stringKey, numericKey)
      == (if IsNumber(x) then numericKey else stringKey) + "=" + x + "&"
       + (if IsNumber(y) then numericKey else stringKey) + "=" + y
  {
    assert Items(StringSlice([x, y])) == [StringItem(x), StringItem(y)];
    MixedTwo(StringSlice([x, y]), StringItem(x), StringItem(y), stringKey, numericKey);
  }

  /** Two integers, both under the numeric key. */
  lemma MixedTwoInts(m: int, n: int, stringKey: string, numericKey: string)
    ensures MixedQuery(IntSlice([m, n]), stringKey, numericKey)
      == numericKey + "=" + Itoa(m) + "&" + numericKey + "=" + Itoa(n)
  {
    assert Items(IntSlice([m, n])) == [IntItem(m), IntItem(n)];
    MixedTwo(IntSlice([m, n]), IntItem(m), IntItem(n), stringKey, numericKey);
  }

  // Proof helpers: the lemmas below only spell out concrete texts or regroup
  // concatenations, so that the examples that use them stay cheap to check. They state
  // nothing about the client themselves.

  /** The query texts of the parseMixedParam unit test, assembled from their pairs. */
  lemma MixedTexts()
    ensures "game_name" + "=" + "twitch" == "game_name=twitch"
    ensures "game_name" + "=" + "twitch" + "&" + "game_name" + "=" + "glitch" == "game_name=twitch&game_name=glitch"
  {
  }

  lemma MixedNumericTexts()
    ensures "game_id" + "=" + "123" + "&" + "game_id" + "=" + "456" == "game_id=123&game_id=456"
    ensures "game_id" + "=" + "123" + "&" + "game_name" + "=" + "twitch" == "game_id=123&game_name=twitch"
  {
  }

  lemma ItoaTexts()
    ensures Itoa(12345) == "12345" && Itoa(123) == "123" && Itoa(456) == "456"
  {
  }

  lemma MixedIntTexts()
    ensures "game_id" + "=" + Itoa(12345) == "game_id=12345"
    ensures "game_id" + "=" + Itoa(123) + "&" + "game_id" + "=" + Itoa(456) == "game_id=123&game_id=456"
  {
    ItoaTexts();
  }

  /** The cases of the parseMixedParam unit test, for the keys `game_name` and `game_id`. */
  lemma MixedParamSingleExamples()
    ensures MixedQuery(OneString("twitch"), "game_name", "game_id") == "game_name=twitch"
    ensures MixedQuery(OneInt(12345), "game_name", "game_id") == "game_id=12345"
  {
    NotNumber("twitch");
    MixedTexts();
    MixedIntTexts();
  }

  lemma MixedParamWordsExample()
    ensures MixedQuery(StringSlice(["twitch", "glitch"]), "game_name", "game_id") == "game_name=twitch&game_name=glitch"
  {
    NotNumber("twitch");
    NotNumber("glitch");
    MixedTwoStrings("twitch", "glitch", "game_name", "game_id");
    MixedTexts();
  }

  lemma MixedParamIntsExample()
    ensures MixedQuery(IntSlice([123, 456]), "game_name", "game_id") == "game_id=123&game_id=456"
  {
    MixedTwoInts(123, 456, "game_name", "game_id");
    MixedIntTexts();
  }

  lemma MixedParamNumericTextExample()
    ensures MixedQuery(StringSlice(["123", "456"]), "game_name", "game_id") == "game_id=123&game_id=456"
  {
    ShortDigitsAreNumber("123");
    ShortDigitsAreNumber("456");
    MixedTwoStrings("123", "456", "game_name", "game_id");
    MixedNumericTexts();
  }

  lemma MixedParamMixedExample()
    ensures MixedQuery(StringSlice(["123", "twitch"]), "game_name", "game_id") == "game_id=123&game_name=twitch"
  {
    ShortDigitsAreNumber("123");
    NotNumber("twitch");
    MixedTwoStrings("123", "twitch", "game_name", "game_id");
    MixedNumericTexts();
  }
}
