/**
 * Query-string encoding as Go's `net/url` package does it: `QueryEscape` on the UTF-8
 * bytes of a string, and `Values` (a map from key to a list of values) with `Add`,
 * `Set`, `Get` and `Encode`.
 */
module UrlValues {
  import opened GoStrings

  // ---------------------------------------------------------------------------
  // Ordering of keys.
  // ---------------------------------------------------------------------------

  /**
   * Lexicographic order on code points. For valid Unicode text this is the byte order
   * of the UTF-8 encodings, which is how Go compares strings.
   */
  predicate Less(a: string, b: string)
    decreases |a|
  {
    if a == [] then b != []
    else if b == [] then false
    else if a[0] != b[0] then a[0] < b[0]
    else Less(a[1..], b[1..])
  }

  lemma {:induction false} LessIrreflexive(a: string)
    ensures !Less(a, a)
    decreases |a|
  {
    if a != [] {
      LessIrreflexive(a[1..]);
    }
  }

  lemma {:induction false} LessTransitive(a: string, b: string, c: string)
    requires Less(a, b) && Less(b, c)
    ensures Less(a, c)
    decreases |a|
  {
    if a != [] && b != [] && c != [] && a[0] == b[0] && b[0] == c[0] {
      LessTransitive(a[1..], b[1..], c[1..]);
    }
  }

  lemma {:induction false} LessTotal(a: string, b: string)
    requires a != b
    ensures Less(a, b) || Less(b, a)
    decreases |a|
  {
    if a != [] && b != [] && a[0] == b[0] {
      assert a == [a[0]] + a[1..] && b == [b[0]] + b[1..];
      LessTotal(a[1..], b[1..]);
    }
  }

  predicate StrictlyAscending(s: seq<string>)
  {
    forall i, j :: 0 <= i < j < |s| ==> Less(s[i], s[j])
  }

  /** Keys each less than the next are strictly ascending. */
  lemma {:induction false} AscendingChain(s: seq<string>)
    requires forall i :: 0 <= i < |s| - 1 ==> Less(s[i], s[i + 1])
    ensures StrictlyAscending(s)
    decreases |s|
  {
    if |s| > 1 {
      AscendingChain(s[1..]);
      forall j | 1 <= j < |s|
        ensures Less(s[0], s[j])
      {
        if j > 1 {
          assert Less(s[1..][0], s[1..][j - 1]);
          LessTransitive(s[0], s[1], s[j]);
        }
      }
      forall i, j | 0 <= i < j < |s|
        ensures Less(s[i], s[j])
      {
        if i > 0 {
          assert Less(s[1..][i - 1], s[1..][j - 1]);
        }
      }
    }
  }

  predicate IsLeast(k: string, keys: set<string>)
  {
    k in keys && forall x :: x in keys && x != k ==> Less(k, x)
  }

  lemma {:induction false} LeastExists(keys: set<string>)
    requires keys != {}
    ensures exists k :: IsLeast(k, keys)
    decreases |keys|
  {
    var x :| x in keys;
    if keys == {x} {
      assert IsLeast(x, keys);
    } else {
      var rest := keys - {x};
      LeastExists(rest);
      var m :| IsLeast(m, rest);
      if Less(x, m) {
        forall y | y in keys && y != x
          ensures Less(x, y)
        {
          if y != m {
            LessTransitive(x, m, y);
          }
        }
        assert IsLeast(x, keys);
      } else {
        LessTotal(x, m);
        assert IsLeast(m, keys);
      }
    }
  }

  lemma LeastUnique(a: string, b: string, keys: set<string>)
    requires IsLeast(a, keys) && IsLeast(b, keys)
    ensures a == b
  {
    if a != b {
      assert Less(a, b) && Less(b, a);
      LessTransitive(a, b, a);
      LessIrreflexive(a);
    }
  }

  /** The keys in ascending order, as `url.Values.Encode` visits them. */
  function SortedKeys(keys: set<string>): (r: seq<string>)
    ensures |r| == |keys|
    ensures forall k :: k in r <==> k in keys
    ensures StrictlyAscending(r)
    decreases |keys|
  {
    if keys == {} then []
    else
      LeastExists(keys);
      assert forall a, b :: IsLeast(a, keys) && IsLeast(b, keys) ==> a == b by {
        forall a, b | IsLeast(a, keys) && IsLeast(b, keys)
          ensures a == b
        {
          LeastUnique(a, b, keys);
        }
      }
      var k :| IsLeast(k, keys);
      var rest := SortedKeys(keys - {k});
      assert forall i :: 0 <= i < |rest| ==> Less(k, rest[i]) by {
        forall i | 0 <= i < |rest|
          ensures Less(k, rest[i])
        {
          assert rest[i] in keys - {k};
        }
      }
      [k] + rest
  }

  // ---------------------------------------------------------------------------
  // UTF-8 and QueryEscape.
  // ---------------------------------------------------------------------------

  /** The UTF-8 encoding of one Unicode scalar value. */
  function Utf8Char(c: char): (r: seq<nat>)
    ensures 1 <= |r| <= 4
    ensures forall i :: 0 <= i < |r| ==> r[i] < 256
    ensures (c as int < 0x80) <==> |r| == 1
    ensures |r| == 1 ==> r[0] == c as int
    ensures |r| > 1 ==> forall i :: 0 <= i < |r| ==> r[i] >= 0x80
  {
    var n := c as int;
    if n < 0x80 then [n]
    else if n < 0x800 then [0xC0 + n / 0x40, 0x80 + n % 0x40]
    else if n < 0x1_0000 then [0xE0 + n / 0x1000, 0x80 + n / 0x40 % 0x40, 0x80 + n % 0x40]
    else [0xF0 + n / 0x4_0000, 0x80 + n / 0x1000 % 0x40, 0x80 + n / 0x40 % 0x40, 0x80 + n % 0x40]
  }

  function Utf8(s: string): seq<nat>
  {
    if s == [] then [] else Utf8Char(s[0]) + Utf8(s[1..])
  }

  /** The bytes `QueryEscape` copies unchanged: ASCII letters, digits and `-_.~`. */
  predicate Unreserved(b: nat)
  {
    ('A' as nat <= b <= 'Z' as nat) || ('a' as nat <= b <= 'z' as nat) || ('0' as nat <= b <= '9' as nat)
    || b == '-' as nat || b == '_' as nat || b == '.' as nat || b == '~' as nat
  }

  function HexDigit(d: nat): char
    requires d < 16
  {
    "0123456789ABCDEF"[d]
  }

  /** One byte of a query component: kept, `+` for a space, `%XX` (upper-case hex) otherwise. */
  function EscapeByte(b: nat): string
    requires b < 256
  {
    if Unreserved(b) then [b as char]
    else if b == ' ' as nat then "+"
    else ['%', HexDigit(b / 16), HexDigit(b % 16)]
  }

  function EscapeBytes(bs: seq<nat>): string
    requires forall i :: 0 <= i < |bs| ==> bs[i] < 256
  {
    if bs == [] then [] else EscapeByte(bs[0]) + EscapeBytes(bs[1..])
  }

  lemma {:induction false} Utf8Bytes(s: string)
    ensures forall i :: 0 <= i < |Utf8(s)| ==> Utf8(s)[i] < 256
    decreases |s|
  {
    if s != [] {
      Utf8Bytes(s[1..]);
    }
  }

  /** url.QueryEscape. */
  function QueryEscape(s: string): string
  {
    Utf8Bytes(s);
    EscapeBytes(Utf8(s))
  }

  /** The characters `QueryEscape` can produce. */
  predicate Escaped(c: char)
  {
    Unreserved(c as nat) || c == '+' || c == '%'
  }

  lemma {:induction false} EscapeBytesChars(bs: seq<nat>)
    requires forall i :: 0 <= i < |bs| ==> bs[i] < 256
    ensures forall i :: 0 <= i < |EscapeBytes(bs)| ==> Escaped(EscapeBytes(bs)[i])
    decreases |bs|
  {
    if bs != [] {
      EscapeBytesChars(bs[1..]);
      var e := EscapeByte(bs[0]);
      assert forall i :: 0 <= i < |e| ==> Escaped(e[i]);
      assert EscapeBytes(bs) == e + EscapeBytes(bs[1..]);
    }
  }

  /** Escaped text contains only unreserved characters, `+` and `%`; in particular no `&` or `=`. */
  lemma QueryEscapeChars(s: string)
    ensures forall i :: 0 <= i < |QueryEscape(s)| ==> Escaped(QueryEscape(s)[i])
    ensures '&' !in QueryEscape(s) && '=' !in QueryEscape(s)
  {
    Utf8Bytes(s);
    EscapeBytesChars(Utf8(s));
  }

  predicate AllUnreserved(s: string)
  {
    forall i :: 0 <= i < |s| ==> Unreserved(s[i] as nat)
  }

  /** Text made of unreserved characters is left as it is. */
  lemma {:induction false} QueryEscapeUnreserved(s: string)
    requires AllUnreserved(s)
    ensures QueryEscape(s) == s
    decreases |s|
  {
    if s != [] {
      QueryEscapeUnreserved(s[1..]);
      Utf8Bytes(s[1..]);
      assert Utf8(s) == [s[0] as nat] + Utf8(s[1..]);
      assert (Utf8(s))[1..] == Utf8(s[1..]);
    }
  }

  lemma {:induction false} Utf8Append(a: string, b: string)
    ensures Utf8(a + b) == Utf8(a) + Utf8(b)
    decreases |a|
  {
    if a == [] {
      assert a + b == b;
    } else {
      assert (a + b)[1..] == a[1..] + b;
      Utf8Append(a[1..], b);
    }
  }

  /** Escaping a concatenation escapes each part. */
  lemma QueryEscapeAppend(a: string, b: string)
    ensures QueryEscape(a + b) == QueryEscape(a) + QueryEscape(b)
  {
    Utf8Bytes(a);
    Utf8Bytes(b);
    Utf8Bytes(a + b);
    Utf8Append(a, b);
    EscapeBytesAppend(Utf8(a), Utf8(b));
  }

  lemma {:induction false} EscapeBytesAppend(a: seq<nat>, b: seq<nat>)
    requires forall i :: 0 <= i < |a| ==> a[i] < 256
    requires forall i :: 0 <= i < |b| ==> b[i] < 256
    ensures EscapeBytes(a + b) == EscapeBytes(a) + EscapeBytes(b)
    decreases |a|
  {
    if a == [] {
      assert a + b == b;
    } else {
      assert (a + b)[1..] == a[1..] + b;
      EscapeBytesAppend(a[1..], b);
    }
  }

  // ---------------------------------------------------------------------------
  // url.Values.
  // ---------------------------------------------------------------------------

  type Values = map<string, seq<string>>

  /** Values.Get: the first value of `key`, or "" when there is none. */
  function Get(v: Values, key: string): string
  {
    if key in v && v[key] != [] then v[key][0] else ""
  }

  /** Values.Add: appends `value` to the list of `key`. */
  function Add(v: Values, key: string, value: string): (r: Values)
    ensures r.Keys == v.Keys + {key}
    ensures r[key] == (if key in v then v[key] else []) + [value]
    ensures forall k :: k in v && k != key ==> r[k] == v[k]
  {
    v[key := (if key in v then v[key] else []) + [value]]
  }

  /** Values.Set: replaces the list of `key` by the one value. */
  function Set(v: Values, key: string, value: string): (r: Values)
    ensures r.Keys == v.Keys + {key}
    ensures r[key] == [value]
    ensures forall k :: k in v && k != key ==> r[k] == v[k]
  {
    v[key := [value]]
  }

  /** The `key=value` pairs of the listed keys, each key's values in insertion order. */
  function Pairs(v: Values, keys: seq<string>): (r: seq<string>)
    requires forall i :: 0 <= i < |keys| ==> keys[i] in v
  {
    if keys == [] then []
    else
      var k := keys[0];
      seq(|v[k]|, j requires 0 <= j < |v[k]| => QueryEscape(k) + "=" + QueryEscape(v[k][j]))
      + Pairs(v, keys[1..])
  }

  /** Values.Encode: the pairs of all keys in ascending key order, joined by `&`. */
  function Encode(v: Values): string
  {
    var keys := SortedKeys(v.Keys);
    Join(Pairs(v, keys), "&")
  }

  lemma {:induction false} PairsShape(v: Values, keys: seq<string>)
    requires forall i :: 0 <= i < |keys| ==> keys[i] in v
    ensures forall i :: 0 <= i < |Pairs(v, keys)| ==>
      Pairs(v, keys)[i] != "" && Pairs(v, keys)[i][|Pairs(v, keys)[i]| - 1] != '&'
    decreases |keys|
  {
    if keys != [] {
      PairsShape(v, keys[1..]);
      var k := keys[0];
      forall j | 0 <= j < |v[k]|
        ensures var p := QueryEscape(k) + "=" + QueryEscape(v[k][j]); p[|p| - 1] != '&'
      {
        QueryEscapeChars(v[k][j]);
      }
    }
  }

  /** The encoding never ends with `&`, so trimming a trailing `&` leaves it unchanged. */
  lemma EncodeNoTrailingAmpersand(v: Values)
    ensures !HasSuffix(Encode(v), "&")
    ensures TrimSuffix(Encode(v), "&") == Encode(v)
  {
    var keys := SortedKeys(v.Keys);
    var ps := Pairs(v, keys);
    PairsShape(v, keys);
    if ps != [] {
      JoinLast(ps, "&");
      var e := Encode(v);
      assert e[|e| - 1] != '&';
      assert e[|e| - 1..] != "&";
    }
  }

  /** Pairs over a concatenation of key lists. */
  lemma {:induction false} PairsAppend(v: Values, a: seq<string>, b: seq<string>)
    requires forall i :: 0 <= i < |a| ==> a[i] in v
    requires forall i :: 0 <= i < |b| ==> b[i] in v
    ensures Pairs(v, a + b) == Pairs(v, a) + Pairs(v, b)
    decreases |a|
  {
    if a == [] {
      assert a + b == b;
    } else {
      assert (a + b)[1..] == a[1..] + b;
      PairsAppend(v, a[1..], b);
    }
  }

  lemma HeadIsElement(b: seq<string>)
    ensures b != [] ==> b[0] in b
  {
  }

  /** Two strictly ascending lists with the same elements are equal. */
  lemma {:induction false} AscendingUnique(a: seq<string>, b: seq<string>)
    requires StrictlyAscending(a) && StrictlyAscending(b)
    requires forall k :: k in a <==> k in b
    ensures a == b
    decreases |a|
  {
    if a != [] {
      assert a[0] in b;
      assert b != [];
      if a[0] != b[0] {
        assert b[0] in a;
        var i :| 0 <= i < |a| && a[i] == b[0];
        var j :| 0 <= j < |b| && b[j] == a[0];
        assert Less(a[0], b[0]) && Less(b[0], a[0]);
        LessTransitive(a[0], b[0], a[0]);
        LessIrreflexive(a[0]);
      }
      forall k
        ensures k in a[1..] <==> k in b[1..]
      {
        if k in a[1..] {
          var i :| 1 <= i < |a| && a[i] == k;
          if k == a[0] {
            LessIrreflexive(a[0]);
          }
          assert k in b;
          var j :| 0 <= j < |b| && b[j] == k;
          assert j != 0;
        }
        if k in b[1..] {
          var j :| 1 <= j < |b| && b[j] == k;
          if k == b[0] {
            LessIrreflexive(b[0]);
          }
          assert k in a;
          var i :| 0 <= i < |a| && a[i] == k;
          assert i != 0;
        }
      }
      AscendingUnique(a[1..], b[1..]);
      assert a == [a[0]] + a[1..] && b == [b[0]] + b[1..];
    } else {
      HeadIsElement(b);
    }
  }

  /** A strictly ascending list of keys is the order `Encode` visits its elements in. */
  lemma SortedKeysOf(s: seq<string>)
    requires StrictlyAscending(s)
    ensures SortedKeys(set k | k in s) == s
  {
    AscendingUnique(SortedKeys(set k | k in s), s);
  }

  /** The encoding of a map with one key: that key's pairs, joined by `&`. */
  lemma EncodeSingle(k: string, vs: seq<string>)
    ensures Encode(map[k := vs]) ==
      Join(seq(|vs|, j requires 0 <= j < |vs| => QueryEscape(k) + "=" + QueryEscape(vs[j])), "&")
  {
    var v := map[k := vs];
    var keys := SortedKeys(v.Keys);
    assert keys == [k];
    var ps := seq(|vs|, j requires 0 <= j < |vs| => QueryEscape(k) + "=" + QueryEscape(vs[j]));
    assert Pairs(v, keys) == ps + Pairs(v, keys[1..]);
    assert Pairs(v, keys[1..]) == [];
    assert Pairs(v, keys) == ps;
  }

  /** The pair of each key with its one value, in the order of `keys`. */
  function SinglePairs(keys: seq<string>, vals: seq<string>): (r: seq<string>)
    requires |keys| == |vals|
    ensures |r| == |keys|
  {
    seq(|keys|, i requires 0 <= i < |keys| => QueryEscape(keys[i]) + "=" + QueryEscape(vals[i]))
  }

  lemma {:induction false} PairsOfSingles(v: Values, keys: seq<string>, vals: seq<string>)
    requires |keys| == |vals|
    requires forall i :: 0 <= i < |keys| ==> keys[i] in v && v[keys[i]] == [vals[i]]
    ensures Pairs(v, keys) == SinglePairs(keys, vals)
    decreases |keys|
  {
    if keys != [] {
      PairsOfSingles(v, keys[1..], vals[1..]);
      var k := keys[0];
      var head := seq(|v[k]|, j requires 0 <= j < |v[k]| => QueryEscape(k) + "=" + QueryEscape(v[k][j]));
      assert head == [SinglePairs(keys, vals)[0]];
      assert SinglePairs(keys, vals) == [SinglePairs(keys, vals)[0]] + SinglePairs(keys[1..], vals[1..]);
    }
  }

  /**
   * A map whose keys are exactly the strictly ascending `keys`, each holding one value,
   * encodes as those pairs in that order.
   */
  lemma EncodeSingles(v: Values, keys: seq<string>, vals: seq<string>)
    requires StrictlyAscending(keys) && |keys| == |vals|
    requires v.Keys == set k | k in keys
    requires forall i :: 0 <= i < |keys| ==> v[keys[i]] == [vals[i]]
    ensures Encode(v) == Join(SinglePairs(keys, vals), "&")
  {
    SortedKeysOf(keys);
    PairsOfSingles(v, keys, vals);
  }
}
