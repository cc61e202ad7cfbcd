/** The parts of Go's `strings` package the client uses, on strings of Unicode scalar values. */
module GoStrings {
  /** strings.Join: the parts, with `sep` between each two consecutive ones. */
  function Join(parts: seq<string>, sep: string): string
  {
    if |parts| == 0 then ""
    else if |parts| == 1 then parts[0]
    else parts[0] + sep + Join(parts[1..], sep)
  }

  /** Joining a concatenation is joining each half, with one separator between them. */
  lemma {:induction false} JoinAppend(a: seq<string>, b: seq<string>, sep: string)
    requires a != [] && b != []
    ensures Join(a + b, sep) == Join(a, sep) + sep + Join(b, sep)
    decreases |a|
  {
    if |a| == 1 {
      assert a + b == [a[0]] + b;
      assert (a + b)[1..] == b;
    } else {
      assert (a + b)[1..] == a[1..] + b;
      JoinAppend(a[1..], b, sep);
    }
  }

  /** Joining two or three parts. */
  lemma JoinTwo(p: string, q: string, sep: string)
    ensures Join([p, q], sep) == p + sep + q
  {
    assert [p, q][1..] == [q];
  }

  lemma JoinThree(p: string, q: string, r: string, sep: string)
    ensures Join([p, q, r], sep) == p + sep + q + sep + r
  {
    assert [p, q, r][1..] == [q, r];
    JoinTwo(q, r, sep);
  }

  /** One more part on the right adds one separator and that part. */
  lemma JoinSnoc(a: seq<string>, p: string, sep: string)
    requires a != []
    ensures Join(a + [p], sep) == Join(a, sep) + sep + p
  {
    JoinAppend(a, [p], sep);
  }

  /** The last character of a join of non-empty parts is the last character of the last part. */
  lemma {:induction false} JoinLast(parts: seq<string>, sep: string)
    requires parts != [] && forall i :: 0 <= i < |parts| ==> parts[i] != ""
    ensures Join(parts, sep) != ""
    ensures Join(parts, sep)[|Join(parts, sep)| - 1] == parts[|parts| - 1][|parts[|parts| - 1]| - 1]
    decreases |parts|
  {
    if |parts| > 1 {
      JoinLast(parts[1..], sep);
    }
  }

  /** strings.HasPrefix. */
  predicate HasPrefix(s: string, prefix: string)
  {
    |prefix| <= |s| && s[..|prefix|] == prefix
  }

  /** strings.HasSuffix. */
  predicate HasSuffix(s: string, suffix: string)
  {
    |suffix| <= |s| && s[|s| - |suffix|..] == suffix
  }

  /** strings.TrimSuffix: `s` without `suffix` when it ends with it, `s` otherwise. */
  function TrimSuffix(s: string, suffix: string): (r: string)
    ensures HasSuffix(s, suffix) ==> r + suffix == s
    ensures !HasSuffix(s, suffix) ==> r == s
  {
    if HasSuffix(s, suffix) then s[..|s| - |suffix|] else s
  }

  /** The text before the first `sep`, i.e. `strings.Split(s, sep)[0]` for a one-character separator. */
  function BeforeFirst(s: string, sep: char): string
  {
    if s == [] then []
    else if s[0] == sep then []
    else [s[0]] + BeforeFirst(s[1..], sep)
  }

  /**
   * The result is a prefix without `sep`, and either all of `s` or followed in `s` by `sep`:
   * the first segment of the split.
   */
  lemma {:induction false} BeforeFirstSegment(s: string, sep: char)
    ensures BeforeFirst(s, sep) <= s
    ensures sep !in BeforeFirst(s, sep)
    ensures BeforeFirst(s, sep) != s ==> s[|BeforeFirst(s, sep)|] == sep
    decreases |s|
  {
    if s != [] && s[0] != sep {
      BeforeFirstSegment(s[1..], sep);
      assert [s[0]] + s[1..] == s;
    }
  }

  /** The text before a separator that the first part does not contain is that part. */
  lemma {:induction false} BeforeFirstPrefix(a: string, sep: char, b: string)
    requires sep !in a && (b == [] || b[0] == sep)
    ensures BeforeFirst(a + b, sep) == a
    decreases |a|
  {
    if a == [] {
      assert a + b == b;
    } else {
      assert (a + b)[0] == a[0] && (a + b)[1..] == a[1..] + b;
      BeforeFirstPrefix(a[1..], sep, b);
      assert [a[0]] + a[1..] == a;
    }
  }

  /** ASCII upper-case mapping of one character (other characters are kept). */
  function UpperChar(c: char): char
  {
    if 'a' <= c <= 'z' then (c as int - 'a' as int + 'A' as int) as char else c
  }

  /** strings.ToUpper on ASCII text. */
  function ToUpper(s: string): (r: string)
    ensures |r| == |s|
    ensures forall i :: 0 <= i < |s| ==> r[i] == UpperChar(s[i])
  {
    if s == [] then [] else [UpperChar(s[0])] + ToUpper(s[1..])
  }

  /** `pat` occurs in `s` starting at index `i`. */
  predicate OccursAt(s: string, pat: string, i: nat)
  {
    i + |pat| <= |s| && s[i..i + |pat|] == pat
  }

  /** The characters of an occurrence are those of the pattern. */
  lemma OccursAtChar(s: string, pat: string, i: nat, k: nat)
    requires k < |pat|
    ensures OccursAt(s, pat, i) ==> s[i + k] == pat[k]
  {
    if OccursAt(s, pat, i) {
      assert s[i..i + |pat|][k] == s[i + k];
    }
  }

  /**
   * strings.ReplaceAll: every leftmost, non-overlapping occurrence of `pat` in `s`
   * replaced by `rep`; an empty `pat` matches before every character and at the end.
   */
  function ReplaceAll(s: string, pat: string, rep: string): string
    decreases |s|
  {
    if pat == [] then
      if s == [] then rep else rep + [s[0]] + ReplaceAll(s[1..], pat, rep)
    else if OccursAt(s, pat, 0) then rep + ReplaceAll(s[|pat|..], pat, rep)
    else if s == [] then []
    else [s[0]] + ReplaceAll(s[1..], pat, rep)
  }

  /** A string in which a non-empty pattern does not occur is left unchanged. */
  lemma {:induction false} ReplaceAllAbsent(s: string, pat: string, rep: string)
    requires pat != []
    requires forall i :: 0 <= i <= |s| ==> !OccursAt(s, pat, i)
    ensures ReplaceAll(s, pat, rep) == s
    decreases |s|
  {
    if s != [] {
      assert !OccursAt(s, pat, 0);
      forall i | 0 <= i <= |s[1..]|
        ensures !OccursAt(s[1..], pat, i)
      {
        assert !OccursAt(s, pat, i + 1);
        if i + |pat| <= |s[1..]| {
          assert s[1..][i..i + |pat|] == s[i + 1..i + 1 + |pat|];
        }
      }
      ReplaceAllAbsent(s[1..], pat, rep);
    }
  }

  /** Occurrences in a string's tail are the occurrences in the string, shifted by one. */
  lemma OccursInTail(s: string, pat: string, i: nat)
    requires s != []
    ensures OccursAt(s[1..], pat, i) <==> OccursAt(s, pat, i + 1)
  {
    if i + 1 + |pat| <= |s| {
      assert s[1..][i..i + |pat|] == s[i + 1..i + 1 + |pat|];
    }
  }

  /**
   * Text that cannot start an occurrence passes through: if no occurrence of `pat`
   * starts inside `q` in `q + r`, then replacing in `q + r` keeps `q` and replaces in `r`.
   */
  lemma {:induction false} ReplaceAllPrefix(q: string, r: string, pat: string, rep: string)
    requires pat != []
    requires forall i :: 0 <= i < |q| ==> !OccursAt(q + r, pat, i)
    ensures ReplaceAll(q + r, pat, rep) == q + ReplaceAll(r, pat, rep)
    decreases |q|
  {
    if q != [] {
      var s := q + r;
      var t := q[1..] + r;
      assert s[1..] == t;
      assert !OccursAt(s, pat, 0);
      assert ReplaceAll(s, pat, rep) == [q[0]] + ReplaceAll(t, pat, rep);
      forall i | 0 <= i < |q[1..]|
        ensures !OccursAt(t, pat, i)
      {
        OccursInTail(s, pat, i);
      }
      ReplaceAllPrefix(q[1..], r, pat, rep);
      var x := ReplaceAll(r, pat, rep);
      assert [q[0]] + (q[1..] + x) == ([q[0]] + q[1..]) + x;
      assert [q[0]] + q[1..] == q;
    } else {
      assert q + r == r;
    }
  }

  /** An occurrence at the front is replaced and the scan resumes after it. */
  lemma ReplaceAllFront(r: string, pat: string, rep: string)
    requires pat != []
    ensures ReplaceAll(pat + r, pat, rep) == rep + ReplaceAll(r, pat, rep)
  {
    assert OccursAt(pat + r, pat, 0) by { assert (pat + r)[0..|pat|] == pat; }
    assert (pat + r)[|pat|..] == r;
  }
}
