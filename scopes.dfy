/** The OAuth scope vocabulary and the helpers over lists of scopes. */
module Scopes {
  /** Scope: a named permission, carried as its string. */
  datatype Scope = Scope(value: string)
  {
    /** The string form of a scope. */
    function String(): (r: string)
      ensures Scope(r) == this
    {
      value
    }

    /** A scope is valid when it is one of the eighteen declared ones. */
    predicate IsValid()
    {
      this == ScopeAnalyticsReadExtensions || this == ScopeAnalyticsReadGames
      || this == ScopeBitsRead || this == ScopeChannelEditCommercial
      || this == ScopeChannelReadHypeTrain || this == ScopeChannelReadSubscriptions
      || this == ScopeChannelReadStreamKey || this == ScopeChannelBot
      || this == ScopeClipsEdit || this == ScopeUserEdit
      || this == ScopeUserEditBroadcast || this == ScopeUserEditFollows
      || this == ScopeUserReadBroadcast || this == ScopeUserReadEmail
      || this == ScopeUserReadChat || this == ScopeUserWriteChat
      || this == ScopeUserBot || this == ScopeModerationRead
    }
  }

  const ScopeAnalyticsReadExtensions: Scope := Scope("analytics:read:extensions")
  const ScopeAnalyticsReadGames: Scope := Scope("analytics:read:games")
  const ScopeBitsRead: Scope := Scope("bits:read")
  const ScopeChannelEditCommercial: Scope := Scope("channel:edit:commercial")
  const ScopeChannelReadHypeTrain: Scope := Scope("channel:read:hype_train")
  const ScopeChannelReadSubscriptions: Scope := Scope("channel:read:subscriptions")
  const ScopeChannelReadStreamKey: Scope := Scope("channel:read:stream_key")
  const ScopeChannelBot: Scope := Scope("channel:bot")
  const ScopeClipsEdit: Scope := Scope("clips:edit")
  const ScopeUserEdit: Scope := Scope("user:edit")
  const ScopeUserEditBroadcast: Scope := Scope("user:edit:broadcast")
  const ScopeUserEditFollows: Scope := Scope("user:edit:follows")
  const ScopeUserReadBroadcast: Scope := Scope("user:read:broadcast")
  const ScopeUserReadEmail: Scope := Scope("user:read:email")
  const ScopeUserReadChat: Scope := Scope("user:read:chat")
  const ScopeUserWriteChat: Scope := Scope("user:write:chat")
  const ScopeUserBot: Scope := Scope("user:bot")
  const ScopeModerationRead: Scope := Scope("moderation:read")

  /** Every declared scope, in declaration order. */
  function AllScopes(): seq<Scope>
  {
    [ ScopeAnalyticsReadExtensions, ScopeAnalyticsReadGames, ScopeBitsRead,
      ScopeChannelEditCommercial, ScopeChannelReadHypeTrain, ScopeChannelReadSubscriptions,
      ScopeChannelReadStreamKey, ScopeChannelBot, ScopeClipsEdit, ScopeUserEdit,
      ScopeUserEditBroadcast, ScopeUserEditFollows, ScopeUserReadBroadcast,
      ScopeUserReadEmail, ScopeUserReadChat, ScopeUserWriteChat, ScopeUserBot,
      ScopeModerationRead ]
  }

  /** The declared scopes grouped by the word before their first colon. */
  function ScopesByCategory(): map<string, seq<Scope>>
  {
    map[
      "analytics" := [ScopeAnalyticsReadExtensions, ScopeAnalyticsReadGames],
      "bits" := [ScopeBitsRead],
      "channel" := [ScopeChannelEditCommercial, ScopeChannelReadHypeTrain,
                    ScopeChannelReadSubscriptions, ScopeChannelReadStreamKey, ScopeChannelBot],
      "clips" := [ScopeClipsEdit],
      "user" := [ScopeUserEdit, ScopeUserEditBroadcast, ScopeUserEditFollows,
                 ScopeUserReadBroadcast, ScopeUserReadEmail, ScopeUserReadChat,
                 ScopeUserWriteChat, ScopeUserBot],
      "moderation" := [ScopeModerationRead]]
  }

  /** The category names in the order the scopes are declared. */
  const CategoryOrder: seq<string> := ["analytics", "bits", "channel", "clips", "user", "moderation"]

  predicate Distinct<T(==)>(s: seq<T>)
  {
    forall i, j :: 0 <= i < j < |s| ==> s[i] != s[j]
  }

  // ---------------------------------------------------------------------------
  // Specification functions for the list helpers.
  // ---------------------------------------------------------------------------

  /** The string of every scope, in order. */
  function Strings(scopes: seq<Scope>): (r: seq<string>)
    ensures |r| == |scopes|
  {
    seq(|scopes|, i requires 0 <= i < |scopes| => scopes[i].value)
  }

  /** The scope named by every string, in order. */
  function FromStrings(strings: seq<string>): (r: seq<Scope>)
    ensures |r| == |strings|
  {
    seq(|strings|, i requires 0 <= i < |strings| => Scope(strings[i]))
  }

  predicate AllValid(scopes: seq<Scope>)
  {
    forall i :: 0 <= i < |scopes| ==> scopes[i].IsValid()
  }

  /** The scopes whose validity is `valid`, in their original order. */
  function Filter(scopes: seq<Scope>, valid: bool): seq<Scope>
  {
    if scopes == [] then []
    else if scopes[0].IsValid() == valid then [scopes[0]] + Filter(scopes[1..], valid)
    else Filter(scopes[1..], valid)
  }

  /** `a` is `b` with some elements left out, the rest kept in order. */
  predicate Subsequence<T(==)>(a: seq<T>, b: seq<T>)
    decreases |b|
  {
    if a == [] then true
    else if b == [] then false
    else if a[0] == b[0] then Subsequence(a[1..], b[1..])
    else Subsequence(a, b[1..])
  }

  // ---------------------------------------------------------------------------
  // The list helpers, as loops.
  // ---------------------------------------------------------------------------

  /** HasScope: whether `target` occurs in `scopes`. */
  method HasScope(scopes: seq<Scope>, target: Scope) returns (found: bool)
    ensures found <==> target in scopes
  {
    var i := 0;
    while i < |scopes|
      invariant 0 <= i <= |scopes|
      invariant target !in scopes[..i]
    {
      if scopes[i] == target {
        return true;
      }
      i := i + 1;
    }
    assert scopes[..i] == scopes;
    return false;
  }

  /** ScopesToStrings: fills a fresh slice with the string of each scope. */
  method ScopesToStrings(scopes: seq<Scope>) returns (result: seq<string>)
    ensures result == Strings(scopes)
  {
    var a := new string[|scopes|];
    var i := 0;
    while i < |scopes|
      invariant 0 <= i <= |scopes|
      invariant forall k :: 0 <= k < i ==> a[k] == scopes[k].value
    {
      a[i] := scopes[i].value;
      i := i + 1;
    }
    result := a[..];
  }

  /** StringsToScopes: fills a fresh slice with the scope named by each string. */
  method StringsToScopes(strings: seq<string>) returns (result: seq<Scope>)
    ensures result == FromStrings(strings)
  {
    var a := new Scope[|strings|](_ => Scope(""));
    var i := 0;
    while i < |strings|
      invariant 0 <= i <= |strings|
      invariant forall k :: 0 <= k < i ==> a[k] == Scope(strings[k])
    {
      a[i] := Scope(strings[i]);
      i := i + 1;
    }
    result := a[..];
  }

  /** ValidateScopes: whether every scope is valid; stops at the first invalid one. */
  method ValidateScopes(scopes: seq<Scope>) returns (ok: bool)
    ensures ok <==> AllValid(scopes)
  {
    var i := 0;
    while i < |scopes|
      invariant 0 <= i <= |scopes|
      invariant AllValid(scopes[..i])
    {
      if !scopes[i].IsValid() {
        return false;
      }
      i := i + 1;
    }
    assert scopes[..i] == scopes;
    return true;
  }

  lemma {:induction false} FilterSnoc(scopes: seq<Scope>, x: Scope, valid: bool)
    ensures Filter(scopes + [x], valid) == Filter(scopes, valid) + (if x.IsValid() == valid then [x] else [])
    decreases |scopes|
  {
    if scopes == [] {
      assert [] + [x] == [x];
    } else {
      assert (scopes + [x])[1..] == scopes[1..] + [x];
      FilterSnoc(scopes[1..], x, valid);
    }
  }

  /** The loop shared by FilterValidScopes and FilterInvalidScopes. */
  method FilterScopes(scopes: seq<Scope>, valid: bool) returns (result: seq<Scope>)
    ensures result == Filter(scopes, valid)
  {
    result := [];
    var i := 0;
    while i < |scopes|
      invariant 0 <= i <= |scopes|
      invariant result == Filter(scopes[..i], valid)
    {
      FilterSnoc(scopes[..i], scopes[i], valid);
      assert scopes[..i + 1] == scopes[..i] + [scopes[i]];
      if scopes[i].IsValid() == valid {
        result := result + [scopes[i]];
      }
      i := i + 1;
    }
    assert scopes[..i] == scopes;
  }

  /** FilterValidScopes: the valid scopes, in order. */
  method FilterValidScopes(scopes: seq<Scope>) returns (result: seq<Scope>)
    ensures result == Filter(scopes, true)
  {
    result := FilterScopes(scopes, true);
  }

  /** FilterInvalidScopes: the invalid scopes, in order. */
  method FilterInvalidScopes(scopes: seq<Scope>) returns (result: seq<Scope>)
    ensures result == Filter(scopes, false)
  {
    result := FilterScopes(scopes, false);
  }

  // ---------------------------------------------------------------------------
  // Properties.
  // ---------------------------------------------------------------------------

  /** No two declared scopes have the same string. */
  lemma AllScopesDistinctStrings()
    ensures forall i, j :: 0 <= i < j < |AllScopes()| ==> AllScopes()[i].value != AllScopes()[j].value
  {
  }

  /** The declared scopes are eighteen distinct, valid scopes. */
  lemma AllScopesDistinctAndValid()
    ensures |AllScopes()| == 18
    ensures Distinct(AllScopes())
    ensures AllValid(AllScopes())
  {
    AllScopesDistinctStrings();
  }

  /** IsValid holds exactly for the declared scopes. */
  lemma IsValidIffDeclared(s: Scope)
    ensures s.IsValid() <==> s in AllScopes()
  {
  }

  lemma InvalidExamples()
    ensures !Scope("").IsValid() && !Scope("random").IsValid()
  {
  }

  /** Strings and FromStrings undo each other. */
  lemma StringsRoundTrip(scopes: seq<Scope>, strings: seq<string>)
    ensures FromStrings(Strings(scopes)) == scopes
    ensures Strings(FromStrings(strings)) == strings
  {
  }

  /** Where each category's scopes sit in the declaration order, as a half-open range. */
  function CategoryBounds(c: string): (int, int)
  {
    if c == "analytics" then (0, 2)
    else if c == "bits" then (2, 3)
    else if c == "channel" then (3, 8)
    else if c == "clips" then (8, 9)
    else if c == "user" then (9, 17)
    else (17, 18)
  }

  lemma CategoryRuns()
    ensures ScopesByCategory().Keys == {"analytics", "bits", "channel", "clips", "user", "moderation"}
    ensures ScopesByCategory()["analytics"] == AllScopes()[0..2]
    ensures ScopesByCategory()["bits"] == AllScopes()[2..3]
    ensures ScopesByCategory()["channel"] == AllScopes()[3..8]
    ensures ScopesByCategory()["clips"] == AllScopes()[8..9]
    ensures ScopesByCategory()["user"] == AllScopes()[9..17]
    ensures ScopesByCategory()["moderation"] == AllScopes()[17..18]
  {
  }

  /** Each category lists a contiguous run of the declared scopes. */
  lemma CategorySlices()
    ensures ScopesByCategory().Keys == {"analytics", "bits", "channel", "clips", "user", "moderation"}
    ensures forall c :: c in ScopesByCategory() ==>
      ScopesByCategory()[c] == AllScopes()[CategoryBounds(c).0..CategoryBounds(c).1]
  {
    CategoryRuns();
  }

  /** The runs of two different categories do not overlap. */
  lemma BoundsDisjoint(c1: string, c2: string, k: int)
    requires c1 in ScopesByCategory() && c2 in ScopesByCategory()
    requires CategoryBounds(c1).0 <= k < CategoryBounds(c1).1
    requires CategoryBounds(c2).0 <= k < CategoryBounds(c2).1
    ensures c1 == c2
  {
    CategoryRuns();
  }

  /** The categories are the six names, with the documented sizes. */
  lemma CategorySizes()
    ensures ScopesByCategory().Keys == {"analytics", "bits", "channel", "clips", "user", "moderation"}
    ensures |ScopesByCategory()["analytics"]| == 2 && |ScopesByCategory()["bits"]| == 1
    ensures |ScopesByCategory()["channel"]| == 5 && |ScopesByCategory()["clips"]| == 1
    ensures |ScopesByCategory()["user"]| == 8 && |ScopesByCategory()["moderation"]| == 1
  {
    CategorySlices();
  }

  lemma SliceJoin<T>(s: seq<T>, a: int, b: int, c: int)
    requires 0 <= a <= b <= c <= |s|
    ensures s[a..b] + s[b..c] == s[a..c]
  {
  }

  /** Taken in declaration order, the categories list every declared scope once, in order. */
  lemma CategoriesInOrder()
    ensures forall i :: 0 <= i < |CategoryOrder| ==> CategoryOrder[i] in ScopesByCategory()
    ensures Concat(ScopesByCategory(), CategoryOrder) == AllScopes()
  {
    CategorySlices();
    var m, o, all := ScopesByCategory(), CategoryOrder, AllScopes();
    assert Concat(m, o[6..]) == [];
    assert Concat(m, o[5..]) == all[17..18] + [];
    SliceJoin(all, 9, 17, 18);
    assert Concat(m, o[4..]) == all[9..18];
    SliceJoin(all, 8, 9, 18);
    assert Concat(m, o[3..]) == all[8..18];
    SliceJoin(all, 3, 8, 18);
    assert Concat(m, o[2..]) == all[3..18];
    SliceJoin(all, 2, 3, 18);
    assert Concat(m, o[1..]) == all[2..18];
    SliceJoin(all, 0, 2, 18);
    assert Concat(m, o) == all[0..18];
  }

  /** In a sequence without repeats, an element found in two runs sits where they overlap. */
  lemma SharedIndex<T>(all: seq<T>, r1: (int, int), r2: (int, int), x: T) returns (k: int)
    requires Distinct(all)
    requires 0 <= r1.0 <= r1.1 <= |all| && 0 <= r2.0 <= r2.1 <= |all|
    requires x in all[r1.0..r1.1] && x in all[r2.0..r2.1]
    ensures r1.0 <= k < r1.1 && r2.0 <= k < r2.1 && all[k] == x
  {
    var i :| 0 <= i < r1.1 - r1.0 && all[r1.0..r1.1][i] == x;
    var j :| 0 <= j < r2.1 - r2.0 && all[r2.0..r2.1][j] == x;
    assert all[r1.0 + i] == all[r2.0 + j];
    k := r1.0 + i;
  }

  /** No declared scope appears in two categories. */
  lemma CategoriesDisjoint(c1: string, c2: string, s: Scope)
    requires c1 in ScopesByCategory() && c2 in ScopesByCategory()
    requires s in ScopesByCategory()[c1] && s in ScopesByCategory()[c2]
    ensures c1 == c2
  {
    CategorySlices();
    AllScopesDistinctAndValid();
    var k := SharedIndex(AllScopes(), CategoryBounds(c1), CategoryBounds(c2), s);
    BoundsDisjoint(c1, c2, k);
  }

  /** The lists of the categories, one after another. */
  function Concat(m: map<string, seq<Scope>>, names: seq<string>): seq<Scope>
    requires forall i :: 0 <= i < |names| ==> names[i] in m
  {
    if names == [] then [] else m[names[0]] + Concat(m, names[1..])
  }

  /** The two filters split the input: the sizes add up and the elements are the same. */
  lemma {:induction false} FilterPartition(scopes: seq<Scope>)
    ensures |Filter(scopes, true)| + |Filter(scopes, false)| == |scopes|
    ensures multiset(Filter(scopes, true)) + multiset(Filter(scopes, false)) == multiset(scopes)
    decreases |scopes|
  {
    if scopes != [] {
      FilterPartition(scopes[1..]);
      assert scopes == [scopes[0]] + scopes[1..];
    }
  }

  /** Every scope a filter keeps has the requested validity. */
  lemma {:induction false} FilterKeepsValidity(scopes: seq<Scope>, valid: bool)
    ensures forall i :: 0 <= i < |Filter(scopes, valid)| ==> Filter(scopes, valid)[i].IsValid() == valid
    decreases |scopes|
  {
    if scopes != [] {
      FilterKeepsValidity(scopes[1..], valid);
    }
  }

  /** Each filter keeps the order of the input. */
  lemma {:induction false} FilterSubsequence(scopes: seq<Scope>, valid: bool)
    ensures Subsequence(Filter(scopes, valid), scopes)
    decreases |scopes|
  {
    if scopes != [] {
      FilterSubsequence(scopes[1..], valid);
      var f := Filter(scopes[1..], valid);
      if scopes[0].IsValid() != valid {
        SubsequenceSkip(f, scopes[0], scopes[1..]);
      }
    }
  }

  lemma {:induction false} SubsequenceTail<T>(a: seq<T>, b: seq<T>)
    requires a != [] && Subsequence(a, b)
    ensures Subsequence(a[1..], b)
    decreases |b|
  {
    var c := a[1..];
    if c != [] {
      if a[0] == b[0] {
        if c[0] == b[0] {
          SubsequenceTail(c, b[1..]);
        }
      } else {
        SubsequenceTail(a, b[1..]);
        if c[0] == b[0] {
          SubsequenceTail(c, b[1..]);
        }
      }
    }
  }

  lemma SubsequenceSkip<T>(a: seq<T>, x: T, b: seq<T>)
    requires Subsequence(a, b)
    ensures Subsequence(a, [x] + b)
  {
    assert ([x] + b)[1..] == b;
    if a != [] && a[0] == x {
      SubsequenceTail(a, b);
    }
  }

  /** A sequence is all valid exactly when filtering out the invalid scopes leaves it unchanged. */
  lemma {:induction false} AllValidIffFilterKeepsAll(scopes: seq<Scope>)
    ensures AllValid(scopes) <==> Filter(scopes, true) == scopes
    decreases |scopes|
  {
    if scopes != [] {
      AllValidIffFilterKeepsAll(scopes[1..]);
      FilterPartition(scopes[1..]);
      if !scopes[0].IsValid() {
        assert |Filter(scopes, true)| < |scopes|;
      }
    }
  }
}
