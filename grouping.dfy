/**
 * `groupModels` and `getSortedGroups`: the catalogue split into one bucket per
 * group, each bucket ordered by alias, and the group names ordered for the page.
 */
module Grouping {
  import opened Wrappers
  import opened Text
  import opened Sorting
  import opened Catalog
  import opened Tables

  /**
   * The object `groupModels` returns: its own keys in insertion order (the
   * order `Object.keys` lists them in) and the bucket stored under each.
   */
  datatype Grouped = Grouped(keys: seq<string>, buckets: map<string, seq<Model>>)

  predicate NoDuplicates<T(==)>(s: seq<T>) {
    forall i, j :: 0 <= i < j < |s| ==> s[i] != s[j]
  }

  /** The effective group names of `models`, each once, in order of first occurrence. */
  function GroupNames(models: seq<Model>): seq<string> {
    if models == [] then []
    else
      var names := GroupNames(models[..|models| - 1]);
      var group := EffectiveGroup(models[|models| - 1]);
      if group in names then names else names + [group]
  }

  /** The models of `group`, in input order: what the first loop pushes into its bucket. */
  function Members(models: seq<Model>, group: string): seq<Model> {
    if models == [] then []
    else
      var last := models[|models| - 1];
      Members(models[..|models| - 1], group) + if EffectiveGroup(last) == group then [last] else []
  }

  /** No group name is listed twice. */
  lemma {:induction false} GroupNamesDistinct(models: seq<Model>)
    ensures NoDuplicates(GroupNames(models))
  {
    if models != [] {
      GroupNamesDistinct(models[..|models| - 1]);
    }
  }

  /** The group names are those of the input models, each listed once. */
  lemma {:induction false} GroupNamesSpec(models: seq<Model>)
    ensures NoDuplicates(GroupNames(models))
    ensures forall m :: m in models ==> EffectiveGroup(m) in GroupNames(models)
    ensures forall k :: k in GroupNames(models) ==> exists m :: m in models && EffectiveGroup(m) == k
  {
    if models != [] {
      var front := models[..|models| - 1];
      assert models == front + [models[|models| - 1]];
      GroupNamesSpec(front);
      GroupNamesDistinct(models);
    }
  }

  /** A group that has no name yet has no members yet. */
  lemma {:induction false} MembersOfUnnamedGroup(models: seq<Model>, group: string)
    requires group !in GroupNames(models)
    ensures Members(models, group) == []
  {
    if models != [] {
      MembersOfUnnamedGroup(models[..|models| - 1], group);
    }
  }

  /** A bucket holds every model of its group, as often as the input does, and nothing else. */
  lemma {:induction false} MembersSpec(models: seq<Model>, group: string)
    ensures forall m ::
      multiset(Members(models, group))[m] == (if EffectiveGroup(m) == group then multiset(models)[m] else 0)
  {
    if models != [] {
      var front := models[..|models| - 1];
      assert models == front + [models[|models| - 1]];
      MembersSpec(front, group);
    }
  }

  /** The grouping `groupModels` computes, stated as a value. */
  function GroupingOf(models: seq<Model>, cmp: Collator): Grouped {
    var names := GroupNames(models);
    Grouped(names, map k | k in names :: SortBy(Members(models, k), SortKey, cmp))
  }

  /**
   * `groupModels`: one pass pushes each model onto the bucket of its
   * effective group, creating the bucket on first use; a second pass sorts
   * every bucket by alias.
   */
  method GroupModels(models: seq<Model>, cmp: Collator) returns (grouped: Grouped)
    ensures grouped == GroupingOf(models, cmp)
  {
    var keys, buckets := FillBuckets(models);
    GroupNamesDistinct(models);
    buckets := SortBuckets(keys, buckets, cmp);
    grouped := Grouped(keys, buckets);
  }

  /** The first loop of `groupModels`: bucket the models in input order. */
  method FillBuckets(models: seq<Model>) returns (keys: seq<string>, buckets: map<string, seq<Model>>)
    ensures keys == GroupNames(models)
    ensures forall k :: k in buckets <==> k in keys
    ensures forall k :: k in buckets ==> buckets[k] == Members(models, k)
  {
    keys, buckets := [], map[];
    var i := 0;
    while i < |models|
      invariant 0 <= i <= |models|
      invariant keys == GroupNames(models[..i])
      invariant forall k :: k in buckets <==> k in keys
      invariant forall k :: k in buckets ==> buckets[k] == Members(models[..i], k)
    {
      var model := models[i];
      var group := EffectiveGroup(model);
      ghost var done := models[..i];
      assert models[..i + 1] == done + [model];
      AppendModel(done, model);
      if group !in buckets {
        MembersOfUnnamedGroup(done, group);
        buckets := buckets[group := []];
        keys := keys + [group];
      }
      buckets := buckets[group := buckets[group] + [model]];
      i := i + 1;
    }
    assert models[..i] == models;
  }

  /** The second loop of `groupModels`: sort every bucket in place by `alias || ''`. */
  method SortBuckets(keys: seq<string>, unsorted: map<string, seq<Model>>, cmp: Collator)
    returns (buckets: map<string, seq<Model>>)
    requires NoDuplicates(keys)
    requires forall k :: k in unsorted <==> k in keys
    ensures buckets == map k | k in keys :: SortBy(unsorted[k], SortKey, cmp)
  {
    buckets := unsorted;
    var j := 0;
    while j < |keys|
      invariant 0 <= j <= |keys|
      invariant forall k :: k in buckets <==> k in keys
      invariant forall n :: 0 <= n < j ==> buckets[keys[n]] == SortBy(unsorted[keys[n]], SortKey, cmp)
      invariant forall n :: j <= n < |keys| ==> buckets[keys[n]] == unsorted[keys[n]]
    {
      var group := keys[j];
      assert forall n :: 0 <= n < |keys| && n != j ==> keys[n] != group;
      buckets := buckets[group := SortBy(buckets[group], SortKey, cmp)];
      j := j + 1;
    }
    forall k | k in buckets ensures buckets[k] == SortBy(unsorted[k], SortKey, cmp) {
      var n :| 0 <= n < |keys| && keys[n] == k;
    }
  }

  /** How one more model extends the group names and the buckets. */
  lemma AppendModel(front: seq<Model>, model: Model)
    ensures var names := GroupNames(front);
      GroupNames(front + [model]) ==
        if EffectiveGroup(model) in names then names else names + [EffectiveGroup(model)]
    ensures Members(front + [model], EffectiveGroup(model)) == Members(front, EffectiveGroup(model)) + [model]
    ensures forall k :: k != EffectiveGroup(model) ==> Members(front + [model], k) == Members(front, k)
  {
  }

  /**
   * Finding: the first loop as written. `grouped[group]` also reads the
   * members every object inherits, so for a group named like one of them the
   * empty bucket is never created and `push` is called on a function (or on
   * Object.prototype), which throws a TypeError; `None` stands for that throw.
   */
  function PushModelAsWritten(buckets: map<string, seq<Model>>, model: Model): (r: Option<map<string, seq<Model>>>)
    ensures r.None? <==> EffectiveGroup(model) !in buckets && EffectiveGroup(model) in ObjectPrototypeNames
    ensures r.Some? ==> r.value == buckets[EffectiveGroup(model) :=
      if EffectiveGroup(model) in buckets then buckets[EffectiveGroup(model)] + [model] else [model]]
  {
    var group := EffectiveGroup(model);
    if group in buckets then Some(buckets[group := buckets[group] + [model]])
    else if group in ObjectPrototypeNames then None
    else Some(buckets[group := [model]])
  }

  lemma PushModelAsWrittenThrowsOnToString(model: Model)
    requires model.group == Some("toString")
    ensures PushModelAsWritten(map[], model).None?
  {
  }

  /** Outside the inherited names the loop as written performs the intended push. */
  lemma PushModelAsWrittenAgrees(buckets: map<string, seq<Model>>, model: Model)
    requires EffectiveGroup(model) !in ObjectPrototypeNames
    ensures PushModelAsWritten(buckets, model) ==
      Some(buckets[EffectiveGroup(model) := (if EffectiveGroup(model) in buckets then buckets[EffectiveGroup(model)] else []) + [model]])
  {
    assert [] + [model] == [model];
  }

  /** `getSortedGroups`: the keys of a grouping, sorted with the collator. */
  function GetSortedGroups(grouped: Grouped, cmp: Collator): (names: seq<string>)
    ensures multiset(names) == multiset(grouped.keys)
    ensures forall k :: k in names <==> k in grouped.keys
  {
    SortByMembers(grouped.keys, (k: string) => k, cmp);
    SortBy(grouped.keys, (k: string) => k, cmp)
  }

  // ----- properties of the grouping -----

  /** The keys are exactly the effective group names of the input, each once. */
  lemma GroupingKeys(models: seq<Model>, cmp: Collator)
    ensures var g := GroupingOf(models, cmp);
      && NoDuplicates(g.keys)
      && (forall k :: k in g.buckets <==> k in g.keys)
      && g.buckets.Keys == set m | m in models :: EffectiveGroup(m)
  {
    GroupNamesSpec(models);
  }

  /**
   * Each bucket holds exactly the models of its group, with their
   * multiplicities, so every model is in one bucket and in no other.
   */
  lemma GroupingIsPartition(models: seq<Model>, cmp: Collator)
    ensures var g := GroupingOf(models, cmp);
      && (forall k, m :: k in g.buckets ==>
            multiset(g.buckets[k])[m] == if EffectiveGroup(m) == k then multiset(models)[m] else 0)
      && (forall m :: m in models ==> EffectiveGroup(m) in g.buckets && m in g.buckets[EffectiveGroup(m)])
      && (forall k, m :: k in g.buckets && m in g.buckets[k] ==> EffectiveGroup(m) == k)
  {
    var g := GroupingOf(models, cmp);
    GroupNamesSpec(models);
    forall k | k in g.buckets ensures forall m ::
      multiset(g.buckets[k])[m] == (if EffectiveGroup(m) == k then multiset(models)[m] else 0)
    {
      MembersSpec(models, k);
    }
    forall m | m in models ensures EffectiveGroup(m) in g.buckets && m in g.buckets[EffectiveGroup(m)] {
      var k := EffectiveGroup(m);
      assert m in multiset(models);
      assert m in multiset(g.buckets[k]);
    }
    forall k, m | k in g.buckets && m in g.buckets[k] ensures EffectiveGroup(m) == k {
      assert m in multiset(g.buckets[k]);
    }
  }

  /** A model lies in the bucket of its own group, and that group is a key. */
  lemma ModelInOwnBucket(models: seq<Model>, cmp: Collator, m: Model)
    requires m in models
    ensures var g := GroupingOf(models, cmp);
      EffectiveGroup(m) in g.keys && m in g.buckets[EffectiveGroup(m)]
  {
    GroupingIsPartition(models, cmp);
  }

  /** No bucket is empty. */
  lemma GroupingBucketsNonEmpty(models: seq<Model>, cmp: Collator)
    ensures var g := GroupingOf(models, cmp);
      forall k :: k in g.buckets ==> |g.buckets[k]| > 0
  {
    var g := GroupingOf(models, cmp);
    GroupNamesSpec(models);
    forall k | k in g.buckets ensures |g.buckets[k]| > 0 {
      MembersSpec(models, k);
      var m :| m in models && EffectiveGroup(m) == k;
      assert m in multiset(models);
      assert m in multiset(g.buckets[k]);
    }
  }

  /** Each bucket is ordered by `alias || ''`. */
  lemma GroupingBucketsSorted(models: seq<Model>, cmp: Collator)
    requires IsTotalPreorder(cmp)
    ensures var g := GroupingOf(models, cmp);
      forall k :: k in g.buckets ==> SortedBy(g.buckets[k], SortKey, cmp)
  {
    var g := GroupingOf(models, cmp);
    forall k | k in g.buckets ensures SortedBy(g.buckets[k], SortKey, cmp) {
      SortBySorted(Members(models, k), SortKey, cmp);
    }
  }

  /**
   * In code-point order models without an alias lead their bucket: sorting
   * them as the empty string puts them ahead of every aliased model.
   */
  lemma AliaslessModelsLeadEachBucket(models: seq<Model>)
    ensures var g := GroupingOf(models, CodePointCompare);
      forall k, i, j :: k in g.buckets && 0 <= i < j < |g.buckets[k]| && SortKey(g.buckets[k][j]) == "" ==>
        SortKey(g.buckets[k][i]) == ""
  {
    CodePointIsTotalPreorder();
    GroupingBucketsSorted(models, CodePointCompare);
    var g := GroupingOf(models, CodePointCompare);
    forall k, i, j | k in g.buckets && 0 <= i < j < |g.buckets[k]| && SortKey(g.buckets[k][j]) == ""
      ensures SortKey(g.buckets[k][i]) == ""
    {
      EmptyIsLeastInCodePointOrder(SortKey(g.buckets[k][i]));
    }
  }

  /** Total size of the groups in `names`. */
  function MemberTotal(names: seq<string>, models: seq<Model>): nat {
    if names == [] then 0
    else MemberTotal(names[..|names| - 1], models) + |Members(models, names[|names| - 1])|
  }

  lemma {:induction false} MemberTotalOfNone(names: seq<string>)
    ensures MemberTotal(names, []) == 0
  {
    if names != [] {
      MemberTotalOfNone(names[..|names| - 1]);
    }
  }

  lemma {:induction false} MemberTotalAppend(names: seq<string>, models: seq<Model>, model: Model)
    requires NoDuplicates(names)
    ensures MemberTotal(names, models + [model]) ==
      MemberTotal(names, models) + if EffectiveGroup(model) in names then 1 else 0
  {
    assert (models + [model])[..|models|] == models;
    if names != [] {
      var front := names[..|names| - 1];
      assert names == front + [names[|names| - 1]];
      MemberTotalAppend(front, models, model);
    }
  }

  /** Groups listed once each and covering every model add up to the whole input. */
  lemma {:induction false} MemberTotalCoversAll(names: seq<string>, models: seq<Model>)
    requires NoDuplicates(names)
    requires forall m :: m in models ==> EffectiveGroup(m) in names
    ensures MemberTotal(names, models) == |models|
  {
    if models == [] {
      MemberTotalOfNone(names);
    } else {
      var front := models[..|models| - 1];
      assert models == front + [models[|models| - 1]];
      MemberTotalCoversAll(names, front);
      MemberTotalAppend(names, front, models[|models| - 1]);
    }
  }

  /** A permutation of a list without duplicates has none either. */
  lemma NoDuplicatesPermutation<T>(a: seq<T>, b: seq<T>)
    requires NoDuplicates(a) && multiset(a) == multiset(b)
    ensures NoDuplicates(b)
  {
    forall i, j | 0 <= i < j < |b| ensures b[i] != b[j] {
      if b[i] == b[j] {
        assert b == b[..j] + b[j..];
        assert b[i] in b[..j] && b[j] in b[j..];
        assert multiset(b)[b[i]] >= 2;
        NoDuplicatesMultiplicity(a, b[i]);
        assert false;
      }
    }
  }

  lemma {:induction false} NoDuplicatesMultiplicity<T>(s: seq<T>, x: T)
    requires NoDuplicates(s)
    ensures multiset(s)[x] <= 1
  {
    if s != [] {
      assert s == [s[0]] + s[1..];
      NoDuplicatesMultiplicity(s[1..], x);
      if x == s[0] {
        assert x !in s[1..];
      }
    }
  }

  /** `getSortedGroups` lists every group name of the grouping once, in collator order. */
  lemma SortedGroupsSpec(models: seq<Model>, cmp: Collator)
    ensures var g := GroupingOf(models, cmp);
      var names := GetSortedGroups(g, cmp);
      && NoDuplicates(names)
      && (forall k :: k in names <==> k in g.buckets)
      && (IsTotalPreorder(cmp) ==> SortedBy(names, (k: string) => k, cmp))
  {
    var g := GroupingOf(models, cmp);
    GroupNamesSpec(models);
    NoDuplicatesPermutation(g.keys, GetSortedGroups(g, cmp));
    if IsTotalPreorder(cmp) {
      SortBySorted(g.keys, (k: string) => k, cmp);
    }
  }

  /** The bucket sizes add up to the number of models, in key order and in sorted order alike. */
  lemma GroupingSizesSum(models: seq<Model>, cmp: Collator)
    ensures MemberTotal(GroupingOf(models, cmp).keys, models) == |models|
    ensures MemberTotal(GetSortedGroups(GroupingOf(models, cmp), cmp), models) == |models|
  {
    var g := GroupingOf(models, cmp);
    GroupNamesSpec(models);
    MemberTotalCoversAll(g.keys, models);
    SortedGroupsSpec(models, cmp);
    MemberTotalCoversAll(GetSortedGroups(g, cmp), models);
  }
}
