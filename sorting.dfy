/**
 * `Array.prototype.sort` with a comparator, as the generator calls it on each
 * bucket of models and on the list of group names. The engine's algorithm is
 * library code; since ECMAScript 2019 it must be stable, and for a comparator
 * that is a total preorder a stable sort has exactly one possible result, which
 * the insertion sort below computes.
 */
module Sorting {
  import opened Text

  /** `s` is in non-descending order of `key` under `cmp`. */
  ghost predicate SortedBy<T>(s: seq<T>, key: T -> string, cmp: Collator) {
    forall i, j :: 0 <= i < j < |s| ==> Le(cmp, key(s[i]), key(s[j]))
  }

  /** Places `x` before the first element it need not follow. */
  function Insert<T>(x: T, s: seq<T>, key: T -> string, cmp: Collator): (r: seq<T>)
    ensures multiset(r) == multiset(s) + multiset{x}
    ensures |r| == |s| + 1
  {
    if s == [] then [x]
    else if Le(cmp, key(x), key(s[0])) then [x] + s
    else
      assert s == [s[0]] + s[1..];
      [s[0]] + Insert(x, s[1..], key, cmp)
  }

  /** The sorted copy of `s`; earlier elements stay ahead of equal later ones. */
  function SortBy<T>(s: seq<T>, key: T -> string, cmp: Collator): (r: seq<T>)
    ensures multiset(r) == multiset(s)
    ensures |r| == |s|
  {
    if s == [] then []
    else
      assert s == [s[0]] + s[1..];
      Insert(s[0], SortBy(s[1..], key, cmp), key, cmp)
  }

  lemma {:induction false} InsertSorted<T>(x: T, s: seq<T>, key: T -> string, cmp: Collator)
    requires IsTotalPreorder(cmp)
    requires SortedBy(s, key, cmp)
    ensures SortedBy(Insert(x, s, key, cmp), key, cmp)
  {
    if s != [] && !Le(cmp, key(x), key(s[0])) {
      var rest := Insert(x, s[1..], key, cmp);
      InsertSorted(x, s[1..], key, cmp);
      forall j | 0 <= j < |rest| ensures Le(cmp, key(s[0]), key(rest[j])) {
        assert rest[j] in multiset(rest);
        if rest[j] != x {
          assert rest[j] in multiset(s[1..]);
          var k :| 0 <= k < |s[1..]| && s[1..][k] == rest[j];
          assert s[k + 1] == rest[j];
        }
      }
    }
  }

  /** The model of `Array.prototype.sort` yields an ordered sequence. */
  lemma {:induction false} SortBySorted<T>(s: seq<T>, key: T -> string, cmp: Collator)
    requires IsTotalPreorder(cmp)
    ensures SortedBy(SortBy(s, key, cmp), key, cmp)
  {
    if s != [] {
      SortBySorted(s[1..], key, cmp);
      InsertSorted(s[0], SortBy(s[1..], key, cmp), key, cmp);
    }
  }

  /** Sorting keeps exactly the elements it was given, with their multiplicities. */
  lemma SortByMembers<T>(s: seq<T>, key: T -> string, cmp: Collator)
    ensures forall x :: x in SortBy(s, key, cmp) <==> x in s
  {
    var r := SortBy(s, key, cmp);
    forall x ensures x in r <==> x in s {
      assert x in r <==> x in multiset(r);
      assert x in s <==> x in multiset(s);
    }
  }
}
