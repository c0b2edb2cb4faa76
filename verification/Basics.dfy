/** Shared vocabulary: optional values, results, and a few sequence facts. */
module Basics {

  datatype Option<+T> = None | Some(value: T)

  datatype Result<+T, +E> = Ok(value: T) | Err(error: E)

  /** `items` lists every element of the set `s` exactly once. */
  ghost predicate Lists<T(!new)>(items: seq<T>, s: set<T>) {
    && (forall x :: x in items <==> x in s)
    && (forall i, j :: 0 <= i < j < |items| ==> items[i] != items[j])
  }

  lemma {:induction false} ListsLength<T(!new)>(items: seq<T>, s: set<T>)
    requires Lists(items, s)
    ensures |items| == |s|
    decreases |items|
  {
    if items == [] {
      assert s == {};
    } else {
      assert items[0] in s && items == [items[0]] + items[1..];
      ListsLength(items[1..], s - {items[0]});
    }
  }

  lemma MultisetOfTail<T>(s: seq<T>)
    requires s != []
    ensures multiset(s) == multiset{s[0]} + multiset(s[1..])
  {
    assert s == [s[0]] + s[1..];
  }

  lemma MultisetOfPush<T>(s: seq<T>, x: T)
    ensures multiset(s + [x]) == multiset(s) + multiset{x}
  {
  }

  /** An element that occurs once sits at one index only. */
  lemma OccursOnce<T>(s: seq<T>, i: nat, j: nat)
    requires i < |s| && j < |s| && i != j
    ensures multiset(s)[s[i]] == 1 ==> s[i] != s[j]
  {
    if s[i] == s[j] {
      var lo, hi := if i < j then i else j, if i < j then j else i;
      assert s == s[..hi] + s[hi..];
      assert s[lo] == s[..hi][lo] && s[hi] == s[hi..][0];
      assert multiset(s) == multiset(s[..hi]) + multiset(s[hi..]);
      assert s[i] in multiset(s[..hi]) && s[i] in multiset(s[hi..]);
    }
  }
}
