/** `Array.prototype.sort` with a numeric comparator: ascending by key and stable. */
module Sorting {
  import opened Prelude

  predicate Sorted<T>(key: T -> int, s: seq<T>) {
    forall i, j :: 0 <= i < j < |s| ==> key(s[i]) <= key(s[j])
  }

  /** Puts x after every element whose key is not larger. */
  function Insert<T>(key: T -> int, s: seq<T>, x: T): seq<T> {
    if s == [] || key(s[|s| - 1]) <= key(x) then s + [x]
    else Insert(key, s[..|s| - 1], x) + [s[|s| - 1]]
  }

  function SortBy<T>(key: T -> int, s: seq<T>): seq<T> {
    if s == [] then [] else Insert(key, SortBy(key, s[..|s| - 1]), s[|s| - 1])
  }

  lemma {:induction false} InsertPermutes<T>(key: T -> int, s: seq<T>, x: T)
    ensures multiset(Insert(key, s, x)) == multiset(s) + multiset{x}
    ensures |Insert(key, s, x)| == |s| + 1
  {
    if s == [] || key(s[|s| - 1]) <= key(x) {
    } else {
      InsertPermutes(key, s[..|s| - 1], x);
      assert s == s[..|s| - 1] + [s[|s| - 1]];
    }
  }

  lemma {:induction false} InsertSorts<T>(key: T -> int, s: seq<T>, x: T, bound: int)
    requires Sorted(key, s) && key(x) <= bound
    requires forall i :: 0 <= i < |s| ==> key(s[i]) <= bound
    ensures Sorted(key, Insert(key, s, x))
    ensures forall i :: 0 <= i < |Insert(key, s, x)| ==> key(Insert(key, s, x)[i]) <= bound
  {
    if s == [] || key(s[|s| - 1]) <= key(x) {
    } else {
      InsertSorts(key, s[..|s| - 1], x, key(s[|s| - 1]));
    }
  }

  lemma InsertCorrect<T>(key: T -> int, s: seq<T>, x: T)
    requires Sorted(key, s)
    ensures Sorted(key, Insert(key, s, x))
    ensures multiset(Insert(key, s, x)) == multiset(s) + multiset{x}
    ensures |Insert(key, s, x)| == |s| + 1
  {
    InsertPermutes(key, s, x);
    InsertSorts(key, s, x, Max(key(x), if s == [] then 0 else key(s[|s| - 1])));
  }

  /** Sorting permutes its input into ascending order. */
  lemma {:induction false} SortByCorrect<T>(key: T -> int, s: seq<T>)
    ensures Sorted(key, SortBy(key, s))
    ensures multiset(SortBy(key, s)) == multiset(s)
    ensures |SortBy(key, s)| == |s|
  {
    if s != [] {
      var n := |s| - 1;
      SortByCorrect(key, s[..n]);
      InsertCorrect(key, SortBy(key, s[..n]), s[n]);
      assert s == s[..n] + [s[n]];
    }
  }

  function WithKey<T(!new)>(key: T -> int, k: int, s: seq<T>): seq<T> {
    Filter(x => key(x) == k, s)
  }

  lemma WithKeyAppend<T(!new)>(key: T -> int, k: int, s: seq<T>, x: T)
    ensures WithKey(key, k, s + [x]) == if key(x) == k then WithKey(key, k, s) + [x] else WithKey(key, k, s)
  {
    FilterAppend(x => key(x) == k, s, x);
  }

  lemma {:induction false} InsertStable<T(!new)>(key: T -> int, k: int, s: seq<T>, x: T)
    requires Sorted(key, s)
    ensures WithKey(key, k, Insert(key, s, x)) == WithKey(key, k, s + [x])
  {
    hide WithKey;
    if s == [] || key(s[|s| - 1]) <= key(x) {
    } else {
      var init, last := s[..|s| - 1], s[|s| - 1];
      InsertStable(key, k, init, x);
      WithKeyAppend(key, k, Insert(key, init, x), last);
      WithKeyAppend(key, k, init, x);
      WithKeyAppend(key, k, init, last);
      WithKeyAppend(key, k, s, x);
      assert s == init + [last];
    }
  }

  /** Elements with equal keys keep their relative order. */
  lemma {:induction false} SortByStable<T(!new)>(key: T -> int, k: int, s: seq<T>)
    ensures WithKey(key, k, SortBy(key, s)) == WithKey(key, k, s)
  {
    hide WithKey, Insert, Sorted;
    if s != [] {
      var init, last := s[..|s| - 1], s[|s| - 1];
      SortByCorrect(key, init);
      SortByStable(key, k, init);
      InsertStable(key, k, SortBy(key, init), last);
      WithKeyAppend(key, k, SortBy(key, init), last);
      WithKeyAppend(key, k, init, last);
      assert s == init + [last];
    }
  }
}
