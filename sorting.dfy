/**
 * Ordering a list by a numeric key: the `sort` calls of the output monitor
 * and the upload history, which sort a copy of the list by a timestamp.
 * The key is passed as a function so that one definition serves ascending
 * order (the timestamp) and descending order (its negation).
 */
module Sorting {

  /** The keys do not decrease from left to right. */
  predicate SortedBy<T>(s: seq<T>, key: T -> int) {
    forall i, j :: 0 <= i < j < |s| ==> key(s[i]) <= key(s[j])
  }

  /** `x` placed after every element whose key is not greater than its own. */
  function Insert<T>(x: T, s: seq<T>, key: T -> int): (r: seq<T>)
    requires SortedBy(s, key)
    ensures SortedBy(r, key)
    ensures multiset(r) == multiset(s) + multiset{x}
    ensures |r| == |s| + 1
    ensures r[0] == x || (|s| > 0 && r[0] == s[0])
    decreases |s|
  {
    if s == [] then [x]
    else if key(x) < key(s[0]) then [x] + s
    else
      var rest := Insert(x, s[1..], key);
      assert s == [s[0]] + s[1..];
      assert forall j :: 0 <= j < |rest| ==> key(s[0]) <= key(rest[j]) by {
        assert key(s[0]) <= key(rest[0]);
        forall j | 0 <= j < |rest| ensures key(s[0]) <= key(rest[j]) {
          if j > 0 { assert key(rest[0]) <= key(rest[j]); }
        }
      }
      [s[0]] + rest
  }

  /** Insertion sort: a sorted rearrangement of `s`. */
  function SortBy<T>(s: seq<T>, key: T -> int): (r: seq<T>)
    ensures SortedBy(r, key)
    ensures multiset(r) == multiset(s)
    ensures |r| == |s|
    decreases |s|
  {
    if s == [] then []
    else
      assert s == s[..|s| - 1] + [s[|s| - 1]];
      Insert(s[|s| - 1], SortBy(s[..|s| - 1], key), key)
  }

  /** A list that is already in order is left as it is. */
  lemma {:induction false} SortSorted<T>(s: seq<T>, key: T -> int)
    requires SortedBy(s, key)
    ensures SortBy(s, key) == s
    decreases |s|
  {
    if s != [] {
      var p := s[..|s| - 1];
      assert SortedBy(p, key);
      SortSorted(p, key);
      InsertLast(s[|s| - 1], p, key);
      assert p + [s[|s| - 1]] == s;
    }
  }

  /** Inserting an element whose key is at least every other key appends it. */
  lemma {:induction false} InsertLast<T>(x: T, s: seq<T>, key: T -> int)
    requires SortedBy(s, key)
    requires forall i :: 0 <= i < |s| ==> key(s[i]) <= key(x)
    ensures Insert(x, s, key) == s + [x]
    decreases |s|
  {
    if s != [] {
      assert SortedBy(s[1..], key);
      InsertLast(x, s[1..], key);
      assert [s[0]] + (s[1..] + [x]) == s + [x];
    }
  }
}
