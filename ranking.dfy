/**
 * Python's `list.sort(key=...)` / `sorted(..., key=...)`: a stable sort by a real-valued key.
 * `reverse=True` is the same stable sort on the negated key (Python keeps equal elements in their
 * original order under `reverse=True` as well). The reference definition is an insertion sort.
 */
module Ranking {

  predicate SortedBy<T>(s: seq<T>, key: T -> real)
  {
    forall i, j :: 0 <= i < j < |s| ==> key(s[i]) <= key(s[j])
  }

  /** The elements of `s` whose key is `k`, in their order in `s`. */
  function WithKey<T>(s: seq<T>, key: T -> real, k: real): (r: seq<T>)
    ensures |r| <= |s|
    ensures forall i :: 0 <= i < |r| ==> key(r[i]) == k
  {
    if s == [] then []
    else if key(s[0]) == k then [s[0]] + WithKey(s[1..], key, k)
    else WithKey(s[1..], key, k)
  }

  /** Inserts `x` before the first element whose key is not smaller. */
  function Insert<T>(x: T, s: seq<T>, key: T -> real): seq<T>
  {
    if s == [] then [x]
    else if key(x) <= key(s[0]) then [x] + s
    else [s[0]] + Insert(x, s[1..], key)
  }

  /** Stable ascending sort of `s` by `key`. */
  function SortByKey<T>(s: seq<T>, key: T -> real): seq<T>
  {
    if s == [] then [] else Insert(s[0], SortByKey(s[1..], key), key)
  }

  function Negated<T>(key: T -> real): T -> real
  {
    x => -key(x)
  }

  /** Stable descending sort, as `sort(key=key, reverse=True)`. */
  function SortByKeyDescending<T>(s: seq<T>, key: T -> real): seq<T>
  {
    SortByKey(s, Negated(key))
  }

  lemma {:induction false} InsertPermutes<T>(x: T, s: seq<T>, key: T -> real)
    ensures multiset(Insert(x, s, key)) == multiset([x]) + multiset(s)
    ensures |Insert(x, s, key)| == |s| + 1
  {
    if s != [] && key(x) > key(s[0]) {
      InsertPermutes(x, s[1..], key);
      assert s == [s[0]] + s[1..];
    }
  }

  lemma {:induction false} InsertSorted<T>(x: T, s: seq<T>, key: T -> real)
    requires SortedBy(s, key)
    ensures SortedBy(Insert(x, s, key), key)
  {
    if s != [] && key(x) > key(s[0]) {
      InsertSorted(x, s[1..], key);
      InsertPermutes(x, s[1..], key);
      var t := Insert(x, s[1..], key);
      forall i | 0 <= i < |t|
        ensures key(s[0]) <= key(t[i])
      {
        assert t[i] in multiset(t);
        assert t[i] == x || t[i] in multiset(s[1..]);
        if t[i] != x {
          var j :| 0 <= j < |s[1..]| && s[1..][j] == t[i];
          assert s[j + 1] == t[i];
        }
      }
    }
  }

  /** The sort result is ordered by the key. */
  lemma {:induction false} SortByKeySorted<T>(s: seq<T>, key: T -> real)
    ensures SortedBy(SortByKey(s, key), key)
  {
    if s != [] {
      SortByKeySorted(s[1..], key);
      InsertSorted(s[0], SortByKey(s[1..], key), key);
    }
  }

  /** The sort result holds exactly the input's elements. */
  lemma {:induction false} SortByKeyPermutes<T>(s: seq<T>, key: T -> real)
    ensures multiset(SortByKey(s, key)) == multiset(s)
    ensures |SortByKey(s, key)| == |s|
  {
    if s != [] {
      SortByKeyPermutes(s[1..], key);
      InsertPermutes(s[0], SortByKey(s[1..], key), key);
      assert s == [s[0]] + s[1..];
    }
  }

  lemma {:induction false} WithKeyInsert<T>(x: T, s: seq<T>, key: T -> real, k: real)
    requires SortedBy(s, key)
    ensures WithKey(Insert(x, s, key), key, k) == if key(x) == k then [x] + WithKey(s, key, k) else WithKey(s, key, k)
  {
    if s == [] {
    } else if key(x) <= key(s[0]) {
      assert ([x] + s)[1..] == s;
    } else {
      var t := Insert(x, s[1..], key);
      assert ([s[0]] + t)[1..] == t;
      WithKeyInsert(x, s[1..], key, k);
      if key(x) == k {
        // s[0] has a key below key(x) = k, so it is not kept
        assert key(s[0]) != k;
      }
    }
  }

  /** Stability: the elements sharing any one key keep their original relative order. */
  lemma {:induction false} SortByKeyStable<T>(s: seq<T>, key: T -> real, k: real)
    ensures WithKey(SortByKey(s, key), key, k) == WithKey(s, key, k)
  {
    if s != [] {
      SortByKeyStable(s[1..], key, k);
      SortByKeySorted(s[1..], key);
      WithKeyInsert(s[0], SortByKey(s[1..], key), key, k);
    }
  }

  /** Selecting by key commutes with concatenation. */
  lemma {:induction false} WithKeyAppend<T>(a: seq<T>, b: seq<T>, key: T -> real, k: real)
    ensures WithKey(a + b, key, k) == WithKey(a, key, k) + WithKey(b, key, k)
  {
    if a != [] {
      WithKeyAppend(a[1..], b, key, k);
      assert (a + b)[1..] == a[1..] + b;
    } else {
      assert a + b == b;
    }
  }

  /** The descending sort orders by decreasing key. */
  lemma SortByKeyDescendingOrdered<T>(s: seq<T>, key: T -> real)
    ensures var r := SortByKeyDescending(s, key);
      |r| == |s| && multiset(r) == multiset(s) &&
      forall i, j :: 0 <= i < j < |r| ==> key(r[i]) >= key(r[j])
  {
    SortByKeySorted(s, Negated(key));
    SortByKeyPermutes(s, Negated(key));
  }

  lemma {:induction false} WithKeyNegated<T>(s: seq<T>, key: T -> real, k: real)
    ensures WithKey(s, Negated(key), -k) == WithKey(s, key, k)
  {
    if s != [] {
      WithKeyNegated(s[1..], key, k);
    }
  }

  /** Stability of the descending sort: elements with equal keys keep their original order. */
  lemma SortByKeyDescendingStable<T>(s: seq<T>, key: T -> real, k: real)
    ensures WithKey(SortByKeyDescending(s, key), key, k) == WithKey(s, key, k)
  {
    SortByKeyStable(s, Negated(key), -k);
    WithKeyNegated(s, key, k);
    WithKeyNegated(SortByKeyDescending(s, key), key, k);
  }
}
