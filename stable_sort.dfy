/** Array.prototype.sort with a comparator of the form (a, b) => Rank(a) - Rank(b),
    which is what every comparator in the gallery boils down to. ECMA-262 (2023
    edition, section 23.1.3.30) requires the sort to be stable, so the model is a
    stable insertion sort: SortByKey is its specification as a function, and
    InsertionSort runs it in place on an array. */
module StableSort {
  import opened Seqs

  /** Ascending by key: the order a comparator Rank(a) - Rank(b) produces. */
  ghost predicate Sorted<T>(s: seq<T>, key: T -> int)
  {
    forall i, j :: 0 <= i < j < |s| ==> key(s[i]) <= key(s[j])
  }

  /** Places x after every element of the sorted list t whose key is at most key(x),
      scanning from the right as the in-place loop does. */
  function Insert<T>(t: seq<T>, x: T, key: T -> int): (r: seq<T>)
    ensures |r| == |t| + 1
    decreases |t|
  {
    if t == [] then [x]
    else if key(t[|t| - 1]) <= key(x) then t + [x]
    else Insert(t[..|t| - 1], x, key) + [t[|t| - 1]]
  }

  /** Stable sort by ascending key: insert the elements one at a time, left to right. */
  function SortByKey<T>(s: seq<T>, key: T -> int): (r: seq<T>)
    ensures |r| == |s|
    decreases |s|
  {
    if s == [] then []
    else Insert(SortByKey(s[..|s| - 1], key), s[|s| - 1], key)
  }

  /** The test "has key k", as a predicate value for Filter. */
  function KeyIs<T>(key: T -> int, k: int): T -> bool
  {
    x => key(x) == k
  }

  /** The elements of s with key k, in order. */
  function WithKey<T(!new)>(s: seq<T>, key: T -> int, k: int): seq<T>
  {
    Filter(s, KeyIs(key, k))
  }

  lemma {:induction false} InsertPermutes<T>(t: seq<T>, x: T, key: T -> int)
    ensures multiset(Insert(t, x, key)) == multiset(t) + multiset{x}
    decreases |t|
  {
    if t != [] && key(t[|t| - 1]) > key(x) {
      InsertPermutes(t[..|t| - 1], x, key);
      assert t == t[..|t| - 1] + [t[|t| - 1]];
    }
  }

  /** The sort is a permutation of its input. */
  lemma {:induction false} SortPermutes<T>(s: seq<T>, key: T -> int)
    ensures multiset(SortByKey(s, key)) == multiset(s)
    decreases |s|
  {
    if s != [] {
      SortPermutes(s[..|s| - 1], key);
      InsertPermutes(SortByKey(s[..|s| - 1], key), s[|s| - 1], key);
      assert s == s[..|s| - 1] + [s[|s| - 1]];
    }
  }

  lemma {:induction false} InsertSorted<T>(t: seq<T>, x: T, key: T -> int)
    requires Sorted(t, key)
    ensures Sorted(Insert(t, x, key), key)
    decreases |t|
  {
    if t != [] && key(t[|t| - 1]) > key(x) {
      var init, last := t[..|t| - 1], t[|t| - 1];
      InsertSorted(init, x, key);
      InsertPermutes(init, x, key);
      var u := Insert(init, x, key);
      forall i | 0 <= i < |u|
        ensures key(u[i]) <= key(last)
      {
        assert u[i] in multiset(u);
        assert u[i] in multiset(init) || u[i] == x;
        if u[i] != x {
          var j :| 0 <= j < |init| && init[j] == u[i];
          assert t[j] == u[i];
        }
      }
    }
  }

  /** The sort orders its output by ascending key. */
  lemma {:induction false} SortSorted<T>(s: seq<T>, key: T -> int)
    ensures Sorted(SortByKey(s, key), key)
    decreases |s|
  {
    if s != [] {
      SortSorted(s[..|s| - 1], key);
      InsertSorted(SortByKey(s[..|s| - 1], key), s[|s| - 1], key);
    }
  }

  lemma {:induction false} InsertStable<T(!new)>(t: seq<T>, x: T, key: T -> int, k: int)
    ensures WithKey(Insert(t, x, key), key, k) == WithKey(t, key, k) + WithKey([x], key, k)
    decreases |t|
  {
    var p := KeyIs(key, k);
    if t == [] {
      assert Filter([], p) == [];
    } else if key(t[|t| - 1]) <= key(x) {
      FilterConcat(t, [x], p);
    } else {
      var init, last := t[..|t| - 1], t[|t| - 1];
      InsertStable(init, x, key, k);
      FilterConcat(Insert(init, x, key), [last], p);
      FilterConcat(init, [last], p);
      assert t == init + [last];
      // x and last have different keys, so at most one of them survives the filter
      var fx, fl := Filter([x], p), Filter([last], p);
      assert fx == [] || fl == [];
      calc {
        Filter(Insert(t, x, key), p);
        Filter(Insert(init, x, key) + [last], p);
        Filter(init, p) + fx + fl;
        Filter(init, p) + fl + fx;
        Filter(t, p) + fx;
      }
    }
  }

  /** Stability: the elements sharing any one key keep their relative input order. */
  lemma {:induction false} SortStable<T(!new)>(s: seq<T>, key: T -> int, k: int)
    ensures WithKey(SortByKey(s, key), key, k) == WithKey(s, key, k)
    decreases |s|
  {
    if s != [] {
      var init, last := s[..|s| - 1], s[|s| - 1];
      SortStable(init, key, k);
      InsertStable(SortByKey(init, key), last, key, k);
      FilterConcat(init, [last], KeyIs(key, k));
      assert s == init + [last];
    }
  }

  /** Stability through any test that picks out exactly one key. */
  lemma StableFor<T(!new)>(s: seq<T>, key: T -> int, q: T -> bool, k: int)
    requires forall x :: q(x) == (key(x) == k)
    ensures Filter(SortByKey(s, key), q) == Filter(s, q)
  {
    SortStable(s, key, k);
    FilterCongruent(SortByKey(s, key), KeyIs(key, k), q);
    FilterCongruent(s, KeyIs(key, k), q);
  }

  /** An input already in key order comes back unchanged; in particular sorting twice
      is sorting once, and a comparator that always answers 0 keeps the input order. */
  lemma {:induction false} SortOfSorted<T>(s: seq<T>, key: T -> int)
    requires Sorted(s, key)
    ensures SortByKey(s, key) == s
    decreases |s|
  {
    if s != [] {
      var init := s[..|s| - 1];
      assert Sorted(init, key);
      SortOfSorted(init, key);
      assert init + [s[|s| - 1]] == s;
    }
  }

  /** Insert puts x right after the last element with a key no larger than key(x):
      when every element from position j on has a larger key, and the one before j
      (if any) does not, x lands at j. */
  lemma {:induction false} InsertAt<T>(t: seq<T>, j: nat, x: T, key: T -> int)
    requires j <= |t|
    requires j == 0 || key(t[j - 1]) <= key(x)
    requires forall m :: j <= m < |t| ==> key(t[m]) > key(x)
    ensures Insert(t, x, key) == t[..j] + [x] + t[j..]
    decreases |t|
  {
    if |t| == j {
      assert t[..j] == t && t[j..] == [];
    } else {
      var init, last := t[..|t| - 1], t[|t| - 1];
      assert init[..j] == t[..j];
      InsertAt(init, j, x, key);
      assert init[j..] + [last] == t[j..];
    }
  }

  /** Sorting one more element of the input is inserting it into the sorted prefix. */
  lemma SortPrefix<T>(s: seq<T>, i: nat, key: T -> int)
    requires i < |s|
    ensures SortByKey(s[..i + 1], key) == Insert(SortByKey(s[..i], key), s[i], key)
  {
    assert s[..i + 1][..i] == s[..i];
  }

  /** One pass of the sort: a[..i] is already in order; shift its elements with a
      key larger than key(a[i]) one slot right and drop a[i] into the gap. */
  method InsertLast<T>(a: array<T>, i: nat, key: T -> int)
    requires i < a.Length
    modifies a
    ensures a[..i + 1] == Insert(old(a[..i]), old(a[i]), key)
    ensures a[i + 1..] == old(a[i + 1..])
  {
    var x := a[i];
    ghost var t := a[..i];
    var j := i;
    while j > 0 && key(a[j - 1]) > key(x)
      invariant 0 <= j <= i
      invariant forall m :: 0 <= m < j ==> a[m] == t[m]
      invariant forall m :: j < m <= i ==> a[m] == t[m - 1]
      invariant forall m :: j <= m < i ==> key(t[m]) > key(x)
      invariant forall m :: i < m < a.Length ==> a[m] == old(a[m])
    {
      a[j] := a[j - 1];
      j := j - 1;
    }
    a[j] := x;
    InsertAt(t, j, x, key);
    ghost var r := t[..j] + [x] + t[j..];
    forall m | 0 <= m <= i
      ensures a[m] == r[m]
    {
      if m > j {
        assert r[m] == t[m - 1];
      }
    }
    assert a[..i + 1] == r;
    assert a[i + 1..] == old(a[i + 1..]) by {
      forall m | i + 1 <= m < a.Length
        ensures a[m] == old(a[m])
      {
      }
    }
  }

  /** Sorting in place: afterwards a holds SortByKey of its old contents. The prefix
      a[..i] is sorted and the rest is untouched; each pass inserts a[i] into the
      prefix without letting it overtake an equal key. */
  method InsertionSort<T>(a: array<T>, key: T -> int)
    modifies a
    ensures a[..] == SortByKey(old(a[..]), key)
  {
    ghost var s := a[..];
    var i := 0;
    while i < a.Length
      invariant 0 <= i <= a.Length
      invariant a[..i] == SortByKey(s[..i], key)
      invariant a[i..] == s[i..]
    {
      assert a[i] == s[i];
      InsertLast(a, i, key);
      SortPrefix(s, i, key);
      i := i + 1;
    }
    assert s[..a.Length] == s;
  }
}
