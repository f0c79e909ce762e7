/**
  Reference semantics for Python's `list.sort(key=..., reverse=True)` and
  `sorted(..., reverse=True)`: a stable sort into non-increasing key order.
  Written as insertion sort; the lemmas give the three properties callers rely
  on (ordered, a permutation, stable) and what taking a prefix keeps.
 */
module StableSort {

  /** Non-increasing by key. */
  predicate SortedDesc<T>(s: seq<T>, key: T -> int)
  {
    forall i, j :: 0 <= i < j < |s| ==> key(s[i]) >= key(s[j])
  }

  /** Inserts `x` after every element whose key is at least `key(x)`. */
  function Insert<T>(s: seq<T>, x: T, key: T -> int): (r: seq<T>)
    ensures |r| == |s| + 1
  {
    if s == [] then [x]
    else if key(s[0]) >= key(x) then [s[0]] + Insert(s[1..], x, key)
    else [x] + s
  }

  function Sort<T>(s: seq<T>, key: T -> int): (r: seq<T>)
    ensures |r| == |s|
  {
    if s == [] then [] else Insert(Sort(s[..|s| - 1], key), s[|s| - 1], key)
  }

  /** The elements whose key is `k`, in their order. A sort is stable exactly
      when it leaves this subsequence unchanged for every `k`. */
  function WithKey<T>(s: seq<T>, key: T -> int, k: int): seq<T>
  {
    if s == [] then [] else (if key(s[0]) == k then [s[0]] else []) + WithKey(s[1..], key, k)
  }

  lemma {:induction false} WithKeyAppend<T>(a: seq<T>, b: seq<T>, key: T -> int, k: int)
    ensures WithKey(a + b, key, k) == WithKey(a, key, k) + WithKey(b, key, k)
  {
    if a == [] {
      assert a + b == b;
    } else {
      var head := if key(a[0]) == k then [a[0]] else [];
      var ab := a + b;
      assert ab[0] == a[0] && ab[1..] == a[1..] + b;
      assert WithKey(ab, key, k) == head + WithKey(a[1..] + b, key, k);
      WithKeyAppend(a[1..], b, key, k);
    }
  }

  lemma {:induction false} WithKeyAbsent<T>(s: seq<T>, key: T -> int, k: int)
    requires forall i :: 0 <= i < |s| ==> key(s[i]) < k
    ensures WithKey(s, key, k) == []
  {
    if s != [] {
      WithKeyAbsent(s[1..], key, k);
    }
  }

  lemma {:induction false} InsertMultiset<T>(s: seq<T>, x: T, key: T -> int)
    ensures multiset(Insert(s, x, key)) == multiset(s) + multiset{x}
  {
    if s != [] && key(s[0]) >= key(x) {
      InsertMultiset(s[1..], x, key);
      assert s == [s[0]] + s[1..];
    }
  }

  lemma {:induction false} InsertSorted<T>(s: seq<T>, x: T, key: T -> int)
    requires SortedDesc(s, key)
    ensures SortedDesc(Insert(s, x, key), key)
    ensures Insert(s, x, key)[0] == (if s != [] && key(s[0]) >= key(x) then s[0] else x)
  {
    if s != [] && key(s[0]) >= key(x) {
      var tail := s[1..];
      InsertSorted(tail, x, key);
      var r := Insert(s, x, key);
      var t := Insert(tail, x, key);
      assert r == [s[0]] + t;
      assert key(s[0]) >= key(t[0]) by {
        if tail != [] && key(tail[0]) >= key(x) {
          assert t[0] == s[1];
        } else {
          assert t[0] == x;
        }
      }
      forall i, j | 0 <= i < j < |r| ensures key(r[i]) >= key(r[j]) {
        if i == 0 && j > 1 {
          assert key(t[0]) >= key(t[j - 1]);
        }
      }
    }
  }

  lemma {:induction false} InsertStable<T>(s: seq<T>, x: T, key: T -> int, k: int)
    requires SortedDesc(s, key)
    ensures WithKey(Insert(s, x, key), key, k) == WithKey(s, key, k) + (if key(x) == k then [x] else [])
  {
    var xs := if key(x) == k then [x] else [];
    if s == [] {
      assert WithKey([x], key, k) == xs + WithKey([], key, k);
    } else {
      var head := if key(s[0]) == k then [s[0]] else [];
      if key(s[0]) >= key(x) {
        var t := Insert(s[1..], x, key);
        assert SortedDesc(s[1..], key);
        InsertStable(s[1..], x, key, k);
        assert Insert(s, x, key) == [s[0]] + t;
        assert ([s[0]] + t)[1..] == t;
        calc {
          WithKey(Insert(s, x, key), key, k);
          head + WithKey(t, key, k);
          head + (WithKey(s[1..], key, k) + xs);
          (head + WithKey(s[1..], key, k)) + xs;
          WithKey(s, key, k) + xs;
        }
      } else {
        InsertFrontStable(s, x, key, k);
      }
    }
  }

  /** An element ranked above the whole sorted sequence goes to the front,
      and nothing already there has its key. */
  lemma {:induction false} InsertFrontStable<T>(s: seq<T>, x: T, key: T -> int, k: int)
    requires SortedDesc(s, key)
    requires s != [] && key(s[0]) < key(x)
    ensures WithKey(Insert(s, x, key), key, k) == WithKey(s, key, k) + (if key(x) == k then [x] else [])
  {
    if key(x) == k {
      assert forall i :: 0 <= i < |s| ==> key(s[i]) < k by {
        forall i | 0 <= i < |s| ensures key(s[i]) < k {
          assert key(s[0]) >= key(s[i]);
        }
      }
      WithKeyAbsent(s, key, k);
    }
    assert Insert(s, x, key) == [x] + s;
    assert ([x] + s)[1..] == s;
  }

  lemma {:induction false} SortSorted<T>(s: seq<T>, key: T -> int)
    ensures SortedDesc(Sort(s, key), key)
  {
    if s != [] {
      SortSorted(s[..|s| - 1], key);
      InsertSorted(Sort(s[..|s| - 1], key), s[|s| - 1], key);
    }
  }

  lemma {:induction false} SortMultiset<T>(s: seq<T>, key: T -> int)
    ensures multiset(Sort(s, key)) == multiset(s)
  {
    if s != [] {
      var init, x := s[..|s| - 1], s[|s| - 1];
      SortMultiset(init, key);
      InsertMultiset(Sort(init, key), x, key);
      assert s == init + [x];
    }
  }

  lemma {:induction false} SortStable<T>(s: seq<T>, key: T -> int, k: int)
    ensures WithKey(Sort(s, key), key, k) == WithKey(s, key, k)
  {
    if s != [] {
      var init, x := s[..|s| - 1], s[|s| - 1];
      SortStable(init, key, k);
      SortSorted(init, key);
      InsertStable(Sort(init, key), x, key, k);
      WithKeyAppend(init, [x], key, k);
      assert WithKey([x], key, k) == (if key(x) == k then [x] else []) + WithKey([], key, k);
      assert s == init + [x];
    }
  }

  /** `Sort` returns its input reordered into non-increasing key order, and
      elements with equal keys keep their relative order. */
  lemma {:induction false} SortSpec<T>(s: seq<T>, key: T -> int)
    ensures SortedDesc(Sort(s, key), key)
    ensures multiset(Sort(s, key)) == multiset(s)
    ensures forall k :: WithKey(Sort(s, key), key, k) == WithKey(s, key, k)
  {
    SortSorted(s, key);
    SortMultiset(s, key);
    forall k ensures WithKey(Sort(s, key), key, k) == WithKey(s, key, k) {
      SortStable(s, key, k);
    }
  }

  /** A prefix of a sorted sequence holds its largest keys: nothing left out
      ranks above anything kept. */
  lemma {:induction false} PrefixIsTop<T>(s: seq<T>, key: T -> int, n: nat)
    requires SortedDesc(s, key)
    requires n <= |s|
    ensures SortedDesc(s[..n], key)
    ensures forall i, j :: 0 <= i < n <= j < |s| ==> key(s[i]) >= key(s[j])
  {
  }

  /** A prefix of the sorted list keeps, for every key, a prefix of the
      elements with that key in their original order. */
  lemma {:induction false} PrefixStable<T>(s: seq<T>, key: T -> int, n: nat)
    requires n <= |s|
    ensures forall k :: WithKey(Sort(s, key)[..n], key, k) <= WithKey(s, key, k)
  {
    var sorted := Sort(s, key);
    assert sorted == sorted[..n] + sorted[n..];
    forall k ensures WithKey(sorted[..n], key, k) <= WithKey(s, key, k) {
      SortStable(s, key, k);
      WithKeyAppend(sorted[..n], sorted[n..], key, k);
    }
  }
}
