/**
 * Python's `list.sort(key=...)` on an integer key: a stable sort. It is modelled by insertion
 * sort; SortedStableUnique shows that any sorted, stable rearrangement is this one, so the model
 * agrees with the library's merge sort on every input.
 */
module StableSort {

  ghost predicate SortedBy<T>(s: seq<T>, key: T -> int)
  {
    forall i, j :: 0 <= i < j < |s| ==> key(s[i]) <= key(s[j])
  }

  /** The elements of `s` whose key is `k`, in their order in `s`. */
  function WithKey<T>(s: seq<T>, key: T -> int, k: int): seq<T>
  {
    if s == [] then [] else (if key(s[0]) == k then [s[0]] else []) + WithKey(s[1..], key, k)
  }

  /** Puts `x` before the first element whose key is not below its own. */
  function Insert<T>(x: T, s: seq<T>, key: T -> int): seq<T>
  {
    if s == [] || key(x) <= key(s[0]) then [x] + s else [s[0]] + Insert(x, s[1..], key)
  }

  function Sort<T>(s: seq<T>, key: T -> int): seq<T>
  {
    if s == [] then [] else Insert(s[0], Sort(s[1..], key), key)
  }

  lemma {:induction false} InsertPermutation<T>(x: T, s: seq<T>, key: T -> int)
    ensures multiset(Insert(x, s, key)) == multiset{x} + multiset(s)
  {
    if s != [] && key(x) > key(s[0]) {
      InsertPermutation(x, s[1..], key);
      assert s == [s[0]] + s[1..];
    }
  }

  lemma {:induction false} InsertWithKey<T>(x: T, s: seq<T>, key: T -> int, k: int)
    ensures WithKey(Insert(x, s, key), key, k) == (if key(x) == k then [x] else []) + WithKey(s, key, k)
  {
    var r := Insert(x, s, key);
    if s == [] || key(x) <= key(s[0]) {
      assert r[1..] == s;
    } else {
      var t := Insert(x, s[1..], key);
      InsertWithKey(x, s[1..], key, k);
      assert r[0] == s[0] && r[1..] == t;
      assert WithKey(r, key, k) == (if key(s[0]) == k then [s[0]] else []) + WithKey(t, key, k);
      assert WithKey(s, key, k) == (if key(s[0]) == k then [s[0]] else []) + WithKey(s[1..], key, k);
      // x and s[0] have different keys, so at most one of them is kept
      if key(s[0]) == k {
        assert key(x) != k;
      }
    }
  }

  /** Insertion puts `x` or the old first element first. */
  lemma InsertHead<T>(x: T, s: seq<T>, key: T -> int)
    requires s != []
    ensures Insert(x, s, key)[0] == x || Insert(x, s, key)[0] == s[0]
  {
  }

  lemma {:induction false} InsertSorted<T>(x: T, s: seq<T>, key: T -> int)
    requires SortedBy(s, key)
    ensures SortedBy(Insert(x, s, key), key)
  {
    var r := Insert(x, s, key);
    if s == [] || key(x) <= key(s[0]) {
      assert r == [x] + s;
      forall i, j | 0 <= i < j < |r| ensures key(r[i]) <= key(r[j]) {
        if i > 0 { assert r[i] == s[i - 1] && r[j] == s[j - 1]; }
        else if j > 1 { assert key(s[0]) <= key(s[j - 1]); }
      }
    } else {
      var t := Insert(x, s[1..], key);
      assert SortedBy(s[1..], key) by {
        forall i, j | 0 <= i < j < |s[1..]| ensures key(s[1..][i]) <= key(s[1..][j]) {
          assert s[1..][i] == s[i + 1] && s[1..][j] == s[j + 1];
        }
      }
      InsertSorted(x, s[1..], key);
      assert r == [s[0]] + t;
      // t starts with x, whose key exceeds key(s[0]), or with s[1]
      if |s| > 1 {
        InsertHead(x, s[1..], key);
      }
      assert key(s[0]) <= key(t[0]);
      forall i, j | 0 <= i < j < |r| ensures key(r[i]) <= key(r[j]) {
        if i > 0 {
          assert r[i] == t[i - 1] && r[j] == t[j - 1];
        } else {
          assert r[j] == t[j - 1];
        }
      }
    }
  }

  /** The result is ordered by key. */
  lemma {:induction false} SortIsSorted<T>(s: seq<T>, key: T -> int)
    ensures SortedBy(Sort(s, key), key)
  {
    if s != [] {
      SortIsSorted(s[1..], key);
      InsertSorted(s[0], Sort(s[1..], key), key);
    }
  }

  /** The result is a rearrangement of the input. */
  lemma {:induction false} SortIsPermutation<T>(s: seq<T>, key: T -> int)
    ensures multiset(Sort(s, key)) == multiset(s)
  {
    if s != [] {
      SortIsPermutation(s[1..], key);
      InsertPermutation(s[0], Sort(s[1..], key), key);
      assert s == [s[0]] + s[1..];
    }
  }

  /** Elements with equal keys keep their input order. */
  lemma {:induction false} SortIsStable<T>(s: seq<T>, key: T -> int)
    ensures forall k :: WithKey(Sort(s, key), key, k) == WithKey(s, key, k)
  {
    if s != [] {
      SortIsStable(s[1..], key);
      forall k ensures WithKey(Sort(s, key), key, k) == WithKey(s, key, k) {
        InsertWithKey(s[0], Sort(s[1..], key), key, k);
      }
    }
  }

  lemma {:induction false} WithKeyElements<T>(s: seq<T>, key: T -> int, k: int)
    ensures forall x :: x in WithKey(s, key, k) ==> x in s && key(x) == k
  {
    if s != [] {
      WithKeyElements(s[1..], key, k);
    }
  }

  lemma TailSorted<T>(a: seq<T>, key: T -> int)
    requires a != [] && SortedBy(a, key)
    ensures SortedBy(a[1..], key)
  {

  }

  /** Sorted sequences with the same groups start with the same element. */
  lemma SameHead<T>(a: seq<T>, b: seq<T>, key: T -> int)
    requires a != [] && b != [] && SortedBy(a, key) && SortedBy(b, key)
    requires WithKey(a, key, key(a[0])) == WithKey(b, key, key(a[0]))
    requires WithKey(a, key, key(b[0])) == WithKey(b, key, key(b[0]))
    ensures a[0] == b[0]
  {
    var m := key(a[0]);
    WithKeyElements(a, key, key(b[0]));
    WithKeyElements(b, key, m);
    assert a[0] in WithKey(b, key, m);
    var j :| 0 <= j < |b| && b[j] == a[0];
    assert b[0] in WithKey(a, key, key(b[0]));
    var i :| 0 <= i < |a| && a[i] == b[0];
    assert key(b[0]) <= key(b[j]) && key(a[0]) <= key(a[i]);
    assert WithKey(a, key, m)[0] == a[0];
    assert WithKey(b, key, m)[0] == b[0];
  }

  /** Dropping a common first element keeps the groups equal. */
  lemma SameTailGroups<T>(a: seq<T>, b: seq<T>, key: T -> int, k: int)
    requires a != [] && b != [] && a[0] == b[0]
    requires WithKey(a, key, k) == WithKey(b, key, k)
    ensures WithKey(a[1..], key, k) == WithKey(b[1..], key, k)
  {
    var head := if key(a[0]) == k then [a[0]] else [];
    assert WithKey(a, key, k) == head + WithKey(a[1..], key, k);
    assert WithKey(b, key, k) == head + WithKey(b[1..], key, k);
    assert WithKey(a[1..], key, k) == (head + WithKey(a[1..], key, k))[|head|..];
    assert WithKey(b[1..], key, k) == (head + WithKey(b[1..], key, k))[|head|..];
  }

  /** Sequences with the same groups are empty together: a first element lies in its own group. */
  lemma EmptyTogether<T>(a: seq<T>, b: seq<T>, key: T -> int)
    requires forall k :: WithKey(a, key, k) == WithKey(b, key, k)
    ensures a == [] <==> b == []
  {
    if a != [] {
      assert WithKey(a, key, key(a[0])) != [];
    }
    if b != [] {
      assert WithKey(b, key, key(b[0])) != [];
    }
  }

  /** Sorted sequences with the same groups agree on their head, and their tails are alike again. */
  lemma UniqueStep<T>(a: seq<T>, b: seq<T>, key: T -> int)
    requires a != [] && b != [] && SortedBy(a, key) && SortedBy(b, key)
    requires forall k :: WithKey(a, key, k) == WithKey(b, key, k)
    ensures a[0] == b[0] && SortedBy(a[1..], key) && SortedBy(b[1..], key)
    ensures forall k :: WithKey(a[1..], key, k) == WithKey(b[1..], key, k)
  {
    SameHead(a, b, key);
    forall k ensures WithKey(a[1..], key, k) == WithKey(b[1..], key, k) {
      SameTailGroups(a, b, key, k);
    }
    TailSorted(a, key);
    TailSorted(b, key);
  }

  /** Two sequences sorted by key with the same elements in the same order per key are equal. */
  lemma {:induction false} SortedStableUnique<T>(a: seq<T>, b: seq<T>, key: T -> int)
    requires SortedBy(a, key) && SortedBy(b, key)
    requires forall k :: WithKey(a, key, k) == WithKey(b, key, k)
    ensures a == b
  {
    EmptyTogether(a, b, key);
    if a != [] {
      UniqueStep(a, b, key);
      SortedStableUnique(a[1..], b[1..], key);
      assert a == [a[0]] + a[1..] && b == [b[0]] + b[1..];
    }
  }

  /** Sort is the only stable sort: any sorted rearrangement that keeps equal keys in order is it. */
  lemma StableSortIsSort<T>(s: seq<T>, r: seq<T>, key: T -> int)
    requires SortedBy(r, key)
    requires forall k :: WithKey(r, key, k) == WithKey(s, key, k)
    ensures r == Sort(s, key)
  {
    SortIsSorted(s, key);
    SortIsStable(s, key);
    SortedStableUnique(r, Sort(s, key), key);
  }
}
