/**
 * Python's `sorted(xs, key=k)` / `list.sort(key=k)`: a stable sort. A sort
 * with `reverse=True` keeps equal elements in their original order too, so it
 * is the ascending stable sort by the negated key. Keys are real numbers here.
 */
module Sorting {

  predicate SortedBy<T>(s: seq<T>, key: T -> real) {
    forall i, j :: 0 <= i < j < |s| ==> key(s[i]) <= key(s[j])
  }

  /** The elements of `s` whose key is `v`, in their order in `s`. */
  function WithKey<T>(s: seq<T>, key: T -> real, v: real): seq<T> {
    if s == [] then [] else (if key(s[0]) == v then [s[0]] else []) + WithKey(s[1..], key, v)
  }

  /** `[x for x in s if keep(x)]` */
  function Filter<T>(s: seq<T>, keep: T -> bool): (r: seq<T>)
    ensures |r| <= |s|
    ensures forall x :: x in r ==> x in s && keep(x)
  {
    if s == [] then [] else (if keep(s[0]) then [s[0]] else []) + Filter(s[1..], keep)
  }

  /** Puts `x` before the first element whose key is not smaller than its own. */
  function Insert<T>(x: T, s: seq<T>, key: T -> real): seq<T> {
    if s == [] || key(x) <= key(s[0]) then [x] + s else [s[0]] + Insert(x, s[1..], key)
  }

  /** Insertion sort, ascending by `key`; elements with equal keys keep their order. */
  function SortBy<T>(s: seq<T>, key: T -> real): seq<T> {
    if s == [] then [] else Insert(s[0], SortBy(s[1..], key), key)
  }

  // ---------------------------------------------------------------------
  // Insert
  // ---------------------------------------------------------------------

  lemma {:induction false} InsertPermutes<T>(x: T, s: seq<T>, key: T -> real)
    ensures multiset(Insert(x, s, key)) == multiset{x} + multiset(s)
    ensures |Insert(x, s, key)| == |s| + 1
  {
    if !(s == [] || key(x) <= key(s[0])) {
      InsertPermutes(x, s[1..], key);
      assert s == [s[0]] + s[1..];
    }
  }

  lemma {:induction false} InsertSorted<T>(x: T, s: seq<T>, key: T -> real)
    requires SortedBy(s, key)
    ensures SortedBy(Insert(x, s, key), key)
  {
    if s == [] || key(x) <= key(s[0]) {
      ConsSorted(x, s, key);
    } else {
      TailSorted(s, key);
      InsertSorted(x, s[1..], key);
      InsertAbove(x, s[1..], key, key(s[0]));
      ConsSorted(s[0], Insert(x, s[1..], key), key);
    }
  }

  lemma TailSorted<T>(s: seq<T>, key: T -> real)
    requires s != [] && SortedBy(s, key)
    ensures SortedBy(s[1..], key)
    ensures forall i :: 0 <= i < |s[1..]| ==> key(s[0]) <= key(s[1..][i])
  {
    forall i | 0 <= i < |s[1..]| ensures key(s[0]) <= key(s[1..][i]) {
      assert s[1..][i] == s[i + 1];
    }
  }

  /** A bound below `x` and every element of `s` stays below every element after the insertion. */
  lemma {:induction false} InsertAbove<T>(x: T, s: seq<T>, key: T -> real, b: real)
    requires b <= key(x)
    requires forall i :: 0 <= i < |s| ==> b <= key(s[i])
    ensures forall i :: 0 <= i < |Insert(x, s, key)| ==> b <= key(Insert(x, s, key)[i])
  {
    if !(s == [] || key(x) <= key(s[0])) {
      assert forall i :: 0 <= i < |s[1..]| ==> s[1..][i] == s[i + 1];
      InsertAbove(x, s[1..], key, b);
    }
  }

  /** A head no larger than every element of a sorted list keeps it sorted. */
  lemma ConsSorted<T>(h: T, r: seq<T>, key: T -> real)
    requires SortedBy(r, key)
    requires forall i :: 0 <= i < |r| ==> key(h) <= key(r[i])
    ensures SortedBy([h] + r, key)
  {
    forall i, j | 0 <= i < j < |[h] + r| ensures key(([h] + r)[i]) <= key(([h] + r)[j]) {
      assert ([h] + r)[j] == r[j - 1];
      if i > 0 {
        assert ([h] + r)[i] == r[i - 1];
      }
    }
  }

  lemma {:induction false} WithKeyAppend<T>(a: seq<T>, b: seq<T>, key: T -> real, v: real)
    ensures WithKey(a + b, key, v) == WithKey(a, key, v) + WithKey(b, key, v)
  {
    if a != [] {
      assert (a + b)[1..] == a[1..] + b;
      WithKeyAppend(a[1..], b, key, v);
    } else {
      assert a + b == b;
    }
  }

  /** Inserting into a sorted list puts `x` ahead of every element with the same key. */
  lemma {:induction false} InsertWithKey<T>(x: T, s: seq<T>, key: T -> real, v: real)
    requires SortedBy(s, key)
    ensures WithKey(Insert(x, s, key), key, v) == (if key(x) == v then [x] else []) + WithKey(s, key, v)
  {
    if s == [] || key(x) <= key(s[0]) {
      WithKeyAppend([x], s, key, v);
    } else {
      assert SortedBy(s[1..], key) by {
        forall i, j | 0 <= i < j < |s[1..]| ensures key(s[1..][i]) <= key(s[1..][j]) {
          assert s[1..][i] == s[i + 1] && s[1..][j] == s[j + 1];
        }
      }
      InsertWithKey(x, s[1..], key, v);
      WithKeyAppend([s[0]], Insert(x, s[1..], key), key, v);
      WithKeyAppend([s[0]], s[1..], key, v);
      assert [s[0]] + s[1..] == s;
    }
  }

  // ---------------------------------------------------------------------
  // SortBy
  // ---------------------------------------------------------------------

  /** The sort is sorted, a permutation of its input, and stable. */
  lemma {:induction false} SortByCorrect<T>(s: seq<T>, key: T -> real)
    ensures SortedBy(SortBy(s, key), key)
    ensures multiset(SortBy(s, key)) == multiset(s)
    ensures |SortBy(s, key)| == |s|
    ensures forall v :: WithKey(SortBy(s, key), key, v) == WithKey(s, key, v)
  {
    if s != [] {
      SortByCorrect(s[1..], key);
      var rest := SortBy(s[1..], key);
      InsertSorted(s[0], rest, key);
      InsertPermutes(s[0], rest, key);
      assert s == [s[0]] + s[1..];
      forall v ensures WithKey(SortBy(s, key), key, v) == WithKey(s, key, v) {
        InsertWithKey(s[0], rest, key, v);
      }
    }
  }

  /** The elements of `s` with key `v` are exactly the occurrences in `s` of key `v`. */
  lemma {:induction false} WithKeyMembers<T>(s: seq<T>, key: T -> real, v: real)
    ensures forall x :: x in WithKey(s, key, v) <==> x in s && key(x) == v
  {
    if s != [] {
      WithKeyMembers(s[1..], key, v);
      assert s == [s[0]] + s[1..];
    }
  }

  /** The first element of `s` with key `v` heads the elements with key `v`. */
  lemma {:induction false} WithKeyHead<T>(s: seq<T>, key: T -> real, v: real) returns (k: nat)
    requires WithKey(s, key, v) != []
    ensures k < |s| && key(s[k]) == v
    ensures forall j :: 0 <= j < k ==> key(s[j]) != v
    ensures WithKey(s, key, v)[0] == s[k]
  {
    if key(s[0]) == v {
      k := 0;
    } else {
      var k' := WithKeyHead(s[1..], key, v);
      k := k' + 1;
    }
  }

  /**
   * The head of the sorted list is the element of least key that comes first
   * in the input: the element Python's `sorted(...)[0]` returns.
   */
  lemma SortByHead<T>(s: seq<T>, key: T -> real) returns (k: nat)
    requires s != []
    ensures k < |s| && SortBy(s, key)[0] == s[k]
    ensures forall j :: 0 <= j < |s| ==> key(s[k]) <= key(s[j])
    ensures forall j :: 0 <= j < k ==> key(s[j]) > key(s[k])
  {
    var r := SortBy(s, key);
    SortByCorrect(s, key);
    var m := key(r[0]);
    forall j | 0 <= j < |s| ensures m <= key(s[j]) {
      assert s[j] in multiset(r);
      var i :| 0 <= i < |r| && r[i] == s[j];
      if i > 0 {
        assert key(r[0]) <= key(r[i]);
      }
    }
    assert WithKey(r, key, m)[0] == r[0];
    k := WithKeyHead(s, key, m);
  }

  /** Filtering keeps a sorted list sorted. */
  lemma {:induction false} FilterSorted<T>(s: seq<T>, keep: T -> bool, key: T -> real)
    requires SortedBy(s, key)
    ensures SortedBy(Filter(s, keep), key)
  {
    if s != [] {
      assert SortedBy(s[1..], key) by {
        forall i, j | 0 <= i < j < |s[1..]| ensures key(s[1..][i]) <= key(s[1..][j]) {
          assert s[1..][i] == s[i + 1] && s[1..][j] == s[j + 1];
        }
      }
      FilterSorted(s[1..], keep, key);
      var rest := Filter(s[1..], keep);
      if keep(s[0]) {
        forall i, j | 0 <= i < j < |[s[0]] + rest| ensures key(([s[0]] + rest)[i]) <= key(([s[0]] + rest)[j]) {
          if i == 0 {
            var y := ([s[0]] + rest)[j];
            assert y in rest;
            assert y in s[1..];
            var t :| 0 <= t < |s[1..]| && s[1..][t] == y;
            assert s[t + 1] == y;
          }
        }
      }
    }
  }

  /** Filtering keeps exactly the elements that pass, with their multiplicities. */
  lemma {:induction false} FilterMultiset<T>(s: seq<T>, keep: T -> bool)
    ensures forall x :: keep(x) ==> multiset(Filter(s, keep))[x] == multiset(s)[x]
    ensures forall x :: !keep(x) ==> multiset(Filter(s, keep))[x] == 0
  {
    if s != [] {
      FilterMultiset(s[1..], keep);
      assert s == [s[0]] + s[1..];
    }
  }
}
