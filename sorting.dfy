/**
 * `Array.prototype.sort` with a numeric comparator `(a, b) => key(a) - key(b)`,
 * as the notification feeds use it: the engine's sort is stable, so the
 * result is the stable ascending sort by key. Written as an insertion sort
 * over sequences, then `slice(0, n)`.
 */
module Sorting {

  /** Keys never decrease along s. */
  predicate SortedBy<T>(s: seq<T>, key: T -> int)
  {
    forall i, j :: 0 <= i < j < |s| ==> key(s[i]) <= key(s[j])
  }

  /** Put x after every element whose key is at most its own. */
  function Insert<T>(x: T, s: seq<T>, key: T -> int): (r: seq<T>)
    ensures |r| == |s| + 1
    ensures multiset(r) == multiset(s) + multiset{x}
  {
    if s == [] then [x]
    else if key(x) < key(s[0]) then [x] + s
    else
      assert s == [s[0]] + s[1..];
      [s[0]] + Insert(x, s[1..], key)
  }

  /** The stable sort by key: elements are inserted in input order. */
  function SortBy<T>(s: seq<T>, key: T -> int): (r: seq<T>)
    ensures |r| == |s|
    ensures multiset(r) == multiset(s)
  {
    if s == [] then []
    else
      assert s == s[..|s| - 1] + [s[|s| - 1]];
      Insert(s[|s| - 1], SortBy(s[..|s| - 1], key), key)
  }

  /** `slice(0, n)`. */
  function Take<T>(s: seq<T>, n: nat): (r: seq<T>)
    ensures |r| == if |s| < n then |s| else n
    ensures forall k :: 0 <= k < |r| ==> r[k] == s[k]
  {
    if |s| <= n then s else s[..n]
  }

  lemma {:induction false} InsertSorted<T>(x: T, s: seq<T>, key: T -> int)
    requires SortedBy(s, key)
    ensures SortedBy(Insert(x, s, key), key)
  {
    if s != [] && key(x) >= key(s[0]) {
      var rest := s[1..];
      assert SortedBy(rest, key) by {
        forall i, j | 0 <= i < j < |rest| ensures key(rest[i]) <= key(rest[j]) {
          assert rest[i] == s[i + 1] && rest[j] == s[j + 1];
        }
      }
      InsertSorted(x, rest, key);
      var r := Insert(x, rest, key);
      InsertMembers(x, rest, key);
      forall k | 0 <= k < |r| ensures key(s[0]) <= key(r[k]) {
        assert r[k] in multiset(r);
        if r[k] != x {
          assert r[k] in multiset(rest);
          var m :| 0 <= m < |rest| && rest[m] == r[k];
          assert rest[m] == s[m + 1];
        }
      }
    }
  }

  lemma InsertMembers<T>(x: T, s: seq<T>, key: T -> int)
    ensures forall y :: y in multiset(Insert(x, s, key)) ==> y == x || y in multiset(s)
  {
  }

  /** The sort orders by key. */
  lemma {:induction false} SortBySorted<T>(s: seq<T>, key: T -> int)
    ensures SortedBy(SortBy(s, key), key)
  {
    if s != [] {
      SortBySorted(s[..|s| - 1], key);
      InsertSorted(s[|s| - 1], SortBy(s[..|s| - 1], key), key);
    }
  }

  /** A prefix of a sorted sequence is sorted. */
  lemma TakeSorted<T>(s: seq<T>, n: nat, key: T -> int)
    requires SortedBy(s, key)
    ensures SortedBy(Take(s, n), key)
  {
  }

  /** Inserting an element whose key is at least every key so far appends it. */
  lemma {:induction false} InsertLast<T>(x: T, s: seq<T>, key: T -> int)
    requires forall k :: 0 <= k < |s| ==> key(s[k]) <= key(x)
    ensures Insert(x, s, key) == s + [x]
  {
    if s != [] {
      InsertLast(x, s[1..], key);
      assert [s[0]] + (s[1..] + [x]) == s + [x];
    }
  }

  /** An input already in key order comes back unchanged: the sort moves nothing it need not. */
  lemma {:induction false} SortBySortedIdentity<T>(s: seq<T>, key: T -> int)
    requires SortedBy(s, key)
    ensures SortBy(s, key) == s
  {
    if s != [] {
      var init := s[..|s| - 1];
      assert SortedBy(init, key) by {
        forall i, j | 0 <= i < j < |init| ensures key(init[i]) <= key(init[j]) {
          assert init[i] == s[i] && init[j] == s[j];
        }
      }
      SortBySortedIdentity(init, key);
      forall k | 0 <= k < |init| ensures key(init[k]) <= key(s[|s| - 1]) {
        assert init[k] == s[k];
      }
      InsertLast(s[|s| - 1], init, key);
      assert init + [s[|s| - 1]] == s;
    }
  }

  /** The entries of s whose key is v, in the order they appear in s. */
  function WithKey<T>(s: seq<T>, key: T -> int, v: int): (r: seq<T>)
    ensures |r| <= |s|
  {
    if s == [] then [] else (if key(s[0]) == v then [s[0]] else []) + WithKey(s[1..], key, v)
  }

  lemma {:induction false} WithKeyAppend<T>(a: seq<T>, b: seq<T>, key: T -> int, v: int)
    ensures WithKey(a + b, key, v) == WithKey(a, key, v) + WithKey(b, key, v)
  {
    if a != [] {
      var head := if key(a[0]) == v then [a[0]] else [];
      assert (a + b)[0] == a[0] && (a + b)[1..] == a[1..] + b;
      assert WithKey(a + b, key, v) == head + WithKey(a[1..] + b, key, v);
      WithKeyAppend(a[1..], b, key, v);
      assert head + (WithKey(a[1..], key, v) + WithKey(b, key, v)) == (head + WithKey(a[1..], key, v)) + WithKey(b, key, v);
    } else {
      assert a + b == b;
    }
  }

  lemma {:induction false} WithKeyAbsent<T>(s: seq<T>, key: T -> int, v: int)
    requires forall k :: 0 <= k < |s| ==> key(s[k]) != v
    ensures WithKey(s, key, v) == []
  {
    if s != [] {
      WithKeyAbsent(s[1..], key, v);
    }
  }

  /** Inserting into a sorted sequence places x after every entry with the same key. */
  lemma {:induction false} InsertWithKey<T>(x: T, t: seq<T>, key: T -> int, v: int)
    requires SortedBy(t, key)
    ensures WithKey(Insert(x, t, key), key, v) == WithKey(t, key, v) + (if key(x) == v then [x] else [])
  {
    if t == [] {
      assert [x][1..] == [];
    } else if key(x) < key(t[0]) {
      InsertBeforeWithKey(x, t, key, v);
    } else {
      SortedTail(t, key);
      InsertWithKey(x, t[1..], key, v);
      InsertAfterWithKey(x, t, key, v);
    }
  }

  lemma SortedTail<T>(t: seq<T>, key: T -> int)
    requires t != [] && SortedBy(t, key)
    ensures SortedBy(t[1..], key)
  {
    var rest := t[1..];
    forall i, j | 0 <= i < j < |rest| ensures key(rest[i]) <= key(rest[j]) {
      assert rest[i] == t[i + 1] && rest[j] == t[j + 1];
    }
  }

  /** x goes in front, and no entry of t has its key. */
  lemma InsertBeforeWithKey<T>(x: T, t: seq<T>, key: T -> int, v: int)
    requires t != [] && SortedBy(t, key) && key(x) < key(t[0])
    ensures WithKey(Insert(x, t, key), key, v) == WithKey(t, key, v) + (if key(x) == v then [x] else [])
  {
    var r := [x] + t;
    assert Insert(x, t, key) == r;
    assert r[0] == x && r[1..] == t;
    if key(x) == v {
      WithKeyAbsent(t, key, v);
    }
  }

  /** x goes past the first entry, which keeps its place among the entries with its key. */
  lemma InsertAfterWithKey<T>(x: T, t: seq<T>, key: T -> int, v: int)
    requires t != [] && key(x) >= key(t[0])
    requires WithKey(Insert(x, t[1..], key), key, v) == WithKey(t[1..], key, v) + (if key(x) == v then [x] else [])
    ensures WithKey(Insert(x, t, key), key, v) == WithKey(t, key, v) + (if key(x) == v then [x] else [])
  {
    var inserted := Insert(x, t[1..], key);
    var r := [t[0]] + inserted;
    assert Insert(x, t, key) == r;
    assert r[0] == t[0] && r[1..] == inserted;
    var head := if key(t[0]) == v then [t[0]] else [];
    var tail := if key(x) == v then [x] else [];
    assert head + (WithKey(t[1..], key, v) + tail) == (head + WithKey(t[1..], key, v)) + tail;
  }

  /**
   * The sort is stable: for every key value, the entries with that key
   * come out in the order they went in.
   */
  lemma {:induction false} SortByStable<T>(s: seq<T>, key: T -> int, v: int)
    ensures WithKey(SortBy(s, key), key, v) == WithKey(s, key, v)
  {
    if s != [] {
      var init, last := s[..|s| - 1], s[|s| - 1];
      SortByStep(s, key, v);
      SortByStable(init, key, v);
      WithKeyAppend(init, [last], key, v);
      assert init + [last] == s;
    }
  }

  /** One step of the sort: the last element joins the entries with its key after the others. */
  lemma SortByStep<T>(s: seq<T>, key: T -> int, v: int)
    requires s != []
    ensures WithKey(SortBy(s, key), key, v) == WithKey(SortBy(s[..|s| - 1], key), key, v) + WithKey([s[|s| - 1]], key, v)
  {
    var init, last := s[..|s| - 1], s[|s| - 1];
    var sorted := SortBy(init, key);
    assert SortBy(s, key) == Insert(last, sorted, key);
    assert WithKey(Insert(last, sorted, key), key, v) == WithKey(sorted, key, v) + WithKey([last], key, v) by {
      SortBySorted(init, key);
      InsertWithKey(last, sorted, key, v);
      assert [last][1..] == [];
    }
  }

  /**
   * `sort` then `slice(0, n)`: the kept entries come from the input, in key
   * order, and no entry left out has a smaller key than the last one kept.
   */
  lemma TopOfSort<T>(s: seq<T>, n: nat, key: T -> int)
    requires s != [] && n > 0
    ensures var top := Take(SortBy(s, key), n);
      && |top| == (if |s| < n then |s| else n)
      && (forall k :: 0 <= k < |top| ==> top[k] in s)
      && SortedBy(top, key)
      && (forall x :: x in multiset(s) - multiset(top) ==> key(top[|top| - 1]) <= key(x))
  {
    SortBySorted(s, key);
    TakeSorted(SortBy(s, key), n, key);
    TopMembers(s, n, key);
    TopIsSmallest(SortBy(s, key), s, n, key);
  }

  /** The kept entries come from the input. */
  lemma TopMembers<T>(s: seq<T>, n: nat, key: T -> int)
    ensures forall k :: 0 <= k < |Take(SortBy(s, key), n)| ==> Take(SortBy(s, key), n)[k] in s
  {
    var sorted := SortBy(s, key);
    var top := Take(sorted, n);
    forall k | 0 <= k < |top| ensures top[k] in s {
      assert top[k] == sorted[k];
      assert sorted[k] in multiset(sorted);
    }
  }

  /** Whatever a sorted sequence's first n leave out has a key at least that of the last one kept. */
  lemma TopIsSmallest<T>(sorted: seq<T>, s: seq<T>, n: nat, key: T -> int)
    requires SortedBy(sorted, key) && multiset(sorted) == multiset(s) && sorted != [] && n > 0
    ensures var top := Take(sorted, n);
      forall x :: x in multiset(s) - multiset(top) ==> key(top[|top| - 1]) <= key(x)
  {
    var top := Take(sorted, n);
    var rest := sorted[|top|..];
    assert sorted == top + rest;
    forall x | x in multiset(s) - multiset(top) ensures key(top[|top| - 1]) <= key(x) {
      assert x in multiset(rest);
      var m :| 0 <= m < |rest| && rest[m] == x;
      assert sorted[|top| + m] == x;
      assert top[|top| - 1] == sorted[|top| - 1];
    }
  }
}
