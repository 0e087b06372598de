/**
 * `Array.prototype.sort` with a comparator `(a, b) => key(b) - key(a)`: a
 * stable sort into descending key order.  The subscriber ranks its topics
 * by message count and its devices by last-seen time this way.
 */
module Sorting {

  /** Keys never increase along `s`. */
  predicate Descending<T>(s: seq<T>, key: T -> int)
  {
    forall i, j :: 0 <= i < j < |s| ==> key(s[i]) >= key(s[j])
  }

  /** The elements of `s` whose key is `k`, in their order in `s`. */
  function WithKey<T>(s: seq<T>, key: T -> int, k: int): seq<T>
  {
    if s == [] then []
    else
      var last := s[|s| - 1];
      WithKey(s[..|s| - 1], key, k) + (if key(last) == k then [last] else [])
  }

  /** `x` placed after every element of `s` whose key is at least its own. */
  function Insert<T>(x: T, s: seq<T>, key: T -> int): seq<T>
  {
    if s == [] then [x]
    else if key(s[0]) >= key(x) then [s[0]] + Insert(x, s[1..], key)
    else [x] + s
  }

  /** Insertion sort, taking the elements in their original order. */
  function SortDescending<T>(s: seq<T>, key: T -> int): seq<T>
  {
    if s == [] then []
    else Insert(s[|s| - 1], SortDescending(s[..|s| - 1], key), key)
  }

  lemma {:induction false} InsertDescending<T>(x: T, s: seq<T>, key: T -> int)
    requires Descending(s, key)
    ensures Descending(Insert(x, s, key), key)
    ensures |Insert(x, s, key)| == |s| + 1
    ensures forall y :: y in Insert(x, s, key) ==> y == x || y in s
  {
    if s != [] && key(s[0]) >= key(x) {
      InsertDescending(x, s[1..], key);
      var r := Insert(x, s[1..], key);
      forall i, j | 0 <= i < j < |r| + 1
        ensures key(([s[0]] + r)[i]) >= key(([s[0]] + r)[j])
      {
        if i == 0 {
          var y := r[j - 1];
          assert y == x || y in s[1..];
          if y in s[1..] {
            var m :| 0 <= m < |s[1..]| && s[1..][m] == y;
            assert s[m + 1] == y;
          }
        }
      }
    }
  }

  lemma {:induction false} InsertMultiset<T>(x: T, s: seq<T>, key: T -> int)
    ensures multiset(Insert(x, s, key)) == multiset(s) + multiset{x}
  {
    if s != [] && key(s[0]) >= key(x) {
      InsertMultiset(x, s[1..], key);
      assert s == [s[0]] + s[1..];
    }
  }

  lemma {:induction false} WithKeyAppend<T>(a: seq<T>, b: seq<T>, key: T -> int, k: int)
    ensures WithKey(a + b, key, k) == WithKey(a, key, k) + WithKey(b, key, k)
  {
    if b == [] {
      assert a + b == a;
    } else {
      var b' := b[..|b| - 1];
      WithKeyAppend(a, b', key, k);
      assert (a + b)[..|a + b| - 1] == a + b';
    }
  }

  lemma WithKeySingle<T>(x: T, key: T -> int, k: int)
    ensures WithKey([x], key, k) == if key(x) == k then [x] else []
  {
    assert [x][..0] == [];
  }

  /** Inserting `x` puts it after every element of `s` with the same key. */
  lemma {:induction false} InsertStable<T>(x: T, s: seq<T>, key: T -> int, k: int)
    requires Descending(s, key)
    ensures WithKey(Insert(x, s, key), key, k) == WithKey(s, key, k) + (if key(x) == k then [x] else [])
  {
    WithKeySingle(x, key, k);
    if s == [] {
    } else if key(s[0]) >= key(x) {
      var rest := s[1..];
      assert Descending(rest, key);
      InsertStable(x, rest, key, k);
      assert WithKey(Insert(x, s, key), key, k) == WithKey([s[0]], key, k) + WithKey(Insert(x, rest, key), key, k) by {
        WithKeyAppend([s[0]], Insert(x, rest, key), key, k);
      }
      assert WithKey(s, key, k) == WithKey([s[0]], key, k) + WithKey(rest, key, k) by {
        assert s == [s[0]] + rest;
        WithKeyAppend([s[0]], rest, key, k);
      }
      AppendAssoc(WithKey([s[0]], key, k), WithKey(rest, key, k), if key(x) == k then [x] else []);
    } else {
      WithKeyAppend([x], s, key, k);
      if key(x) == k {
        WithKeyNone(s, key, k);
      }
    }
  }

  lemma AppendAssoc<T>(a: seq<T>, b: seq<T>, c: seq<T>)
    ensures (a + b) + c == a + (b + c)
  {
  }

  /** In a descending sequence headed by a smaller key, no element has key `k`. */
  lemma {:induction false} WithKeyNone<T>(s: seq<T>, key: T -> int, k: int)
    requires Descending(s, key)
    requires s != [] ==> key(s[0]) < k
    ensures WithKey(s, key, k) == []
  {
    if s != [] {
      var init := s[..|s| - 1];
      assert Descending(init, key);
      if init != [] {
        assert init[0] == s[0];
      }
      WithKeyNone(init, key, k);
      assert key(s[|s| - 1]) <= key(s[0]);
    }
  }

  /**
   * The sort is a permutation into descending key order, and stable: the
   * elements sharing a key keep their original relative order.
   */
  lemma {:induction false} SortDescendingSpec<T>(s: seq<T>, key: T -> int)
    ensures Descending(SortDescending(s, key), key)
    ensures multiset(SortDescending(s, key)) == multiset(s)
    ensures forall k :: WithKey(SortDescending(s, key), key, k) == WithKey(s, key, k)
  {
    if s != [] {
      var init := s[..|s| - 1];
      var last := s[|s| - 1];
      SortDescendingSpec(init, key);
      InsertDescending(last, SortDescending(init, key), key);
      InsertMultiset(last, SortDescending(init, key), key);
      assert s == init + [last];
      forall k
        ensures WithKey(SortDescending(s, key), key, k) == WithKey(s, key, k)
      {
        InsertStable(last, SortDescending(init, key), key, k);
      }
    }
  }

  /** `slice(0, n)` of the sorted sequence. */
  function TopN<T>(s: seq<T>, key: T -> int, n: nat): seq<T>
  {
    var sorted := SortDescending(s, key);
    if n < |sorted| then sorted[..n] else sorted
  }

  /**
   * The first `n` by key: at most `n` of them, in descending order, each
   * from `s`, and every element left out has a key no larger than any kept.
   */
  lemma TopNSpec<T>(s: seq<T>, key: T -> int, n: nat)
    ensures var r := TopN(s, key, n);
      && |r| == (if n < |s| then n else |s|)
      && Descending(r, key)
      && multiset(r) <= multiset(s)
      && forall i, j :: 0 <= i < |r| <= j < |SortDescending(s, key)|
           ==> key(r[i]) >= key(SortDescending(s, key)[j])
  {
    var sorted := SortDescending(s, key);
    var r := TopN(s, key, n);
    SortDescendingSpec(s, key);
    assert |sorted| == |s| by {
      assert |multiset(sorted)| == |multiset(s)|;
    }
    if n < |sorted| {
      assert r == sorted[..n];
      assert multiset(r) <= multiset(s) by {
        assert sorted == sorted[..n] + sorted[n..];
        assert multiset(sorted) == multiset(sorted[..n]) + multiset(sorted[n..]);
      }
      assert forall i :: 0 <= i < |r| ==> r[i] == sorted[i];
    }
  }

  /** An element `slice(0, n)` leaves out has a key no larger than any element it keeps. */
  lemma TopNLeftOut<T>(s: seq<T>, key: T -> int, n: nat, x: T)
    requires x in s && x !in TopN(s, key, n)
    ensures forall y :: y in TopN(s, key, n) ==> key(y) >= key(x)
  {
    var sorted := SortDescending(s, key);
    var r := TopN(s, key, n);
    SortDescendingSpec(s, key);
    assert x in multiset(sorted);
    var j :| 0 <= j < |sorted| && sorted[j] == x;
    assert r == sorted[..|r|];
    assert j >= |r|;
    forall y | y in r
      ensures key(y) >= key(x)
    {
      var i :| 0 <= i < |r| && r[i] == y;
      assert sorted[i] == y;
    }
  }
}
