/**
 * A JavaScript `Map` as the modelled programs use it: a finite map together
 * with the order its keys were first inserted in.  `set` on a new key
 * appends it, `set` on a present key keeps its place, `delete` drops it.
 */
module OrderedMaps {

  predicate Distinct<K(==)>(s: seq<K>)
  {
    forall i, j :: 0 <= i < j < |s| ==> s[i] != s[j]
  }

  /** In a list without repeats, the last element does not occur before. */
  lemma LastIsNew<K>(order: seq<K>)
    requires Distinct(order) && order != []
    ensures order[|order| - 1] !in order[..|order| - 1]
  {
    var init := order[..|order| - 1];
    forall j | 0 <= j < |init|
      ensures init[j] != order[|order| - 1]
    {
      assert init[j] == order[j];
    }
  }

  /** A list without repeats holds each value at most once. */
  lemma {:induction false} DistinctOnce<K>(s: seq<K>, x: K)
    ensures Distinct(s) ==> multiset(s)[x] <= 1
  {
    if s != [] && Distinct(s) {
      var init := s[..|s| - 1];
      assert Distinct(init) by {
        forall i, j | 0 <= i < j < |init|
          ensures init[i] != init[j]
        {
          assert init[i] == s[i] && init[j] == s[j];
        }
      }
      DistinctOnce(init, x);
      LastIsNew(s);
      assert s == init + [s[|s| - 1]];
    }
  }

  /** A value at two positions of a list occurs there at least twice. */
  lemma RepeatCountsTwice<K>(s: seq<K>, i: nat, j: nat)
    requires i < j < |s|
    ensures s[i] == s[j] ==> multiset(s)[s[i]] >= 2
  {
    var front := s[..j];
    assert s == front + [s[j]] + s[j + 1..];
    assert front[i] == s[i];
  }

  /** `order` lists the keys of `m`, each once: the iteration order of the `Map`. */
  ghost predicate Lists<K(!new), V>(order: seq<K>, m: map<K, V>)
  {
    Distinct(order) && forall k :: k in order <==> k in m
  }

  /** The key order after `map.set(k, v)`. */
  function Placed<K(==)>(order: seq<K>, k: K): seq<K>
  {
    if k in order then order else order + [k]
  }

  /** The key order after `map.delete(k)`. */
  function Without<K(==)>(order: seq<K>, k: K): seq<K>
  {
    if order == [] then []
    else
      var last := order[|order| - 1];
      Without(order[..|order| - 1], k) + (if last == k then [] else [last])
  }

  lemma {:induction false} WithoutMembers<K>(order: seq<K>, k: K, x: K)
    ensures x in Without(order, k) <==> x in order && x != k
  {
    if order != [] {
      var init := order[..|order| - 1];
      WithoutMembers(init, k, x);
      assert order == init + [order[|order| - 1]];
    }
  }

  lemma {:induction false} WithoutDistinct<K>(order: seq<K>, k: K)
    requires Distinct(order)
    ensures Distinct(Without(order, k))
  {
    if order != [] {
      var init := order[..|order| - 1];
      var last := order[|order| - 1];
      WithoutDistinct(init, k);
      WithoutMembers(init, k, last);
      LastIsNew(order);
    }
  }

  /** `set` keeps the key order a listing of the keys. */
  lemma PlacedLists<K(!new), V>(order: seq<K>, m: map<K, V>, k: K, v: V)
    requires Lists(order, m)
    ensures Lists(Placed(order, k), m[k := v])
  {
  }

  /** `delete` keeps the key order a listing of the keys. */
  lemma WithoutLists<K(!new), V>(order: seq<K>, m: map<K, V>, k: K)
    requires Lists(order, m)
    ensures Lists(Without(order, k), m - {k})
  {
    WithoutDistinct(order, k);
    forall x
      ensures x in Without(order, k) <==> x in m - {k}
    {
      WithoutMembers(order, k, x);
    }
  }

  /** The sum of `f` over the entries, in key order. */
  function Sum<K, V>(order: seq<K>, m: map<K, V>, f: V -> nat): nat
    requires forall k :: k in order ==> k in m
  {
    if order == [] then 0
    else
      var init := order[..|order| - 1];
      assert forall k :: k in init ==> k in order;
      Sum(init, m, f) + f(m[order[|order| - 1]])
  }

  /** Entries whose key is not listed do not contribute. */
  lemma {:induction false} SumFrame<K, V>(order: seq<K>, m: map<K, V>, k: K, v: V, f: V -> nat)
    requires forall x :: x in order ==> x in m
    requires k !in order
    ensures Sum(order, m[k := v], f) == Sum(order, m, f)
  {
    if order != [] {
      var init := order[..|order| - 1];
      assert forall x :: x in init ==> x in order;
      SumFrame(init, m, k, v, f);
    }
  }

  /** Replacing the entry of a listed key changes the sum by the difference. */
  lemma {:induction false} SumUpdate<K, V>(order: seq<K>, m: map<K, V>, k: K, v: V, f: V -> nat)
    requires forall x :: x in order ==> x in m
    requires Distinct(order) && k in order
    ensures Sum(order, m[k := v], f) + f(m[k]) == Sum(order, m, f) + f(v)
  {
    var init := order[..|order| - 1];
    var last := order[|order| - 1];
    assert forall x :: x in init ==> x in order;
    assert Distinct(init);
    if last == k {
      LastIsNew(order);
      SumFrame(init, m, k, v, f);
    } else {
      assert k in init by {
        var j :| 0 <= j < |order| && order[j] == k;
        assert init[j] == k;
      }
      SumUpdate(init, m, k, v, f);
    }
  }

  /** `set`: the sum loses the old entry's share, if any, and gains the new one's. */
  lemma SumSet<K(!new), V>(order: seq<K>, m: map<K, V>, k: K, v: V, f: V -> nat)
    requires Lists(order, m)
    ensures Sum(Placed(order, k), m[k := v], f) + (if k in m then f(m[k]) else 0) == Sum(order, m, f) + f(v)
  {
    if k in m {
      SumUpdate(order, m, k, v, f);
    } else {
      SumFrame(order, m, k, v, f);
      var o := order + [k];
      assert o[..|o| - 1] == order;
    }
  }

  /** `delete`: the sum loses exactly the deleted entry's share. */
  lemma {:induction false} SumDelete<K, V>(order: seq<K>, m: map<K, V>, k: K, f: V -> nat)
    requires forall x :: x in order ==> x in m
    requires Distinct(order)
    ensures forall x :: x in Without(order, k) ==> x in m - {k}
    ensures Sum(Without(order, k), m - {k}, f) + (if k in order then f(m[k]) else 0) == Sum(order, m, f)
  {
    forall x | x in Without(order, k)
      ensures x in m - {k}
    {
      WithoutMembers(order, k, x);
    }
    if order != [] {
      var init := order[..|order| - 1];
      var last := order[|order| - 1];
      assert Distinct(init) && (forall x :: x in init ==> x in m) && (k in order <==> k in init || k == last) by {
        assert order == init + [last];
      }
      SumDelete(init, m, k, f);
      DeleteLast(order, m, k, f);
    }
  }

  /** One step of `SumDelete`: the last key of the order is dropped from the sum exactly when it is `k`. */
  lemma DeleteLast<K, V>(order: seq<K>, m: map<K, V>, k: K, f: V -> nat)
    requires order != [] && Distinct(order)
    requires forall x :: x in order ==> x in m
    requires forall x :: x in Without(order, k) ==> x in m - {k}
    requires forall x :: x in Without(order[..|order| - 1], k) ==> x in m - {k}
    ensures var init, last := order[..|order| - 1], order[|order| - 1];
      && Sum(order, m, f) == Sum(init, m, f) + f(m[last])
      && Sum(Without(order, k), m - {k}, f)
         == Sum(Without(init, k), m - {k}, f) + (if last == k then 0 else f(m[last]))
  {
    var init := order[..|order| - 1];
    var last := order[|order| - 1];
    var w := Without(init, k);
    if last == k {
      assert w + [] == w;
    } else {
      var o := w + [last];
      assert o[..|o| - 1] == w;
    }
  }
}
