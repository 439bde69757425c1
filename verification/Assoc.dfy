/** Objects used as dictionaries: entries in insertion order, at most one per key. */
module Assoc {

  function Has<K(==), V>(es: seq<(K, V)>, key: K): bool {
    es != [] && (es[0].0 == key || Has(es[1..], key))
  }

  function Get<K(==), V>(es: seq<(K, V)>, key: K, default: V): V {
    if es == [] then default
    else if es[0].0 == key then es[0].1
    else Get(es[1..], key, default)
  }

  /** Assignment to a property: in place when the key exists, appended when it is new. */
  function Put<K(==), V>(es: seq<(K, V)>, key: K, value: V): seq<(K, V)> {
    if es == [] then [(key, value)]
    else if es[0].0 == key then [(key, value)] + es[1..]
    else [es[0]] + Put(es[1..], key, value)
  }

  /** `delete object[key]`. */
  function Delete<K(==), V>(es: seq<(K, V)>, key: K): seq<(K, V)> {
    if es == [] then []
    else if es[0].0 == key then es[1..]
    else [es[0]] + Delete(es[1..], key)
  }

  ghost predicate Distinct<K, V>(es: seq<(K, V)>) {
    es == [] || (!Has(es[1..], es[0].0) && Distinct(es[1..]))
  }

  /** The sum of `f` over all entries. */
  ghost function Sum<K, V>(es: seq<(K, V)>, f: (K, V) -> int): int {
    if es == [] then 0 else f(es[0].0, es[0].1) + Sum(es[1..], f)
  }

  lemma {:induction false} HasAt<K, V>(es: seq<(K, V)>, i: nat)
    requires i < |es|
    ensures Has(es, es[i].0)
    ensures Distinct(es) ==> forall d :: Get(es, es[i].0, d) == es[i].1
  {
    if i > 0 {
      HasAt(es[1..], i - 1);
    }
  }

  lemma {:induction false} IndexOf<K, V>(es: seq<(K, V)>, key: K) returns (i: nat)
    requires Has(es, key)
    ensures i < |es| && es[i].0 == key && forall d :: Get(es, key, d) == es[i].1
  {
    if es[0].0 == key {
      i := 0;
    } else {
      var j := IndexOf(es[1..], key);
      i := j + 1;
    }
  }

  lemma {:induction false} DistinctAt<K, V>(es: seq<(K, V)>, i: nat, j: nat)
    requires Distinct(es) && i < j < |es|
    ensures es[i].0 != es[j].0
  {
    if i == 0 {
      HasAt(es[1..], j - 1);
    } else {
      DistinctAt(es[1..], i - 1, j - 1);
    }
  }

  lemma {:induction false} HasPut<K, V>(es: seq<(K, V)>, key: K, value: V, other: K)
    ensures Has(Put(es, key, value), other) <==> other == key || Has(es, other)
    ensures forall d :: Get(Put(es, key, value), other, d) == if other == key then value else Get(es, other, d)
  {
    if es != [] && es[0].0 != key {
      HasPut(es[1..], key, value, other);
    }
  }

  lemma {:induction false} DistinctPut<K, V>(es: seq<(K, V)>, key: K, value: V)
    requires Distinct(es)
    ensures Distinct(Put(es, key, value))
  {
    if es != [] && es[0].0 != key {
      DistinctPut(es[1..], key, value);
      HasPut(es[1..], key, value, es[0].0);
    }
  }

  lemma {:induction false} SumPut<K, V>(es: seq<(K, V)>, key: K, value: V, default: V, f: (K, V) -> int)
    requires Has(es, key) || f(key, default) == 0
    ensures Sum(Put(es, key, value), f) == Sum(es, f) - f(key, Get(es, key, default)) + f(key, value)
  {
    if es == [] {
      assert Put(es, key, value)[1..] == [];
    } else if es[0].0 == key {
      assert Put(es, key, value)[1..] == es[1..];
    } else {
      SumPut(es[1..], key, value, default, f);
      assert Put(es, key, value)[1..] == Put(es[1..], key, value);
    }
  }

  lemma {:induction false} HasDelete<K, V>(es: seq<(K, V)>, key: K, other: K)
    requires Distinct(es)
    ensures Has(Delete(es, key), other) <==> other != key && Has(es, other)
    ensures other != key ==> forall d :: Get(Delete(es, key), other, d) == Get(es, other, d)
  {
    if es != [] && es[0].0 != key {
      HasDelete(es[1..], key, other);
    }
  }

  lemma {:induction false} DistinctDelete<K, V>(es: seq<(K, V)>, key: K)
    requires Distinct(es)
    ensures Distinct(Delete(es, key))
  {
    if es != [] && es[0].0 != key {
      DistinctDelete(es[1..], key);
      HasDelete(es[1..], key, es[0].0);
    }
  }

  lemma {:induction false} SumDelete<K, V>(es: seq<(K, V)>, key: K, default: V, f: (K, V) -> int)
    requires Has(es, key)
    ensures Sum(Delete(es, key), f) == Sum(es, f) - f(key, Get(es, key, default))
    ensures |Delete(es, key)| == |es| - 1
  {
    if es[0].0 != key {
      SumDelete(es[1..], key, default, f);
      assert Delete(es, key)[1..] == Delete(es[1..], key);
    }
  }

  /** Every entry of `f` is non-negative, so no single one exceeds the sum. */
  lemma {:induction false} SumBounds<K, V>(es: seq<(K, V)>, f: (K, V) -> int, i: nat)
    requires forall j :: 0 <= j < |es| ==> f(es[j].0, es[j].1) >= 0
    requires i < |es|
    ensures 0 <= f(es[i].0, es[i].1) <= Sum(es, f)
  {
    SumNonNegative(es[1..], f);
    if i > 0 {
      SumBounds(es[1..], f, i - 1);
    }
  }

  lemma {:induction false} SumNonNegative<K, V>(es: seq<(K, V)>, f: (K, V) -> int)
    requires forall j :: 0 <= j < |es| ==> f(es[j].0, es[j].1) >= 0
    ensures Sum(es, f) >= 0
  {
    if es != [] {
      SumNonNegative(es[1..], f);
    }
  }

  lemma {:induction false} SumAppend<K, V>(a: seq<(K, V)>, b: seq<(K, V)>, f: (K, V) -> int)
    ensures Sum(a + b, f) == Sum(a, f) + Sum(b, f)
  {
    if a == [] {
      assert a + b == b;
    } else {
      assert (a + b)[1..] == a[1..] + b;
      SumAppend(a[1..], b, f);
    }
  }
}
