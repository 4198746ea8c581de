/** Insertion-ordered dictionaries, and sums over their values.

    A Python `dict` iterates in insertion order: overwriting a key keeps its place, popping it removes it.
    `Dict` keeps that order explicitly, so that every loop over `.values()` or `.items()` can be written as a
    recursion on `keys`.
 */
module Dicts {

  datatype Option<+T> = None | Some(value: T) {
    function GetOr(default: T): T {
      if Some? then value else default
    }
  }

  /** No key occurs twice. */
  ghost predicate Distinct<K>(keys: seq<K>) {
    keys == [] || (keys[|keys| - 1] !in keys[..|keys| - 1] && Distinct(keys[..|keys| - 1]))
  }

  /** The keys of a sequence, as a set. */
  ghost function KeySet<K>(keys: seq<K>): set<K> {
    if keys == [] then {} else KeySet(keys[..|keys| - 1]) + {keys[|keys| - 1]}
  }

  datatype Dict<K(==), V> = Dict(keys: seq<K>, at: map<K, V>) {
    ghost predicate Valid() {
      Distinct(keys) && KeySet(keys) == at.Keys
    }
  }

  lemma {:induction false} KeySetMembers<K>(keys: seq<K>)
    ensures forall k | k in keys :: k in KeySet(keys)
    ensures forall k | k in KeySet(keys) :: k in keys
  {
    if keys != [] {
      KeySetMembers(keys[..|keys| - 1]);
      assert keys == keys[..|keys| - 1] + [keys[|keys| - 1]];
    }
  }

  lemma ValidKeys<K, V>(d: Dict<K, V>)
    requires d.Valid()
    ensures forall k | k in d.keys :: k in d.at
    ensures forall k | k in d.at :: k in d.keys
  {
    KeySetMembers(d.keys);
  }

  lemma NoKeys<K, V>(d: Dict<K, V>)
    requires d.Valid() && d.at.Keys == {}
    ensures d.keys == []
  {
  }

  function Empty<K(==), V>(): Dict<K, V> {
    Dict([], map[])
  }

  /** `d[k] = v` */
  function Put<K(==), V>(d: Dict<K, V>, k: K, v: V): Dict<K, V> {
    Dict(if k in d.at then d.keys else d.keys + [k], d.at[k := v])
  }

  lemma PutValid<K, V>(d: Dict<K, V>, k: K, v: V)
    requires d.Valid()
    ensures Put(d, k, v).Valid()
  {
    ValidKeys(d);
    var r := Put(d, k, v);
    if k in d.at {
      assert r.at.Keys == d.at.Keys;
    } else {
      assert r.keys[..|d.keys|] == d.keys;
    }
  }

  /** `keys` with `k` left out */
  function Without<K(==)>(keys: seq<K>, k: K): (r: seq<K>)
    ensures forall x | x in r :: x in keys && x != k
    ensures forall x | x in keys :: x != k ==> x in r
    ensures Distinct(keys) ==> Distinct(r)
  {
    if keys == [] then []
    else
      var n := |keys| - 1;
      var init := Without(keys[..n], k);
      assert keys == keys[..n] + [keys[n]];
      assert (init + [keys[n]])[..|init|] == init;
      if keys[n] == k then init else init + [keys[n]]
  }

  /** `d.pop(k, None)` */
  function Pop<K(==), V>(d: Dict<K, V>, k: K): Dict<K, V> {
    Dict(Without(d.keys, k), d.at - {k})
  }

  lemma PopValid<K, V>(d: Dict<K, V>, k: K)
    requires d.Valid()
    ensures Pop(d, k).Valid()
  {
    KeySetMembers(d.keys);
    KeySetMembers(Pop(d, k).keys);
  }

  /** `list(d.values())` */
  function Values<K(==), V>(keys: seq<K>, at: map<K, V>): seq<V> {
    if keys == [] then []
    else
      var n := |keys| - 1;
      Values(keys[..n], at) + if keys[n] in at then [at[keys[n]]] else []
  }

  lemma {:induction false} ValuesAt<K, V>(keys: seq<K>, at: map<K, V>)
    requires forall k | k in keys :: k in at
    ensures |Values(keys, at)| == |keys|
    ensures forall i | 0 <= i < |keys| :: Values(keys, at)[i] == at[keys[i]]
  {
    if keys != [] {
      ValuesAt(keys[..|keys| - 1], at);
    }
  }

  lemma PutTwice<K, V>(d: Dict<K, V>, k: K, a: V, b: V)
    ensures Put(Put(d, k, a), k, b) == Put(d, k, b)
  {
    assert d.at[k := a][k := b] == d.at[k := b];
  }

  lemma PutSame<K, V>(d: Dict<K, V>, k: K)
    requires k in d.at
    ensures Put(d, k, d.at[k]) == d
  {
    assert d.at[k := d.at[k]] == d.at;
  }

  lemma Prefixes<T>(xs: seq<T>, i: nat)
    requires i < |xs|
    ensures xs[..i + 1] == xs[..i] + [xs[i]] && xs[..i + 1][..i] == xs[..i]
  {
  }

  lemma {:induction false} WithoutAbsent<K>(keys: seq<K>, k: K)
    requires k !in keys
    ensures Without(keys, k) == keys
  {
    if keys != [] {
      var n := |keys| - 1;
      assert keys == keys[..n] + [keys[n]];
      WithoutAbsent(keys[..n], k);
    }
  }

  lemma {:induction false} WithoutConcat<K>(a: seq<K>, b: seq<K>, k: K)
    ensures Without(a + b, k) == Without(a, k) + Without(b, k)
  {
    if b == [] {
      assert a + b == a;
    } else {
      var n := |b| - 1;
      assert (a + b)[..|a + b| - 1] == a + b[..n];
      WithoutConcat(a, b[..n], k);
    }
  }

  // ------------------------------------------------------------------------------------------------ sums

  /** The sum of `f` over the values of `keys`, as a Python `sum(f(v) for v in d.values())` adds them. */
  function SumKeys<K(==), V>(keys: seq<K>, at: map<K, V>, f: V -> real): real {
    if keys == [] then 0.0
    else
      var n := |keys| - 1;
      SumKeys(keys[..n], at, f) + if keys[n] in at then f(at[keys[n]]) else 0.0
  }

  function Sum<K(==), V>(d: Dict<K, V>, f: V -> real): real {
    SumKeys(d.keys, d.at, f)
  }

  lemma {:induction false} SumKeysSame<K, V>(keys: seq<K>, a: map<K, V>, b: map<K, V>, f: V -> real)
    requires forall k | k in keys :: k in a && k in b && f(a[k]) == f(b[k])
    ensures SumKeys(keys, a, f) == SumKeys(keys, b, f)
  {
    if keys != [] {
      SumKeysSame(keys[..|keys| - 1], a, b, f);
    }
  }

  lemma {:induction false} SumKeysUpdate<K, V>(keys: seq<K>, at: map<K, V>, k: K, v: V, f: V -> real)
    requires Distinct(keys) && forall x | x in keys :: x in at
    requires k in keys
    ensures SumKeys(keys, at[k := v], f) == SumKeys(keys, at, f) - f(at[k]) + f(v)
  {
    var n := |keys| - 1;
    if keys[n] == k {
      assert k !in keys[..n];
      SumKeysSame(keys[..n], at, at[k := v], f);
    } else {
      SumKeysUpdate(keys[..n], at, k, v, f);
    }
  }

  lemma SumPut<K, V>(d: Dict<K, V>, k: K, v: V, f: V -> real)
    requires d.Valid()
    ensures Sum(Put(d, k, v), f) == Sum(d, f) - (if k in d.at then f(d.at[k]) else 0.0) + f(v)
  {
    ValidKeys(d);
    if k in d.at {
      SumKeysUpdate(d.keys, d.at, k, v, f);
    } else {
      assert Put(d, k, v).keys[..|d.keys|] == d.keys;
      SumKeysSame(d.keys, d.at, d.at[k := v], f);
    }
  }

  lemma {:induction false} SumKeysWithout<K, V>(keys: seq<K>, at: map<K, V>, k: K, f: V -> real)
    requires Distinct(keys) && forall x | x in keys :: x in at
    requires k in keys
    ensures SumKeys(Without(keys, k), at - {k}, f) == SumKeys(keys, at, f) - f(at[k])
  {
    var n := |keys| - 1;
    var init := keys[..n];
    if keys[n] == k {
      assert k !in init;
      WithoutAbsent(init, k);
      SumKeysSame(init, at, at - {k}, f);
    } else {
      SumKeysWithout(init, at, k, f);
      var w := Without(init, k) + [keys[n]];
      assert Without(keys, k) == w;
      assert w[..|w| - 1] == Without(init, k);
    }
  }

  lemma SumPop<K, V>(d: Dict<K, V>, k: K, f: V -> real)
    requires d.Valid() && k in d.at
    ensures Sum(Pop(d, k), f) == Sum(d, f) - f(d.at[k])
  {
    ValidKeys(d);
    SumKeysWithout(d.keys, d.at, k, f);
  }

  /** `[x for x in xs if keep(x)]` */
  function Filter<T>(xs: seq<T>, keep: T -> bool): seq<T> {
    if xs == [] then [] else (if keep(xs[0]) then [xs[0]] else []) + Filter(xs[1..], keep)
  }

  lemma {:induction false} FilterAppend<T>(xs: seq<T>, x: T, keep: T -> bool)
    ensures Filter(xs + [x], keep) == Filter(xs, keep) + if keep(x) then [x] else []
  {
    if xs == [] {
      assert [x][1..] == [] && [] + [x] == [x];
    } else {
      assert (xs + [x])[1..] == xs[1..] + [x];
      FilterAppend(xs[1..], x, keep);
    }
  }

  /** What is kept, in order, and how often. */
  lemma {:induction false} FilterMeans<T>(xs: seq<T>, keep: T -> bool)
    ensures forall x :: multiset(Filter(xs, keep))[x] == if keep(x) then multiset(xs)[x] else 0
  {
    if xs != [] {
      FilterMeans(xs[1..], keep);
      assert xs == [xs[0]] + xs[1..];
    }
  }
}
