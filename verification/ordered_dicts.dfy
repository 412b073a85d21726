/** Python dictionaries as the core uses them: keys in insertion order,
    assignment to an existing key keeps its position, a new key goes last. */
module OrderedDicts {
  import opened Wrappers

  type Dict<K, V> = seq<(K, V)>

  function Keys<K, V>(d: Dict<K, V>): (r: seq<K>)
    ensures |r| == |d| && forall i :: 0 <= i < |d| ==> r[i] == d[i].0
  {
    if d == [] then [] else [d[0].0] + Keys(d[1..])
  }

  /** `d.values()`, in insertion order. */
  function Values<K, V>(d: Dict<K, V>): (r: seq<V>)
    ensures |r| == |d| && forall i :: 0 <= i < |d| ==> r[i] == d[i].1
  {
    if d == [] then [] else [d[0].1] + Values(d[1..])
  }

  predicate UniqueKeys<K(==), V>(d: Dict<K, V>) {
    forall i, j :: 0 <= i < j < |d| ==> d[i].0 != d[j].0
  }

  /** The position of key `k`, if present. */
  function IndexOfKey<K(==), V>(d: Dict<K, V>, k: K): (r: Option<nat>)
    ensures r.Some? ==> r.value < |d| && d[r.value].0 == k
    ensures r.Some? ==> forall j :: 0 <= j < r.value ==> d[j].0 != k
    ensures r.None? ==> forall j :: 0 <= j < |d| ==> d[j].0 != k
  {
    if d == [] then None
    else if d[0].0 == k then Some(0)
    else match IndexOfKey(d[1..], k)
      case None => None
      case Some(i) => Some(i + 1)
  }

  /** `d.get(k)`. */
  function Get<K(==), V>(d: Dict<K, V>, k: K): (r: Option<V>)
    ensures r.Some? <==> k in Keys(d)
    ensures r.Some? ==> exists i :: 0 <= i < |d| && d[i] == (k, r.value)
  {
    match IndexOfKey(d, k)
    case None => None
    case Some(i) => Some(d[i].1)
  }

  /** `d[k] = v`. */
  function Put<K(==), V>(d: Dict<K, V>, k: K, v: V): (r: Dict<K, V>)
    ensures Keys(r) == if k in Keys(d) then Keys(d) else Keys(d) + [k]
    ensures Get(r, k) == Some(v)
    ensures UniqueKeys(d) ==> UniqueKeys(r)
  {
    match IndexOfKey(d, k)
    case Some(i) => d[i := (k, v)]
    case None => d + [(k, v)]
  }

  /** Assigning one key leaves every other key's value as it was. */
  lemma PutOther<K, V>(d: Dict<K, V>, k: K, v: V, k': K)
    requires k' != k
    ensures Get(Put(d, k, v), k') == Get(d, k')
  {
    var r := Put(d, k, v);
    assert forall j :: 0 <= j < |d| ==> r[j].0 == d[j].0;
    assert forall j :: 0 <= j < |d| && d[j].0 == k' ==> r[j] == d[j];
    assert |r| > |d| ==> r[|d|].0 == k;
    var a, b := IndexOfKey(r, k'), IndexOfKey(d, k');
    assert a == b;
  }

  lemma KeysAppend<K, V>(a: Dict<K, V>, b: Dict<K, V>)
    ensures Keys(a + b) == Keys(a) + Keys(b)
  {
    assert forall i :: 0 <= i < |b| ==> (a + b)[|a| + i] == b[i];
  }

  lemma ValuesSnoc<K, V>(d: Dict<K, V>, k: K, v: V)
    ensures Values(d + [(k, v)]) == Values(d) + [v]
  {
  }

  /** Assigning a key the dictionary does not hold appends it. */
  lemma PutNew<K, V>(d: Dict<K, V>, k: K, v: V)
    requires k !in Keys(d)
    ensures Put(d, k, v) == d + [(k, v)]
    ensures Keys(d + [(k, v)]) == Keys(d) + [k]
  {
    KeysAppend(d, [(k, v)]);
  }

  /** Assigning a key the value it already has at its first position
      leaves the dictionary as it was. */
  lemma PutPresent<K, V>(d: Dict<K, V>, i: nat)
    requires i < |d| && forall j :: 0 <= j < i ==> d[j].0 != d[i].0
    ensures Put(d, d[i].0, d[i].1) == d
  {
    var r := IndexOfKey(d, d[i].0);
    assert r == Some(i);
  }

  /** `if cond: d[k] = v` for a key `d` does not hold. */
  lemma PutIf<K, V>(d: Dict<K, V>, cond: bool, k: K, v: V)
    requires k !in Keys(d)
    ensures (if cond then Put(d, k, v) else d) == d + (if cond then [(k, v)] else [])
    ensures Keys(d + (if cond then [(k, v)] else [])) == Keys(d) + (if cond then [k] else [])
  {
    KeysAppend(d, if cond then [(k, v)] else []);
  }

  /** Three conditional assignments of distinct keys `d` does not hold
      append the assigned entries in order. */
  lemma PutIfThree<K, V>(d: Dict<K, V>, c1: bool, k1: K, v1: V, c2: bool, k2: K, v2: V, c3: bool, k3: K, v3: V)
    requires k1 !in Keys(d) && k2 !in Keys(d) && k3 !in Keys(d)
    requires k1 != k2 && k1 != k3 && k2 != k3
    ensures var d1 := if c1 then Put(d, k1, v1) else d;
      var d2 := if c2 then Put(d1, k2, v2) else d1;
      var d3 := if c3 then Put(d2, k3, v3) else d2;
      d3 == d + (if c1 then [(k1, v1)] else []) + (if c2 then [(k2, v2)] else []) + (if c3 then [(k3, v3)] else [])
  {
    var e1: Dict<K, V> := if c1 then [(k1, v1)] else [];
    var e2: Dict<K, V> := if c2 then [(k2, v2)] else [];
    var ke1: seq<K> := if c1 then [k1] else [];
    var ke2: seq<K> := if c2 then [k2] else [];
    PutIf(d, c1, k1, v1);
    NotInAppend(k2, Keys(d), ke1);
    PutIf(d + e1, c2, k2, v2);
    NotInAppend(k3, Keys(d), ke1);
    NotInAppend(k3, Keys(d) + ke1, ke2);
    PutIf(d + e1 + e2, c3, k3, v3);
  }

  lemma NotInAppend<T>(x: T, a: seq<T>, b: seq<T>)
    requires x !in a && x !in b
    ensures x !in a + b
  {
  }

  lemma AppendEmpty<T>(s: seq<T>)
    ensures s + [] == s
  {
  }

  lemma AppendTwo<T>(s: seq<T>, x: T, y: T)
    ensures s + [x] + [y] == s + [x, y]
  {
  }

  lemma PrefixOfPrefix<T>(a: seq<T>, b: seq<T>, i: nat)
    requires i <= |b| <= |a| && a[..|b|] == b
    ensures a[..i] == b[..i]
  {
    assert a[..i] == a[..|b|][..i];
  }

  lemma PrefixOfAppend<T>(a: seq<T>, b: seq<T>, n: nat)
    requires n <= |b|
    ensures (a + b)[..|a| + n] == a + b[..n]
  {
  }

  lemma SplitLast<T>(s: seq<T>)
    requires s != []
    ensures s == s[..|s| - 1] + [s[|s| - 1]]
  {
  }

  /** With unique keys, assignment replaces the value in place or appends. */
  lemma PutPositions<K, V>(d: Dict<K, V>, k: K, v: V)
    requires UniqueKeys(d)
    ensures forall i :: 0 <= i < |d| ==> Put(d, k, v)[i] == if d[i].0 == k then (k, v) else d[i]
    ensures k !in Keys(d) ==> Put(d, k, v) == d + [(k, v)]
  {
  }

  /** Dictionaries that hold the same key-value pairs, whatever their
      insertion order. */
  ghost predicate SameEntries<K, V>(a: Dict<K, V>, b: Dict<K, V>) {
    (forall i :: 0 <= i < |a| ==> Get(b, a[i].0) == Some(a[i].1)) &&
    (forall i :: 0 <= i < |b| ==> Get(a, b[i].0) == Some(b[i].1))
  }
}
