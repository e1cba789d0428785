/** A Python dict: a map that remembers the order in which its keys were inserted. */
module PyDict {
  import opened PyText

  datatype Dict<K(==), V> = Dict(keys: seq<K>, vals: map<K, V>) {
    ghost predicate Valid() {
      (forall i, j :: 0 <= i < j < |keys| ==> keys[i] != keys[j]) &&
      (forall k :: k in keys ==> k in vals) && (forall k :: k in vals ==> k in keys)
    }

    /** `d.get(k)` */
    function Get(k: K): Option<V> {
      if k in vals then Some(vals[k]) else None
    }

    /** `d[k] = v`: a key that is present keeps its place. */
    function Put(k: K, v: V): (d: Dict<K, V>)
      ensures Valid() ==> d.Valid()
      ensures d.vals == vals[k := v]
    {
      Dict(if k in vals then keys else keys + [k], vals[k := v])
    }

    /** `d.pop(k, None)` */
    function Pop(k: K): (d: Dict<K, V>)
      ensures Valid() ==> d.Valid()
      ensures d.vals == vals - {k}
    {
      WithoutKeepsOrder(keys, k);
      Dict(Without(keys, k), vals - {k})
    }
  }

  function Empty<K(==), V>(): Dict<K, V> {
    Dict([], map[])
  }

  function Without<K(==)>(keys: seq<K>, k: K): seq<K> {
    if |keys| == 0 then []
    else (if keys[0] == k then [] else [keys[0]]) + Without(keys[1..], k)
  }

  lemma {:induction false} WithoutKeepsOrder<K>(keys: seq<K>, k: K)
    ensures forall x :: x in Without(keys, k) ==> x in keys && x != k
    ensures forall x :: x in keys && x != k ==> x in Without(keys, k)
    ensures (forall i, j :: 0 <= i < j < |keys| ==> keys[i] != keys[j]) ==>
      forall i, j :: 0 <= i < j < |Without(keys, k)| ==> Without(keys, k)[i] != Without(keys, k)[j]
  {
    if |keys| != 0 {
      WithoutKeepsOrder(keys[1..], k);
      assert forall x :: x in keys <==> x == keys[0] || x in keys[1..];
      assert forall j :: 0 <= j < |Without(keys[1..], k)| ==> Without(keys[1..], k)[j] in keys[1..];
    }
  }

  lemma {:induction false} WithoutSnoc<K>(keys: seq<K>, x: K, k: K)
    ensures Without(keys + [x], k) == Without(keys, k) + if x == k then [] else [x]
  {
    if |keys| != 0 {
      assert (keys + [x])[1..] == keys[1..] + [x];
      WithoutSnoc(keys[1..], x, k);
    }
  }

  lemma {:induction false} DistinctSize<K>(keys: seq<K>, s: set<K>)
    requires forall i, j :: 0 <= i < j < |keys| ==> keys[i] != keys[j]
    requires (forall k :: k in keys ==> k in s) && (forall k :: k in s ==> k in keys)
    ensures |keys| == |s|
  {
    if |keys| != 0 {
      assert forall k :: k in keys <==> k == keys[0] || k in keys[1..];
      DistinctSize(keys[1..], s - {keys[0]});
    } else {
      assert s == {};
    }
  }
}
