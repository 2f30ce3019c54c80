/** Python's `dict` with string keys. Besides the key/value mapping a dict
    remembers the order in which its keys were first inserted: iteration,
    `keys()` and `items()` follow that order, and assigning to a key that is
    already present changes its value but not its place. */
module Dicts {
  import opened Prelude

  /** The last `n` elements of `s` (`s[-n:]` in Python, for a positive `n`). */
  function Last<T>(s: seq<T>, n: nat): (r: seq<T>)
    ensures |r| == if |s| < n then |s| else n
    ensures r == s[|s| - |r|..]
  {
    if |s| <= n then s else s[|s| - n..]
  }

  datatype Dict<V> = Dict(keys: seq<string>, vals: map<string, V>) {

    /** Keys are listed once each, and exactly the mapped keys are listed. */
    ghost predicate Valid()
    {
      && (forall i, j :: 0 <= i < j < |keys| ==> keys[i] != keys[j])
      && (forall k :: k in vals <==> k in keys)
    }

    /** `len(d)` */
    function Size(): nat
    {
      |keys|
    }

    /** `d.get(k)` */
    function Get(k: string): Option<V>
    {
      if k in vals then Some(vals[k]) else None
    }

    /** `d[k] = v` */
    function Put(k: string, v: V): (r: Dict<V>)
      requires Valid()
      ensures r.Valid()
      ensures r.Get(k) == Some(v)
      ensures forall k' :: k' != k ==> r.Get(k') == Get(k')
      ensures k in vals ==> r.keys == keys && r.Size() == Size()
      ensures k !in vals ==> r.keys == keys + [k] && r.Size() == Size() + 1
    {
      if k in vals then Dict(keys, vals[k := v]) else Dict(keys + [k], vals[k := v])
    }

    /** `list(d.keys())[-n:]` */
    function LastKeys(n: nat): seq<string>
    {
      Last(keys, n)
    }

    /** `dict(list(d.items())[-n:])`: the `n` most recently inserted entries,
        in insertion order. */
    function LastEntries(n: nat): (r: Dict<V>)
      requires Valid()
      ensures r.Valid()
      ensures r.keys == LastKeys(n)
      ensures forall k :: k in r.vals ==> k in vals && r.vals[k] == vals[k]
    {
      var ks := Last(keys, n);
      assert forall i, j :: 0 <= i < j < |ks| ==> ks[i] != ks[j] by {
        forall i, j | 0 <= i < j < |ks| ensures ks[i] != ks[j] {
          assert ks[i] == keys[|keys| - |ks| + i] && ks[j] == keys[|keys| - |ks| + j];
        }
      }
      Dict(ks, map k | k in ks && k in vals :: vals[k])
    }
  }

  /** Three assignments to distinct keys, one after the other. */
  lemma PutThree<V>(d: Dict<V>, k1: string, v1: V, k2: string, v2: V, k3: string, v3: V)
    requires d.Valid() && k1 != k2 && k1 != k3 && k2 != k3
    ensures var r := d.Put(k1, v1).Put(k2, v2).Put(k3, v3);
      && r.Valid()
      && r.Get(k1) == Some(v1) && r.Get(k2) == Some(v2) && r.Get(k3) == Some(v3)
      && (forall k :: k != k1 && k != k2 && k != k3 ==> r.Get(k) == d.Get(k))
      && (d.Size() == 0 ==> r.keys == [k1, k2, k3])
  {
  }

  /** `{}` */
  function Empty<V>(): (d: Dict<V>)
    ensures d.Valid() && d.Size() == 0
    ensures forall k :: d.Get(k) == None
  {
    Dict([], map[])
  }
}
