/**
 * A plain JavaScript object with string keys, as an ordered association list:
 * assigning an existing key keeps its position, assigning a new key appends it,
 * and `delete` removes the key.
 */
module JsObject {
  import opened Optional

  type Obj<V> = seq<(string, V)>

  /** `Object.keys(o)`, in insertion order. */
  function Keys<V>(o: Obj<V>): (ks: seq<string>)
    ensures |ks| == |o|
  {
    if o == [] then [] else [o[0].0] + Keys(o[1..])
  }

  /** No key occurs twice, as in every JavaScript object. */
  predicate UniqueKeys<V>(o: Obj<V>) {
    o == [] || (o[0].0 !in Keys(o[1..]) && UniqueKeys(o[1..]))
  }

  /** `o[k]`, with `None` for a missing key. */
  function Get<V>(o: Obj<V>, k: string): (r: Option<V>)
    ensures r.None? <==> k !in Keys(o)
  {
    if o == [] then None else if o[0].0 == k then Some(o[0].1) else Get(o[1..], k)
  }

  /** `o[k] = v`. */
  function Set<V>(o: Obj<V>, k: string, v: V): (r: Obj<V>)
    ensures Get(r, k) == Some(v)
    ensures forall k' :: k' != k ==> Get(r, k') == Get(o, k')
    ensures Keys(r) == if k in Keys(o) then Keys(o) else Keys(o) + [k]
    ensures UniqueKeys(o) ==> UniqueKeys(r)
  {
    if o == [] then [(k, v)]
    else if o[0].0 == k then [(k, v)] + o[1..]
    else
      var rest := Set(o[1..], k, v);
      assert Keys([o[0]] + rest) == [o[0].0] + Keys(rest) by {
        assert ([o[0]] + rest)[1..] == rest;
      }
      [o[0]] + rest
  }

  /** The keys `ks` in their order, with every occurrence of `k` taken out. */
  function Without(ks: seq<string>, k: string): (r: seq<string>)
    ensures forall k' :: k' in r <==> k' in ks && k' != k
  {
    if ks == [] then [] else (if ks[0] == k then [] else [ks[0]]) + Without(ks[1..], k)
  }

  /** `delete o[k]`: a no-op when the key is absent; the other keys keep their order. */
  function Delete<V>(o: Obj<V>, k: string): (r: Obj<V>)
    ensures Get(r, k) == None
    ensures forall k' :: k' != k ==> Get(r, k') == Get(o, k')
    ensures Keys(r) == Without(Keys(o), k)
    ensures k !in Keys(o) ==> r == o
    ensures UniqueKeys(o) ==> UniqueKeys(r)
  {
    if o == [] then []
    else if o[0].0 == k then Delete(o[1..], k)
    else
      var rest := Delete(o[1..], k);
      assert ([o[0]] + rest)[1..] == rest;
      [o[0]] + rest
  }
}
