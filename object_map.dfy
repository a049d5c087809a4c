/**
 * A plain JavaScript object used as a dictionary with string keys: its own properties in
 * insertion order, as `Object.keys` and `Object.entries` list keys that are not integer-like
 * (integer-like keys, which JavaScript lists first, are outside this model). Assigning to a key
 * that is already present overwrites the value in place; a new key goes last.
 */
module ObjectMap {
  import opened Wrappers
  import opened Text

  /** One own property. */
  datatype Entry<V> = Entry(key: string, value: V)

  /** `Object.keys(o)`. */
  function Keys<V>(o: seq<Entry<V>>): (r: seq<string>)
    ensures |r| == |o|
  {
    if o == [] then [] else [o[0].key] + Keys(o[1..])
  }

  /** `o[k]`, with `undefined` as None. */
  function Get<V>(o: seq<Entry<V>>, k: string): (r: Option<V>)
    ensures r.None? <==> k !in Keys(o)
    ensures r.Some? ==> Entry(k, r.value) in o
  {
    if o == [] then None
    else if o[0].key == k then Some(o[0].value)
    else Get(o[1..], k)
  }

  /**
   * `o[k] || d` for values that are always truthy (objects and arrays), for a key that is an own property or
   * absent. A key naming an inherited `Object.prototype` member (`"constructor"`, `"toString"`, `"__proto__"`, …)
   * is outside this model: JavaScript finds the inherited value there instead of `d`.
   */
  function GetOr<V>(o: seq<Entry<V>>, k: string, d: V): (r: V)
    ensures k !in Keys(o) ==> r == d
    ensures k in Keys(o) ==> Entry(k, r) in o
  {
    match Get(o, k)
    case None => d
    case Some(v) => v
  }

  /** `o[k] = v`. */
  function Put<V>(o: seq<Entry<V>>, k: string, v: V): (r: seq<Entry<V>>)
    ensures Get(r, k) == Some(v)
    ensures forall k' :: k' != k ==> Get(r, k') == Get(o, k')
    ensures forall e :: e in r ==> e in o || e == Entry(k, v)
  {
    if o == [] then [Entry(k, v)]
    else if o[0].key == k then [Entry(k, v)] + o[1..]
    else [o[0]] + Put(o[1..], k, v)
  }

  /** An existing key keeps its place; a new key is added last. */
  lemma {:induction false} PutKeys<V>(o: seq<Entry<V>>, k: string, v: V)
    ensures Keys(Put(o, k, v)) == if k in Keys(o) then Keys(o) else Keys(o) + [k]
  {
    var r := Put(o, k, v);
    if o == [] {
      assert r[1..] == [];
    } else if o[0].key == k {
      assert r[1..] == o[1..];
    } else {
      var rest := Put(o[1..], k, v);
      assert r[1..] == rest;
      PutKeys(o[1..], k, v);
      assert Keys(r) == [o[0].key] + Keys(rest);
      assert Keys(o) == [o[0].key] + Keys(o[1..]);
      assert k in Keys(o) <==> k in Keys(o[1..]);
    }
  }

  /** Writing keeps the keys distinct, as an object's keys always are. */
  lemma PutKeepsKeysDistinct<V>(o: seq<Entry<V>>, k: string, v: V)
    requires NoDup(Keys(o))
    ensures NoDup(Keys(Put(o, k, v)))
  {
    PutKeys(o, k, v);
    if k !in Keys(o) {
      NoDupSnoc(Keys(o), k);
    }
  }
}
