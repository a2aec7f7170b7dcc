/**
 * A Python `dict`: a finite map that also remembers the order in which its
 * keys were first inserted (the order `json.dumps` writes them in).
 */
module Dicts {

  datatype Dict<K, V> = Dict(keys: seq<K>, entries: map<K, V>) {

    /** Keys are listed once each, and exactly the mapped keys are listed. */
    ghost predicate Valid() {
      && (forall i, j :: 0 <= i < j < |keys| ==> keys[i] != keys[j])
      && entries.Keys == set k | k in keys
    }

    /** `d[k] = v`: a new key goes to the end, an existing key keeps its place. */
    function Put(k: K, v: V): (d: Dict<K, V>)
      ensures Valid() ==> d.Valid()
      ensures d.entries == entries[k := v]
    {
      if k in entries then Dict(keys, entries[k := v]) else Dict(keys + [k], entries[k := v])
    }

    /** `d.get(k, default)`. */
    function Get(k: K, default: V): V {
      if k in entries then entries[k] else default
    }
  }

  /**
   * The key order `Put` keeps: a new key goes to the end, an existing key
   * keeps its place.  (A lemma rather than an ensures of `Put`, so that the
   * sequence fact is only in scope where a proof asks for it.)
   */
  lemma PutKeyOrder<K, V>(d: Dict<K, V>, k: K, v: V)
    ensures d.Put(k, v).keys == if k in d.entries then d.keys else d.keys + [k]
    ensures d.Valid() && k !in d.entries ==> d.Put(k, v).keys[|d.keys|] == k
  {
  }

  function EmptyDict<K, V>(): (d: Dict<K, V>)
    ensures d.Valid() && d.keys == [] && d.entries == map[]
  {
    Dict([], map[])
  }
}
