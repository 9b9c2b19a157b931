/** A Python `dict` with string keys: it remembers the order in which keys were first inserted. */
module Dicts {

  datatype Dict<V> = Dict(keys: seq<string>, entries: map<string, V>)
  {
    /** The keys are listed once each, and exactly the keys of the entries are listed. */
    ghost predicate Valid()
    {
      && (forall i, j :: 0 <= i < j < |keys| ==> keys[i] != keys[j])
      && (forall k :: k in entries <==> k in keys)
    }

    /** `d[k] = v`: a new key goes to the end, an existing key keeps its place. */
    function Put(k: string, v: V): (d: Dict<V>)
      requires Valid()
      ensures d.Valid()
    {
      if k in entries then Dict(keys, entries[k := v]) else Dict(keys + [k], entries[k := v])
    }

    /** `list(d.values())`: the values in key order. */
    function Values(): (vs: seq<V>)
      requires Valid()
      ensures |vs| == |keys|
      ensures forall i :: 0 <= i < |keys| ==> vs[i] == entries[keys[i]]
    {
      seq(|keys|, i requires 0 <= i < |keys| => entries[keys[i]])
    }
  }

  /** `{}`. */
  function EmptyDict<V>(): (d: Dict<V>)
    ensures d.Valid()
  {
    Dict([], map[])
  }
}
