/**
 * A Python `dict` with string keys, insertion order included: `list(d.keys())`
 * is observable in the system (object listings are scanned in order), so the
 * model keeps the key order beside the mapping.
 */
module OrderedMap {
  import opened PyList

  datatype OMap<V> = OMap(keys: seq<string>, m: map<string, V>)

  /** The order lists each key of the mapping exactly once. */
  ghost predicate Valid<V>(d: OMap<V>)
  {
    Distinct(d.keys) && (forall k :: k in d.keys <==> k in d.m)
  }

  function Empty<V>(): (d: OMap<V>)
    ensures Valid(d) && d.m == map[]
  {
    OMap([], map[])
  }

  /** `d[k] = v`: an existing key keeps its position, a new key goes last. */
  function Put<V>(d: OMap<V>, k: string, v: V): (r: OMap<V>)
    requires Valid(d)
    ensures Valid(r) && r.m == d.m[k := v]
    ensures k in d.m ==> r.keys == d.keys
    ensures k !in d.m ==> r.keys == d.keys + [k]
  {
    if k in d.m then OMap(d.keys, d.m[k := v])
    else
      AppendDistinct(d.keys, k);
      OMap(d.keys + [k], d.m[k := v])
  }

  /** `d.pop(k, None)`: a missing key leaves the dict as it was. */
  function Pop<V>(d: OMap<V>, k: string): (r: OMap<V>)
    requires Valid(d)
    ensures Valid(r) && r.m == d.m - {k}
    ensures k !in d.m ==> r == d
  {
    if k !in d.m then d
    else
      PopValid(d, k);
      OMap(RemoveFirst(d.keys, k), d.m - {k})
  }

  lemma PopValid<V>(d: OMap<V>, k: string)
    requires Valid(d)
    ensures Valid(OMap(RemoveFirst(d.keys, k), d.m - {k}))
  {
    RemoveFirstDistinct(d.keys, k);
    forall j | j != k ensures j in RemoveFirst(d.keys, k) <==> j in d.keys {
      RemoveFirstMembers(d.keys, k, j);
    }
  }

  /** `d.setdefault(k, v)` as far as the dict is concerned. */
  function SetDefault<V>(d: OMap<V>, k: string, v: V): (r: OMap<V>)
    requires Valid(d)
    ensures Valid(r) && k in r.m
    ensures k in d.m ==> r == d
    ensures k !in d.m ==> r == Put(d, k, v)
  {
    if k in d.m then d else Put(d, k, v)
  }

  /** `d.get(k, default)`. */
  function Get<V>(d: OMap<V>, k: string, default: V): V
  {
    if k in d.m then d.m[k] else default
  }

  /** A dict has as many entries as its key order. */
  lemma Size<V>(d: OMap<V>)
    requires Valid(d)
    ensures |d.m| == |d.keys|
  {
    DistinctSetSize(d.keys);
    assert d.m.Keys == set x | x in d.keys;
  }
}
