/**
 * Helpers of the execution server: uuid version selection, the algorithm-key
 * parser `find_algorithm_by_id`, the LRU decorators `algorithm_cache` and
 * `data_cache`, and the creation of missing store collections.
 */
module ServerUtils {
  import opened Wrappers
  import opened PyStr
  import opened PyList
  import ObjectStore
  import T3dInMemory

  // ---------------------------------------------------------------- generate_uuid

  /**
   * `generate_uuid(version)`: a time-based uuid for version 1, a random one
   * for version 4; the two candidate uuids are inputs of the model.
   */
  function GenerateUuid(version: int, uuid1: string, uuid4: string): (r: Result<string>)
    ensures r.Ok? <==> version == 1 || version == 4
    ensures version == 1 ==> r == Ok(uuid1)
    ensures version == 4 ==> r == Ok(uuid4)
    ensures r.Err? ==> r.exc.ValueError?
  {
    if version == 1 then Ok(uuid1)
    else if version == 4 then Ok(uuid4)
    else Err(ValueError("uuid version must be 1 or 4"))
  }

  // ---------------------------------------------------------------- find_algorithm_by_id

  /** The five fields `find_algorithm_by_id` returns for a match. */
  datatype AlgorithmRef = AlgorithmRef(key: string, id: string, name: string, major: int, minor: int)

  const Separator: char := '~'

  /** Python's complaint when `n` values are unpacked into the four names. */
  function UnpackMessage(n: nat): string
  {
    if n > 4 then "too many values to unpack (expected 4)"
    else "not enough values to unpack (expected 4, got " + NatToString(n) + ")"
  }

  /**
   * The search, key by key: a key that does not split into exactly four
   * fields fails the tuple unpacking (ValueError) whether or not it would
   * match; the first key whose id field equals `id` is the answer, with its
   * versions converted by `int()`; no match gives the five Nones (None here).
   */
  function FindSpec(id: string, keys: seq<string>): Result<Option<AlgorithmRef>>
  {
    if keys == [] then Ok(None)
    else
      var parts := Split(keys[0], Separator);
      if |parts| != 4 then Err(ValueError(UnpackMessage(|parts|)))
      else if parts[0] == id then
        var major :- ParseInt(parts[2]);
        var minor :- ParseInt(parts[3]);
        Ok(Some(AlgorithmRef(keys[0], parts[0], parts[1], major, minor)))
      else FindSpec(id, keys[1..])
  }

  /** `find_algorithm_by_id` over the store's key listing, as the loop with early return it is. */
  method FindAlgorithmById(id: string, keys: seq<string>) returns (r: Result<Option<AlgorithmRef>>)
    ensures r == FindSpec(id, keys)
  {
    var i := 0;
    while i < |keys|
      invariant 0 <= i <= |keys|
      invariant FindSpec(id, keys[i..]) == FindSpec(id, keys)
    {
      assert keys[i..][1..] == keys[i + 1..];
      var parts := Split(keys[i], Separator);
      if |parts| != 4 {
        return Err(ValueError(UnpackMessage(|parts|)));
      }
      if parts[0] == id {
        var major := ParseInt(parts[2]);
        if major.Err? {
          return Err(major.exc);
        }
        var minor := ParseInt(parts[3]);
        if minor.Err? {
          return Err(minor.exc);
        }
        return Ok(Some(AlgorithmRef(keys[i], parts[0], parts[1], major.value, minor.value)));
      }
      i := i + 1;
    }
    return Ok(None);
  }

  /** Every key splits into four fields and none carries `id`. */
  predicate NoMatch(id: string, keys: seq<string>)
  {
    forall k :: k in keys ==> |Split(k, Separator)| == 4 && Split(k, Separator)[0] != id
  }

  /** The five Nones come back exactly when every key is well formed and none matches. */
  lemma {:induction false} FindNoneIff(id: string, keys: seq<string>)
    ensures FindSpec(id, keys) == Ok(None) <==> NoMatch(id, keys)
  {
    if keys != [] {
      FindNoneIff(id, keys[1..]);
      assert forall k :: k in keys <==> k == keys[0] || k in keys[1..];
    }
  }

  /**
   * A match is the first key whose id field is `id`; every key before it
   * is well formed and carries another id, and the versions are `int()` of
   * the third and fourth fields.
   */
  lemma {:induction false} FindFirstMatch(id: string, keys: seq<string>)
    requires FindSpec(id, keys).Ok? && FindSpec(id, keys).value.Some?
    ensures var a := FindSpec(id, keys).value.value;
      exists i :: 0 <= i < |keys| && keys[i] == a.key && NoMatch(id, keys[..i])
        && |Split(a.key, Separator)| == 4
        && Split(a.key, Separator)[0] == id == a.id && Split(a.key, Separator)[1] == a.name
        && ParseInt(Split(a.key, Separator)[2]) == Ok(a.major)
        && ParseInt(Split(a.key, Separator)[3]) == Ok(a.minor)
  {
    var a := FindSpec(id, keys).value.value;
    var parts := Split(keys[0], Separator);
    if parts[0] == id {
      assert keys[..0] == [];
    } else {
      FindFirstMatch(id, keys[1..]);
      var i :| 0 <= i < |keys[1..]| && keys[1..][i] == a.key && NoMatch(id, keys[1..][..i])
        && |Split(a.key, Separator)| == 4
        && Split(a.key, Separator)[0] == id == a.id && Split(a.key, Separator)[1] == a.name && ParseInt(Split(a.key, Separator)[2]) == Ok(a.major) && ParseInt(Split(a.key, Separator)[3]) == Ok(a.minor);
      assert keys[..i + 1] == [keys[0]] + keys[1..][..i];
      assert keys[i + 1] == a.key;
    }
  }

  // ---------------------------------------------------------------- algorithm_cache / data_cache

  /** `"".join([str(arg) for arg in args])`, the arguments already rendered by `str`; `self` takes no part. */
  function CacheKey(args: seq<string>): string
  {
    Join(args, "")
  }

  /** The closure state of one decorated function: the `cache` dict and the `access_order` deque. */
  datatype LruState<V> = LruState(cache: map<string, V>, order: seq<string>)

  /** The deque lists each cached key once, and the size respects the limit. */
  ghost predicate LruInv<V>(st: LruState<V>, maxsize: Option<nat>)
  {
    Distinct(st.order)
    && (forall k :: k in st.order <==> k in st.cache)
    && (maxsize.Some? ==> |st.order| <= maxsize.value)
  }

  /**
   * One call of the decorated function with cache key `key`: a hit returns
   * the cached result without calling the function and moves the key to
   * the most-recent end; a miss stores `computed` (what the function
   * returns) and, past the limit, drops the least recently used key.
   * The third component says whether the function was called.
   */
  function Access<V>(st: LruState<V>, maxsize: Option<nat>, key: string, computed: V): (LruState<V>, V, bool)
  {
    if key in st.cache then
      (LruState(st.cache, RemoveFirst(st.order, key) + [key]), st.cache[key], false)
    else
      var cache1 := st.cache[key := computed];
      var order1 := st.order + [key];
      if maxsize.Some? && |cache1| > maxsize.value then
        (LruState(cache1 - {order1[0]}, order1[1..]), computed, true)
      else
        (LruState(cache1, order1), computed, true)
  }

  /** With the invariant, the dict has exactly as many entries as the deque. */
  lemma CacheSize<V>(st: LruState<V>, maxsize: Option<nat>)
    requires LruInv(st, maxsize)
    ensures |st.cache| == |st.order|
  {
    DistinctSetSize(st.order);
    assert st.cache.Keys == set x | x in st.order;
  }

  /** Every call keeps the deque and the dict in step and the size within the limit. */
  lemma AccessKeepsInv<V>(st: LruState<V>, maxsize: Option<nat>, key: string, computed: V)
    requires LruInv(st, maxsize)
    ensures LruInv(Access(st, maxsize, key, computed).0, maxsize)
  {
    CacheSize(st, maxsize);
    if key in st.cache {
      RemoveFirstDistinct(st.order, key);
      AppendDistinct(RemoveFirst(st.order, key), key);
      forall k ensures k in RemoveFirst(st.order, key) + [key] <==> k in st.cache {
        if k != key {
          RemoveFirstMembers(st.order, key, k);
        }
      }
      assert |RemoveFirst(st.order, key)| == |st.order| - 1 by {
        assert |multiset(RemoveFirst(st.order, key))| == |multiset(st.order)| - 1;
      }
    } else {
      AppendDistinct(st.order, key);
      var order1 := st.order + [key];
      assert |st.cache[key := computed]| == |st.cache| + 1;
      if maxsize.Some? && |st.order| + 1 > maxsize.value {
        TailDistinct(order1);
        forall k ensures k in order1[1..] <==> k in st.cache[key := computed] - {order1[0]} {
          assert k in order1 <==> k == order1[0] || k in order1[1..];
        }
      }
    }
  }

  /** A hit returns the stored result, does not call the function, and makes the key the most recent. */
  lemma AccessHit<V>(st: LruState<V>, maxsize: Option<nat>, key: string, computed: V)
    requires LruInv(st, maxsize) && key in st.cache
    ensures var (st', result, called) := Access(st, maxsize, key, computed);
      result == st.cache[key] && !called && st'.cache == st.cache
      && st'.order[|st'.order| - 1] == key
      && st'.order[..|st'.order| - 1] == RemoveFirst(st.order, key)
  {
  }

  /**
   * A miss past the limit evicts the least recently used key, the front of
   * the deque, and keeps the new result.
   */
  lemma AccessEvictsLru<V>(st: LruState<V>, m: nat, key: string, computed: V)
    requires LruInv(st, Some(m)) && key !in st.cache && |st.order| + 1 > m
    ensures var (st', result, called) := Access(st, Some(m), key, computed);
      result == computed && called
      && st'.cache.Keys == (st.cache.Keys + {key}) - {(st.order + [key])[0]}
      && st'.order == (st.order + [key])[1..]
  {
    CacheSize(st, Some(m));
    assert |st.cache[key := computed]| == |st.cache| + 1;
  }

  /** A miss within the limit keeps every entry and adds the new one at the most-recent end. */
  lemma AccessStores<V>(st: LruState<V>, maxsize: Option<nat>, key: string, computed: V)
    requires LruInv(st, maxsize) && key !in st.cache
    requires maxsize.Some? ==> |st.order| + 1 <= maxsize.value
    ensures var (st', result, called) := Access(st, maxsize, key, computed);
      result == computed && called && st'.cache == st.cache[key := computed] && st'.order == st.order + [key]
  {
    CacheSize(st, maxsize);
    assert |st.cache[key := computed]| == |st.cache| + 1;
  }

  /**
   * After a miss the key holds the new result, and every other entry left
   * is one that was cached before, unchanged.
   */
  lemma AccessMissKeeps<V>(st: LruState<V>, maxsize: Option<nat>, key: string, computed: V)
    requires LruInv(st, maxsize) && key !in st.cache && maxsize != Some(0)
    ensures var c := Access(st, maxsize, key, computed).0.cache;
      key in c && c[key] == computed
      && forall k :: k in c && k != key ==> k in st.cache && c[k] == st.cache[k]
  {
    CacheSize(st, maxsize);
    assert |st.cache[key := computed]| == |st.cache| + 1;
    if st.order != [] {
      assert (st.order + [key])[0] == st.order[0] && st.order[0] in st.cache;
    }
  }

  /** With `maxsize=1` a cache holding `key` holds nothing else. */
  lemma OnlyKey<V>(st: LruState<V>, key: string)
    requires LruInv(st, Some(1)) && key in st.cache
    ensures forall k :: k in st.cache ==> k == key
  {
    assert key in st.order;
  }

  /** Argument lists with the same concatenation share one cache entry. */
  lemma KeysCollide()
    ensures CacheKey(["ab", "c"]) == CacheKey(["a", "bc"])
  {
    assert Join(["c"], "") == "c" && Join(["bc"], "") == "bc";
  }

  /**
   * The decorator state, one object per decorated function: `algorithm_cache`
   * and `data_cache` are the same code, so one class models both.
   */
  class LruCache<V> {
    var cache: map<string, V>
    var accessOrder: seq<string>
    const maxsize: Option<nat>

    ghost predicate Valid()
      reads this
    {
      LruInv(LruState(cache, accessOrder), maxsize)
    }

    constructor (maxsize: Option<nat>)
      ensures Valid() && this.maxsize == maxsize && cache == map[] && accessOrder == []
    {
      this.maxsize := maxsize;
      cache := map[];
      accessOrder := [];
    }

    /**
     * `inner_wrapper(self, *args)`; `computed` stands for what the wrapped
     * function would return, and `called` says whether it was invoked.
     */
    method Call(args: seq<string>, computed: V) returns (result: V, called: bool)
      requires Valid()
      modifies this
      ensures Valid()
      ensures (LruState(cache, accessOrder), result, called)
           == Access(LruState(old(cache), old(accessOrder)), maxsize, CacheKey(args), computed)
    {
      AccessKeepsInv(LruState(cache, accessOrder), maxsize, CacheKey(args), computed);
      var key := Join(args, "");
      if key in cache {
        accessOrder := RemoveFirst(accessOrder, key);
        accessOrder := accessOrder + [key];
        return cache[key], false;
      }
      result := computed;
      called := true;
      cache := cache[key := result];
      accessOrder := accessOrder + [key];
      if maxsize.Some? && |cache| > maxsize.value {
        var oldest := accessOrder[0];
        accessOrder := accessOrder[1..];
        cache := cache - {oldest};
      }
    }
  }

  // ---------------------------------------------------------------- collections

  /** The comprehension of `check_and_create_database_collections`: the names whose flag is false, in order. */
  function Unflagged(names: seq<string>, flags: seq<bool>): seq<string>
    requires |flags| == |names|
  {
    if names == [] then [] else (if flags[0] then [] else [names[0]]) + Unflagged(names[1..], flags[1..])
  }

  /** The names of `names` that are not collections of the store, in input order. */
  function MissingCollections(s: ObjectStore.Store, names: seq<string>): (r: seq<string>)
  {
    if names == [] then [] else (if names[0] in s.m then [] else [names[0]]) + MissingCollections(s, names[1..])
  }

  lemma {:induction false} UnflaggedIsMissing(s: ObjectStore.Store, names: seq<string>, flags: seq<bool>)
    requires |flags| == |names|
    requires forall i :: 0 <= i < |names| ==> flags[i] == (names[i] in s.m)
    ensures Unflagged(names, flags) == MissingCollections(s, names)
  {
    if names != [] {
      UnflaggedIsMissing(s, names[1..], flags[1..]);
    }
  }

  /** The missing names are exactly the input names absent from the store. */
  lemma {:induction false} MissingCollectionsMembers(s: ObjectStore.Store, names: seq<string>, c: string)
    ensures c in MissingCollections(s, names) <==> c in names && c !in s.m
  {
    if names != [] {
      MissingCollectionsMembers(s, names[1..], c);
    }
  }

  /**
   * `check_and_create_database_collections` against the in-memory store:
   * it returns the missing names in input order and creates exactly those,
   * calling `create_collections` only when there is at least one.
   */
  method CheckAndCreateDatabaseCollections(names: seq<string>, conn: T3dInMemory.InMemoryConnection)
    returns (created: seq<string>)
    requires conn.Valid()
    modifies conn
    ensures conn.Valid()
    ensures created == MissingCollections(old(conn.store), names)
    ensures created == [] ==> conn.store == old(conn.store)
    ensures created != [] ==> conn.store == ObjectStore.CreateAll(old(conn.store), created)
  {
    var flags := conn.CheckCollectionsExists(names);
    UnflaggedIsMissing(conn.store, names, flags);
    created := Unflagged(names, flags);
    if |created| > 0 {
      conn.CreateCollections(created);
    }
  }

  /** After the call every requested collection exists, and existing ones are untouched. */
  lemma CheckAndCreateOutcome(s: ObjectStore.Store, names: seq<string>, c: string)
    requires ObjectStore.StoreValid(s)
    ensures var s' := ObjectStore.CreateAll(s, MissingCollections(s, names));
      (c in names ==> c in s'.m) && (c in s.m ==> c in s'.m && s'.m[c] == s.m[c])
      && (c !in s.m && c !in names ==> c !in s'.m)
  {
    MissingCollectionsMembers(s, names, c);
    ObjectStore.CreateAllSpec(s, MissingCollections(s, names), c);
  }
}
