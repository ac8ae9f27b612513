/**
 * The t3d_server in-memory object store: a nested dict of collections of
 * objects, used for testing and as the reference store of the system. It
 * stores whatever value it is given.
 */
module T3dInMemory {
  import opened Wrappers
  import OrderedMap
  import opened PyList
  import opened ObjectStore

  class InMemoryConnection {
    var store: Store

    ghost predicate Valid()
      reads this
    {
      StoreValid(store)
    }

    constructor ()
      ensures Valid() && store.keys == [] && store.m == map[]
    {
      store := OrderedMap.Empty();
    }

    /** `list_collections`: every collection once, in creation order. */
    method ListCollections() returns (names: seq<string>)
      requires Valid()
      ensures Distinct(names) && forall c :: c in names <==> c in store.m
      ensures names == store.keys
    {
      names := store.keys;
    }

    /** `check_collections_exists`: one existence flag per name. */
    method CheckCollectionsExists(names: seq<string>) returns (flags: seq<bool>)
      requires Valid()
      ensures |flags| == |names|
      ensures forall i :: 0 <= i < |names| ==> flags[i] == (names[i] in store.m)
    {
      var cols := store.m;
      flags := seq(|names|, i requires 0 <= i < |names| => names[i] in cols);
    }

    method CreateCollections(names: seq<string>)
      requires Valid()
      modifies this
      ensures Valid() && store == CreateAll(old(store), names)
    {
      var i := 0;
      while i < |names|
        invariant 0 <= i <= |names| && Valid()
        invariant CreateAll(store, names[i..]) == CreateAll(old(store), names)
      {
        assert names[i..][1..] == names[i + 1..];
        store := WithCollection(store, names[i], CollectionOf(store, names[i]));
        i := i + 1;
      }
    }

    method DeleteCollections(names: seq<string>)
      requires Valid()
      modifies this
      ensures Valid() && store == DeleteAll(old(store), names)
    {
      var i := 0;
      while i < |names|
        invariant 0 <= i <= |names| && Valid()
        invariant DeleteAll(store, names[i..]) == DeleteAll(old(store), names)
      {
        assert names[i..][1..] == names[i + 1..];
        store := OrderedMap.Pop(store, names[i]);
        i := i + 1;
      }
    }

    /** `list_objects`: the object names in insertion order, none for a missing collection. */
    method ListObjects(c: string) returns (names: seq<string>)
      requires Valid()
      ensures c !in store.m ==> names == []
      ensures Distinct(names) && forall n :: n in names <==> n in CollectionOf(store, c).m
      ensures c in store.m ==> names == store.m[c].keys
    {
      names := CollectionOf(store, c).keys;
    }

    method CheckObjectsExist(c: string, names: seq<string>) returns (flags: seq<bool>)
      requires Valid()
      ensures |flags| == |names|
      ensures forall i :: 0 <= i < |names| ==> flags[i] == (c in store.m && names[i] in store.m[c].m)
    {
      var col := CollectionOf(store, c);
      flags := seq(|names|, i requires 0 <= i < |names| => names[i] in col.m);
    }

    method DeleteObjects(c: string, names: seq<string>)
      requires Valid()
      modifies this
      ensures Valid() && store == DeleteObjectsIn(old(store), c, names)
    {
      var col := CollectionOf(store, c);
      ghost var s0 := store;
      if c in s0.m {
        assert WithCollection(s0, c, col) == s0;
      }
      var rest := names;
      while rest != []
        invariant OrderedMap.Valid(col)
        invariant PopAll(col, rest) == PopAll(CollectionOf(s0, c), names)
        invariant store == if c in s0.m then WithCollection(s0, c, col) else s0
        decreases |rest|
      {
        var col1 := OrderedMap.Pop(col, rest[0]);
        if c in store.m {
          WithCollectionTwice(s0, c, col, col1);
          store := WithCollection(store, c, col1);
        }
        col := col1;
        rest := rest[1..];
      }
    }

    /** `get_objects`: the named objects in order; KeyError if one of them is missing. */
    method GetObjects(c: string, names: seq<string>) returns (r: Result<seq<Blob>>)
      requires Valid()
      ensures r.Ok? <==> forall n :: n in names ==> n in CollectionOf(store, c).m
      ensures r.Ok? ==> |r.value| == |names|
      ensures r.Ok? ==> forall i :: 0 <= i < |names| ==> r.value[i] == CollectionOf(store, c).m[names[i]]
      ensures r.Err? ==> r.exc.KeyError?
    {
      var col := CollectionOf(store, c);
      var out: seq<Blob> := [];
      var i := 0;
      while i < |names|
        invariant 0 <= i <= |names| && |out| == i
        invariant forall j :: 0 <= j < i ==> names[j] in col.m && out[j] == col.m[names[j]]
      {
        if names[i] !in col.m {
          return Err(KeyError(names[i]));
        }
        out := out + [col.m[names[i]]];
        i := i + 1;
      }
      return Ok(out);
    }

    method PutObjects(c: string, names: seq<string>, objs: seq<Blob>)
      requires Valid()
      modifies this
      ensures Valid() && store == PutIn(old(store), c, names, objs, false)
    {
      store := WithCollection(store, c, CollectionOf(store, c));
      ghost var s1 := store;
      var col := store.m[c];
      var ns, os := names, objs;
      assert WithCollection(s1, c, col) == s1;
      while ns != [] && os != []
        invariant OrderedMap.Valid(col)
        invariant store == WithCollection(s1, c, col)
        invariant PutPairs(col, ns, os, false) == PutPairs(s1.m[c], names, objs, false)
        decreases |ns|
      {
        var next := OrderedMap.Put(col, ns[0], os[0]);
        WithCollectionTwice(s1, c, col, next);
        col := next;
        store := WithCollection(store, c, col);
        ns, os := ns[1..], os[1..];
      }
    }

    /**
     * `put_objects_with_duplicity_check`: the flags say which names existed
     * before the call; only the others are written.
     */
    method PutObjectsWithDuplicityCheck(c: string, names: seq<string>, objs: seq<Blob>) returns (flags: seq<bool>)
      requires Valid()
      modifies this
      ensures Valid() && store == PutNewIn(old(store), c, names, objs)
      ensures flags == Flags(CollectionOf(old(store), c), names)
    {
      store := WithCollection(store, c, CollectionOf(store, c));
      ghost var s1 := store;
      var col := store.m[c];
      flags := Flags(col, names);
      var ns, os, fs := names, objs, flags;
      assert WithCollection(s1, c, col) == s1;
      while ns != [] && os != [] && fs != []
        invariant OrderedMap.Valid(col)
        invariant store == WithCollection(s1, c, col)
        invariant PutUnflagged(col, ns, os, fs) == PutUnflagged(s1.m[c], names, objs, flags)
        decreases |ns|
      {
        if !fs[0] {
          var next := OrderedMap.Put(col, ns[0], os[0]);
          WithCollectionTwice(s1, c, col, next);
          col := next;
          store := WithCollection(store, c, col);
        }
        ns, os, fs := ns[1..], os[1..], fs[1..];
      }
    }
  }
}
