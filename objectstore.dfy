/**
 * The state of the in-memory object stores: collections of named objects,
 * both kept in insertion order, and the effect of each store operation on it.
 * The two `InMemoryConnection` classes (modules T3dInMemory and
 * CompoxInMemory) are proved to change their state exactly as these
 * functions say; the lemmas below state what the functions mean.
 */
module ObjectStore {
  import opened Wrappers
  import opened OrderedMap

  /** What `put_objects` may receive: raw bytes or a (JSON) text. */
  datatype Blob = Bytes(data: seq<bv8>) | Text(text: string)

  type Collection = OMap<Blob>
  type Store = OMap<Collection>

  ghost predicate StoreValid(s: Store)
  {
    Valid(s) && forall c :: c in s.m ==> Valid(s.m[c])
  }

  /** `store.get(name, {})`. */
  function CollectionOf(s: Store, c: string): (col: Collection)
    requires StoreValid(s)
    ensures Valid(col)
  {
    if c in s.m then s.m[c] else Empty()
  }

  /** The object `n` if it is present. */
  function Lookup(col: Collection, n: string): Option<Blob>
  {
    if n in col.m then Some(col.m[n]) else None
  }

  /** `a or b` on optional values: the first one that is present. */
  function Override<T>(a: Option<T>, b: Option<T>): Option<T>
  {
    if a.Some? then a else b
  }

  /** Replaces one collection of the store, keeping the collection order. */
  function WithCollection(s: Store, c: string, col: Collection): (r: Store)
    requires StoreValid(s) && Valid(col)
    ensures StoreValid(r) && r.m == s.m[c := col]
    ensures c in s.m ==> r.keys == s.keys
  {
    Put(s, c, col)
  }

  /** Replacing a collection twice is replacing it once with the later value. */
  lemma WithCollectionTwice(s: Store, c: string, col1: Collection, col2: Collection)
    requires StoreValid(s) && c in s.m && OrderedMap.Valid(col1) && OrderedMap.Valid(col2)
    ensures WithCollection(WithCollection(s, c, col1), c, col2) == WithCollection(s, c, col2)
  {
  }

  // ---------------------------------------------------------------- collections

  /** `create_collections`: `setdefault(name, {})` for each name in turn. */
  function CreateAll(s: Store, names: seq<string>): (r: Store)
    requires StoreValid(s)
    ensures StoreValid(r)
    decreases |names|
  {
    if names == [] then s
    else CreateAll(WithCollection(s, names[0], CollectionOf(s, names[0])), names[1..])
  }

  /** `delete_collections`: `pop(name, None)` for each name in turn. */
  function DeleteAll(s: Store, names: seq<string>): (r: Store)
    requires StoreValid(s)
    ensures StoreValid(r)
    decreases |names|
  {
    if names == [] then s else DeleteAll(Pop(s, names[0]), names[1..])
  }

  // ---------------------------------------------------------------- objects

  /** The objects of `delete_objects`, popped one by one. */
  function PopAll(col: Collection, names: seq<string>): (r: Collection)
    requires Valid(col)
    ensures Valid(r)
    decreases |names|
  {
    if names == [] then col else PopAll(Pop(col, names[0]), names[1..])
  }

  /**
   * `delete_objects`: the pops act on the stored collection when there is
   * one, and on a throw-away `{}` otherwise.
   */
  function DeleteObjectsIn(s: Store, c: string, names: seq<string>): (r: Store)
    requires StoreValid(s)
    ensures StoreValid(r)
  {
    if c in s.m then WithCollection(s, c, PopAll(s.m[c], names)) else s
  }

  /** Whether a connection stores value `v`; the compox connection stores only bytes. */
  predicate Accepts(bytesOnly: bool, v: Blob)
  {
    !bytesOnly || v.Bytes?
  }

  /** The `zip(object_names, objects)` loop of `put_objects`. */
  function PutPairs(col: Collection, names: seq<string>, objs: seq<Blob>, bytesOnly: bool): (r: Collection)
    requires Valid(col)
    ensures Valid(r)
    decreases |names|
  {
    if |names| == 0 || |objs| == 0 then col
    else
      var next := if Accepts(bytesOnly, objs[0]) then Put(col, names[0], objs[0]) else col;
      PutPairs(next, names[1..], objs[1..], bytesOnly)
  }

  /** `put_objects`: `setdefault(collection, {})`, then the writes. */
  function PutIn(s: Store, c: string, names: seq<string>, objs: seq<Blob>, bytesOnly: bool): (r: Store)
    requires StoreValid(s)
    ensures StoreValid(r)
  {
    var s1 := WithCollection(s, c, CollectionOf(s, c));
    WithCollection(s1, c, PutPairs(s1.m[c], names, objs, bytesOnly))
  }

  /** The membership flags of `put_objects_with_duplicity_check`, computed before any write. */
  function Flags(col: Collection, names: seq<string>): (flags: seq<bool>)
    ensures |flags| == |names|
    ensures forall i :: 0 <= i < |names| ==> flags[i] == (names[i] in col.m)
  {
    seq(|names|, i requires 0 <= i < |names| => names[i] in col.m)
  }

  /** The `zip(object_names, objects, already_exists)` loop: writes where the flag is false. */
  function PutUnflagged(col: Collection, names: seq<string>, objs: seq<Blob>, flags: seq<bool>): (r: Collection)
    requires Valid(col)
    ensures Valid(r)
    decreases |names|
  {
    if |names| == 0 || |objs| == 0 || |flags| == 0 then col
    else
      var next := if !flags[0] then Put(col, names[0], objs[0]) else col;
      PutUnflagged(next, names[1..], objs[1..], flags[1..])
  }

  /** `put_objects_with_duplicity_check` on the state. */
  function PutNewIn(s: Store, c: string, names: seq<string>, objs: seq<Blob>): (r: Store)
    requires StoreValid(s)
    ensures StoreValid(r)
  {
    var s1 := WithCollection(s, c, CollectionOf(s, c));
    WithCollection(s1, c, PutUnflagged(s1.m[c], names, objs, Flags(s1.m[c], names)))
  }

  // ---------------------------------------------------------------- reference definitions

  /**
   * The value the last accepted write of `n` among the zipped pairs leaves
   * behind, or None when no pair writes `n`.
   */
  function LastWrite(names: seq<string>, objs: seq<Blob>, n: string, bytesOnly: bool): Option<Blob>
    decreases |names|
  {
    if |names| == 0 || |objs| == 0 then None
    else
      var here := if names[0] == n && Accepts(bytesOnly, objs[0]) then Some(objs[0]) else None;
      Override(LastWrite(names[1..], objs[1..], n, bytesOnly), here)
  }

  /** The same for the pairs whose flag is false. */
  function LastUnflaggedWrite(names: seq<string>, objs: seq<Blob>, flags: seq<bool>, n: string): Option<Blob>
    decreases |names|
  {
    if |names| == 0 || |objs| == 0 || |flags| == 0 then None
    else
      var here := if names[0] == n && !flags[0] then Some(objs[0]) else None;
      Override(LastUnflaggedWrite(names[1..], objs[1..], flags[1..], n), here)
  }

  // ---------------------------------------------------------------- properties

  /**
   * `create_collections` makes every named collection exist, leaves every
   * existing collection as it was (it never clears one) and creates nothing else.
   */
  lemma {:induction false} CreateAllSpec(s: Store, names: seq<string>, c: string)
    requires StoreValid(s)
    ensures c in CreateAll(s, names).m <==> c in s.m || c in names
    ensures c in s.m ==> CreateAll(s, names).m[c] == s.m[c]
    ensures c !in s.m && c in names ==> CreateAll(s, names).m[c].m == map[]
    decreases |names|
  {
    if names != [] {
      CreateAllSpec(WithCollection(s, names[0], CollectionOf(s, names[0])), names[1..], c);
    }
  }

  /** `delete_collections` removes exactly the named collections and keeps the others intact. */
  lemma {:induction false} DeleteAllSpec(s: Store, names: seq<string>, c: string)
    requires StoreValid(s)
    ensures c in DeleteAll(s, names).m <==> c in s.m && c !in names
    ensures c in DeleteAll(s, names).m ==> DeleteAll(s, names).m[c] == s.m[c]
    decreases |names|
  {
    if names != [] {
      DeleteAllSpec(Pop(s, names[0]), names[1..], c);
    }
  }

  /** Deleting collections none of which exists is a no-op. */
  lemma {:induction false} DeleteAllAbsent(s: Store, names: seq<string>)
    requires StoreValid(s)
    requires forall n :: n in names ==> n !in s.m
    ensures DeleteAll(s, names) == s
    decreases |names|
  {
    if names != [] {
      DeleteAllAbsent(s, names[1..]);
    }
  }

  /** `delete_objects` removes exactly the named objects of the collection and nothing else. */
  lemma {:induction false} PopAllSpec(col: Collection, names: seq<string>, n: string)
    requires Valid(col)
    ensures Lookup(PopAll(col, names), n) == if n in names then None else Lookup(col, n)
    decreases |names|
  {
    if names != [] {
      PopAllSpec(Pop(col, names[0]), names[1..], n);
    }
  }

  /** Deleting objects from a missing collection, or objects none of which exists, is a no-op. */
  lemma {:induction false} DeleteObjectsAbsent(s: Store, c: string, names: seq<string>)
    requires StoreValid(s)
    requires c in s.m ==> forall n :: n in names ==> n !in s.m[c].m
    ensures DeleteObjectsIn(s, c, names) == s
  {
    if c in s.m {
      PopAllAbsent(s.m[c], names);
      assert Put(s, c, s.m[c]) == s;
    }
  }

  lemma {:induction false} PopAllAbsent(col: Collection, names: seq<string>)
    requires Valid(col)
    requires forall n :: n in names ==> n !in col.m
    ensures PopAll(col, names) == col
    decreases |names|
  {
    if names != [] {
      PopAllAbsent(col, names[1..]);
    }
  }

  /**
   * After the writes of `put_objects`, an object holds the value of the last
   * pair that writes it, or its previous value when no pair does.
   */
  lemma {:induction false} PutPairsSpec(col: Collection, names: seq<string>, objs: seq<Blob>, bytesOnly: bool, n: string)
    requires Valid(col)
    ensures Lookup(PutPairs(col, names, objs, bytesOnly), n)
         == Override(LastWrite(names, objs, n, bytesOnly), Lookup(col, n))
    decreases |names|
  {
    if |names| > 0 && |objs| > 0 {
      var next := if Accepts(bytesOnly, objs[0]) then Put(col, names[0], objs[0]) else col;
      PutPairsSpec(next, names[1..], objs[1..], bytesOnly, n);
    }
  }

  /** The same for the writes of the duplicity-checked put. */
  lemma {:induction false} PutUnflaggedSpec(col: Collection, names: seq<string>, objs: seq<Blob>, flags: seq<bool>, n: string)
    requires Valid(col)
    ensures Lookup(PutUnflagged(col, names, objs, flags), n)
         == Override(LastUnflaggedWrite(names, objs, flags, n), Lookup(col, n))
    decreases |names|
  {
    if |names| > 0 && |objs| > 0 && |flags| > 0 {
      var next := if !flags[0] then Put(col, names[0], objs[0]) else col;
      PutUnflaggedSpec(next, names[1..], objs[1..], flags[1..], n);
    }
  }

  /** A name flagged as present everywhere it occurs is never written. */
  lemma {:induction false} UnflaggedSkipsPresent(names: seq<string>, objs: seq<Blob>, flags: seq<bool>, n: string)
    requires |flags| == |names|
    requires forall i :: 0 <= i < |names| && names[i] == n ==> flags[i]
    ensures LastUnflaggedWrite(names, objs, flags, n) == None
    decreases |names|
  {
    if |names| > 0 && |objs| > 0 {
      UnflaggedSkipsPresent(names[1..], objs[1..], flags[1..], n);
    }
  }

  /** A name flagged as absent everywhere it occurs is written as an ordinary put would. */
  lemma {:induction false} UnflaggedWritesAbsent(names: seq<string>, objs: seq<Blob>, flags: seq<bool>, n: string)
    requires |flags| == |names|
    requires forall i :: 0 <= i < |names| && names[i] == n ==> !flags[i]
    ensures LastUnflaggedWrite(names, objs, flags, n) == LastWrite(names, objs, n, false)
    decreases |names|
  {
    if |names| > 0 && |objs| > 0 {
      UnflaggedWritesAbsent(names[1..], objs[1..], flags[1..], n);
    }
  }

  /**
   * `put_objects` creates the collection when it is missing and leaves all
   * other collections alone; within it, each object ends with its last write.
   */
  lemma PutInSpec(s: Store, c: string, names: seq<string>, objs: seq<Blob>, bytesOnly: bool, n: string)
    requires StoreValid(s)
    ensures c in PutIn(s, c, names, objs, bytesOnly).m
    ensures forall d :: d != c ==> (d in PutIn(s, c, names, objs, bytesOnly).m <==> d in s.m)
    ensures forall d :: d != c && d in s.m ==> PutIn(s, c, names, objs, bytesOnly).m[d] == s.m[d]
    ensures Lookup(PutIn(s, c, names, objs, bytesOnly).m[c], n)
         == Override(LastWrite(names, objs, n, bytesOnly), Lookup(CollectionOf(s, c), n))
  {
    PutPairsSpec(CollectionOf(s, c), names, objs, bytesOnly, n);
  }

  /** A put of one object followed by a get of the same name returns the object put. */
  lemma PutThenGet(s: Store, c: string, n: string, v: Blob, bytesOnly: bool)
    requires StoreValid(s) && Accepts(bytesOnly, v)
    ensures Lookup(PutIn(s, c, [n], [v], bytesOnly).m[c], n) == Some(v)
  {
    PutInSpec(s, c, [n], [v], bytesOnly, n);
    assert LastWrite([n], [v], n, bytesOnly) == Some(v);
  }

  /** Of two puts of the same name in one call, the later one wins. */
  lemma LaterPutWins(s: Store, c: string, n: string, v: Blob, w: Blob)
    requires StoreValid(s)
    ensures Lookup(PutIn(s, c, [n, n], [v, w], false).m[c], n) == Some(w)
  {
    PutInSpec(s, c, [n, n], [v, w], false, n);
    assert [n, n][1..] == [n] && [v, w][1..] == [w];
    assert LastWrite([n], [w], n, false) == Some(w);
  }

  /** A store that keeps only bytes leaves a name untouched when every value zipped with it is text. */
  lemma {:induction false} TextIsDropped(names: seq<string>, objs: seq<Blob>, n: string)
    requires forall i :: 0 <= i < |names| && i < |objs| && names[i] == n ==> objs[i].Text?
    ensures LastWrite(names, objs, n, true) == None
    decreases |names|
  {
    if |names| > 0 && |objs| > 0 {
      TextIsDropped(names[1..], objs[1..], n);
    }
  }

  /**
   * `put_objects_with_duplicity_check` leaves every object that existed
   * before the call as it was, and writes every other name as a plain put
   * would; the flags it returns are the membership before the call.
   */
  lemma PutNewInSpec(s: Store, c: string, names: seq<string>, objs: seq<Blob>, n: string)
    requires StoreValid(s)
    ensures forall d :: d != c && d in s.m ==> PutNewIn(s, c, names, objs).m[d] == s.m[d]
    ensures n in CollectionOf(s, c).m ==> Lookup(PutNewIn(s, c, names, objs).m[c], n) == Lookup(CollectionOf(s, c), n)
    ensures n !in CollectionOf(s, c).m ==> Lookup(PutNewIn(s, c, names, objs).m[c], n) == LastWrite(names, objs, n, false)
  {
    var col := CollectionOf(s, c);
    var flags := Flags(col, names);
    PutUnflaggedSpec(col, names, objs, flags, n);
    if n in col.m {
      UnflaggedSkipsPresent(names, objs, flags, n);
    } else {
      UnflaggedWritesAbsent(names, objs, flags, n);
    }
  }
}
