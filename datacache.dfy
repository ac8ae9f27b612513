/**
 * The per-session data cache: a dict of items, the list `cache_keys` that
 * orders them from least to most recently used, and the two histories of
 * keys evicted for size and for memory.
 *
 * `add_item` as written lets a key that is already cached be appended to
 * `cache_keys` a second time; with a later `remove_item` the list keeps a
 * stale key and the size bound breaks (see AsWrittenExceedsMaxSize). The
 * class below runs `add_item` as written and keeps the weaker invariant
 * `WeakInv` that the program does preserve; `AddCorrected` states the
 * evidently intended behaviour, for which `Inv` and the bound are proved.
 */
module SessionCache {
  import opened Wrappers
  import opened PyList
  import OrderedMap

  /** A cached object; `size` stands for `sys.getsizeof` of it, in bytes. */
  datatype Item = Item(content: string, size: nat)

  const BytesPerMb: nat := 1048576
  const DefaultMaxSize: int := 5

  datatype CacheState = CacheState(
    cache: OrderedMap.OMap<Item>,
    keys: seq<string>,
    removedLen: seq<string>,
    removedMem: seq<string>)

  /** A state together with the exception that ended the operation, if any. */
  datatype Step = Step(st: CacheState, err: Option<Exc>)

  ghost predicate WellFormed(st: CacheState)
  {
    OrderedMap.Valid(st.cache)
  }

  /**
   * The intended invariant: `cache_keys` lists every cached key exactly once
   * and the cache holds at most `max_size` items.
   */
  ghost predicate Inv(st: CacheState, maxSize: int)
  {
    WellFormed(st)
    && Distinct(st.keys)
    && (forall k :: k in st.keys <==> k in st.cache.m)
    && |st.cache.m| <= (if maxSize < 0 then 0 else maxSize)
  }

  /**
   * What the program as written preserves: every cached key is listed in
   * `cache_keys` (possibly more than once, and the list may hold keys no
   * longer cached), and with `max_size <= 0` nothing is ever listed.
   */
  ghost predicate WeakInv(st: CacheState, maxSize: int)
  {
    WellFormed(st)
    && (forall k :: k in st.cache.m ==> k in st.keys)
    && (maxSize <= 0 ==> st.keys == [])
  }

  function SumSizes(ks: seq<string>, m: map<string, Item>): nat
    requires forall k :: k in ks ==> k in m
  {
    if ks == [] then 0 else m[ks[0]].size + SumSizes(ks[1..], m)
  }

  /** `_get_memory_usage()` in bytes: the sizes of all cached values. */
  function Usage(c: OrderedMap.OMap<Item>): nat
    requires OrderedMap.Valid(c)
  {
    SumSizes(c.keys, c.m)
  }

  /** Whether usage reaches a limit of `mb` megabytes (`usage / 1024**2 >= mb`). */
  predicate OverMemory(c: OrderedMap.OMap<Item>, mb: int)
    requires OrderedMap.Valid(c)
  {
    Usage(c) >= mb * BytesPerMb
  }

  /** `remove_item(key)`: only a cached key is removed, from the dict and once from the list. */
  function AfterRemove(st: CacheState, key: string): (r: CacheState)
    requires WellFormed(st)
    ensures WellFormed(r) && |r.keys| <= |st.keys|
    ensures r.removedLen == st.removedLen && r.removedMem == st.removedMem
  {
    if key in st.cache.m then st.(cache := OrderedMap.Pop(st.cache, key), keys := RemoveFirst(st.keys, key))
    else st
  }

  /** `key = cache_keys.pop(0)` followed by `remove_item(key)`. */
  function PopOldest(st: CacheState): (r: CacheState)
    requires WellFormed(st) && st.keys != []
    ensures WellFormed(r) && |r.keys| < |st.keys|
    ensures r.removedLen == st.removedLen && r.removedMem == st.removedMem
  {
    AfterRemove(st.(keys := st.keys[1..]), st.keys[0])
  }

  /** The size check of `add_item`: when the cache is full, evict the oldest key. */
  function SizeStep(st: CacheState, maxSize: int): (r: Step)
    requires WellFormed(st)
    ensures WellFormed(r.st)
  {
    if |st.cache.m| >= maxSize then
      if st.keys == [] then Step(st, Some(IndexError))
      else
        var st1 := PopOldest(st);
        Step(st1.(removedLen := st1.removedLen + [st.keys[0]]), None)
    else Step(st, None)
  }

  /** The memory loop of `add_item`: evict oldest keys while usage reaches the limit and more than one item is cached. */
  function MemoryLoop(st: CacheState, mb: int): (r: Step)
    requires WellFormed(st)
    ensures WellFormed(r.st)
    decreases |st.keys|
  {
    if OverMemory(st.cache, mb) && |st.cache.m| > 1 then
      if st.keys == [] then Step(st, Some(IndexError))
      else
        var st1 := PopOldest(st);
        MemoryLoop(st1.(removedMem := st1.removedMem + [st.keys[0]]), mb)
    else Step(st, None)
  }

  /** The evictions of `add_item`, before the new item is stored. */
  function Evictions(st: CacheState, maxSize: int, maxMemoryMb: Option<int>): (r: Step)
    requires WellFormed(st)
    ensures WellFormed(r.st)
  {
    var s1 := SizeStep(st, maxSize);
    if s1.err.Some? then s1
    else if maxMemoryMb.Some? then MemoryLoop(s1.st, maxMemoryMb.value)
    else s1
  }

  /** `add_item(obj, key)` as written: the key is appended even when it is already listed. */
  function AddAsWritten(st: CacheState, maxSize: int, maxMemoryMb: Option<int>, key: string, obj: Item): (r: Step)
    requires WellFormed(st)
    ensures WellFormed(r.st)
  {
    var e := Evictions(st, maxSize, maxMemoryMb);
    if e.err.Some? then e
    else Step(e.st.(cache := OrderedMap.Put(e.st.cache, key, obj), keys := e.st.keys + [key]), None)
  }

  /** `add_item(obj, key)` corrected: a key already listed is moved to the end, not listed twice. */
  function AddCorrected(st: CacheState, maxSize: int, maxMemoryMb: Option<int>, key: string, obj: Item): (r: Step)
    requires WellFormed(st)
    ensures WellFormed(r.st)
  {
    var e := Evictions(st, maxSize, maxMemoryMb);
    if e.err.Some? then e
    else Step(e.st.(cache := OrderedMap.Put(e.st.cache, key, obj), keys := RemoveFirst(e.st.keys, key) + [key]), None)
  }

  const SizeTail: string := " was removed from the cache due to exceeding the maximum cache size. Consider increasing the cache size."
  const MemoryTail: string := " was removed from the cache due to exceeding the maximum memory limit. Consider increasing the memory limit."

  function SizeMessage(key: string): string
  {
    "Key " + key + SizeTail
  }

  function MemoryMessage(key: string): string
  {
    "Key " + key + MemoryTail
  }

  function NotFoundMessage(key: string): string
  {
    "Key " + key + " not found in cache."
  }

  /** Why a key is missing, in the order `__getitem__` asks. */
  function MissMessage(st: CacheState, key: string): string
  {
    if key in st.removedLen then SizeMessage(key)
    else if key in st.removedMem then MemoryMessage(key)
    else NotFoundMessage(key)
  }

  /** `__getitem__(key)`: the item and the key moved to the most-recent end, or a KeyError. */
  function Get(st: CacheState, key: string): (Result<Item>, CacheState)
  {
    if key in st.cache.m then (Ok(st.cache.m[key]), st.(keys := RemoveFirst(st.keys, key) + [key]))
    else (Err(KeyError(MissMessage(st, key))), st)
  }

  // ---------------------------------------------------------------- properties

  /** Removing a key keeps the invariant, drops the key from both the dict and the list, and touches nothing else. */
  lemma RemoveItemSpec(st: CacheState, maxSize: int, key: string)
    requires Inv(st, maxSize)
    ensures var r := AfterRemove(st, key);
      Inv(r, maxSize) && key !in r.cache.m && key !in r.keys
      && r.cache.m == st.cache.m - {key}
      && (key !in st.cache.m ==> r == st)
  {
    var r := AfterRemove(st, key);
    if key in st.cache.m {
      RemoveFirstDistinct(st.keys, key);
      forall k ensures k in r.keys <==> k in r.cache.m {
        if k != key {
          RemoveFirstMembers(st.keys, key, k);
        }
      }
      OrderedMap.Size(st.cache);
      OrderedMap.Size(r.cache);
    }
  }

  /** Evicting the oldest key keeps the invariant and removes exactly that key. */
  lemma PopOldestSpec(st: CacheState, maxSize: int)
    requires Inv(st, maxSize) && st.keys != []
    ensures var r := PopOldest(st);
      Inv(r, maxSize) && r.keys == st.keys[1..] && r.cache.m == st.cache.m - {st.keys[0]}
      && |r.cache.m| == |st.cache.m| - 1
  {
    var k := st.keys[0];
    TailDistinct(st.keys);
    RemoveFirstAbsent(st.keys[1..], k);
    var r := PopOldest(st);
    forall j ensures j in r.keys <==> j in r.cache.m {
      assert j in st.keys <==> j == k || j in st.keys[1..];
    }
    OrderedMap.Size(st.cache);
    OrderedMap.Size(r.cache);
  }

  /** A full cache loses exactly its oldest key, which is recorded as evicted for size. */
  lemma SizeStepSpec(st: CacheState, maxSize: int)
    requires Inv(st, maxSize) && maxSize >= 1
    ensures var r := SizeStep(st, maxSize);
      r.err == None && Inv(r.st, maxSize) && |r.st.cache.m| < maxSize
      && r.st.removedMem == st.removedMem
      && (|st.cache.m| >= maxSize ==>
            r.st.keys == st.keys[1..] && r.st.removedLen == st.removedLen + [st.keys[0]]
            && r.st.cache.m == st.cache.m - {st.keys[0]})
      && (|st.cache.m| < maxSize ==> r.st == st)
  {
    OrderedMap.Size(st.cache);
    if |st.cache.m| >= maxSize {
      PopOldestSpec(st, maxSize);
    }
  }

  /** The memory loop only ever evicts: the invariant is kept and the evicted keys are a prefix, logged in order. */
  lemma {:induction false} MemoryLoopSpec(st: CacheState, maxSize: int, mb: int)
    requires Inv(st, maxSize)
    ensures var r := MemoryLoop(st, mb);
      r.err == None && Inv(r.st, maxSize)
      && (!OverMemory(r.st.cache, mb) || |r.st.cache.m| <= 1)
      && r.st.removedLen == st.removedLen && r.st.cache.m.Keys <= st.cache.m.Keys
      && exists j :: 0 <= j <= |st.keys| && r.st.keys == st.keys[j..] && r.st.removedMem == st.removedMem + st.keys[..j]
    decreases |st.keys|
  {
    var r := MemoryLoop(st, mb);
    if OverMemory(st.cache, mb) && |st.cache.m| > 1 {
      OrderedMap.Size(st.cache);
      var k := st.keys[0];
      PopOldestSpec(st, maxSize);
      var p := PopOldest(st);
      var st1 := p.(removedMem := p.removedMem + [k]);
      assert r == MemoryLoop(st1, mb);
      MemoryLoopSpec(st1, maxSize, mb);
      var j :| 0 <= j <= |st1.keys| && r.st.keys == st1.keys[j..] && r.st.removedMem == st1.removedMem + st1.keys[..j];
      EvictedPrefix(st.keys, st.removedMem, j);
      assert r.st.keys == st.keys[j + 1..];
    } else {
      assert st.keys[0..] == st.keys && st.keys[..0] == [];
    }
  }

  lemma SubsetSize<T>(a: set<T>, b: set<T>)
    requires a <= b
    ensures |a| <= |b|
  {
    assert b == a + (b - a);
  }

  lemma EvictedPrefix(ks: seq<string>, log: seq<string>, j: nat)
    requires ks != [] && j <= |ks| - 1
    ensures ks[1..][j..] == ks[j + 1..]
    ensures log + [ks[0]] + ks[1..][..j] == log + ks[..j + 1]
  {
    assert ks[..j + 1] == [ks[0]] + ks[1..][..j];
  }

  /** The evictions of `add_item` keep the invariant and leave room for one more item. */
  lemma EvictionsSpec(st: CacheState, maxSize: int, maxMemoryMb: Option<int>)
    requires Inv(st, maxSize) && maxSize >= 1
    ensures var e := Evictions(st, maxSize, maxMemoryMb);
      e.err == None && Inv(e.st, maxSize) && |e.st.cache.m| < maxSize
      && e.st.cache.m.Keys <= st.cache.m.Keys
  {
    SizeStepSpec(st, maxSize);
    var s1 := SizeStep(st, maxSize);
    if maxMemoryMb.Some? {
      MemoryLoopSpec(s1.st, maxSize, maxMemoryMb.value);
      var e := MemoryLoop(s1.st, maxMemoryMb.value);
      OrderedMap.Size(s1.st.cache);
      OrderedMap.Size(e.st.cache);
      assert |e.st.cache.m| <= |s1.st.cache.m| by {
        SubsetSize(e.st.cache.m.Keys, s1.st.cache.m.Keys);
      }
    }
  }

  /** Storing a new item in a state with room for it keeps the invariant and lists the key last, once. */
  lemma StoreSpec(e: CacheState, maxSize: int, key: string, obj: Item)
    requires Inv(e, maxSize) && |e.cache.m| < maxSize
    ensures var r := e.(cache := OrderedMap.Put(e.cache, key, obj), keys := RemoveFirst(e.keys, key) + [key]);
      Inv(r, maxSize) && r.cache.m == e.cache.m[key := obj]
  {
    var r := e.(cache := OrderedMap.Put(e.cache, key, obj), keys := RemoveFirst(e.keys, key) + [key]);
    RemoveFirstDistinct(e.keys, key);
    AppendDistinct(RemoveFirst(e.keys, key), key);
    forall k ensures k in r.keys <==> k in r.cache.m {
      if k != key {
        RemoveFirstMembers(e.keys, key, k);
      }
    }
    OrderedMap.Size(e.cache);
    OrderedMap.Size(r.cache);
  }

  /**
   * With `max_size >= 1` and the invariant, the corrected `add_item` never
   * raises, keeps the invariant (so at most `max_size` items), leaves the
   * new item cached under its key at the most-recent end, and keeps no key
   * that was not already cached.
   */
  lemma AddCorrectedSpec(st: CacheState, maxSize: int, maxMemoryMb: Option<int>, key: string, obj: Item)
    requires Inv(st, maxSize) && maxSize >= 1
    ensures var r := AddCorrected(st, maxSize, maxMemoryMb, key, obj);
      r.err == None && Inv(r.st, maxSize)
      && key in r.st.cache.m && r.st.cache.m[key] == obj
      && r.st.keys[|r.st.keys| - 1] == key
      && r.st.cache.m.Keys <= st.cache.m.Keys + {key}
  {
    EvictionsSpec(st, maxSize, maxMemoryMb);
    var e := Evictions(st, maxSize, maxMemoryMb);
    StoreSpec(e.st, maxSize, key, obj);
  }

  /** With `max_size <= 0` the cache stays empty and every `add_item`, as written or corrected, raises IndexError, changing nothing. */
  lemma AddNonPositiveRaises(st: CacheState, maxSize: int, maxMemoryMb: Option<int>, key: string, obj: Item)
    requires WeakInv(st, maxSize) && maxSize <= 0
    ensures AddAsWritten(st, maxSize, maxMemoryMb, key, obj) == Step(st, Some(IndexError))
    ensures AddCorrected(st, maxSize, maxMemoryMb, key, obj) == Step(st, Some(IndexError))
  {
  }

  /** A hit returns the stored item, keeps the cached set and the invariant, and makes the key the most recent. */
  lemma GetHit(st: CacheState, maxSize: int, key: string)
    requires Inv(st, maxSize) && key in st.cache.m
    ensures var (r, st') := Get(st, key);
      r == Ok(st.cache.m[key]) && st'.cache == st.cache && Inv(st', maxSize)
      && st'.keys[|st'.keys| - 1] == key
      && st'.removedLen == st.removedLen && st'.removedMem == st.removedMem
  {
    var st' := Get(st, key).1;
    RemoveFirstDistinct(st.keys, key);
    AppendDistinct(RemoveFirst(st.keys, key), key);
    forall k ensures k in st'.keys <==> k in st'.cache.m {
      if k != key {
        RemoveFirstMembers(st.keys, key, k);
      }
    }
  }

  /**
   * A miss raises KeyError and changes nothing; the message tells a key
   * evicted for size from one evicted for memory and from one never cached.
   */
  lemma GetMiss(st: CacheState, key: string)
    requires key !in st.cache.m
    ensures Get(st, key).1 == st
    ensures key in st.removedLen ==> Get(st, key).0 == Err(KeyError(SizeMessage(key)))
    ensures key !in st.removedLen && key in st.removedMem ==> Get(st, key).0 == Err(KeyError(MemoryMessage(key)))
    ensures key !in st.removedLen && key !in st.removedMem ==> Get(st, key).0 == Err(KeyError(NotFoundMessage(key)))
  {
  }

  /**
   * The defect of `add_item` as written: with `max_size == 2`, adding "k"
   * twice, removing it, then adding "a", "b" and "c" leaves three items.
   */
  lemma AsWrittenExceedsMaxSize(x: Item)
    ensures var s0 := CacheState(OrderedMap.Empty(), [], [], []);
      var s1 := AddAsWritten(s0, 2, None, "k", x).st;
      var s2 := AddAsWritten(s1, 2, None, "k", x).st;
      var s3 := AfterRemove(s2, "k");
      var s4 := AddAsWritten(s3, 2, None, "a", x).st;
      var s5 := AddAsWritten(s4, 2, None, "b", x).st;
      var s6 := AddAsWritten(s5, 2, None, "c", x);
      s6.err == None && |s6.st.cache.m| == 3
  {
    StaleKeyLeft(x);
    var s3 := CacheState(OrderedMap.Empty(), ["k"], [], []);
    var s5 := StoredTwo(s3, x);
    FullOfTwo(s5, x);
  }

  /** From the state with only the stale key, adding "a" and "b" stores both. */
  lemma StoredTwo(s3: CacheState, x: Item) returns (s5: CacheState)
    requires WellFormed(s3) && s3.keys == ["k"] && s3.cache.m == map[]
    ensures s5 == AddAsWritten(AddAsWritten(s3, 2, None, "a", x).st, 2, None, "b", x).st
    ensures WellFormed(s5) && s5.keys == ["k", "a", "b"] && s5.cache.m.Keys == {"a", "b"}
  {
    AddAsWrittenRoom(s3, 2, "a", x);
    var s4 := AddAsWritten(s3, 2, None, "a", x).st;
    assert s4.cache.m == map["a" := x];
    AddAsWrittenRoom(s4, 2, "b", x);
    s5 := AddAsWritten(s4, 2, None, "b", x).st;
  }

  /** Adding "k" twice and removing it leaves the dict empty and "k" still listed. */
  lemma StaleKeyLeft(x: Item)
    ensures var s0 := CacheState(OrderedMap.Empty(), [], [], []);
      var s2 := AddAsWritten(AddAsWritten(s0, 2, None, "k", x).st, 2, None, "k", x).st;
      AfterRemove(s2, "k") == CacheState(OrderedMap.Empty(), ["k"], [], [])
  {
    var one := OrderedMap.OMap(["k"], map["k" := x]);
    AddedTwice(x, one);
    RemovedOnce(one);
  }

  /** Adding "k" twice lists it twice. */
  lemma AddedTwice(x: Item, one: OrderedMap.OMap<Item>)
    requires one == OrderedMap.OMap(["k"], map["k" := x])
    ensures var s0 := CacheState(OrderedMap.Empty(), [], [], []);
      AddAsWritten(AddAsWritten(s0, 2, None, "k", x).st, 2, None, "k", x).st == CacheState(one, ["k", "k"], [], [])
  {
    var s0 := CacheState(OrderedMap.Empty(), [], [], []);
    Stored(s0, "k", x, CacheState(one, ["k"], [], []));
    Stored(CacheState(one, ["k"], [], []), "k", x, CacheState(one, ["k", "k"], [], []));
  }

  /** Removing a key listed twice drops it from the dict and unlists it once. */
  lemma RemovedOnce(one: OrderedMap.OMap<Item>)
    requires one.keys == ["k"] && one.m.Keys == {"k"}
    ensures AfterRemove(CacheState(one, ["k", "k"], [], []), "k") == CacheState(OrderedMap.Empty(), ["k"], [], [])
  {
    assert RemoveFirst(["k", "k"], "k") == ["k"];
    assert RemoveFirst(["k"], "k") == [];
    assert OrderedMap.Pop(one, "k") == OrderedMap.Empty();
  }

  /** One `add_item` without eviction, on a concrete state. */
  lemma Stored(st: CacheState, key: string, obj: Item, expected: CacheState)
    requires WellFormed(st) && |st.cache.m| < 2
    requires expected == st.(cache := OrderedMap.Put(st.cache, key, obj), keys := st.keys + [key])
    ensures AddAsWritten(st, 2, None, key, obj).st == expected
  {
    AddAsWrittenRoom(st, 2, key, obj);
  }

  /** The last step of the scenario: the stale key is evicted, nothing leaves the dict, and "c" joins it. */
  lemma FullOfTwo(s5: CacheState, x: Item)
    requires WellFormed(s5) && s5.keys == ["k", "a", "b"] && s5.cache.m.Keys == {"a", "b"}
    ensures var r := AddAsWritten(s5, 2, None, "c", x); r.err == None && |r.st.cache.m| == 3
  {
    EvictsStaleKey(s5);
    var e := s5.(keys := ["a", "b"], removedLen := s5.removedLen + ["k"]);
    AddAfterEvictions(s5, 2, None, "c", x, e);
    ThreeKeys(s5.cache.m["c" := x]);
  }

  /** With two items and the stale key first, the size loop only drops the stale key. */
  lemma EvictsStaleKey(s5: CacheState)
    requires WellFormed(s5) && s5.keys == ["k", "a", "b"] && s5.cache.m.Keys == {"a", "b"}
    ensures Evictions(s5, 2, None) == Step(s5.(keys := ["a", "b"], removedLen := s5.removedLen + ["k"]), None)
  {
    assert |s5.cache.m| == 2 by {
      assert |s5.cache.m.Keys| == |s5.cache.m|;
    }
    assert PopOldest(s5) == s5.(keys := ["a", "b"]);
  }

  /** Once the evictions succeed, `add_item` as written stores into what they leave. */
  lemma AddAfterEvictions(st: CacheState, maxSize: int, maxMemoryMb: Option<int>, key: string, obj: Item, e: CacheState)
    requires WellFormed(st) && Evictions(st, maxSize, maxMemoryMb) == Step(e, None)
    ensures AddAsWritten(st, maxSize, maxMemoryMb, key, obj).err == None
    ensures AddAsWritten(st, maxSize, maxMemoryMb, key, obj).st.cache.m == e.cache.m[key := obj]
  {
  }

  lemma ThreeKeys(m: map<string, Item>)
    requires m.Keys == {"a", "b", "c"}
    ensures |m| == 3
  {
    assert |m.Keys| == |m|;
  }

  /** Without a memory limit and with room left, `add_item` as written only stores and appends. */
  lemma AddAsWrittenRoom(st: CacheState, maxSize: int, key: string, obj: Item)
    requires WellFormed(st) && |st.cache.m| < maxSize
    ensures AddAsWritten(st, maxSize, None, key, obj)
      == Step(st.(cache := OrderedMap.Put(st.cache, key, obj), keys := st.keys + [key]), None)
  {
  }

  /** The same calls on the corrected `add_item` keep at most two items, as every run does. */
  lemma CorrectedKeepsMaxSize(x: Item)
    ensures var s0 := CacheState(OrderedMap.Empty(), [], [], []);
      var s1 := AddCorrected(s0, 2, None, "k", x).st;
      var s2 := AddCorrected(s1, 2, None, "k", x).st;
      var s3 := AfterRemove(s2, "k");
      var s4 := AddCorrected(s3, 2, None, "a", x).st;
      var s5 := AddCorrected(s4, 2, None, "b", x).st;
      var s6 := AddCorrected(s5, 2, None, "c", x);
      s6.err == None && |s6.st.cache.m| <= 2
  {
    var s0 := CacheState(OrderedMap.Empty(), [], [], []);
    assert Inv(s0, 2);
    AddCorrectedSpec(s0, 2, None, "k", x);
    var s1 := AddCorrected(s0, 2, None, "k", x).st;
    AddCorrectedSpec(s1, 2, None, "k", x);
    var s2 := AddCorrected(s1, 2, None, "k", x).st;
    RemoveItemSpec(s2, 2, "k");
    var s3 := AfterRemove(s2, "k");
    AddCorrectedSpec(s3, 2, None, "a", x);
    var s4 := AddCorrected(s3, 2, None, "a", x).st;
    AddCorrectedSpec(s4, 2, None, "b", x);
    var s5 := AddCorrected(s4, 2, None, "b", x).st;
    AddCorrectedSpec(s5, 2, None, "c", x);
  }

  // ---------------------------------------------------------------- what the program as written keeps

  /** `remove_item` keeps every remaining cached key listed and drops exactly the key from the dict. */
  lemma WeakRemove(st: CacheState, maxSize: int, key: string)
    requires WeakInv(st, maxSize)
    ensures var r := AfterRemove(st, key);
      WeakInv(r, maxSize) && r.cache.m == st.cache.m - {key}
  {
    var r := AfterRemove(st, key);
    forall k | k in r.cache.m ensures k in r.keys {
      RemoveFirstMembers(st.keys, key, k);
    }
  }

  /** Evicting the oldest listed key keeps every remaining cached key listed and adds nothing to the dict. */
  lemma WeakPopOldest(st: CacheState)
    requires WeakInv(st, 1) && st.keys != []
    ensures var r := PopOldest(st);
      WeakInv(r, 1) && r.cache.m.Keys <= st.cache.m.Keys
  {
    var k0 := st.keys[0];
    var t := st.(keys := st.keys[1..]);
    forall k | k in t.cache.m && k != k0 ensures k in t.keys {
      assert st.keys == [k0] + t.keys;
    }
    var r := PopOldest(st);
    forall k | k in r.cache.m ensures k in r.keys {
      RemoveFirstMembers(t.keys, k0, k);
    }
  }

  /** A cache holding an item lists at least one key. */
  lemma ListedNonEmpty(st: CacheState)
    requires WeakInv(st, 1) && st.cache.m != map[]
    ensures st.keys != []
  {
    var k :| k in st.cache.m;
    assert k in st.keys;
  }

  /** As written, the memory loop never raises: while more than one item is cached a key is listed. */
  lemma {:induction false} WeakMemoryLoop(st: CacheState, mb: int)
    requires WeakInv(st, 1)
    ensures var r := MemoryLoop(st, mb);
      r.err == None && WeakInv(r.st, 1) && r.st.cache.m.Keys <= st.cache.m.Keys
    decreases |st.keys|
  {
    if OverMemory(st.cache, mb) && |st.cache.m| > 1 {
      ListedNonEmpty(st);
      WeakPopOldest(st);
      var p := PopOldest(st);
      WeakMemoryLoop(p.(removedMem := p.removedMem + [st.keys[0]]), mb);
    }
  }

  /**
   * `add_item` as written keeps the weaker invariant; it raises IndexError,
   * changing nothing, exactly when `max_size <= 0`; otherwise the new item
   * is cached under its key, listed last, and no other key joins the dict.
   */
  lemma AddAsWrittenSpec(st: CacheState, maxSize: int, maxMemoryMb: Option<int>, key: string, obj: Item)
    requires WeakInv(st, maxSize)
    ensures var r := AddAsWritten(st, maxSize, maxMemoryMb, key, obj);
      WeakInv(r.st, maxSize)
      && (r.err.None? <==> maxSize >= 1)
      && (r.err.Some? ==> r == Step(st, Some(IndexError)))
      && (r.err.None? ==> key in r.st.cache.m && r.st.cache.m[key] == obj && r.st.keys[|r.st.keys| - 1] == key)
      && r.st.cache.m.Keys <= st.cache.m.Keys + {key}
  {
    if maxSize >= 1 {
      var s1 := SizeStep(st, maxSize);
      if |st.cache.m| >= maxSize {
        ListedNonEmpty(st);
        WeakPopOldest(st);
      }
      assert s1.err == None && WeakInv(s1.st, 1) && s1.st.cache.m.Keys <= st.cache.m.Keys;
      if maxMemoryMb.Some? {
        WeakMemoryLoop(s1.st, maxMemoryMb.value);
      }
    }
  }

  /**
   * The as-written and the corrected `add_item` differ only when the key is
   * already cached: for a new key under the intended invariant they agree.
   */
  lemma AsWrittenAgreesOnNewKey(st: CacheState, maxSize: int, maxMemoryMb: Option<int>, key: string, obj: Item)
    requires Inv(st, maxSize) && maxSize >= 1 && key !in st.cache.m
    ensures AddAsWritten(st, maxSize, maxMemoryMb, key, obj) == AddCorrected(st, maxSize, maxMemoryMb, key, obj)
  {
    EvictionsSpec(st, maxSize, maxMemoryMb);
    var e := Evictions(st, maxSize, maxMemoryMb);
    RemoveFirstAbsent(e.st.keys, key);
  }

  /** A get keeps the weaker invariant; a hit returns the item and lists its key last. */
  lemma WeakGet(st: CacheState, maxSize: int, key: string)
    requires WeakInv(st, maxSize)
    ensures var (r, st') := Get(st, key);
      WeakInv(st', maxSize) && st'.cache == st.cache
      && (key in st.cache.m ==> r == Ok(st.cache.m[key]) && st'.keys[|st'.keys| - 1] == key)
  {
    var st' := Get(st, key).1;
    forall k | k in st'.cache.m ensures k in st'.keys {
      if k != key {
        RemoveFirstMembers(st.keys, key, k);
      }
    }
  }

  lemma {:induction false} SeqSetSize(s: seq<string>)
    ensures |set k | k in s| <= |s|
  {
    if s != [] {
      SeqSetSize(s[1..]);
      assert (set k | k in s) == {s[0]} + (set k | k in s[1..]) by {
        assert s == [s[0]] + s[1..];
      }
    }
  }

  /** Under the weaker invariant the dict never holds more items than `cache_keys` lists. */
  lemma WeakSize(st: CacheState, maxSize: int)
    requires WeakInv(st, maxSize)
    ensures |st.cache.m| <= |st.keys|
  {
    SeqSetSize(st.keys);
    SubsetSize(st.cache.m.Keys, set k | k in st.keys);
  }

  // ---------------------------------------------------------------- the class

  class DataCache {
    var cache: OrderedMap.OMap<Item>
    var cacheKeys: seq<string>
    var removedKeysLen: seq<string>
    var removedKeysMemory: seq<string>
    const maxSize: int
    const maxMemoryMb: Option<int>

    function State(): CacheState
      reads this
    {
      CacheState(cache, cacheKeys, removedKeysLen, removedKeysMemory)
    }

    ghost predicate Valid()
      reads this
    {
      WeakInv(State(), maxSize)
    }

    constructor (maxSize: int, maxMemoryMb: Option<int>)
      ensures Valid() && this.maxSize == maxSize && this.maxMemoryMb == maxMemoryMb
      ensures State() == CacheState(OrderedMap.Empty(), [], [], [])
    {
      this.maxSize := maxSize;
      this.maxMemoryMb := maxMemoryMb;
      cache := OrderedMap.Empty();
      cacheKeys := [];
      removedKeysLen := [];
      removedKeysMemory := [];
    }

    /**
     * `__len__`: the number of cached items, never more than `cache_keys`
     * lists. It is not bounded by `max_size`: see AsWrittenExceedsMaxSize.
     */
    method Len() returns (n: nat)
      requires Valid()
      ensures n == |cache.m| && n <= |cacheKeys|
    {
      WeakSize(State(), maxSize);
      n := |cache.m|;
    }

    /** `__contains__`: membership of the dict. */
    method Contains(key: string) returns (b: bool)
      requires Valid()
      ensures b <==> key in cache.m
      ensures b ==> key in cacheKeys
    {
      b := key in cache.m;
    }

    method GetItem(key: string) returns (r: Result<Item>)
      requires Valid()
      modifies this
      ensures Valid()
      ensures (r, State()) == Get(old(State()), key)
    {
      if key in cache.m {
        WeakGet(State(), maxSize, key);
        cacheKeys := RemoveFirst(cacheKeys, key);
        cacheKeys := cacheKeys + [key];
        return Ok(cache.m[key]);
      }
      return Err(KeyError(MissMessage(State(), key)));
    }

    method RemoveItem(key: string)
      requires Valid()
      modifies this
      ensures Valid()
      ensures State() == AfterRemove(old(State()), key)
    {
      WeakRemove(State(), maxSize, key);
      RemoveItemStep(key);
    }

    /** The body of `remove_item`, also run on the intermediate states of `add_item`. */
    method RemoveItemStep(key: string)
      requires WellFormed(State())
      modifies this
      ensures State() == AfterRemove(old(State()), key)
    {
      if key in cache.m {
        cache := OrderedMap.Pop(cache, key);
        if key in cacheKeys {
          cacheKeys := RemoveFirst(cacheKeys, key);
        } else {
          RemoveFirstAbsent(cacheKeys, key);
        }
      }
    }

    /** The size check of `add_item`: a full cache loses its oldest key. */
    method EvictForSize() returns (err: Option<Exc>)
      requires WellFormed(State())
      modifies this
      ensures (State(), err) == (SizeStep(old(State()), maxSize).st, SizeStep(old(State()), maxSize).err)
    {
      if |cache.m| >= maxSize {
        if |cacheKeys| == 0 {
          return Some(IndexError);
        }
        var oldest := cacheKeys[0];
        cacheKeys := cacheKeys[1..];
        RemoveItemStep(oldest);
        removedKeysLen := removedKeysLen + [oldest];
      }
      return None;
    }

    /** The memory loop of `add_item`. */
    method EvictForMemory(mb: int) returns (err: Option<Exc>)
      requires WellFormed(State())
      modifies this
      ensures (State(), err) == (MemoryLoop(old(State()), mb).st, MemoryLoop(old(State()), mb).err)
    {
      while OverMemory(cache, mb) && |cache.m| > 1
        invariant WellFormed(State())
        invariant MemoryLoop(State(), mb) == MemoryLoop(old(State()), mb)
        decreases |cacheKeys|
      {
        if |cacheKeys| == 0 {
          return Some(IndexError);
        }
        var oldest := cacheKeys[0];
        cacheKeys := cacheKeys[1..];
        RemoveItemStep(oldest);
        removedKeysMemory := removedKeysMemory + [oldest];
      }
      return None;
    }

    /** The evictions of `add_item`: the size check, then the memory loop when a limit is set. */
    method Evict() returns (err: Option<Exc>)
      requires WellFormed(State())
      modifies this
      ensures (State(), err) == (Evictions(old(State()), maxSize, maxMemoryMb).st, Evictions(old(State()), maxSize, maxMemoryMb).err)
    {
      err := EvictForSize();
      if err.None? && maxMemoryMb.Some? {
        err := EvictForMemory(maxMemoryMb.value);
      }
    }

    /** The end of `add_item`: the item is stored and its key appended, even when already listed. */
    method StoreItem(obj: Item, key: string)
      requires WellFormed(State())
      modifies this
      ensures State() == old(State()).(cache := OrderedMap.Put(old(cache), key, obj), keys := old(cacheKeys) + [key])
    {
      cache := OrderedMap.Put(cache, key, obj);
      cacheKeys := cacheKeys + [key];
    }

    /** `add_item(obj, key)` as written (see AddAsWritten). */
    method AddItem(obj: Item, key: string) returns (status: Status)
      requires Valid()
      modifies this
      ensures var r := AddAsWritten(old(State()), maxSize, maxMemoryMb, key, obj);
        State() == r.st && (status == Done <==> r.err.None?)
        && (r.err.Some? ==> status == Fail(r.err.value))
      ensures Valid() && (status == Done <==> maxSize >= 1)
      ensures status == Done ==> key in cache.m && cache.m[key] == obj
    {
      AddAsWrittenSpec(State(), maxSize, maxMemoryMb, key, obj);
      var err := Evict();
      if err.Some? {
        return Fail(err.value);
      }
      StoreItem(obj, key);
      return Done;
    }

    /** `clear`: empties the dict and the list; the eviction histories stay. */
    method Clear()
      requires Valid()
      modifies this
      ensures Valid()
      ensures State() == old(State()).(cache := OrderedMap.Empty(), keys := [])
    {
      cache := OrderedMap.Empty();
      cacheKeys := [];
    }
  }
}
