/**
 * Sessions: a registry shared by every TaskSession maps a session token to
 * that session's data cache and its creation time. Opening a session drops
 * the expired entries and, when the registry is full, the oldest one; the
 * item operations go to the cache of the session's own token, which
 * `add_item` creates on first use.
 *
 * The clock is a natural number of seconds passed in by the caller. Each
 * registry entry holds its cache's state by value.
 */
module SessionRegistry {
  import opened Wrappers
  import opened PyList
  import OrderedMap
  import opened SessionCache

  const SecondsPerHour: int := 3600
  const DefaultMaxDataCaches: int := 5
  const DefaultExpireHours: int := 24

  /** A registry value: the session's cache with the limits it was created with, and its creation time. */
  datatype Entry = Entry(data: CacheState, maxSize: int, maxMemoryMb: Option<int>, timeCreated: nat)

  type Sessions = OrderedMap.OMap<Entry>

  /** What one TaskSession object holds besides the shared registry. */
  datatype Config = Config(token: string, maxCacheSize: int, maxCacheMemoryMb: Option<int>, notImplemented: bool)

  ghost predicate SessionsValid(d: Sessions)
  {
    OrderedMap.Valid(d) && forall k :: k in d.m ==> WeakInv(d.m[k].data, d.m[k].maxSize)
  }

  /** A token given and non-empty is kept; otherwise the generated one is used. */
  function ChooseToken(given: Option<string>, generated: string): string
  {
    if given.Some? && given.value != "" then given.value else generated
  }

  // ---------------------------------------------------------------- expiry

  predicate Expired(e: Entry, now: nat, expireHours: int)
  {
    now - e.timeCreated > expireHours * SecondsPerHour
  }

  /** The tokens of expired entries, in registry order (the list the first loop collects). */
  function ExpiredKeys(keys: seq<string>, m: map<string, Entry>, now: nat, expireHours: int): (r: seq<string>)
    requires forall k :: k in keys ==> k in m
    ensures forall k :: k in r ==> k in keys && Expired(m[k], now, expireHours)
    ensures forall k :: k in keys && Expired(m[k], now, expireHours) ==> k in r
  {
    if keys == [] then []
    else if Expired(m[keys[0]], now, expireHours) then [keys[0]] + ExpiredKeys(keys[1..], m, now, expireHours)
    else ExpiredKeys(keys[1..], m, now, expireHours)
  }

  /** The tokens that survive, in registry order: an independent statement of the result of cleaning. */
  function LiveKeys(keys: seq<string>, m: map<string, Entry>, now: nat, expireHours: int): seq<string>
    requires forall k :: k in keys ==> k in m
  {
    if keys == [] then []
    else if Expired(m[keys[0]], now, expireHours) then LiveKeys(keys[1..], m, now, expireHours)
    else [keys[0]] + LiveKeys(keys[1..], m, now, expireHours)
  }

  /** `del d[k]` for each listed token in turn. */
  function DeleteKeys(d: Sessions, ks: seq<string>): (r: Sessions)
    requires OrderedMap.Valid(d)
    ensures OrderedMap.Valid(r)
    decreases |ks|
  {
    if ks == [] then d else DeleteKeys(OrderedMap.Pop(d, ks[0]), ks[1..])
  }

  /** `_clean_expired_sessions(expire_hours)` at time `now`. */
  function Clean(d: Sessions, now: nat, expireHours: int): (r: Sessions)
    requires OrderedMap.Valid(d)
  {
    DeleteKeys(d, ExpiredKeys(d.keys, d.m, now, expireHours))
  }

  /** `del d[k]` takes `k` out of the key order and nothing else. */
  lemma PopKeys(d: Sessions, k: string)
    requires OrderedMap.Valid(d)
    ensures OrderedMap.Pop(d, k).keys == FilterOut(d.keys, {k})
  {
    if k in d.m {
      RemoveFirstFilter(d.keys, k);
    } else {
      FilterOutNone(d.keys, {k});
    }
  }

  lemma ElemsSplit(ks: seq<string>)
    requires ks != []
    ensures (set k | k in ks) == {ks[0]} + (set k | k in ks[1..])
  {
    assert ks == [ks[0]] + ks[1..];
  }

  /** Deleting a list of tokens keeps the other tokens, in order. */
  lemma {:induction false} DeleteKeysOrder(d: Sessions, ks: seq<string>)
    requires OrderedMap.Valid(d)
    ensures DeleteKeys(d, ks).keys == FilterOut(d.keys, set k | k in ks)
    decreases |ks|
  {
    if ks == [] {
      assert (set k | k in ks) == {};
      FilterOutNone(d.keys, {});
    } else {
      var p := OrderedMap.Pop(d, ks[0]);
      DeleteKeysOrder(p, ks[1..]);
      PopKeys(d, ks[0]);
      ElemsSplit(ks);
      FilterOutTwice(d.keys, {ks[0]}, set k | k in ks[1..]);
    }
  }

  /** Deleting a list of tokens keeps exactly the entries not listed, unchanged. */
  lemma {:induction false} DeleteKeysEntries(d: Sessions, ks: seq<string>)
    requires OrderedMap.Valid(d)
    ensures var r := DeleteKeys(d, ks);
      (forall k :: k in r.m <==> k in d.m && k !in ks)
      && (forall k :: k in r.m ==> r.m[k] == d.m[k])
    decreases |ks|
  {
    if ks != [] {
      DeleteKeysEntries(OrderedMap.Pop(d, ks[0]), ks[1..]);
      assert forall k :: k in ks <==> k == ks[0] || k in ks[1..] by {
        assert ks == [ks[0]] + ks[1..];
      }
    }
  }

  lemma {:induction false} FilterExpired(keys: seq<string>, m: map<string, Entry>, now: nat, expireHours: int, xs: set<string>)
    requires forall k :: k in keys ==> k in m
    requires forall k :: k in keys ==> (k in xs <==> Expired(m[k], now, expireHours))
    ensures FilterOut(keys, xs) == LiveKeys(keys, m, now, expireHours)
  {
    if keys != [] {
      FilterExpired(keys[1..], m, now, expireHours, xs);
    }
  }

  /**
   * Cleaning removes exactly the entries older than `expire_hours` hours
   * (strictly), keeps the others unchanged and in their order, and keeps
   * the registry well formed.
   */
  lemma CleanSpec(d: Sessions, now: nat, expireHours: int)
    requires SessionsValid(d)
    ensures var r := Clean(d, now, expireHours);
      SessionsValid(r)
      && r.keys == LiveKeys(d.keys, d.m, now, expireHours)
      && (forall k :: k in r.m <==> k in d.m && !Expired(d.m[k], now, expireHours))
      && (forall k :: k in r.m ==> r.m[k] == d.m[k])
  {
    var ex := ExpiredKeys(d.keys, d.m, now, expireHours);
    DeleteKeysOrder(d, ex);
    DeleteKeysEntries(d, ex);
    FilterExpired(d.keys, d.m, now, expireHours, set k | k in ex);
  }

  // ---------------------------------------------------------------- eviction of the oldest session

  /** Position `i` holds the smallest creation time, and no earlier position does. */
  predicate FirstOldest(keys: seq<string>, m: map<string, Entry>, i: nat)
    requires forall k :: k in keys ==> k in m
  {
    i < |keys|
    && (forall j :: 0 <= j < |keys| ==> m[keys[i]].timeCreated <= m[keys[j]].timeCreated)
    && (forall j :: 0 <= j < i ==> m[keys[j]].timeCreated > m[keys[i]].timeCreated)
  }

  /** The position `min(d, key=time_created)` picks. */
  function OldestIndex(keys: seq<string>, m: map<string, Entry>): (i: nat)
    requires keys != [] && forall k :: k in keys ==> k in m
    ensures FirstOldest(keys, m, i)
  {
    if |keys| == 1 then 0
    else
      var r := OldestIndex(keys[1..], m);
      if m[keys[0]].timeCreated <= m[keys[1..][r]].timeCreated then 0 else r + 1
  }

  /** `min(d, key=time_created)`. */
  function Oldest(keys: seq<string>, m: map<string, Entry>): (o: string)
    requires keys != [] && forall k :: k in keys ==> k in m
    ensures o in keys
  {
    keys[OldestIndex(keys, m)]
  }

  /**
   * The capacity check of `__init__`: a registry holding at least
   * `max_number_of_data_caches` entries loses its oldest one; an empty
   * registry with a limit of zero or less makes `min` raise ValueError.
   */
  function MakeRoom(d: Sessions, maxCaches: int): (r: (Sessions, Option<Exc>))
    requires OrderedMap.Valid(d)
  {
    if |d.m| >= maxCaches then
      if d.keys == [] then (d, Some(ValueError("min() arg is an empty sequence")))
      else (OrderedMap.Pop(d, Oldest(d.keys, d.m)), None)
    else (d, None)
  }

  /** The registry work of `TaskSession(...)`: clean, then make room. */
  function Open(d: Sessions, now: nat, expireHours: int, maxCaches: int): (r: (Sessions, Option<Exc>))
    requires SessionsValid(d)
  {
    CleanSpec(d, now, expireHours);
    MakeRoom(Clean(d, now, expireHours), maxCaches)
  }

  /**
   * A full registry loses exactly one entry, one with the smallest creation
   * time and the first such in registry order; otherwise nothing changes.
   */
  lemma AdmitSpec(d: Sessions, maxCaches: int)
    requires SessionsValid(d)
    ensures var (r, err) := MakeRoom(d, maxCaches);
      SessionsValid(r)
      && (|d.m| < maxCaches ==> r == d && err == None)
      && (|d.m| >= maxCaches && d.m != map[] ==>
            err == None
            && exists i: nat :: FirstOldest(d.keys, d.m, i) && r.m == d.m - {d.keys[i]})
      && (d.m == map[] && maxCaches <= 0 ==> err.Some? && err.value.ValueError?)
  {
    OrderedMap.Size(d);
    if |d.m| >= maxCaches && d.keys != [] {
      var i := OldestIndex(d.keys, d.m);
      PopSessionsValid(d, d.keys[i]);
      assert MakeRoom(d, maxCaches) == (OrderedMap.Pop(d, d.keys[i]), None);
      assert FirstOldest(d.keys, d.m, i) && MakeRoom(d, maxCaches).0.m == d.m - {d.keys[i]};
    }
  }

  lemma PopSessionsValid(d: Sessions, k: string)
    requires SessionsValid(d)
    ensures SessionsValid(OrderedMap.Pop(d, k))
  {
  }

  /** When every session respected the limit, opening a session leaves room for one more entry. */
  lemma OpenMakesRoom(d: Sessions, now: nat, expireHours: int, maxCaches: int)
    requires SessionsValid(d) && |d.m| <= maxCaches && maxCaches >= 1
    ensures var (r, err) := Open(d, now, expireHours, maxCaches);
      err == None && SessionsValid(r) && |r.m| < maxCaches
  {
    CleanSpec(d, now, expireHours);
    var c := Clean(d, now, expireHours);
    assert c.m.Keys <= d.m.Keys;
    SubsetSize(c.m.Keys, d.m.Keys);
    OrderedMap.Size(c);
    if |c.m| >= maxCaches {
      var o := Oldest(c.keys, c.m);
      assert |OrderedMap.Pop(c, o).m| == |c.m| - 1 by {
        assert c.m.Keys == (c.m - {o}).Keys + {o};
      }
    }
  }

  // ---------------------------------------------------------------- item operations

  const NotImplementedMessage: string := "Session tokens are not currently allowed for celery tasks."

  const SessionMissMiddle: string := " not found in cache for session "

  function SessionMissMessage(key: string, token: string): string
  {
    "Key " + key + SessionMissMiddle + token
  }

  /** `session[key]`: the cache of the session's token is asked; any KeyError is reraised with the session named. */
  function SessionGet(d: Sessions, cfg: Config, key: string): (Result<Item>, Sessions)
    requires OrderedMap.Valid(d)
  {
    if cfg.notImplemented then (Err(NotImplementedError), d)
    else if cfg.token !in d.m then (Err(KeyError(SessionMissMessage(key, cfg.token))), d)
    else
      var e := d.m[cfg.token];
      var (r, st) := Get(e.data, key);
      if r.Err? then (Err(KeyError(SessionMissMessage(key, cfg.token))), d)
      else (r, OrderedMap.Put(d, cfg.token, e.(data := st)))
  }

  /** The entry `add_item` creates for a token not yet registered. */
  function NewEntry(cfg: Config, now: nat): Entry
  {
    Entry(CacheState(OrderedMap.Empty(), [], [], []), cfg.maxCacheSize, cfg.maxCacheMemoryMb, now)
  }

  /** `add_item(obj, key)` at time `now`: create the entry if needed, then add to its cache as the cache's `add_item` is written. */
  function SessionAdd(d: Sessions, cfg: Config, now: nat, key: string, obj: Item): (Status, Sessions)
    requires SessionsValid(d)
  {
    if cfg.notImplemented then (Fail(NotImplementedError), d)
    else
      var d1 := if cfg.token in d.m then d else OrderedMap.Put(d, cfg.token, NewEntry(cfg, now));
      var e := d1.m[cfg.token];
      var s := AddAsWritten(e.data, e.maxSize, e.maxMemoryMb, key, obj);
      (if s.err.None? then Done else Fail(s.err.value), OrderedMap.Put(d1, cfg.token, e.(data := s.st)))
  }

  /** `remove_item(key)`: a token with no entry raises KeyError. */
  function SessionRemove(d: Sessions, cfg: Config, key: string): (Status, Sessions)
    requires SessionsValid(d)
  {
    if cfg.notImplemented then (Fail(NotImplementedError), d)
    else if cfg.token !in d.m then (Fail(KeyError(cfg.token)), d)
    else
      var e := d.m[cfg.token];
      (Done, OrderedMap.Put(d, cfg.token, e.(data := AfterRemove(e.data, key))))
  }

  /** `clear_cache()`: the session's cache is emptied. */
  function SessionClear(d: Sessions, cfg: Config): (Status, Sessions)
    requires OrderedMap.Valid(d)
  {
    if cfg.notImplemented then (Fail(NotImplementedError), d)
    else if cfg.token !in d.m then (Fail(KeyError(cfg.token)), d)
    else
      var e := d.m[cfg.token];
      (Done, OrderedMap.Put(d, cfg.token, e.(data := e.data.(cache := OrderedMap.Empty(), keys := []))))
  }

  /** `session_token`: hidden when sessions are not supported. */
  function SessionToken(cfg: Config): Option<string>
  {
    if cfg.notImplemented then None else Some(cfg.token)
  }

  /** The limit the session's cache works with: that of an existing entry, or the session's own. */
  function EffectiveMaxSize(d: Sessions, cfg: Config): int
  {
    if cfg.token in d.m then d.m[cfg.token].maxSize else cfg.maxCacheSize
  }

  /**
   * With a cache limit of at least one, `add_item` succeeds, keeps the
   * registry well formed, and a following get returns the object stored.
   */
  lemma AddThenGet(d: Sessions, cfg: Config, now: nat, key: string, obj: Item)
    requires SessionsValid(d) && !cfg.notImplemented && EffectiveMaxSize(d, cfg) >= 1
    ensures var (status, d2) := SessionAdd(d, cfg, now, key, obj);
      status == Done && SessionsValid(d2) && cfg.token in d2.m
      && SessionGet(d2, cfg, key).0 == Ok(obj)
  {
    var d1 := if cfg.token in d.m then d else OrderedMap.Put(d, cfg.token, NewEntry(cfg, now));
    if cfg.token !in d.m {
      PutEntryValid(d, cfg.token, NewEntry(cfg, now));
    }
    var e := d1.m[cfg.token];
    AddAsWrittenSpec(e.data, e.maxSize, e.maxMemoryMb, key, obj);
    var s := AddAsWritten(e.data, e.maxSize, e.maxMemoryMb, key, obj);
    var d2 := OrderedMap.Put(d1, cfg.token, e.(data := s.st));
    PutEntryValid(d1, cfg.token, e.(data := s.st));
    assert SessionAdd(d, cfg, now, key, obj) == (Done, d2);
    StoredIsFound(d2, cfg, key, obj);
  }

  lemma StoredIsFound(d: Sessions, cfg: Config, key: string, obj: Item)
    requires OrderedMap.Valid(d) && !cfg.notImplemented && cfg.token in d.m
    requires key in d.m[cfg.token].data.cache.m && d.m[cfg.token].data.cache.m[key] == obj
    ensures SessionGet(d, cfg, key).0 == Ok(obj)
  {
  }

  lemma PutEntryValid(d: Sessions, t: string, e: Entry)
    requires SessionsValid(d) && WeakInv(e.data, e.maxSize)
    ensures SessionsValid(OrderedMap.Put(d, t, e))
  {
  }

  /** Other sessions' entries are never touched by a session's `add_item`. */
  lemma AddIsolated(d: Sessions, cfg: Config, now: nat, key: string, obj: Item, other: string)
    requires SessionsValid(d) && other != cfg.token
    ensures var d2 := SessionAdd(d, cfg, now, key, obj).1;
      (other in d2.m <==> other in d.m) && (other in d.m ==> d2.m[other] == d.m[other])
  {
  }

  /** With a cache limit of zero or less, `add_item` registers the entry and then raises IndexError. */
  lemma AddNonPositiveFails(d: Sessions, cfg: Config, now: nat, key: string, obj: Item)
    requires SessionsValid(d) && !cfg.notImplemented && EffectiveMaxSize(d, cfg) <= 0
    ensures var (status, d2) := SessionAdd(d, cfg, now, key, obj);
      status == Fail(IndexError) && SessionsValid(d2) && cfg.token in d2.m
  {
    var d1 := if cfg.token in d.m then d else OrderedMap.Put(d, cfg.token, NewEntry(cfg, now));
    var e := d1.m[cfg.token];
    AddAsWrittenSpec(e.data, e.maxSize, e.maxMemoryMb, key, obj);
  }

  /** A key the session's cache does not hold raises KeyError naming the session, and nothing changes. */
  lemma GetMissing(d: Sessions, cfg: Config, key: string)
    requires OrderedMap.Valid(d) && !cfg.notImplemented
    requires cfg.token !in d.m || key !in d.m[cfg.token].data.cache.m
    ensures SessionGet(d, cfg, key) == (Err(KeyError(SessionMissMessage(key, cfg.token))), d)
  {
  }

  /** After `clear_cache`, every get raises KeyError. */
  lemma ClearThenGet(d: Sessions, cfg: Config, key: string)
    requires OrderedMap.Valid(d) && !cfg.notImplemented && cfg.token in d.m
    ensures var (status, d2) := SessionClear(d, cfg);
      status == Done && SessionGet(d2, cfg, key).0 == Err(KeyError(SessionMissMessage(key, cfg.token)))
  {
  }

  /** Clearing keeps the registry well formed. */
  lemma ClearKeepsValid(d: Sessions, cfg: Config)
    requires SessionsValid(d)
    ensures SessionsValid(SessionClear(d, cfg).1)
  {
  }

  /** Removing keeps the registry well formed, and the key is gone from the session's cache. */
  lemma RemoveSpec(d: Sessions, cfg: Config, key: string)
    requires SessionsValid(d) && !cfg.notImplemented && cfg.token in d.m
    ensures var (status, d2) := SessionRemove(d, cfg, key);
      status == Done && SessionsValid(d2) && key !in d2.m[cfg.token].data.cache.m
  {
    var e := d.m[cfg.token];
    WeakRemove(e.data, e.maxSize, key);
  }

  /** A session marked not implemented refuses every item operation, changes nothing, and shows no token. */
  lemma NotImplementedRefuses(d: Sessions, cfg: Config, now: nat, key: string, obj: Item)
    requires SessionsValid(d) && cfg.notImplemented
    ensures SessionGet(d, cfg, key) == (Err(NotImplementedError), d)
    ensures SessionAdd(d, cfg, now, key, obj) == (Fail(NotImplementedError), d)
    ensures SessionRemove(d, cfg, key) == (Fail(NotImplementedError), d)
    ensures SessionClear(d, cfg) == (Fail(NotImplementedError), d)
    ensures SessionToken(cfg) == None
  {
  }

  // ---------------------------------------------------------------- the classes

  /** The class-level `data_caches` dict, shared by every TaskSession. */
  class Registry {
    var sessions: Sessions

    ghost predicate Valid()
      reads this
    {
      SessionsValid(sessions)
    }

    constructor ()
      ensures Valid() && sessions.m == map[]
    {
      sessions := OrderedMap.Empty();
    }

    /** `len(session)`: the number of registered sessions. */
    method Len() returns (n: nat)
      requires Valid()
      ensures n == |sessions.m| && n == |sessions.keys|
    {
      OrderedMap.Size(sessions);
      n := |sessions.keys|;
    }

    /** `token in session`. */
    method Contains(token: string) returns (b: bool)
      requires Valid()
      ensures b <==> token in sessions.m
      ensures b <==> token in sessions.keys
    {
      b := token in sessions.m;
    }

    /** `_clean_expired_sessions`: collect the expired tokens, then delete them. */
    method CleanExpiredSessions(expireHours: int, now: nat)
      requires Valid()
      modifies this
      ensures Valid() && sessions == Clean(old(sessions), now, expireHours)
    {
      CleanSpec(sessions, now, expireHours);
      var expired := CollectExpired(sessions, expireHours, now);
      ghost var d0 := sessions;
      var j := 0;
      while j < |expired|
        invariant 0 <= j <= |expired| && OrderedMap.Valid(sessions)
        invariant DeleteKeys(sessions, expired[j..]) == DeleteKeys(d0, expired)
      {
        assert expired[j..][1..] == expired[j + 1..];
        sessions := OrderedMap.Pop(sessions, expired[j]);
        j := j + 1;
      }
      assert expired[|expired|..] == [];
    }

    /** The capacity check of `TaskSession.__init__`. */
    method Admit(maxCaches: int) returns (err: Option<Exc>)
      requires Valid()
      modifies this
      ensures Valid() && (sessions, err) == MakeRoom(old(sessions), maxCaches)
    {
      AdmitSpec(sessions, maxCaches);
      if |sessions.m| >= maxCaches {
        if |sessions.keys| == 0 {
          return Some(ValueError("min() arg is an empty sequence"));
        }
        var oldest := Oldest(sessions.keys, sessions.m);
        sessions := OrderedMap.Pop(sessions, oldest);
      }
      return None;
    }
  }

  /** The first loop of `_clean_expired_sessions`: the expired tokens in registry order. */
  method CollectExpired(d: Sessions, expireHours: int, now: nat) returns (expired: seq<string>)
    requires OrderedMap.Valid(d)
    ensures expired == ExpiredKeys(d.keys, d.m, now, expireHours)
  {
    expired := [];
    var i := 0;
    while i < |d.keys|
      invariant 0 <= i <= |d.keys|
      invariant expired + ExpiredKeys(d.keys[i..], d.m, now, expireHours) == ExpiredKeys(d.keys, d.m, now, expireHours)
    {
      assert d.keys[i..][1..] == d.keys[i + 1..];
      var k := d.keys[i];
      if Expired(d.m[k], now, expireHours) {
        expired := expired + [k];
      }
      i := i + 1;
    }
    assert d.keys[|d.keys|..] == [];
  }

  class TaskSession {
    const registry: Registry
    const token: string
    const maxCacheSize: int
    const maxCacheMemoryMb: Option<int>
    const notImplemented: bool

    function Cfg(): Config
    {
      Config(token, maxCacheSize, maxCacheMemoryMb, notImplemented)
    }

    /** The object part of `__init__`; the registry work is done by Create. */
    constructor (registry: Registry, token: string, maxCacheSize: int, maxCacheMemoryMb: Option<int>, notImplemented: bool)
      ensures Cfg() == Config(token, maxCacheSize, maxCacheMemoryMb, notImplemented) && this.registry == registry
    {
      this.registry := registry;
      this.token := token;
      this.maxCacheSize := maxCacheSize;
      this.maxCacheMemoryMb := maxCacheMemoryMb;
      this.notImplemented := notImplemented;
    }

    /** `session[key]`: a hit also refreshes the key's position in the session's cache. */
    method GetItem(key: string) returns (r: Result<Item>)
      requires registry.Valid()
      modifies registry
      ensures (r, registry.sessions) == SessionGet(old(registry.sessions), Cfg(), key)
    {
      if notImplemented {
        return Err(NotImplementedError);
      }
      if token !in registry.sessions.m {
        return Err(KeyError(SessionMissMessage(key, token)));
      }
      var e := registry.sessions.m[token];
      var (got, st) := Get(e.data, key);
      if got.Err? {
        return Err(KeyError(SessionMissMessage(key, token)));
      }
      registry.sessions := OrderedMap.Put(registry.sessions, token, e.(data := st));
      return got;
    }

    method AddItem(obj: Item, key: string, now: nat) returns (status: Status)
      requires registry.Valid()
      modifies registry
      ensures (status, registry.sessions) == SessionAdd(old(registry.sessions), Cfg(), now, key, obj)
    {
      if notImplemented {
        return Fail(NotImplementedError);
      }
      if token !in registry.sessions.m {
        registry.sessions := OrderedMap.Put(registry.sessions, token, NewEntry(Cfg(), now));
      }
      var e := registry.sessions.m[token];
      var s := AddAsWritten(e.data, e.maxSize, e.maxMemoryMb, key, obj);
      registry.sessions := OrderedMap.Put(registry.sessions, token, e.(data := s.st));
      status := if s.err.None? then Done else Fail(s.err.value);
    }

    method RemoveItem(key: string) returns (status: Status)
      requires registry.Valid()
      modifies registry
      ensures (status, registry.sessions) == SessionRemove(old(registry.sessions), Cfg(), key)
    {
      if notImplemented {
        return Fail(NotImplementedError);
      }
      if token !in registry.sessions.m {
        return Fail(KeyError(token));
      }
      var e := registry.sessions.m[token];
      registry.sessions := OrderedMap.Put(registry.sessions, token, e.(data := AfterRemove(e.data, key)));
      return Done;
    }

    method ClearCache() returns (status: Status)
      requires registry.Valid()
      modifies registry
      ensures (status, registry.sessions) == SessionClear(old(registry.sessions), Cfg())
    {
      if notImplemented {
        return Fail(NotImplementedError);
      }
      if token !in registry.sessions.m {
        return Fail(KeyError(token));
      }
      var e := registry.sessions.m[token];
      registry.sessions := OrderedMap.Put(registry.sessions, token, e.(data := e.data.(cache := OrderedMap.Empty(), keys := [])));
      return Done;
    }

    /** The `session_token` property: the token, or nothing when sessions are not supported. */
    method GetSessionToken() returns (t: Option<string>)
      ensures t == SessionToken(Cfg())
      ensures notImplemented <==> t == None
    {
      t := if notImplemented then None else Some(token);
    }
  }

  /**
   * `TaskSession(session_token, ...)`: choose the token, clean the registry,
   * make room; `min` of an empty registry raises ValueError.
   */
  method Create(registry: Registry, sessionToken: Option<string>, generated: string, maxDataCaches: int,
                maxCacheSize: int, maxCacheMemoryMb: Option<int>, expireHours: int, now: nat,
                notImplemented: bool) returns (r: Result<TaskSession>)
    requires registry.Valid()
    modifies registry
    ensures registry.Valid()
    ensures (registry.sessions, if r.Err? then Some(r.exc) else None) == Open(old(registry.sessions), now, expireHours, maxDataCaches)
    ensures r.Ok? ==> (fresh(r.value) && r.value.registry == registry
      && r.value.Cfg() == Config(ChooseToken(sessionToken, generated), maxCacheSize, maxCacheMemoryMb, notImplemented))
  {
    var token := ChooseToken(sessionToken, generated);
    registry.CleanExpiredSessions(expireHours, now);
    var err := registry.Admit(maxDataCaches);
    if err.Some? {
      return Err(err.value);
    }
    var s := new TaskSession(registry, token, maxCacheSize, maxCacheMemoryMb, notImplemented);
    return Ok(s);
  }
}
