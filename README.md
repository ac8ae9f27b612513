# A verified model of the compox / t3d_server execution core

This project models, in Dafny, the sequential core of the compox algorithm
platform and its t3d_server execution server:

- **Runners.** The `BaseRunner` attribute mechanism: per-execution context,
  assets locked while `load_assets` runs, re-initialisation. The three-stage
  `run` driver with its progress and log checks. The stage contracts of the
  image-to-image, image-to-segmentation and image-to-alignment runners.
- **Execution bookkeeping.** `TaskHandler`: the validated field setters over
  the execution-record store, `mark_as_completed` / `mark_as_failed`, log
  updates, device selection, the algorithm fetch and its runner cache, and
  the fetch/post statistics.
- **Caches and sessions.** The LRU decorators `algorithm_cache` and
  `data_cache`, the size- and memory-bounded `DataCache`, and the session
  registry of `TaskSession` with expiry and oldest-first eviction.
- **Algorithm metadata.** The `[tool.compox]` configuration validators, the
  deployer's naming, key and path rules and its import candidates, the
  `id~name~major~minor` key and its parser `find_algorithm_by_id`, the
  manager's listing and deletion, and the router's version selection and
  filters.
- **Data.** The data schemas (images, volumes, meshes, alignments) that
  runner inputs and outputs are validated against.
- **Storage.** Both in-memory object stores, multipart uploads (part
  arithmetic, retries, abort on failure) and the multipart etag.
- **Command line.** `parse_flat_args`, which turns `--a.b.c value` tokens
  into nested settings.

Each source file is one module. Code that changes state step by step
(stores, caches, sessions, the handler, the runner, the upload and parser
loops) is written as classes and methods. Each such method is proved equal
to a function on values, and the properties the system promises are lemmas
about those functions. Python exceptions are the `Exc` datatype, and an
operation that may raise returns a `Result`.

## Model

| member | source | states |
|---|---|---|
| ObjectStore.CollectionOf | src/t3d_server/database_connection/InMemoryConnection.py:41 | `store.get(name, {})` is a well-formed collection: the stored one, or an empty one for a missing name |
| ObjectStore.WithCollection | src/t3d_server/database_connection/InMemoryConnection.py:68-70 | replacing one collection changes only that entry of the store and keeps the collection order when it already exists |
| ObjectStore.WithCollectionTwice | src/t3d_server/database_connection/InMemoryConnection.py:69-70 | two successive writes to the same collection equal one write of the later value |
| ObjectStore.CreateAll | src/t3d_server/database_connection/InMemoryConnection.py:32-34 | `create_collections` keeps the store well formed |
| ObjectStore.DeleteAll | src/t3d_server/database_connection/InMemoryConnection.py:36-38 | `delete_collections` keeps the store well formed |
| ObjectStore.PopAll | src/t3d_server/database_connection/InMemoryConnection.py:52-54 | popping the named objects keeps the collection well formed |
| ObjectStore.DeleteObjectsIn | src/t3d_server/database_connection/InMemoryConnection.py:49-54 | `delete_objects` keeps the store well formed |
| ObjectStore.PutPairs | src/t3d_server/database_connection/InMemoryConnection.py:69-70 | the zipped writes of `put_objects` keep the collection well formed |
| ObjectStore.PutIn | src/t3d_server/database_connection/InMemoryConnection.py:62-70 | `put_objects` keeps the store well formed |
| ObjectStore.Flags | src/t3d_server/database_connection/InMemoryConnection.py:81 | one flag per name, each true exactly when the name is in the collection |
| ObjectStore.PutUnflagged | src/t3d_server/database_connection/InMemoryConnection.py:82-84 | the writes guarded by the flags keep the collection well formed |
| ObjectStore.PutNewIn | src/t3d_server/database_connection/InMemoryConnection.py:72-85 | `put_objects_with_duplicity_check` keeps the store well formed |
| ObjectStore.CreateAllSpec | src/t3d_server/database_connection/InMemoryConnection.py:32-34 | after `create_collections` a collection exists iff it existed or was named; an existing collection is never cleared; a new one is empty |
| ObjectStore.DeleteAllSpec | src/t3d_server/database_connection/InMemoryConnection.py:36-38 | after `delete_collections` a collection exists iff it existed and was not named, and the survivors are unchanged |
| ObjectStore.DeleteAllAbsent | src/t3d_server/database_connection/InMemoryConnection.py:36-38 | deleting collections that do not exist is a no-op |
| ObjectStore.PopAllSpec | src/t3d_server/database_connection/InMemoryConnection.py:52-54 | `delete_objects` removes exactly the named objects and leaves every other object as it was |
| ObjectStore.DeleteObjectsAbsent | src/t3d_server/database_connection/InMemoryConnection.py:49-54 | deleting absent objects, or from a missing collection, is a no-op |
| ObjectStore.PopAllAbsent | src/t3d_server/database_connection/InMemoryConnection.py:52-54 | popping names none of which is present leaves the collection equal to itself |
| ObjectStore.PutPairsSpec | src/t3d_server/database_connection/InMemoryConnection.py:69-70 | after the writes each object holds the value of the last pair that writes it, or its previous value if none does |
| ObjectStore.PutUnflaggedSpec | src/t3d_server/database_connection/InMemoryConnection.py:82-84 | the same for the writes whose flag is false |
| ObjectStore.UnflaggedSkipsPresent | src/t3d_server/database_connection/InMemoryConnection.py:82-84 | a name flagged present at every occurrence is never written |
| ObjectStore.UnflaggedWritesAbsent | src/t3d_server/database_connection/InMemoryConnection.py:82-84 | a name flagged absent at every occurrence is written as a plain put would |
| ObjectStore.PutInSpec | src/t3d_server/database_connection/InMemoryConnection.py:62-70 | `put_objects` creates a missing collection, leaves all other collections alone, and each object ends with its last write |
| ObjectStore.PutThenGet | src/t3d_server/database_connection/InMemoryConnection.py:56-70 | a put followed by a get of the same collection and name returns the value put |
| ObjectStore.LaterPutWins | src/t3d_server/database_connection/InMemoryConnection.py:69-70 | of two puts of the same name, the later one wins |
| ObjectStore.TextIsDropped | src/compox/database_connection/InMemoryConnection.py:170-173 | a bytes-only store never writes a name whose zipped values are all text |
| ObjectStore.PutNewInSpec | src/t3d_server/database_connection/InMemoryConnection.py:72-85 | the duplicity-checked put leaves objects that existed before untouched, writes the others as a plain put, and leaves other collections alone |
| T3dInMemory.InMemoryConnection.constructor | src/t3d_server/database_connection/InMemoryConnection.py:20-22 | a new connection has an empty store |
| T3dInMemory.InMemoryConnection.ListCollections | src/t3d_server/database_connection/InMemoryConnection.py:24-25 | every collection exactly once, in creation order |
| T3dInMemory.InMemoryConnection.CheckCollectionsExists | src/t3d_server/database_connection/InMemoryConnection.py:27-30 | one flag per name, true exactly when that collection exists |
| T3dInMemory.InMemoryConnection.CreateCollections | src/t3d_server/database_connection/InMemoryConnection.py:32-34 | the loop leaves the store equal to `CreateAll` of the old store |
| T3dInMemory.InMemoryConnection.DeleteCollections | src/t3d_server/database_connection/InMemoryConnection.py:36-38 | the loop leaves the store equal to `DeleteAll` of the old store |
| T3dInMemory.InMemoryConnection.ListObjects | src/t3d_server/database_connection/InMemoryConnection.py:40-41 | the object names once each in insertion order; [] for a missing collection |
| T3dInMemory.InMemoryConnection.CheckObjectsExist | src/t3d_server/database_connection/InMemoryConnection.py:43-47 | one flag per name, true exactly when the collection exists and holds that name |
| T3dInMemory.InMemoryConnection.DeleteObjects | src/t3d_server/database_connection/InMemoryConnection.py:49-54 | the loop leaves the store equal to `DeleteObjectsIn` of the old store |
| T3dInMemory.InMemoryConnection.GetObjects | src/t3d_server/database_connection/InMemoryConnection.py:56-60 | the named objects in order when all are present; KeyError otherwise |
| T3dInMemory.InMemoryConnection.PutObjects | src/t3d_server/database_connection/InMemoryConnection.py:62-70 | the loop leaves the store equal to `PutIn` of the old store, storing every value |
| T3dInMemory.InMemoryConnection.PutObjectsWithDuplicityCheck | src/t3d_server/database_connection/InMemoryConnection.py:72-85 | the returned flags are the membership before the call, and the store becomes `PutNewIn` of the old store |
| CompoxInMemory.InMemoryConnection.constructor | src/compox/database_connection/InMemoryConnection.py:20-22 | a new connection has an empty store |
| CompoxInMemory.InMemoryConnection.ListCollections | src/compox/database_connection/InMemoryConnection.py:24-33 | every collection exactly once, in creation order |
| CompoxInMemory.InMemoryConnection.CheckCollectionsExists | src/compox/database_connection/InMemoryConnection.py:35-51 | one flag per name, true exactly when that collection exists |
| CompoxInMemory.InMemoryConnection.CreateCollections | src/compox/database_connection/InMemoryConnection.py:53-63 | the store becomes `CreateAll` of the old store: existing collections are not disturbed |
| CompoxInMemory.InMemoryConnection.DeleteCollections | src/compox/database_connection/InMemoryConnection.py:65-75 | the store becomes `DeleteAll` of the old store |
| CompoxInMemory.InMemoryConnection.ListObjects | src/compox/database_connection/InMemoryConnection.py:77-91 | the object names in insertion order; [] for a missing collection |
| CompoxInMemory.InMemoryConnection.CheckObjectsExist | src/compox/database_connection/InMemoryConnection.py:93-112 | one flag per name, true exactly when the collection exists and holds that name |
| CompoxInMemory.InMemoryConnection.DeleteObjects | src/compox/database_connection/InMemoryConnection.py:114-129 | the store becomes `DeleteObjectsIn` of the old store |
| CompoxInMemory.InMemoryConnection.GetObjects | src/compox/database_connection/InMemoryConnection.py:131-150 | the named objects in order when all are present; KeyError otherwise |
| CompoxInMemory.InMemoryConnection.PutObjects | src/compox/database_connection/InMemoryConnection.py:152-173 | the store becomes `PutIn` of the old store with only byte values written |
| CompoxInMemory.InMemoryConnection.PutObjectsWithDuplicityCheck | src/compox/database_connection/InMemoryConnection.py:175-205 | flags are the membership before the call; only names absent before are written |
| ServerUtils.GenerateUuid | src/t3d_server/server_utils.py:105-125 | version 1 gives the time-based uuid and version 4 the random one; any other version raises ValueError |
| ServerUtils.FindSpec | src/t3d_server/server_utils.py:148-200 | `find_algorithm_by_id` key by key: a key without exactly four fields raises ValueError, the first key whose id matches is the answer with `int()` versions, no match gives the Nones; `FindAlgorithmById` is proved to compute it |
| ServerUtils.FindAlgorithmById | src/t3d_server/server_utils.py:148-200 | the search loop with early return computes exactly `FindSpec`: first matching key, a malformed key raises ValueError, no match gives the Nones |
| ServerUtils.FindNoneIff | src/t3d_server/server_utils.py:174-200 | the five Nones come back iff every key has four `~`-fields and none carries the id |
| ServerUtils.FindFirstMatch | src/t3d_server/server_utils.py:174-193 | a match is the first key with that id; every earlier key is well formed with another id, the name is the second field and the versions are `int()` of the third and fourth |
| ServerUtils.CacheSize | src/t3d_server/server_utils.py:235-236 | with the invariant, the dict has as many entries as the deque |
| ServerUtils.Access | src/t3d_server/server_utils.py:239-260 | one call of the LRU-cached function: a hit returns the cached result and refreshes the key, a miss stores the new result and evicts the least recently used key past the limit; its properties are `AccessKeepsInv`, `AccessHit`, `AccessEvictsLru`, `AccessStores` and `AccessMissKeeps` |
| ServerUtils.AccessKeepsInv | src/t3d_server/server_utils.py:244-258 | every call keeps the deque duplicate-free with the same keys as the dict, and the size within `maxsize` |
| ServerUtils.AccessHit | src/t3d_server/server_utils.py:244-248 | a hit returns the stored result without calling the function and moves the key to the most-recent end |
| ServerUtils.AccessEvictsLru | src/t3d_server/server_utils.py:250-258 | a miss past the limit evicts exactly the front of the deque (the least recently used key) |
| ServerUtils.AccessStores | src/t3d_server/server_utils.py:250-253 | a miss within the limit adds the new result and appends its key, keeping all else |
| ServerUtils.AccessMissKeeps | src/t3d_server/server_utils.py:250-258 | after a miss the key holds the new result, and every other entry is an unchanged older one |
| ServerUtils.OnlyKey | src/t3d_server/server_utils.py:255-258 | with `maxsize=1` the cache holds only the last key |
| ServerUtils.KeysCollide | src/t3d_server/server_utils.py:242 | argument tuples with the same concatenation (`("ab","c")`, `("a","bc")`) share one cache key |
| ServerUtils.LruCache.constructor | src/t3d_server/server_utils.py:235-236 | a fresh decorator has an empty dict and deque |
| ServerUtils.LruCache.Call | src/t3d_server/server_utils.py:239-260 | `inner_wrapper` updates dict and deque as `Access` says and keeps the LRU invariant; the same code models `data_cache` (lines 286-307) |
| ServerUtils.UnflaggedIsMissing | src/t3d_server/server_utils.py:363-367 | the comprehension over the existence flags yields exactly the names absent from the store, in input order |
| ServerUtils.MissingCollectionsMembers | src/t3d_server/server_utils.py:363-367 | a name is returned iff it was requested and is not a collection |
| ServerUtils.CheckAndCreateDatabaseCollections | src/t3d_server/server_utils.py:340-371 | returns the missing names in input order; creates exactly those, and calls `create_collections` only when the list is non-empty |
| ServerUtils.CheckAndCreateOutcome | src/t3d_server/server_utils.py:360-371 | afterwards every requested collection exists, existing ones are untouched, and nothing unrequested is created |
| SessionCache.AfterRemove | src/t3d_server/session/DataCache.py:146-158 | `remove_item` keeps the dict well formed, never lengthens `cache_keys`, and leaves both eviction histories alone |
| SessionCache.PopOldest | src/t3d_server/session/DataCache.py:122-123 | popping the oldest key and removing it strictly shortens `cache_keys` and leaves the histories alone |
| SessionCache.SizeStep | src/t3d_server/session/DataCache.py:120-125 | the size check keeps the dict well formed (an empty `cache_keys` makes `pop(0)` raise IndexError) |
| SessionCache.MemoryLoop | src/t3d_server/session/DataCache.py:133-141 | the memory loop keeps the dict well formed |
| SessionCache.Evictions | src/t3d_server/session/DataCache.py:120-141 | the evictions before the store keep the dict well formed |
| SessionCache.AddAsWritten | src/t3d_server/session/DataCache.py:109-144 | `add_item` exactly as written (the key is appended even when already listed) keeps the dict well formed |
| SessionCache.AddCorrected | src/t3d_server/session/DataCache.py:109-144 | the corrected `add_item` (the key is listed once) keeps the dict well formed |
| SessionCache.RemoveItemSpec | src/t3d_server/session/DataCache.py:155-158 | `remove_item` keeps the invariant, deletes the key from both `cache` and `cache_keys`, and is a no-op for an absent key |
| SessionCache.PopOldestSpec | src/t3d_server/session/DataCache.py:122-123 | evicting the oldest key keeps the invariant and removes exactly that key |
| SessionCache.SizeStepSpec | src/t3d_server/session/DataCache.py:120-125 | a full cache loses exactly its oldest key, which is appended to `removed_keys_len`; a cache with room is unchanged |
| SessionCache.MemoryLoopSpec | src/t3d_server/session/DataCache.py:133-141 | the memory loop stops below the limit or at one item; it evicts a prefix of `cache_keys` and logs it in order in `removed_keys_memory` |
| SessionCache.EvictionsSpec | src/t3d_server/session/DataCache.py:120-141 | with `max_size >= 1` the evictions never raise, keep the invariant, only remove keys, and leave room for one more item |
| SessionCache.StoreSpec | src/t3d_server/session/DataCache.py:143-144 | storing into a cache with room keeps the invariant and maps the key to the object |
| SessionCache.AddCorrectedSpec | src/t3d_server/session/DataCache.py:109-144 | with `max_size >= 1` the corrected `add_item` keeps `len(cache) <= max_size`, stores the item as most recent, and keeps no other new key |
| SessionCache.AddNonPositiveRaises | src/t3d_server/session/DataCache.py:120-122 | with `max_size <= 0` every `add_item` on the empty cache raises IndexError and changes nothing |
| SessionCache.GetHit | src/t3d_server/session/DataCache.py:80-84 | a hit returns the stored value and moves the key to the most-recent end without changing membership |
| SessionCache.GetMiss | src/t3d_server/session/DataCache.py:85-94 | a miss raises KeyError with the size-eviction message, then the memory-eviction message, then "not found", and changes nothing |
| SessionCache.AsWrittenExceedsMaxSize | src/t3d_server/session/DataCache.py:143-144 | with `max_size == 2`, adding "k" twice, removing it, then adding "a", "b", "c" leaves three items |
| SessionCache.StoredTwo | src/t3d_server/session/DataCache.py:143-144 | from a state whose only listed key is stale, adding "a" and "b" stores both and lists k, a, b |
| SessionCache.StaleKeyLeft | src/t3d_server/session/DataCache.py:143-158 | adding "k" twice and removing it empties the dict but leaves "k" in `cache_keys` |
| SessionCache.Stored | src/t3d_server/session/DataCache.py:143-144 | without eviction, `add_item` as written puts the item and appends its key |
| SessionCache.FullOfTwo | src/t3d_server/session/DataCache.py:120-144 | when the stale key is the oldest, the size eviction removes nothing from the dict and a third item joins it |
| SessionCache.EvictsStaleKey | src/t3d_server/session/DataCache.py:120-125 | the size eviction pops the stale key and records it in `removed_keys_len` |
| SessionCache.AddAfterEvictions | src/t3d_server/session/DataCache.py:143-144 | once the evictions succeed, `add_item` as written stores into the state they leave |
| SessionCache.WeakRemove | src/t3d_server/session/DataCache.py:155-158 | on a cache whose cached keys are all listed, `remove_item` keeps them listed and drops exactly that key from the dict |
| SessionCache.WeakPopOldest | src/t3d_server/session/DataCache.py:122-123 | popping the oldest listed key keeps every cached key listed and never adds a cached key |
| SessionCache.WeakMemoryLoop | src/t3d_server/session/DataCache.py:133-141 | the memory loop never raises on such a cache, keeps every cached key listed, and only removes keys |
| SessionCache.AddAsWrittenSpec | src/t3d_server/session/DataCache.py:109-144 | `add_item` as written keeps every cached key listed; it raises (IndexError, nothing changed) iff `max_size <= 0`; otherwise the key holds the item, is listed last, and no other new key is cached |
| SessionCache.AsWrittenAgreesOnNewKey | src/t3d_server/session/DataCache.py:109-144 | for a key not yet cached, `add_item` as written and the corrected one give the same result |
| SessionCache.WeakGet | src/t3d_server/session/DataCache.py:66-94 | `__getitem__` keeps every cached key listed |
| SessionCache.WeakSize | src/t3d_server/session/DataCache.py:39-48 | when every cached key is listed, `len(cache)` is at most `len(cache_keys)` |
| SessionCache.AddAsWrittenRoom | src/t3d_server/session/DataCache.py:120-144 | without a memory limit and with room, `add_item` as written only stores the item and appends the key |
| SessionCache.CorrectedKeepsMaxSize | src/t3d_server/session/DataCache.py:109-144 | the same call sequence on the corrected `add_item` ends with at most two items |
| SessionCache.DataCache.constructor | src/t3d_server/session/DataCache.py:20-37 | a new cache is empty, with empty histories and the given limits |
| SessionCache.DataCache.Len | src/t3d_server/session/DataCache.py:39-48 | `__len__` is the number of cached items, never more than `cache_keys` lists; `max_size` does not bound it (see `AsWrittenExceedsMaxSize`) |
| SessionCache.DataCache.Contains | src/t3d_server/session/DataCache.py:50-64 | `__contains__` is dict membership, and a cached key is always listed in `cache_keys` |
| SessionCache.DataCache.GetItem | src/t3d_server/session/DataCache.py:66-94 | `__getitem__` returns and updates exactly as `Get` says, keeping every cached key listed |
| SessionCache.DataCache.RemoveItem | src/t3d_server/session/DataCache.py:146-158 | `remove_item` leaves the state `AfterRemove` of the old one and keeps every cached key listed |
| SessionCache.DataCache.RemoveItemStep | src/t3d_server/session/DataCache.py:155-158 | the body of `remove_item` on any well-formed state equals `AfterRemove` |
| SessionCache.DataCache.EvictForSize | src/t3d_server/session/DataCache.py:120-125 | the size check changes the state and raises exactly as `SizeStep` |
| SessionCache.DataCache.EvictForMemory | src/t3d_server/session/DataCache.py:133-141 | the while loop changes the state and raises exactly as `MemoryLoop` |
| SessionCache.DataCache.Evict | src/t3d_server/session/DataCache.py:120-141 | the two eviction phases together equal `Evictions` |
| SessionCache.DataCache.StoreItem | src/t3d_server/session/DataCache.py:143-144 | the item is stored and its key appended to `cache_keys`, even when already listed |
| SessionCache.DataCache.AddItem | src/t3d_server/session/DataCache.py:109-144 | `add_item` as written ends in the state `AddAsWritten` gives; it succeeds iff `max_size >= 1`, then holds the item under its key, and always keeps every cached key listed |
| SessionCache.DataCache.Clear | src/t3d_server/session/DataCache.py:160-165 | `clear` empties `cache` and `cache_keys` and leaves both eviction histories untouched |
| SessionRegistry.ExpiredKeys | src/t3d_server/session/TaskSession.py:100-105 | the collected tokens are exactly the registered ones whose age strictly exceeds `expire_hours*3600` seconds |
| SessionRegistry.DeleteKeys | src/t3d_server/session/TaskSession.py:107-108 | deleting the collected tokens keeps the registry well formed |
| SessionRegistry.PopKeys | src/t3d_server/session/TaskSession.py:108 | `del d[k]` takes `k` out of the key order and nothing else |
| SessionRegistry.ElemsSplit | src/t3d_server/session/TaskSession.py:107-108 | the tokens of a list are its first one plus those of the rest |
| SessionRegistry.DeleteKeysOrder | src/t3d_server/session/TaskSession.py:107-108 | deleting a token list keeps the other tokens in their order |
| SessionRegistry.DeleteKeysEntries | src/t3d_server/session/TaskSession.py:107-108 | deleting a token list keeps exactly the unlisted entries, unchanged |
| SessionRegistry.FilterExpired | src/t3d_server/session/TaskSession.py:101-105 | filtering out the expired tokens equals the list of live tokens in registry order |
| SessionRegistry.Clean | src/t3d_server/session/TaskSession.py:86-108 | `_clean_expired_sessions` at a given time: the expired tokens collected, then deleted; its properties are `CleanSpec` |
| SessionRegistry.CleanSpec | src/t3d_server/session/TaskSession.py:86-108 | `_clean_expired_sessions` removes exactly the entries older than the limit (strictly) and keeps the others, unchanged and in order |
| SessionRegistry.OldestIndex | src/t3d_server/session/TaskSession.py:76-79 | the index picked holds the smallest `time_created`, and no earlier index does (ties go to the first, as `min` does) |
| SessionRegistry.Oldest | src/t3d_server/session/TaskSession.py:76-79 | `min(data_caches, key=time_created)` is a registered token |
| SessionRegistry.MakeRoom | src/t3d_server/session/TaskSession.py:75-80 | the capacity check of `__init__`: a full registry loses its oldest entry, an empty one with a limit <= 0 makes `min` raise ValueError; its properties are `AdmitSpec` |
| SessionRegistry.Open | src/t3d_server/session/TaskSession.py:72-80 | the registry work of `TaskSession(...)`: clean, then make room; its properties are `OpenMakesRoom` |
| SessionRegistry.AdmitSpec | src/t3d_server/session/TaskSession.py:75-80 | a full registry loses exactly the first entry with the smallest creation time; otherwise nothing changes; an empty registry with a limit <= 0 makes `min` raise ValueError |
| SessionRegistry.PopSessionsValid | src/t3d_server/session/TaskSession.py:80 | deleting a session keeps the registry well formed |
| SessionRegistry.OpenMakesRoom | src/t3d_server/session/TaskSession.py:72-80 | when the registry respected the limit, construction leaves room for one more session and never raises |
| SessionRegistry.SessionAdd | src/t3d_server/session/TaskSession.py:182-218 | `add_item`: the entry is created on first use, then the cache's `add_item` as written runs; its properties are `AddThenGet`, `AddIsolated` and `AddNonPositiveFails` |
| SessionRegistry.SessionGet | src/t3d_server/session/TaskSession.py:149-180 | `session[key]`: the cache of the session is asked and a KeyError is raised again naming the session; its properties are `GetMissing` and `StoredIsFound` |
| SessionRegistry.SessionRemove | src/t3d_server/session/TaskSession.py:220-240 | `remove_item`: a session with no entry raises KeyError, otherwise the cache's `remove_item`; its properties are `RemoveSpec` |
| SessionRegistry.SessionClear | src/t3d_server/session/TaskSession.py:242-257 | `clear_cache`: the session's cache is emptied; its properties are `ClearThenGet` and `ClearKeepsValid` |
| SessionRegistry.AddThenGet | src/t3d_server/session/TaskSession.py:182-218 | with a cache limit >= 1, `add_item` succeeds and a following get returns the stored object (lines 175-176) |
| SessionRegistry.StoredIsFound | src/t3d_server/session/TaskSession.py:175-176 | an item held by the session's cache is what `session[key]` returns |
| SessionRegistry.PutEntryValid | src/t3d_server/session/TaskSession.py:209-215 | registering an entry whose cache keeps its invariant keeps the registry well formed |
| SessionRegistry.AddIsolated | src/t3d_server/session/TaskSession.py:207-218 | `add_item` of one session never touches another session's entry |
| SessionRegistry.AddNonPositiveFails | src/t3d_server/session/TaskSession.py:207-218 | with a cache limit <= 0 the entry is created and then the cache's `add_item` raises IndexError |
| SessionRegistry.GetMissing | src/t3d_server/session/TaskSession.py:175-180 | a key absent from the session (or a session with no entry) raises KeyError naming the session, and nothing changes |
| SessionRegistry.ClearThenGet | src/t3d_server/session/TaskSession.py:242-257 | after `clear_cache` every get raises KeyError (lines 175-180) |
| SessionRegistry.ClearKeepsValid | src/t3d_server/session/TaskSession.py:256-257 | clearing keeps the registry well formed |
| SessionRegistry.RemoveSpec | src/t3d_server/session/TaskSession.py:239-240 | after `remove_item` the key is gone from the session's cache and the registry stays well formed |
| SessionRegistry.NotImplementedRefuses | src/t3d_server/session/TaskSession.py:165-173 | with `not_implemented`, get, add, remove and clear raise NotImplementedError and change nothing; `session_token` is None (lines 198-206, 230-238, 247-255, 269-270) |
| SessionRegistry.Registry.constructor | src/t3d_server/session/TaskSession.py:35 | the class-level `data_caches` starts empty |
| SessionRegistry.Registry.Len | src/t3d_server/session/TaskSession.py:122-131 | `len(session)` is the number of registered sessions |
| SessionRegistry.Registry.Contains | src/t3d_server/session/TaskSession.py:133-147 | `token in session` is registry membership |
| SessionRegistry.Registry.CleanExpiredSessions | src/t3d_server/session/TaskSession.py:86-108 | the deletion loop leaves the registry equal to `Clean` of the old one |
| SessionRegistry.Registry.Admit | src/t3d_server/session/TaskSession.py:75-80 | the capacity check changes the registry and raises exactly as `MakeRoom` |
| SessionRegistry.CollectExpired | src/t3d_server/session/TaskSession.py:100-105 | the first loop collects exactly `ExpiredKeys` in registry order |
| SessionRegistry.TaskSession.constructor | src/t3d_server/session/TaskSession.py:82-84 | the session keeps its token, cache limits and `not_implemented` flag |
| SessionRegistry.TaskSession.GetItem | src/t3d_server/session/TaskSession.py:149-180 | `session[key]` returns and updates the registry exactly as `SessionGet` |
| SessionRegistry.TaskSession.AddItem | src/t3d_server/session/TaskSession.py:182-218 | `add_item` creates the entry lazily and adds to its cache with the cache's `add_item` as written, as `SessionAdd` |
| SessionRegistry.TaskSession.RemoveItem | src/t3d_server/session/TaskSession.py:220-240 | `remove_item` acts as `SessionRemove`; a session with no entry raises KeyError |
| SessionRegistry.TaskSession.ClearCache | src/t3d_server/session/TaskSession.py:242-257 | `clear_cache` acts as `SessionClear` |
| SessionRegistry.TaskSession.GetSessionToken | src/t3d_server/session/TaskSession.py:259-272 | the token, or None exactly when `not_implemented` |
| SessionRegistry.Create | src/t3d_server/session/TaskSession.py:37-84 | the token is the given one if truthy, else the generated one (lines 67-70); the registry is cleaned then trimmed as `Open` says |
| TaskRecords.ApplyFrame | src/t3d_server/tasks/TaskHandler.py:138-153 | a property setter's write makes the record show the new value and rewrites no other field of the execution record |
| TaskRecords.ApplyNoop | src/t3d_server/tasks/TaskHandler.py:138-153 | a setter's write leaves the record unchanged exactly when the record already shows that value |
| TaskRecords.WritesStep | src/t3d_server/tasks/TaskHandler.py:346-370 | setters called one after another: the first runs, and the rest run only if it did not raise |
| TaskRecords.WritesPresent | src/t3d_server/tasks/TaskHandler.py:138-153 | with the record present every write succeeds, the handler's copy takes every value, and the store's history gains exactly the successive records |
| TaskRecords.WritesDetached | src/t3d_server/tasks/TaskHandler.py:130-153 | without `database_update` nothing reaches the execution store and every value lands in the handler's own copy |
| TaskRecords.WritesMissing | src/t3d_server/tasks/TaskHandler.py:138-156 | with the record missing the first write fails: the store is untouched and the failure handler's progress 1.0 ends in the handler's copy |
| TaskRecords.Unfold5 | src/t3d_server/tasks/TaskHandler.py:361-368 | a run of five setters, spelled out write by write |
| TaskRecords.CompletedOutcome | src/t3d_server/tasks/TaskHandler.py:346-370 | `mark_as_completed` puts five records in the order progress 1.0, outputs, completion time, log, status COMPLETED, so the status changes last; then the log sink is gone |
| TaskRecords.FailedOutcome | src/t3d_server/tasks/TaskHandler.py:385-410 | `mark_as_failed` puts five records in the order progress 1.0, completion time, empty outputs, log, status FAILED; then the log sink is gone |
| TaskRecords.FailurePassesThrough | src/t3d_server/tasks/TaskHandler.py:906-908 | a failure handler marks the task FAILED and re-raises the pending exception, unless the sink was already removed, in which case the removal's error replaces it |
| TaskRecords.ProgressRange | src/t3d_server/tasks/TaskHandler.py:123-156 | a progress outside [0, 1] raises ValueError with nothing changed; one inside changes progress in the handler and the record and no other record field |
| TaskRecords.StatusIff | src/t3d_server/tasks/TaskHandler.py:170-207 | the status setter raises ValueError if and only if the status is not one of the five allowed ones, and then nothing changes |
| TaskRecords.DeviceRange | src/t3d_server/tasks/TaskHandler.py:580-704 | the chosen device is always cpu, cuda or mps; cuda only with a GPU, mps only with MPS available |
| TaskRecords.DefaultMustBeSupported | src/t3d_server/tasks/TaskHandler.py:602-608 | the device choice fails its assertion exactly when the default device is not among the supported ones (ignoring case), whatever the override |
| TaskRecords.UnknownDefault | src/t3d_server/tasks/TaskHandler.py:612-667 | without an override a supported default other than cpu, gpu or mps raises ValueError, except an empty default with "gpu" listed |
| TaskRecords.GpuDefaultWithoutGpu | src/t3d_server/tasks/TaskHandler.py:626-633 | a gpu default without an available GPU runs on the CPU |
| TaskRecords.CpuOverrideWins | src/t3d_server/tasks/TaskHandler.py:669-677 | a supported cpu override selects the CPU even when a GPU is available |
| TaskRecords.OtherOverrideFallsBack | src/t3d_server/tasks/TaskHandler.py:698-702 | any override that is not a supported cpu or gpu gives the same result as no override |
| TaskRecords.OverrideNeverRaises | src/t3d_server/tasks/TaskHandler.py:668-702 | an override adds no failure: the choice raises only when the default resolution raises |
| TaskRecords.PostStep | src/t3d_server/tasks/TaskHandler.py:853-879 | posting stores one validated result under its fresh id and then posts the rest |
| TaskRecords.FetchSpec | src/t3d_server/tasks/TaskHandler.py:779-816 | fetching succeeds if and only if every file exists and validates, and then gives one dataset per id, in order |
| TaskRecords.SelectSpec | src/t3d_server/tasks/TaskHandler.py:789-799 | asking for keys gives exactly those keys, None where the file lacks one; asking for none gives every key |
| TaskRecords.PostSpec | src/t3d_server/tasks/TaskHandler.py:853-887 | posting succeeds if and only if every result validates; the returned ids are the fresh ids, each storing its validated result without None entries, and every other stored entry is kept |
| TaskRecords.FetchAssetSpec | src/t3d_server/tasks/TaskHandler.py:706-743 | an asset is returned if and only if its path is recorded and its id is in the asset store; a lookup miss raises before the handler changes anything |
| TaskRecords.SaveThenLoad | src/t3d_server/tasks/TaskHandler.py:889-930 | through the handler an object saved to a session that can hold it is loaded back, and neither call touches the task's record |
| TaskRecords.NoSessionFails | src/t3d_server/tasks/TaskHandler.py:901-959 | without a session every session call fails as a call on None does, and the session registry is untouched |
| TaskRecords.Loaded | src/t3d_server/tasks/TaskHandler.py:564-574 | a freshly fetched runner is initialized on the chosen device and has loaded its assets |
| TaskRecords.ResolvedSpec | src/t3d_server/tasks/TaskHandler.py:537-562 | a resolved lookup names the algorithm listed first with that id, and its device is the device choice over that algorithm's JSON |
| TaskRecords.DoubleFailure | src/t3d_server/tasks/TaskHandler.py:497-499 | a lookup or module failure passes two handlers: the inner raises the wrapped error, the outer finds the sink removed and raises the logger's error instead |
| TaskRecords.FetchFailureSeen | src/t3d_server/tasks/TaskHandler.py:443-578 | the caller of `fetch_algorithm` sees a device failure wrapped once, and for lookup and module failures the logger's complaint; the task ends FAILED either way |
| TaskRecords.FetchedRunnerReady | src/t3d_server/tasks/TaskHandler.py:477-484 | a freshly fetched runner, once re-initialised, runs on the chosen device and reads every asset `load_assets` set |
| TaskRecords.StartSpec | src/t3d_server/tasks/TaskHandler.py:95-99 | a new handler over a present record leaves it STARTED, carrying the session's token when there is a session, and keeps every other field |
| TaskHandling.Database.constructor | src/t3d_server/tasks/TaskHandler.py:74 | the connection the handler is given holds the execution store, the algorithm and module collections, the assets and the data files, unchanged |
| TaskHandling.Database.PostAll | src/t3d_server/tasks/TaskHandler.py:853-879 | posting the results stores each validated result under its fresh id as the posting specification says, keeping the execution store and every other collection |
| TaskHandling.FetchFiles | src/t3d_server/tasks/TaskHandler.py:779-812 | the sequential fetch loop returns exactly what reading and validating the files in order gives, failing at the first missing file or invalid dataset |
| TaskHandling.PostFiles | src/t3d_server/tasks/TaskHandler.py:853-879 | the sequential post loop validates and stores each result under its fresh id, in order, stopping at the first invalid result with the earlier ones stored |
| TaskHandling.ReuseCached | src/t3d_server/tasks/TaskHandler.py:477-483 | a cache hit hands back the cached entry itself, leaves the cache's contents as they were and re-initialises the cached runner |
| TaskHandling.CacheNew | src/t3d_server/tasks/TaskHandler.py:477-483 | a cache miss stores the fresh entry under its key in the one-slot cache and re-initialises its runner |
| TaskHandling.BuildRunner | src/t3d_server/tasks/TaskHandler.py:564-574 | a runner built from the algorithm's module is fresh, well formed, idle, initialised on the chosen device and has loaded its assets |
| TaskHandling.TaskHandler.constructor | src/t3d_server/tasks/TaskHandler.py:71-97 | a new handler has progress 0, no outputs, time or log yet, zero file statistics and no recorded assets, and keeps its task id, update flag, sink, connection and session |
| TaskHandling.TaskHandler.SetOwn | src/t3d_server/tasks/TaskHandler.py:138 | a setter first assigns the handler's own attribute, changing nothing else |
| TaskHandling.TaskHandler.Write | src/t3d_server/tasks/TaskHandler.py:138-156 | a setter after its check sets the handler's copy and, with `database_update`, rewrites that one field of the record, or fails into `mark_as_failed` when the record is missing |
| TaskHandling.TaskHandler.SetProgress | src/t3d_server/tasks/TaskHandler.py:123-156 | the progress setter refuses a value outside [0, 1] and otherwise writes it, touching neither the statistics nor the other collections |
| TaskHandling.TaskHandler.SetStatus | src/t3d_server/tasks/TaskHandler.py:170-207 | the status setter refuses anything but the five statuses and otherwise writes it |
| TaskHandling.TaskHandler.SetOutputDatasetIds | src/t3d_server/tasks/TaskHandler.py:220-248 | the output ids setter writes the ids to the handler and the record |
| TaskHandling.TaskHandler.SetTimeCompleted | src/t3d_server/tasks/TaskHandler.py:261-289 | the completion time setter writes the time to the handler and the record |
| TaskHandling.TaskHandler.SetSessionToken | src/t3d_server/tasks/TaskHandler.py:302-330 | the session token setter writes the token to the handler and the record |
| TaskHandling.TaskHandler.UpdateLog | src/t3d_server/tasks/TaskHandler.py:412-441 | `update_log` copies the log stream's text into the record's log field, failing into `mark_as_failed` when the record is missing |
| TaskHandling.TaskHandler.DropSink | src/t3d_server/tasks/TaskHandler.py:370 | removing the handler's log sink succeeds once; removing it again raises |
| TaskHandling.TaskHandler.Finish | src/t3d_server/tasks/TaskHandler.py:367-370 | both marks end by writing the log, then the final status, then removing the sink |
| TaskHandling.TaskHandler.MarkAsCompleted | src/t3d_server/tasks/TaskHandler.py:346-370 | `mark_as_completed` performs the five writes of a completed task and removes the sink (see TaskRecords.CompletedOutcome for their order) |
| TaskHandling.TaskHandler.MarkAsFailed | src/t3d_server/tasks/TaskHandler.py:385-410 | `mark_as_failed` performs the five writes of a failed task and removes the sink (see TaskRecords.FailedOutcome) |
| TaskHandling.TaskHandler.Fail | src/t3d_server/tasks/TaskHandler.py:906-908 | a failure handler marks the task failed and raises the pending exception, or the error `mark_as_failed` itself raised |
| TaskHandling.TaskHandler.FetchAsset | src/t3d_server/tasks/TaskHandler.py:706-743 | `fetch_asset` returns the stored asset for a recorded path; an unrecorded path or missing assets raise before anything changes; a failing read marks the task failed and is wrapped |
| TaskHandling.TaskHandler.FetchData | src/t3d_server/tasks/TaskHandler.py:745-820 | `fetch_data` returns the validated datasets in order; only on success does the fetch count grow by the number of files and the fetch time by the elapsed time; a failure marks the task failed and is re-raised |
| TaskHandling.TaskHandler.PostData | src/t3d_server/tasks/TaskHandler.py:822-887 | `post_data` stores each validated result under a fresh id and returns the ids; only on success do the post count and time grow; a failure marks the task failed, keeps the results already stored and is re-raised |
| TaskHandling.TaskHandler.SaveItemToSession | src/t3d_server/tasks/TaskHandler.py:889-908 | saving goes to the session's `add_item`; without a session the call fails as `None.add_item` does and marks the task failed |
| TaskHandling.TaskHandler.LoadItemFromSession | src/t3d_server/tasks/TaskHandler.py:910-940 | loading reads the session's item; without a session `None[key]` raises TypeError and the task is marked failed |
| TaskHandling.TaskHandler.RemoveItemFromSession | src/t3d_server/tasks/TaskHandler.py:942-959 | removing goes to the session's `remove_item`; without a session the call fails as `None.remove_item` does and marks the task failed |
| TaskHandling.TaskHandler.LookUpAlgorithm | src/t3d_server/tasks/TaskHandler.py:537-555 | the lookup returns the first algorithm with that id and changes nothing; an unknown id raises "not found", marks the task failed and is wrapped |
| TaskHandling.TaskHandler.LoadModule | src/t3d_server/tasks/TaskHandler.py:564-577 | a known module gives a runner loaded on the device; an unknown one marks the task failed and raises the wrapped error |
| TaskHandling.TaskHandler.FetchFromJson | src/t3d_server/tasks/TaskHandler.py:559-578 | after the JSON is read the assets are recorded, then the device is chosen (its failure unwrapped) and the runner built from the module |
| TaskHandling.TaskHandler.RecordAssets | src/t3d_server/tasks/TaskHandler.py:561 | the algorithm's assets are recorded on the handler and nothing else changes |
| TaskHandling.TaskHandler.CachedFetch | src/t3d_server/tasks/TaskHandler.py:501-578 | a cache miss's body ends as the resolution of the algorithm list, the modules and the device choice says |
| TaskHandling.TaskHandler.FetchCached | src/t3d_server/tasks/TaskHandler.py:477-484 | a cache hit returns the cached runner object itself, re-initialised, without touching the task's record |
| TaskHandling.TaskHandler.StoreFetched | src/t3d_server/tasks/TaskHandler.py:477-484 | a fresh entry is cached under its key, its assets recorded and its runner re-initialised |
| TaskHandling.TaskHandler.FetchUncached | src/t3d_server/tasks/TaskHandler.py:466-499 | a cache miss either caches and returns the resolved runner, or ends as the failure the resolution gives, marked FAILED |
| TaskHandling.TaskHandler.FetchAlgorithm | src/t3d_server/tasks/TaskHandler.py:443-499 | `fetch_algorithm` hands back the cached runner on a hit without reading the store, and on a miss resolves, caches and re-initialises it, or fails as the resolution says |
| TaskHandling.Create | src/t3d_server/tasks/TaskHandler.py:49-100 | building a handler writes status STARTED through its setter and then the session's token when there is a session, leaving the other collections unchanged |
| Runners.SetAttr | src/t3d_server/algorithm_utils/BaseRunner.py:79-128 | `__setattr__`: an internal name goes straight to the object whatever the modes (the properties `device`, `task_handler` and `runner_context` refuse it); otherwise lock the name while loading assets, skip a locked name while initialising, refuse it otherwise, else store it in the context; its properties are `InternalBypass`, `DeviceReadOnly`, `UserNameKeepsModes`, `LockedRejects`, `UnlockedReadsBack` |
| Runners.GetAttr | src/t3d_server/algorithm_utils/BaseRunner.py:71-149 | `__getattribute__`: the context first, then the object, where `device` is the property reading `_device`, else AttributeError; see `UnlockedReadsBack`, `DeviceReadOnly` and `DelUncovers` |
| Runners.DelAttr | src/t3d_server/algorithm_utils/BaseRunner.py:151-155 | `__delattr__`: from the context when the name is there, else from the object, where the three properties cannot be deleted; see `DelUncovers` |
| Runners.Initialize | src/t3d_server/algorithm_utils/BaseRunner.py:30-49 | `initialize(device)`: a truthy device is set, the context cleared and `__init__` re-run in initialising mode; its properties are `InitializeSpec` |
| Runners.LoadAssets | src/t3d_server/algorithm_utils/BaseRunner.py:173-189 | `_load_assets`: a new empty locked set, then `load_assets` in locking mode; its properties are `LoadAssetsSpec` |
| Runners.LockedRejects | src/t3d_server/algorithm_utils/BaseRunner.py:119-126 | outside initialisation and asset loading, assigning a locked user attribute raises AttributeError naming it and changes nothing |
| Runners.UnlockedReadsBack | src/t3d_server/algorithm_utils/BaseRunner.py:128-149 | an unlocked attribute is stored in the runner context and reads back, with the object's own attributes untouched |
| Runners.InternalBypass | src/t3d_server/algorithm_utils/BaseRunner.py:93-104 | an internal name never meets the locking rules, whatever the modes: it never raises the locked error, leaves the context and the other attributes alone, changes the locked set only when it is `_locked_attributes` itself, and raises exactly for the three read-only properties, which change nothing |
| Runners.DeviceReadOnly | src/t3d_server/algorithm_utils/BaseRunner.py:71-104 | assigning `device` raises and changes nothing, while an assignment to `_device` succeeds and is what `device` then reads |
| Runners.UserNameKeepsModes | src/t3d_server/algorithm_utils/BaseRunner.py:106-128 | an assignment to a user name leaves `_device` and both mode flags alone and keeps the locked set present whenever assets are being loaded |
| Runners.ContextStaysUser | src/t3d_server/algorithm_utils/BaseRunner.py:93-128 | the runner context never receives an internal name |
| Runners.ContextsIsolated | src/t3d_server/algorithm_utils/BaseRunner.py:79-149 | two executions sharing one runner object, each with its own context: an unlocked assignment in one reads back there and changes nothing the other reads |
| Runners.DelUncovers | src/t3d_server/algorithm_utils/BaseRunner.py:151-155 | deleting an attribute held in the context removes it there and uncovers the object's own value, if any |
| Runners.InitAssignsSpec | src/t3d_server/algorithm_utils/BaseRunner.py:112-128 | while initialising no assignment to a user name raises, locked names are skipped silently, and a name is in the context iff it was there or is an unlocked name assigned, with its last value |
| Runners.LockAssignsSpec | src/t3d_server/algorithm_utils/BaseRunner.py:106-110 | while loading assets every user name assigned joins the locked set and the object holds its last value; the context is left alone |
| Runners.InitializeSpec | src/t3d_server/algorithm_utils/BaseRunner.py:30-49 | with an `__init__` that assigns user names only, `initialize` never raises: a truthy device is set, the loaded assets and their locks are kept, and the fresh context holds exactly the unlocked names assigned, each with its last value |
| Runners.LoadAssetsSpec | src/t3d_server/algorithm_utils/BaseRunner.py:173-189 | with a `load_assets` that assigns user names only, `_load_assets` never raises and locks exactly the names it assigns, each holding its last value |
| Runners.ReinitializeExposesAssets | src/t3d_server/algorithm_utils/BaseRunner.py:44-49 | after re-initialisation with an `__init__` assigning user names, every locked asset reads from the object: `__init__` cannot shadow it in the context |
| Runners.InitializeAssigningDevice | src/t3d_server/algorithm_utils/BaseRunner.py:44-77 | an `__init__` that assigns `device` makes `initialize` raise AttributeError and leaves the runner in initialising mode, with no try/finally to lower the flag |
| Runners.LockedButMutable | src/t3d_server/algorithm_utils/BaseRunner.py:157-171 | rebinding a locked attribute raises, while appending to the list it refers to succeeds and is seen by later reads |
| Runners.BaseRunner.constructor | src/t3d_server/tasks/TaskHandler.py:572 | `Runner.__new__` gives a runner with no device, no attributes, no locked set and neither mode flag, for any runner code |
| Runners.BaseRunner.SetAttribute | src/t3d_server/algorithm_utils/BaseRunner.py:79-128 | `__setattr__` on the object, for any name: it changes the runner exactly as `SetAttr` says; a user name leaves the device and the modes alone and keeps the runner well formed |
| Runners.BaseRunner.DeleteAttribute | src/t3d_server/algorithm_utils/BaseRunner.py:151-155 | `__delattr__` on the object changes the runner exactly as `DelAttr` says |
| Runners.BaseRunner.RunAssigns | src/t3d_server/algorithm_utils/BaseRunner.py:79-128 | a run of assignments of any names through `__setattr__`, stopping at the first that raises |
| Runners.BaseRunner.Init | src/t3d_server/algorithm_utils/BaseRunner.py:30-49 | `initialize(device)` changes the runner exactly as `Initialize` says and, outside asset loading and with an `__init__` assigning user names only, never raises and ends with both mode flags down |
| Runners.BaseRunner.LoadAllAssets | src/t3d_server/algorithm_utils/BaseRunner.py:173-189 | `_load_assets` changes the runner exactly as `LoadAssets` says and, with a `load_assets` assigning user names only, never raises and ends with the locking flag down |
| RunnerExecution.RunSpec | src/t3d_server/algorithm_utils/BaseRunner.py:191-232 | `run` with the handler set: status RUNNING, the three stages with their log updates, then `mark_as_completed`, or `mark_as_failed` and the exception raised again; its properties are `RunOrder`, `CompletedRun` and the stage lemmas |
| RunnerExecution.Run | src/t3d_server/algorithm_utils/BaseRunner.py:191-232 | `run` without a handler raises "Task handler is not set." and changes nothing; with one it ends as the run's specification says, leaving the runner idle |
| RunnerExecution.LogStep | src/t3d_server/algorithm_utils/BaseRunner.py:258 | a log update after a stage is the handler's `update_log` |
| RunnerExecution.PreStep | src/t3d_server/algorithm_utils/BaseRunner.py:234-259 | `preprocess_base` sets status RUNNING and runs the preprocessing hook, or the runner class's default one, as the preprocessing stage says |
| RunnerExecution.PostStep | src/t3d_server/algorithm_utils/BaseRunner.py:318-342 | `postprocess_base` runs the postprocessing hook, or the class default, as the postprocessing stage says |
| RunnerExecution.RunFromPre | src/t3d_server/algorithm_utils/BaseRunner.py:216-232 | the pipeline entered at preprocessing ends as its specification says |
| RunnerExecution.RunFromInfer | src/t3d_server/algorithm_utils/BaseRunner.py:217-232 | the pipeline entered at inference ends as its specification says |
| RunnerExecution.RunFromPost | src/t3d_server/algorithm_utils/BaseRunner.py:216-232 | the pipeline entered at postprocessing ends as its specification says |
| RunnerExecution.FinishStep | src/t3d_server/algorithm_utils/BaseRunner.py:227-232 | marking the task completed, and failing it when that raises, ends as the completion step specifies |
| RunnerExecution.AbortShape | src/t3d_server/algorithm_utils/BaseRunner.py:230-232 | a run cut short after some pipeline calls ends with one `mark_as_failed` |
| RunnerExecution.ThenShape | src/t3d_server/algorithm_utils/BaseRunner.py:216-221 | pipeline calls followed by a run of the later steps are a run of the earlier step |
| RunnerExecution.FinishShape | src/t3d_server/algorithm_utils/BaseRunner.py:227 | the last step of a run is `mark_as_completed` |
| RunnerExecution.FromPostShape | src/t3d_server/algorithm_utils/BaseRunner.py:318-342 | from postprocessing on, the calls follow the pipeline order |
| RunnerExecution.FromInferShape | src/t3d_server/algorithm_utils/BaseRunner.py:276-299 | from inference on, the calls follow the pipeline order |
| RunnerExecution.FromPreShape | src/t3d_server/algorithm_utils/BaseRunner.py:234-259 | from preprocessing on, the calls follow the pipeline order |
| RunnerExecution.RunOrder | src/t3d_server/algorithm_utils/BaseRunner.py:191-232 | every run makes its calls in pipeline order (status RUNNING, each stage followed by a log update, then `mark_as_completed`); a run that raises stops at the first failing call and calls `mark_as_failed` exactly once, at the end; one that raises nothing makes all eight calls and never `mark_as_failed` |
| RunnerExecution.WriteLive | src/t3d_server/algorithm_utils/BaseRunner.py:250 | with the record present and the sink registered, a setter succeeds and keeps both |
| RunnerExecution.PreKeepsRecord | src/t3d_server/algorithm_utils/BaseRunner.py:249-259 | a default preprocessing that succeeds leaves the handler and the record as they were |
| RunnerExecution.PostKeepsRecord | src/t3d_server/algorithm_utils/BaseRunner.py:318-342 | a postprocessing that succeeds leaves the handler and the record as they were |
| RunnerExecution.FinishDone | src/t3d_server/algorithm_utils/BaseRunner.py:227 | with the record present, the completion step ends COMPLETED with the ids given |
| RunnerExecution.ThenDone | src/t3d_server/algorithm_utils/BaseRunner.py:216-227 | earlier calls do not change how a completed run ends |
| RunnerExecution.FromPostDone | src/t3d_server/algorithm_utils/BaseRunner.py:318-342 | a successful run from postprocessing on ends COMPLETED |
| RunnerExecution.FromInferDone | src/t3d_server/algorithm_utils/BaseRunner.py:276-299 | a successful run from inference on ends COMPLETED |
| RunnerExecution.FromPreDone | src/t3d_server/algorithm_utils/BaseRunner.py:234-259 | a successful run from preprocessing on ends COMPLETED |
| RunnerExecution.CompletedRun | src/t3d_server/algorithm_utils/BaseRunner.py:216-228 | with the record present, a run that raises nothing hands the postprocessing's ids to `mark_as_completed`: handler and record read COMPLETED, progress 1.0 and exactly those ids, and the log sink is gone |
| RunnerExecution.AbortLive | src/t3d_server/algorithm_utils/BaseRunner.py:230-232 | `mark_as_failed` with the record present and the sink registered makes the task FAILED everywhere and lets the exception pass |
| RunnerExecution.PreprocessHookFails | src/t3d_server/algorithm_utils/BaseRunner.py:250-252 | a Runner's own preprocessing that raises ends the run at once: the task is FAILED in handler and record and the same exception is raised again, with nothing fetched, posted or set |
| RunnerExecution.InferenceFails | src/t3d_server/algorithm_utils/BaseRunner.py:276-316 | an inference that raises (the default raises NotImplementedError) skips postprocessing and completion, marks the task FAILED and is raised again |
| RunnerExecution.FetchFailureMasked | src/t3d_server/algorithm_utils/BaseRunner.py:230-232 | a default preprocessing whose fetch fails has already removed the log sink, so `run`'s own `mark_as_failed` raises the logger's complaint about the missing sink instead of the fetch error |
| RunnerExecution.ProgressCheck | src/t3d_server/algorithm_utils/BaseRunner.py:500-504 | `set_progress` accepts exactly the floats in [0, 1], refusing a non-float and an out-of-range float with their own messages |
| RunnerExecution.SetProgress | src/t3d_server/algorithm_utils/BaseRunner.py:490-506 | `set_progress` refuses a bad value with nothing touched, reports a missing handler, and otherwise writes the progress through the handler |
| RunnerExecution.ProgressChecksAgree | src/t3d_server/algorithm_utils/BaseRunner.py:503-505 | the Runner's range check agrees with the handler's: a value it lets through the setter writes, and one it refuses the setter refuses too |
| RunnerExecution.LogMessage | src/t3d_server/algorithm_utils/BaseRunner.py:508-538 | `log_message` succeeds exactly for the four levels with a handler set; an unknown level is refused either way, a known level without a handler reports the missing handler |
| Stages.FetchImagesSpec | src/t3d_server/algorithm_utils/Image2ImageRunner.py:21-50 | fetching image datasets succeeds if and only if every id is stored with a valid image; then one dataset per id comes back holding that image, the store and the runner are unchanged and only the fetch statistics grew; a failure has passed the handler's failure path |
| Stages.SelectedImage | src/t3d_server/algorithm_utils/Image2ImageRunner.py:107 | reading only the "image" key of a stored dataset validates to that image with the optional fields at their defaults |
| Stages.FetchErrorIs | src/t3d_server/algorithm_utils/Image2ImageRunner.py:107 | a failing image fetch raises the error of the first id that is missing or whose image fails validation |
| Stages.Images | src/t3d_server/algorithm_utils/Image2ImageRunner.py:114-115 | replacing each dataset by its "image" succeeds if and only if every dataset has one, keeps the order, and otherwise raises KeyError('image') |
| Stages.ExtractImages | src/t3d_server/algorithm_utils/Image2ImageRunner.py:114-115 | the in-place loop computes exactly that replacement |
| Stages.Stack | src/t3d_server/algorithm_utils/Image2ImageRunner.py:118 | `np.stack(axis=0)` succeeds if and only if the list is non-empty and all shapes agree, and adds a leading axis of the list's length |
| Stages.FreshIds | src/t3d_server/algorithm_utils/Image2ImageRunner.py:161 | posting hands out one fresh id per result, in order |
| Stages.PostResultsSpec | src/t3d_server/algorithm_utils/Image2ImageRunner.py:52-80 | posting with distinct fresh ids succeeds if and only if every result validates; then those ids come back, each stores its validated result, every other dataset is kept and the handler's record is untouched |
| Stages.FetchImagesStep | src/t3d_server/algorithm_utils/Image2ImageRunner.py:48-50 | an image runner's fetch on the handler ends as the image fetch says |
| Stages.PostResultsStep | src/t3d_server/algorithm_utils/Image2ImageRunner.py:80 | a typed runner's post on the handler ends as posting says |
| Stages.SetRunnerAttr | src/t3d_server/algorithm_utils/Image2ImageRunner.py:111 | a stage's `self.<name> = v`, for any name, goes through the attribute-setting rules and changes nothing else; a user name keeps the handler and an idle runner well formed |
| Stages.FailStep | src/t3d_server/algorithm_utils/BaseRunner.py:230-232 | the end of a failed `run` marks the task failed and raises the exception, or the one `mark_as_failed` raised |
| Image2ImageRunner.PreprocessStep | src/t3d_server/algorithm_utils/Image2ImageRunner.py:82-120 | the default preprocessing on the handler and runner ends as the preprocessing function says, leaving the runner idle |
| Image2ImageRunner.PostprocessStep | src/t3d_server/algorithm_utils/Image2ImageRunner.py:122-162 | the default postprocessing on the handler ends as the postprocessing function says |
| Image2ImageRunner.Preprocess | src/t3d_server/algorithm_utils/Image2ImageRunner.py:82-120 | `preprocess`: fetch, remember the image count, take each image, stack; its properties are `PreprocessSpec` |
| Image2ImageRunner.Postprocess | src/t3d_server/algorithm_utils/Image2ImageRunner.py:122-162 | `postprocess`: the output must be an array with one image per input image, each posted; its properties are `PostprocessSpec` |
| Image2ImageRunner.PreprocessSpec | src/t3d_server/algorithm_utils/Image2ImageRunner.py:107-120 | with every id stored with a valid image, preprocessing succeeds if and only if there is at least one image and all share a shape; the result stacks them along a new first axis of length `len(ids)`, which the runner remembers as its image count |
| Image2ImageRunner.MissingIds | src/t3d_server/algorithm_utils/Image2ImageRunner.py:107 | an input without "input_dataset_ids" raises KeyError before anything is read or changed |
| Image2ImageRunner.PostprocessSpec | src/t3d_server/algorithm_utils/Image2ImageRunner.py:152-161 | an output whose first dimension differs from the remembered count raises ValueError with nothing posted; a matching one is posted slice by slice |
| Image2ImageRunner.PostSlices | src/t3d_server/algorithm_utils/Image2ImageRunner.py:160-161 | posting the slices succeeds if and only if they are valid images (or there are none); then one image dataset per slice is stored under the returned fresh ids and the record is untouched |
| Image2ImageRunner.SliceDataset | src/t3d_server/algorithm_utils/Image2ImageRunner.py:160 | a lone valid image validates and is stored without the absent optional fields |
| Image2ImageRunner.CountCarriesOver | src/t3d_server/algorithm_utils/Image2ImageRunner.py:111-152 | the count preprocessing remembers is the one postprocessing checks: an inference that keeps the number of images passes the check |
| Image2SegmentationRunner.PreprocessStep | src/t3d_server/algorithm_utils/Image2SegmentationRunner.py:68-104 | the default preprocessing on the handler and runner ends as the preprocessing function says, leaving the runner idle |
| Image2SegmentationRunner.RecordShapeStep | src/t3d_server/algorithm_utils/Image2SegmentationRunner.py:102-104 | recording the stacked shape on the runner ends as `RecordShape` says: the shape tuple is assigned through the attribute rules and the stacked array is handed on unless the assignment raised |
| Image2SegmentationRunner.PostprocessStep | src/t3d_server/algorithm_utils/Image2SegmentationRunner.py:106-143 | the default postprocessing on the handler ends as the postprocessing function says |
| Image2SegmentationRunner.Preprocess | src/t3d_server/algorithm_utils/Image2SegmentationRunner.py:68-104 | `preprocess`: fetch, take each image, stack, remember the stacked shape; its properties are `PreprocessSpec` |
| Image2SegmentationRunner.Postprocess | src/t3d_server/algorithm_utils/Image2SegmentationRunner.py:106-143 | `postprocess`: the output must be an array with one mask per input image, each posted; its properties are `PostprocessSpec` |
| Image2SegmentationRunner.PreprocessSpec | src/t3d_server/algorithm_utils/Image2SegmentationRunner.py:93-104 | with every id stored with a valid image, preprocessing succeeds if and only if there is at least one image and all share a shape; the runner remembers the stacked shape, led by the number of images; a failed stack leaves it unset |
| Image2SegmentationRunner.PostprocessSpec | src/t3d_server/algorithm_utils/Image2SegmentationRunner.py:136-142 | an output whose first dimension differs from the remembered one raises ValueError naming both shapes, with nothing posted; a matching one is posted slice by slice |
| Image2SegmentationRunner.PostSlices | src/t3d_server/algorithm_utils/Image2SegmentationRunner.py:141-142 | any array is a valid mask, so posting the slices always succeeds with one mask dataset per slice under the returned fresh ids |
| Image2SegmentationRunner.MaskDataset | src/t3d_server/algorithm_utils/Image2SegmentationRunner.py:141 | a lone mask validates to itself and has no None entry |
| Image2SegmentationRunner.ShapeCarriesOver | src/t3d_server/algorithm_utils/Image2SegmentationRunner.py:102-136 | the shape preprocessing remembers is the one postprocessing checks: an inference that keeps the number of images passes |
| Image2AlignmentRunner.FirstNonArray | src/compox/algorithm_utils/Image2AlignmentRunner.py:144-148 | reports the first list element that is not an array, or none when all are arrays |
| Image2AlignmentRunner.CheckElements | src/compox/algorithm_utils/Image2AlignmentRunner.py:144-148 | the `isinstance` loop finds exactly that first offending element |
| Image2AlignmentRunner.Matrices | src/compox/algorithm_utils/Image2AlignmentRunner.py:160-169 | the list's elements, taken as matrices, in order |
| Image2AlignmentRunner.BuildDicts | src/compox/algorithm_utils/Image2AlignmentRunner.py:160-169 | the append loop builds one alignment dataset per matrix, in order |
| Image2AlignmentRunner.PostprocessStep | src/compox/algorithm_utils/Image2AlignmentRunner.py:118-174 | the default postprocessing on the handler ends as the postprocessing function says |
| Image2AlignmentRunner.Preprocess | src/compox/algorithm_utils/Image2AlignmentRunner.py:78-116 | `preprocess`, the image-to-image one line for line, remembering the image count; see `CountCarriesOver` |
| Image2AlignmentRunner.Postprocess | src/compox/algorithm_utils/Image2AlignmentRunner.py:118-174 | `postprocess`: a list of arrays one shorter than the image count, each matrix posted; its properties are `PostprocessSpec` |
| Image2AlignmentRunner.PostprocessSpec | src/compox/algorithm_utils/Image2AlignmentRunner.py:140-172 | postprocessing refuses anything but a list of arrays one shorter than the remembered image count, naming the first offending element; an acceptable list is posted matrix by matrix |
| Image2AlignmentRunner.CountRejected | src/compox/algorithm_utils/Image2AlignmentRunner.py:150-155 | a list of arrays whose length is not the remembered image count minus one fails with the assertion naming both counts, and the store is left alone |
| Image2AlignmentRunner.MatricesPosted | src/compox/algorithm_utils/Image2AlignmentRunner.py:157-174 | a list of arrays of the right length is posted as one alignment dataset per matrix under the alignment schema |
| Image2AlignmentRunner.FirstNonArrayAt | src/compox/algorithm_utils/Image2AlignmentRunner.py:144-148 | the element reported is the first that is not an array |
| Image2AlignmentRunner.PostMatrices | src/compox/algorithm_utils/Image2AlignmentRunner.py:160-172 | posting the matrices always succeeds: one dataset per matrix under the returned fresh ids, holding that matrix as both transform and translation |
| Image2AlignmentRunner.DictValid | src/compox/algorithm_utils/Image2AlignmentRunner.py:161-169 | an alignment dataset built from a matrix validates to itself and has no None entry |
| Image2AlignmentRunner.CountCarriesOver | src/compox/algorithm_utils/Image2AlignmentRunner.py:107-150 | the count preprocessing remembers is the one postprocessing checks: one matrix per adjacent pair of images passes |
| IoSchemas.CheckImage | src/compox/algorithm_utils/io_schemas.py:28-39 | `check_image`: the shape is checked first (a 0-d array makes the message raise IndexError), then the element type, each with its message; its properties are `CheckImageIff` and `CheckImageShapeFirst` |
| IoSchemas.CheckImageIff | src/compox/algorithm_utils/io_schemas.py:28-39 | an image passes if and only if it is 2-D, or 3-D with three leading channels, and of one of the five accepted element types; a passing image is returned unchanged |
| IoSchemas.CheckImageShapeFirst | src/compox/algorithm_utils/io_schemas.py:31-34 | the shape is checked before the element type: a bad shape is reported as such whatever the type |
| IoSchemas.CheckVolumeIff | src/compox/algorithm_utils/io_schemas.py:47-52 | a volume passes if and only if it is 3-D |
| IoSchemas.CheckMeshIff | src/compox/algorithm_utils/io_schemas.py:59-71 | vertices pass if and only if they are an N×3 float array, faces if and only if they are an N×3 int array |
| IoSchemas.ValidateField | src/compox/algorithm_utils/io_schemas.py:11-81 | one field of `model_validate`: a missing field takes its default or fails, a given value is type-checked (an explicit None passes only for an optional field and stays None) and then validated |
| IoSchemas.Validate | src/compox/algorithm_utils/io_schemas.py:11-81 | `model_validate(d).model_dump()`: the fields validated one by one; its properties are `ValidateFieldsKeys`, `ValidateFieldsAt` and `ValidateFieldsIff` |
| IoSchemas.ValidateFieldsKeys | src/compox/algorithm_utils/io_schemas.py:11-12 | a successful validation yields exactly the schema's fields |
| IoSchemas.ValidateFieldsAt | src/compox/algorithm_utils/io_schemas.py:11-12 | each field of a validated dataset holds what its own validation produced |
| IoSchemas.ValidateFieldsIff | src/compox/algorithm_utils/io_schemas.py:11-12 | validation fails if and only if some field fails |
| IoSchemas.OptionalField | src/compox/algorithm_utils/io_schemas.py:25-26 | an optional field without a validator accepts exactly a missing value, None, or a value of its type, and a missing one takes its default |
| IoSchemas.ImageSchemaSpec | src/compox/algorithm_utils/io_schemas.py:23-39 | an image dataset is accepted if and only if its "image" is a valid image and "mask" and "points" have their types; the image is kept and a missing mask or points reads None |
| IoSchemas.VolumeSchemaSpec | src/compox/algorithm_utils/io_schemas.py:41-52 | a volume dataset is accepted if and only if "volume" is a 3-D array and the optional fields have their types |
| IoSchemas.AlignmentDefaults | src/compox/algorithm_utils/io_schemas.py:73-78 | every alignment field is optional: an empty dataset validates to empty point and confidence lists and no matrices |
| IoSchemas.MissingField | src/compox/algorithm_utils/io_schemas.py:11-81 | a field missing from the dataset takes its default when it has one, and makes validation fail when it has none |
| AlgorithmConfig.CheckParameter | src/compox/algorithm_utils/AlgorithmConfigSchema.py:58-177 | `check_default_type`: the default's class, then the range, enum or list rules, with the documentation warnings; its properties are `ParameterIff` and `ParameterErrors` |
| AlgorithmConfig.CheckEnum | src/compox/algorithm_utils/AlgorithmConfigSchema.py:141-152 | the enum rules: options must exist and have the enum's type, a default must be an option, and a None default becomes the first option; see `EnumDefaultIsOption` |
| AlgorithmConfig.ParameterIff | src/compox/algorithm_utils/AlgorithmConfigSchema.py:58-177 | a parameter passes if and only if its default has the class its type names (or is None), a range has bounds of that class with min below max, an enum has options of that class containing the default, and a list type's options are all lists |
| AlgorithmConfig.ParameterErrors | src/compox/algorithm_utils/AlgorithmConfigSchema.py:87-171 | each rejection carries the message of the first rule broken, in the validator's order |
| AlgorithmConfig.DefaultClasses | src/compox/algorithm_utils/AlgorithmConfigSchema.py:87-95 | an int default for a float parameter is refused, while a bool default for an int parameter is accepted, as `isinstance` decides |
| AlgorithmConfig.EnumDefaultIsOption | src/compox/algorithm_utils/AlgorithmConfigSchema.py:141-152 | after validation an enum's default is always one of its options: a None default has become the first option |
| AlgorithmConfig.NonEnumUnchanged | src/compox/algorithm_utils/AlgorithmConfigSchema.py:58-177 | validation leaves every non-enum parameter as it was |
| AlgorithmConfig.ParameterDescriptionIrrelevant | src/compox/algorithm_utils/AlgorithmConfigSchema.py:60-68 | the description only warns: it never changes whether or how a parameter validates, and an empty one warns |
| AlgorithmConfig.ParametersIff | src/compox/algorithm_utils/AlgorithmConfigSchema.py:193-195 | the additional parameters pass if and only if each does, and the validated list keeps their order |
| AlgorithmConfig.CheckConfig | src/compox/algorithm_utils/AlgorithmConfigSchema.py:180-235 | the whole configuration: its type literal, its parameters, then `check_algorithm_type`'s device rule, with the warnings gathered; its properties are `ParametersIff`, `DeviceRule` and `DefaultConfigPasses` |
| AlgorithmConfig.DeviceRule | src/compox/algorithm_utils/AlgorithmConfigSchema.py:229-235 | a configuration of a known type whose parameters pass is refused if and only if its default device is not among its supported devices, with the message naming both |
| AlgorithmConfig.EmptyDefaultDeviceRefused | src/compox/algorithm_utils/AlgorithmConfigSchema.py:223-235 | an empty default device is never supported, so such a configuration is always refused despite its own warning |
| AlgorithmConfig.DefaultConfigPasses | src/compox/algorithm_utils/AlgorithmConfigSchema.py:180-235 | the default configuration (cpu as default and only supported device) passes, with warnings for the undefined type, the missing tags and the missing description |
| AlgorithmConfig.DocumentationIrrelevant | src/compox/algorithm_utils/AlgorithmConfigSchema.py:200-216 | tags and description only warn: they never change whether a configuration passes or what it becomes |
| AlgorithmManager.ListAlgorithms | src/compox/algorithm_utils/AlgorithmManager.py:44-104 | `list_algorithms`: the decoded records of the algorithm collection, filtered; its properties are `ListSpec`, and `ListAlgorithmsLoop` is proved to compute it |
| AlgorithmManager.ListAlgorithmsLoop | src/compox/algorithm_utils/AlgorithmManager.py:44-104 | the loop of `list_algorithms` returns exactly what the listing specification gives: the decoded records, filtered |
| AlgorithmManager.Select | src/compox/algorithm_utils/AlgorithmManager.py:83-102 | keeps exactly the records that match every truthy filter, in their order |
| AlgorithmManager.WhereSpec | src/compox/algorithm_utils/AlgorithmManager.py:84-88 | one filter keeps exactly the records whose field holds the value |
| AlgorithmManager.WhereSelect | src/compox/algorithm_utils/AlgorithmManager.py:83-102 | one more filter after the others selects the records matching all of them |
| AlgorithmManager.SelectNone | src/compox/algorithm_utils/AlgorithmManager.py:83-102 | with no filter given every record is kept |
| AlgorithmManager.SelectIgnores | src/compox/algorithm_utils/AlgorithmManager.py:83-102 | a filter that is None or empty filters nothing |
| AlgorithmManager.FilterIsSelect | src/compox/algorithm_utils/AlgorithmManager.py:83-102 | the three successive filters keep, in their original order, exactly the records matching every truthy argument |
| AlgorithmManager.DecodeAllSpec | src/compox/algorithm_utils/AlgorithmManager.py:76-80 | decoding the stored records succeeds if and only if each decodes, and yields them in key order |
| AlgorithmManager.ListSpec | src/compox/algorithm_utils/AlgorithmManager.py:44-104 | `list_algorithms` fails if and only if some stored record does not decode; otherwise it returns, in store order, exactly the records matching every truthy filter |
| AlgorithmManager.DeleteEach | src/compox/algorithm_utils/AlgorithmManager.py:152-153 | deleting the asset ids one at a time keeps the store well formed |
| AlgorithmManager.DeleteOneAsWritten | src/compox/algorithm_utils/AlgorithmManager.py:140-165 | the deletions for one record as written: its assets, then its module from the asset collection, then its key; a record without "assets" raises AttributeError |
| AlgorithmManager.DeleteFromAsWritten | src/compox/algorithm_utils/AlgorithmManager.py:140-167 | the loop over the records as written keeps the store well formed, and a raise keeps the deletions made before it |
| AlgorithmManager.DeleteOne | src/compox/algorithm_utils/AlgorithmManager.py:140-165 | the corrected deletions for one record keep the store well formed |
| AlgorithmManager.DeleteFrom | src/compox/algorithm_utils/AlgorithmManager.py:140-167 | the corrected loop over the records keeps the store well formed |
| AlgorithmManager.DeleteAlgorithmsAsWritten | src/compox/algorithm_utils/AlgorithmManager.py:106-167 | `delete_algorithms` as written: a missing filter raises ValueError, then each listed record's assets, its module id (from the asset collection) and its key are deleted, a record without "assets" raising AttributeError |
| AlgorithmManager.DeleteAlgorithms | src/compox/algorithm_utils/AlgorithmManager.py:106-167 | `delete_algorithms` corrected (module from the module collection, a missing "assets" read as none); its properties are `DeleteSpec` and `DeletesOnlyMatching` |
| AlgorithmManager.DeleteAlgorithmsLoop | src/compox/algorithm_utils/AlgorithmManager.py:106-167 | the loop of `delete_algorithms` as written ends in exactly the store and error `DeleteAlgorithmsAsWritten` gives: the module id is deleted from the asset collection, and a record without "assets" raises after the earlier records' deletions |
| AlgorithmManager.DeleteObjectsLookup | src/compox/algorithm_utils/AlgorithmManager.py:153 | `delete_objects(c, names)` empties exactly those names of collection `c` |
| AlgorithmManager.DeleteEachLookup | src/compox/algorithm_utils/AlgorithmManager.py:152-153 | deleting names one at a time empties exactly those names |
| AlgorithmManager.DeleteOneLookup | src/compox/algorithm_utils/AlgorithmManager.py:140-165 | the corrected deletion of one record empties exactly its assets, its module and its key |
| AlgorithmManager.DeleteFromLookup | src/compox/algorithm_utils/AlgorithmManager.py:140-167 | the corrected deletion of several records empties exactly what each of them targets |
| AlgorithmManager.DeleteSpec | src/compox/algorithm_utils/AlgorithmManager.py:106-167 | the corrected deletion refuses a missing or empty filter with ValueError, and otherwise removes each listed record's key, module and assets, every other object keeping its value |
| AlgorithmManager.DeletesOnlyMatching | src/compox/algorithm_utils/AlgorithmManager.py:133-140 | every record the deletion acts on has exactly the requested name and versions |
| AlgorithmManager.ModuleSurvives | src/compox/algorithm_utils/AlgorithmManager.py:157-160 | as written, the module of a deleted algorithm stays in the module collection, because the delete addressed to it goes to the asset collection |
| AlgorithmManager.MissingAssetsRaise | src/compox/algorithm_utils/AlgorithmManager.py:141-153 | as written, the deletion raises AttributeError if and only if some listed record lacks "assets", the records before it already deleted |
| AlgorithmManager.MissingAssetsRaiseFrom | src/compox/algorithm_utils/AlgorithmManager.py:141-153 | as written, the loop's error is AttributeError exactly when some record lacks "assets" |
| AlgorithmManager.AsWrittenWithAssets | src/compox/algorithm_utils/AlgorithmManager.py:140-167 | on records that all carry "assets", the as-written and the corrected deletion agree on every collection except the module and asset ones |
| AlgorithmManager.AsWrittenLookup | src/compox/algorithm_utils/AlgorithmManager.py:140-167 | on records that all carry "assets", the as-written deletion empties exactly the targets outside the module and asset collections |
| AlgorithmsController.Decoded | src/t3d_server/routers/algorithms_controller.py:66-72 | one decoding outcome per listed key of the algorithm store, in order |
| AlgorithmsController.GetAlgorithm | src/t3d_server/routers/algorithms_controller.py:32-131 | `get_algorithm` without its HTTP wrapping: the best minor version of the requested name and major version, or the not-found and error responses; `GetAlgorithmLoop` is proved to compute it |
| AlgorithmsController.Scan | src/t3d_server/routers/algorithms_controller.py:52-131 | the selection over the decoded records as a left fold; its properties are `ScanSpec` and `ScanErrorPersists` |
| AlgorithmsController.GetAlgorithmLoop | src/t3d_server/routers/algorithms_controller.py:32-131 | the loop keeping `minor_version` and `found_algorithm` gives exactly the response `get_algorithm` specifies |
| AlgorithmsController.ScanErrorPersists | src/t3d_server/routers/algorithms_controller.py:52-131 | a failure among the first records is the outcome of the whole scan |
| AlgorithmsController.BestIsNatural | src/t3d_server/routers/algorithms_controller.py:65-88 | a record the scan selects has a minor version of at least 0 |
| AlgorithmsController.ScanSpec | src/t3d_server/routers/algorithms_controller.py:65-88 | the scan completes if and only if every record decodes and every requested record has an integer minor version; it then selects nothing if and only if no requested record has a minor version of 0 or more, and otherwise a requested record of greatest minor version, the first of a tie |
| AlgorithmsController.GetSpec | src/t3d_server/routers/algorithms_controller.py:32-131 | `get_algorithm` answers 404 for an empty store and when no requested record has minor version 0 or more, 500 when a record cannot be read or a requested one has a non-integer minor version, and otherwise the first requested record of greatest minor version when it validates, else the failure response naming that record's name and major version |
| PyStr.LowerAll | src/t3d_server/routers/algorithms_controller.py:223-232 | every supported device of a record, lower-cased, in order |
| AlgorithmsController.ListModelFiles | src/t3d_server/routers/algorithms_controller.py:144-268 | `list_model_files` without its HTTP wrapping: the records kept by the filters, or the error response; `ListModelFilesLoop` is proved to compute it |
| AlgorithmsController.Kept | src/t3d_server/routers/algorithms_controller.py:177-268 | the kept records of the first records, as the filter loop builds them; its properties are `KeptSpec` and `KeptErrorPersists` |
| AlgorithmsController.ListModelFilesLoop | src/t3d_server/routers/algorithms_controller.py:144-268 | the filter loop of `list_model_files` gives exactly the response the listing specifies |
| AlgorithmsController.Filters | src/t3d_server/routers/algorithms_controller.py:198-260 | a record is kept exactly when it passes the tag, type and device filters and it validates |
| AlgorithmsController.KeptErrorPersists | src/t3d_server/routers/algorithms_controller.py:177-268 | the first decoding failure is the outcome of the whole loop |
| AlgorithmsController.Selected | src/t3d_server/routers/algorithms_controller.py:198-260 | keeps exactly the records that pass every filter and validate |
| AlgorithmsController.Values | src/t3d_server/routers/algorithms_controller.py:190-196 | the decoded records of a store whose every record decodes, in order |
| AlgorithmsController.KeptSpec | src/t3d_server/routers/algorithms_controller.py:190-262 | the loop fails if and only if some record does not decode, and otherwise keeps, in store order, exactly the records that pass every filter and validate; one failing validation is skipped, not reported |
| AlgorithmsController.NoFilters | src/t3d_server/routers/algorithms_controller.py:198-234 | with no filter given every record passes |
| AlgorithmsController.DeviceIgnoresCase | src/t3d_server/routers/algorithms_controller.py:223-234 | a requested device matches a supported one ignoring case, in either spelling |
| AlgorithmsController.ContradictoryTags | src/t3d_server/routers/algorithms_controller.py:198-212 | a tag both required and excluded removes every record |
| Deployer.NewDeployer | src/compox/algorithm_utils/AlgorithmDeployer.py:46-108 | `__init__` from the parsed project file: the version split and the configuration check come first, then a missing `tool`, `compox` or deployment flag raises KeyError naming it; its properties are `MissingCompoxRaises` and `DeployerFields` |
| Deployer.AlgorithmKey | src/compox/algorithm_utils/AlgorithmDeployer.py:254 | the store key `id~name~major~minor`; `KeyRoundTrip` proves that the key lookup splits it back |
| Deployer.VersionParts | src/compox/algorithm_utils/AlgorithmDeployer.py:56-62 | the major and minor versions exist if and only if the version contains a dot; otherwise indexing the split raises IndexError |
| Deployer.VersionFields | src/compox/algorithm_utils/AlgorithmDeployer.py:56-62 | the major and minor versions are the first and second dot-separated fields, whatever follows |
| Deployer.ShortVersion | src/compox/algorithm_utils/AlgorithmDeployer.py:56-62 | "1.2" gives major "1" and minor "2"; "1" raises IndexError |
| Deployer.MissingCompoxRaises | src/compox/algorithm_utils/AlgorithmDeployer.py:63-108 | a project file without `[tool.compox]` is refused with a KeyError, although the branch before takes the default configuration for that case |
| Deployer.DeployerFields | src/compox/algorithm_utils/AlgorithmDeployer.py:46-108 | a complete project file gives a deployer carrying its name, versions, validated configuration and four flags |
| Deployer.StoreRecord | src/compox/algorithm_utils/AlgorithmDeployer.py:245-259 | storing the record creates the collection when missing and puts the record, keeping the store well formed |
| Deployer.StoredRecord | src/compox/algorithm_utils/AlgorithmDeployer.py:245-259 | a store that keeps text holds the record under `id~name~major~minor`, naming the deployer's id, name and versions; a bytes-only store keeps what was there |
| Deployer.KeyRoundTrip | src/compox/algorithm_utils/AlgorithmDeployer.py:254 | a key composed here, with no "~" in its fields and integer versions, is found by the server's key parser under its id with the same name and versions |
| Deployer.Slashes | src/compox/algorithm_utils/AlgorithmDeployer.py:726 | every backslash of a path becomes "/", every other character stays |
| Deployer.ReplaceBackslash | src/compox/algorithm_utils/AlgorithmDeployer.py:726 | `replace("\\", "/")` is that character-wise map |
| Deployer.ProcessPathToDictKey | src/compox/algorithm_utils/AlgorithmDeployer.py:703-727 | `process_path_to_dict_key`: an empty path raises IndexError, one leading backslash is dropped and every other backslash becomes "/"; its properties are `DictKeySpec` |
| Deployer.DictKeySpec | src/compox/algorithm_utils/AlgorithmDeployer.py:703-727 | the dictionary key exists if and only if the path is non-empty; it has no backslash and is the path without one leading backslash, so a path that began with two backslashes still begins with "/" |
| Deployer.RunnerRule | src/compox/algorithm_utils/AlgorithmDeployer.py:325-337 | the module is refused with ValueError if and only if it has no root `Runner.py` and no separate runner; otherwise it always has one |
| Deployer.JoinPathParts | src/compox/algorithm_utils/AlgorithmDeployer.py:1043-1046 | a renamed file stays in its directory under its new name |
| Deployer.RenameAllFiles | src/compox/algorithm_utils/AlgorithmDeployer.py:976-1058 | the renaming loop gives exactly the renaming specification's pairs, in file order |
| Deployer.RandomNameIs | src/compox/algorithm_utils/AlgorithmDeployer.py:1025-1037 | a random name is "pcb", the uuid or hash without "-" and "_", and ".py" |
| Deployer.RandomNameShape | src/compox/algorithm_utils/AlgorithmDeployer.py:1025-1037 | a random name starts with "pcb", ends with ".py" and has no "-" or "_" |
| Deployer.RenameOne | src/compox/algorithm_utils/AlgorithmDeployer.py:1012-1046 | the new name of one file: `Runner.py` and names with "__" are kept, mode "uuid" or "md5" gives a random name in the same directory, any other mode raises ValueError; its properties are `RenameOneSpec` |
| Deployer.RenameOneSpec | src/compox/algorithm_utils/AlgorithmDeployer.py:1013-1046 | one file's renaming fails if and only if it must be renamed under an unsupported mode; otherwise `Runner.py` and names with "__" are kept and every other file gets a well-formed random name in its own directory |
| Deployer.RenameFails | src/compox/algorithm_utils/AlgorithmDeployer.py:1012-1039 | the renaming fails exactly for an unsupported mode with at least one file to rename |
| Deployer.RenameRule | src/compox/algorithm_utils/AlgorithmDeployer.py:1012-1046 | a successful renaming pairs every file, in order, with a name it may take |
| Deployer.ModuleFiles | src/compox/algorithm_utils/AlgorithmDeployer.py:798-829 | the module files are exactly the walked `.py` files outside `__pycache__` |
| Deployer.AssetFiles | src/compox/algorithm_utils/AlgorithmDeployer.py:831-887 | the asset files are exactly the walked files that are not `.py`, not directories, and not in `__pycache__` or `.gitignore` |
| Deployer.ModuleFilesKeepOrder | src/compox/algorithm_utils/AlgorithmDeployer.py:821-828 | the module file filter keeps the walk's order |
| Deployer.AssetFilesKeepOrder | src/compox/algorithm_utils/AlgorithmDeployer.py:862-885 | the asset file filters keep the walk's order |
| Deployer.AssetExclusions | src/compox/algorithm_utils/AlgorithmDeployer.py:862-885 | sources, caches and the ignore file never become assets |
| DeployerImports.DedupFromSpec | src/compox/algorithm_utils/AlgorithmDeployer.py:586-587 | `dict.fromkeys` keeps each name once, exactly the names not seen before, in first-occurrence order |
| DeployerImports.Zip | src/compox/algorithm_utils/AlgorithmDeployer.py:596-598 | `zip` pairs the two lists position by position up to the shorter length |
| DeployerImports.DedupByKey | src/compox/algorithm_utils/AlgorithmDeployer.py:537-587 | the corrected pairing keeps, for every old name, one pair that occurs in the per-file pairs, and no old name twice |
| DeployerImports.CandidatesShape | src/compox/algorithm_utils/AlgorithmDeployer.py:547-564 | a path of n components has 2n candidates: its dotted prefixes, then its dotted suffixes, the whole dotted path at positions n and 2n |
| DeployerImports.FilePairsLength | src/compox/algorithm_utils/AlgorithmDeployer.py:547-564 | a file whose new path has as many components as its old one pairs every candidate |
| DeployerImports.FlatPairsMembers | src/compox/algorithm_utils/AlgorithmDeployer.py:546-577 | a pair is among the per-file pairs if and only if one file produces it |
| DeployerImports.ImportPairsSpec | src/compox/algorithm_utils/AlgorithmDeployer.py:546-587 | the corrected pairing is sound (each pair is an old and a new candidate at the same position of one file), one-to-one on old names, and complete (every old candidate is rewritten) |
| DeployerImports.ZipFlat | src/compox/algorithm_utils/AlgorithmDeployer.py:570-584 | with matching component counts, zipping the flattened lists is the per-file pairing |
| DeployerImports.AgreeWithoutDuplicates | src/compox/algorithm_utils/AlgorithmDeployer.py:570-598 | when neither candidate list has a duplicate and the component counts agree, the pairing as written equals the corrected one |
| DeployerImports.CandidatesTwo | src/compox/algorithm_utils/AlgorithmDeployer.py:547-564 | a module in a package has the candidates package, package.module, module, package.module |
| DeployerImports.CandidatesOne | src/compox/algorithm_utils/AlgorithmDeployer.py:547-564 | a top-level module is its own only candidate, twice |
| DeployerImports.ExampleOrigins | src/compox/algorithm_utils/AlgorithmDeployer.py:546-568 | in the example of three files, no file pairs the old name "c" with anything but "z" |
| DeployerImports.MisalignedImports | src/compox/algorithm_utils/AlgorithmDeployer.py:586-598 | as written, deduplicating the old and new lists separately drops the second "u" from the old list only, so "c" is zipped with "y", a pairing no file produces |
| DeployerImports.CorrectedExample | src/compox/algorithm_utils/AlgorithmDeployer.py:546-598 | the corrected pairing keeps "c" with "z", the new name of its own file, and with nothing else |
| Multipart.NumParts | src/compox/database_connection/database_utils.py:121-123 | the part count fails with ZeroDivisionError exactly for a zero chunk size |
| Multipart.PartCount | src/compox/database_connection/database_utils.py:121-123 | the part count is the ceiling of the length over the chunk size, and 1 for an empty input |
| Multipart.Slice | src/compox/database_connection/database_utils.py:129-131 | a byte slice clamps both ends to the length: inside the input it is the plain slice, beyond it empty |
| Multipart.Parts | src/compox/database_connection/database_utils.py:128-131 | the first k parts, part i being the i-th chunk-sized slice |
| Multipart.PartsPrefix | src/compox/database_connection/database_utils.py:128-131 | the first k parts are contiguous: together they are the first k·chunk bytes, or all of them |
| Multipart.FullPart | src/compox/database_connection/database_utils.py:128-131 | every part that ends within the input has exactly the chunk size |
| Multipart.LastPartNonEmpty | src/compox/database_connection/database_utils.py:121-131 | the last part is not empty when it starts within the input |
| Multipart.PartsCover | src/compox/database_connection/database_utils.py:121-131 | for a non-zero chunk size the parts concatenate to exactly the input, each but the last of chunk size and the last non-empty unless the input is |
| Multipart.Submitted | src/compox/database_connection/database_utils.py:128-141 | one part upload is submitted per part, numbered from 1, in order |
| Multipart.Collected | src/compox/database_connection/database_utils.py:143-144 | `[f.result() for f in futures]`: the first failed part upload in submission order raises, otherwise one record per part with its number and etag; its properties are `CollectedSpec` and `CollectedFailurePersists` |
| Multipart.CollectedSpec | src/compox/database_connection/database_utils.py:143-144 | collecting the results succeeds if and only if every part upload succeeds, and then numbers the parts 1 to k in order with the returned etags; otherwise it raises the first failed part's error |
| Multipart.SubmitParts | src/compox/database_connection/database_utils.py:127-144 | the thread-pool loop makes exactly the submitted calls and collects exactly the collected results |
| Multipart.SubmitAll | src/compox/database_connection/database_utils.py:128-141 | one part upload is submitted per part, in part order, and each future holds the client answer for that part |
| Multipart.CollectedFailurePersists | src/compox/database_connection/database_utils.py:144 | once some future has raised, the whole collection raises that error |
| Multipart.Insert | src/compox/database_connection/database_utils.py:147 | inserting a part record adds exactly that record |
| Multipart.SortByNumber | src/compox/database_connection/database_utils.py:147 | sorting the part records permutes them |
| Multipart.InsertAscending | src/compox/database_connection/database_utils.py:147 | inserting into records in ascending number order keeps them ascending |
| Multipart.SortByNumberSorts | src/compox/database_connection/database_utils.py:147 | sorting gives the records in ascending part number order, and a permutation of them |
| Multipart.SortAscendingUnchanged | src/compox/database_connection/database_utils.py:147 | records already in ascending order come out of the sort unchanged |
| Multipart.EtagMultipart | src/compox/database_connection/database_utils.py:226-260 | `calculate_etag_multipart`: the md5 of the concatenated part digests in hex, a dash and the part count, in double quotes; `CalculateEtagMultipart` is proved to compute it |
| Multipart.CalculateEtagMultipart | src/compox/database_connection/database_utils.py:226-260 | the two md5 loops compute exactly the multipart etag: md5 of the concatenated part digests |
| Multipart.EtagForm | src/compox/database_connection/database_utils.py:244-260 | the etag is a quoted text splitting at its single dash into the hex digest and the decimal part count, that count being the ceiling of length over chunk size (1 for an empty input) |
| CompoxUpload.Step | src/compox/database_connection/database_utils.py:91-166 | `_upload_file_multipart_step`: the calls made and the error raised; its properties are `StepSuccess`, `StepSucceeded`, `StepFailureAborts` and `StepFailureReraises` |
| CompoxUpload.Retry | src/compox/database_connection/database_utils.py:59-89 | the retry loop from attempt `attempt` on: a transient ClientError retries, any other error or the last attempt's raises, and no attempt left raises the generic failure; its properties are `RetrySpec` and `NotRetried` |
| CompoxUpload.Upload | src/compox/database_connection/database_utils.py:40-89 | `upload_file_multipart`: the retry loop from the first attempt; its properties are `UploadSpec` and `NoRetriesNoAttempt` |
| CompoxUpload.UploadStep | src/compox/database_connection/database_utils.py:91-166 | one attempt creates, counts, submits and collects, sorts and completes, aborting the created upload on any failure, exactly as the attempt specification says |
| CompoxUpload.StepSuccess | src/compox/database_connection/database_utils.py:115-153 | a successful attempt uploads parts 1 to n whose bodies concatenate to the input, and completes with them in ascending order with their etags |
| CompoxUpload.StepSucceeded | src/compox/database_connection/database_utils.py:115-153 | an attempt succeeds only when every call succeeds, and then its calls are the creation, the part uploads and the completion |
| CompoxUpload.CompletedParts | src/compox/database_connection/database_utils.py:143-151 | the completion is given parts 1 to n in order, each with its upload's etag |
| CompoxUpload.StepFailureAborts | src/compox/database_connection/database_utils.py:155-166 | a failed attempt whose upload was created ends with an abort of that upload; a failed creation makes no other call |
| CompoxUpload.StepFailureReraises | src/compox/database_connection/database_utils.py:155-166 | a failed attempt re-raises its original error: the zero chunk's, the first failed part's, or the completion's |
| CompoxUpload.UploadFileMultipart | src/compox/database_connection/database_utils.py:40-89 | the retry loop with `last_err` gives exactly the calls, error and attempt count the upload specification says |
| CompoxUpload.NoRetriesNoAttempt | src/compox/database_connection/database_utils.py:59-89 | with no retries no attempt is made and the generic failure names no last error |
| CompoxUpload.RetrySpec | src/compox/database_connection/database_utils.py:61-85 | from any attempt on, at most `retries` attempts are made, the generic failure is never raised, every attempt but the last failed with a transient ClientError, and the outcome is the last attempt's |
| CompoxUpload.UploadSpec | src/compox/database_connection/database_utils.py:59-89 | an upload with at least one attempt makes at most `retries` attempts, retries only transient ClientErrors, and raises exactly what its last attempt raised |
| CompoxUpload.NotRetried | src/compox/database_connection/database_utils.py:61-78 | an error on the first attempt that is not a transient ClientError is raised at once without a retry |
| T3dUpload.Renumbered | src/t3d_server/database_connection/database_utils.py:82-85 | the completion's part list numbers the collected parts 1 to n by position, one per part |
| T3dUpload.Upload | src/t3d_server/database_connection/database_utils.py:29-91 | the single-attempt `upload_file_multipart`: the calls made and the error raised, never an abort; its properties are `UploadSuccess`, `UploadFailure` and `NeverAborts` |
| T3dUpload.UploadFileMultipart | src/t3d_server/database_connection/database_utils.py:29-91 | the upload makes exactly the calls and raises exactly the error the single-attempt specification says |
| T3dUpload.NeverAborts | src/t3d_server/database_connection/database_utils.py:29-91 | this uploader never aborts an upload, whatever fails |
| T3dUpload.UploadSuccess | src/t3d_server/database_connection/database_utils.py:51-91 | a successful upload completes parts 1 to n in order with their etags, whose bodies concatenate to the input, and equals a successful attempt of the retrying uploader |
| T3dUpload.UploadFailure | src/t3d_server/database_connection/database_utils.py:51-91 | a failure after creation is raised as it is, with no call made after the failing one |
| Cli.Convert | src/t3d_server/cli.py:253-276 | a converted value is never a dict (only the key walk creates dicts) and is well formed |
| Cli.ConvertNat | src/t3d_server/cli.py:256-271 | a decimal natural reads back as that int, except 0 and 1, which the boolean words turn into False and True |
| Cli.ConvertIgnoresCase | src/t3d_server/cli.py:256-266 | the null and boolean words are recognised in any letter case |
| Cli.ConvertList | src/t3d_server/cli.py:267-269 | a value with a comma becomes the list of its stripped pieces, digits staying strings |
| Cli.Assign | src/t3d_server/cli.py:279-283 | a successful assignment leaves every dict with unique keys and the first path key present |
| Cli.AssignSpec | src/t3d_server/cli.py:279-283 | the assignment succeeds if and only if every step before the last finds a dict or nothing; it then stores the value at the dotted path, keeps the path walkable and leaves every other top-level key unchanged |
| Cli.Parse | src/t3d_server/cli.py:241-285 | a successful parse gives a dict whose nested dicts each list a key once |
| Cli.ParseFlatArgsLoop | src/t3d_server/cli.py:234-285 | the index loop gives exactly the parse of the whole argument list into an empty dict |
| Cli.EqualsFormSame | src/t3d_server/cli.py:243-250 | `--k=v` and `--k v` parse the same when k has no `=` |
| Cli.TrailingKeyIsNone | src/t3d_server/cli.py:248-250 | a trailing `--k` stores None at the dotted path of k |
| Cli.StrayTokenIgnored | src/t3d_server/cli.py:241-284 | a token that does not start with `--` and is no option's value is skipped |
| Cli.ParsePair | src/t3d_server/cli.py:243-284 | a `--k v` pair stores the converted value at the dotted path of k and the parse goes on after v |
| Cli.DottedKeyNests | src/t3d_server/cli.py:278-283 | `--a.b.c v` creates the intermediate dicts and the converted value is found at the dotted path |
| Cli.LaterKeyWins | src/t3d_server/cli.py:279-283 | a later occurrence of a key overwrites the earlier value |
| Cli.ScalarBlocksNesting | src/t3d_server/cli.py:279-283 | `--a 1 --a.b 2` raises TypeError, because the walk reaches a scalar where it needs a dict |

## Left out

- I/O and encodings: HDF5 encoding and decoding, JSON serialisation, pydantic parsing beyond the modelled validators, and `sys.getsizeof`. Each is a function parameter or a decoded value. The execution store keeps decoded records.
- The network, filesystem and subprocesses: the S3, MinIO and temporary-file connections, zip importing, GPU/MPS/CUDA probes (boolean parameters of the device choice) and the HTTP layers of every router. In algorithms_controller only the two scanning loops are modelled, and any exception there is a 500 response.
- Concurrency: `ContextVar` runner and handler contexts become one explicit per-execution context and an explicit handler. `TaskSession._lock` and the thread pools of parallel fetch/post and multipart upload are sequential loops.
- Randomness and time: uuids, md5 digests and their hex form, and the clock are parameters. The random backoff sleep between upload retries is not modelled.
- Floating point: progress is a `real` with the [0,1] range check. Whether Python's `float()` accepts a text in `parse_flat_args` is a parameter, and an accepted text is kept as that text.
- Strings are ASCII: `lower`, `isdigit`, `strip` and `int()` are modelled for ASCII only.
- PyStr.ParseInt: `int()` is modelled for a bare signed run of ASCII digits; the surrounding whitespace and the underscores between digits that Python also accepts make it raise here.
- Arrays are their dtype and shape, without data. Stacking prepends the count to the shape.
- `DataCache` memory is a sum of exact natural item sizes in bytes, compared against the megabyte limit.
- TaskHandling.TaskHandler: when the task record is missing, a setter calls `mark_as_failed`, which calls the setter again until Python's recursion limit. The model does not unfold that recursion: it ends the call at once with RecursionError, the handler's own copy having taken the value and then progress 1.0, and the store unchanged.
- Runners.InitializeSpec: a Runner's `__init__` is modelled as the list of attribute assignments it makes. An assignment to a read-only property (`device`, `task_handler`, `runner_context`) raises, and `Runners.InitializeAssigningDevice` shows the runner then left in initialising mode, since the source has no try/finally (BaseRunner.py lines 45-48). Other exceptions a real `__init__` could raise are not modelled; "never raises" is stated for an `__init__` that assigns user names only.
- Runners.LoadAssetsSpec: `load_assets` is likewise a list of assignments. "Never raises" is stated for one that assigns user names only; an internal name assigned there bypasses the locking, as `Runners.InternalBypass` says.
- Runners.BaseRunner.Init: "never raises" holds for an `__init__` assigning user names only, as for `Runners.InitializeSpec`.
- Runners.BaseRunner.LoadAllAssets: "never raises" holds for a `load_assets` assigning user names only, as for `Runners.LoadAssetsSpec`.
- Runners.SetAttr: `_locking_assets` and `_initializing` keep only the truth value assigned to them. A reference counts as true, although an empty list behind it is false in Python. A `_locked_attributes` bound to something other than a set of names locks nothing here, whereas Python's `in` would raise TypeError on an int or test for a substring in a string. The no-setter message omits the class name.
- Runners.GetAttr: the two mode flags read back as booleans, and before their first assignment they read as False where Python raises AttributeError. Reading `task_handler` and `runner_context` (the two context-variable properties) is not modelled. Nor are the class's own attributes and methods (`algorithm_type` at BaseRunner.py line 26, the hooks), which `super().__getattribute__` also finds; the model reports such a name missing unless the object holds it.
- Runners.DelAttr: deleting `_locking_assets` or `_initializing` lowers the flag and never raises, since the model does not track whether those attributes are present.
- TaskHandling.CacheReady: the registered runner modules are taken to assign user names only in `__init__` and `load_assets`. That is what lets the cache promise that every runner it holds is idle after `initialize`. A module assigning an internal name is not modelled past `Runners.InitializeAssigningDevice`.
- AlgorithmManager.ListAlgorithms: each listed object is taken to be an S3-style `{"Key": name}` entry. The in-memory connections' `list_objects` return plain names, on which `algorithm["Key"]` would raise TypeError; the model does not capture that failure.
- AlgorithmManager.ListSpec: a stored record is decoded with its id, name and both versions as mandatory fields. The source reads the name and the versions only under a truthy filter, so a record that lacks an unfiltered one lists in Python but is a decoding failure here.
- AlgorithmsController.GetAlgorithm: as for the manager, listed objects are taken to be `{"Key": name}` entries, and every field of `Rec` is decoded eagerly, although the source reads some of them only on some paths.
- AlgorithmsController.ListModelFiles: the same `{"Key": name}` listing and eager decoding as `AlgorithmsController.GetAlgorithm`.
- AlgorithmConfig.CheckConfig: validation stops at the first parameter that fails, whereas pydantic collects every failing parameter into one ValidationError.
- AlgorithmConfig.CheckParameter: the not-an-option message is shortened. It leaves out the quoted default and the sentence listing the options (AlgorithmConfigSchema.py lines 145-149).
- ServerUtils.FindSpec: listed objects are plain key strings, where the source indexes `key["Key"]` (server_utils.py lines 176-181). The same holds for `TaskRecords.Lookup`. Only the key strings themselves are modelled, so a listing entry without a "Key" field is not.
- Cli.Parse: the nested dicts that `setdefault` walks through are rebuilt by value. This is equivalent because only `updates` owns them.
- Deployer: the AST and regex rewriting of imports, the minifier, and walking, renaming and zipping files on disk. Only the naming, key, path and candidate rules are modelled.
- Configuration, UI and debugging helpers (server settings, the systray interface, logging, the CUDA memory manager, the debugging handlers) and the algorithm implementations are not part of this model.
- Forward-only status and monotone progress are not modelled, because the setters accept any valid status at any time and any in-range progress.

## Findings

| source | as written | input that shows it | evidently intended | confidence | as-written member | corrected member |
|---|---|---|---|---|---|---|
| src/t3d_server/session/DataCache.py:143-144 | `add_item` appends the key to `cache_keys` even when it is already listed, so a later `remove_item` leaves a stale entry that uses up the size budget | max_size 2: add "k" twice, remove "k", add "a", "b" and "c"; three items stay cached | the cache never holds more than `max_size` items | not executed | SessionCache.AsWrittenExceedsMaxSize | SessionCache.AddCorrectedSpec |
| src/compox/algorithm_utils/AlgorithmManager.py:157-160 | `delete_algorithms` deletes the module id from the asset collection, so the module object is never deleted | any stored record with a module id | the module id is deleted from the module collection | not executed | AlgorithmManager.ModuleSurvives | AlgorithmManager.DeleteSpec |
| src/compox/algorithm_utils/AlgorithmManager.py:141-152 | a record without "assets" reads the default `[]` and then calls `.items()` on it, which raises AttributeError | a matching record whose JSON has no "assets" field | a missing "assets" means there are no assets to delete | not executed | AlgorithmManager.MissingAssetsRaise | AlgorithmManager.DeleteSpec |
| src/compox/algorithm_utils/AlgorithmDeployer.py:586-598 | the old and new import candidates are deduplicated separately and then zipped, so a duplicate on one side shifts every later pair | files a/u.py, b/u.py and c.py renamed to d/x.py, e/y.py and z.py; the old name "c" is paired with the new name "y" | each old import name is paired with the new name of the same file and candidate position | not executed | DeployerImports.MisalignedImports | DeployerImports.ImportPairsSpec |
