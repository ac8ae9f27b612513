/**
 * The `TaskHandler` object: the handler's copies of the execution record's
 * fields, its statistics and recorded assets, over a database whose
 * collections are kept decoded. Every method is proved against the value
 * functions of TaskRecords.
 */
module TaskHandling {
  import opened Wrappers
  import opened TaskRecords
  import IoSchemas
  import OrderedMap
  import ServerUtils
  import Runners
  import SessionRegistry
  import SessionCache

  /** The algorithm collection is a well-formed dict and every module is user code. */
  ghost predicate Stored(algorithms: OrderedMap.OMap<AlgorithmJson>, modules: map<string, Runners.RunnerCode>)
  {
    OrderedMap.Valid(algorithms) && forall k :: k in modules ==> Runners.UserCode(modules[k])
  }

  /** The collections the handler reaches through its connection, decoded. */
  class Database {
    var records: RecordStore
    var algorithms: OrderedMap.OMap<AlgorithmJson>
    var modules: map<string, Runners.RunnerCode>
    var assets: map<string, string>
    var data: map<string, IoSchemas.DataDict>

    ghost predicate Valid()
      reads this
    {
      Stored(algorithms, modules)
    }

    /** Everything but the execution store. */
    function Others(): (OrderedMap.OMap<AlgorithmJson>, map<string, Runners.RunnerCode>, map<string, string>, map<string, IoSchemas.DataDict>)
      reads this
    {
      (algorithms, modules, assets, data)
    }

    constructor (records: RecordStore, algorithms: OrderedMap.OMap<AlgorithmJson>, modules: map<string, Runners.RunnerCode>,
                 assets: map<string, string>, data: map<string, IoSchemas.DataDict>)
      requires OrderedMap.Valid(algorithms) && forall k :: k in modules ==> Runners.UserCode(modules[k])
      ensures Valid() && this.records == records && Others() == (algorithms, modules, assets, data)
    {
      this.records := records;
      this.algorithms := algorithms;
      this.modules := modules;
      this.assets := assets;
      this.data := data;
    }

    /** The files `post_data` posts, stored in the execution store; those posted before a failure stay. */
    method PostAll(results: seq<IoSchemas.DataDict>, schema: IoSchemas.Schema, freshIds: seq<string>) returns (r: Result<seq<string>>)
      requires Valid() && |freshIds| == |results|
      modifies this
      ensures Valid() && records == old(records) && (data, r) == Post(old(data), results, schema, freshIds)
      ensures algorithms == old(algorithms) && modules == old(modules) && assets == old(assets)
    {
      var d;
      d, r := PostFiles(data, results, schema, freshIds);
      data := d;
    }
  }

  /** What `__cached_fetch_algorithm` returns and the algorithm cache keeps: runner, assets, JSON. */
  datatype Fetched = Fetched(runner: Runners.BaseRunner, assets: map<string, string>, json: AlgorithmJson)

  /** `datasets + rest`, for a fetch still running. */
  function Prepend<T>(xs: seq<T>, r: Result<seq<T>>): Result<seq<T>>
  {
    if r.Ok? then Ok(xs + r.value) else r
  }

  /** The ids posted so far in front of what the remaining posts give. */
  function PrependPosted(ids: seq<string>, p: (map<string, IoSchemas.DataDict>, Result<seq<string>>))
    : (map<string, IoSchemas.DataDict>, Result<seq<string>>)
  {
    (p.0, Prepend(ids, p.1))
  }

  lemma PrependNothing<T>(r: Result<seq<T>>)
    ensures Prepend([], r) == r
  {
    if r.Ok? {
      assert [] + r.value == r.value;
    }
  }

  /** One more element done: `xs + ([v] + rest) == (xs + [v]) + rest`. */
  lemma PrependStep<T>(xs: seq<T>, v: T, r: Result<seq<T>>)
    ensures Prepend(xs, Prepend([v], r)) == Prepend(xs + [v], r)
  {
    if r.Ok? {
      assert xs + ([v] + r.value) == (xs + [v]) + r.value;
    }
  }

  /** `[fetch_file(file_id) for file_id in file_ids]`. */
  method FetchFiles(data: map<string, IoSchemas.DataDict>, fileIds: seq<string>, schema: IoSchemas.Schema, keys: seq<string>)
    returns (r: Result<seq<IoSchemas.DataDict>>)
    ensures r == Fetch(data, fileIds, schema, keys)
  {
    var datasets: seq<IoSchemas.DataDict> := [];
    var i := 0;
    assert fileIds[0..] == fileIds;
    PrependNothing(Fetch(data, fileIds, schema, keys));
    while i < |fileIds|
      invariant 0 <= i <= |fileIds|
      invariant Fetch(data, fileIds, schema, keys) == Prepend(datasets, Fetch(data, fileIds[i..], schema, keys))
    {
      assert fileIds[i..][1..] == fileIds[i + 1..];
      var id := fileIds[i];
      if id !in data {
        return Err(KeyError(id));
      }
      var v := IoSchemas.Validate(schema, Select(data[id], keys));
      if v.Err? {
        return Err(v.exc);
      }
      PrependStep(datasets, v.value, Fetch(data, fileIds[i + 1..], schema, keys));
      datasets := datasets + [v.value];
      i := i + 1;
    }
    assert fileIds[|fileIds|..] == [];
    assert datasets + [] == datasets;
    return Ok(datasets);
  }

  /** `[post_file(r) for r in result]`: each validated result is stored under its fresh id. */
  method PostFiles(data0: map<string, IoSchemas.DataDict>, results: seq<IoSchemas.DataDict>, schema: IoSchemas.Schema, freshIds: seq<string>)
    returns (data: map<string, IoSchemas.DataDict>, r: Result<seq<string>>)
    requires |freshIds| == |results|
    ensures (data, r) == Post(data0, results, schema, freshIds)
  {
    data := data0;
    var ids: seq<string> := [];
    var rest, restIds := results, freshIds;
    PrependNothing(Post(data, results, schema, freshIds).1);
    while rest != []
      invariant |restIds| == |rest|
      invariant Post(data0, results, schema, freshIds) == PrependPosted(ids, Post(data, rest, schema, restIds))
      decreases |rest|
    {
      var v := IoSchemas.Validate(schema, rest[0]);
      if v.Err? {
        return data, Err(v.exc);
      }
      PostStep(data, rest, schema, restIds, v.value);
      PrependStep(ids, restIds[0], Post(data[restIds[0] := DropNone(v.value)], rest[1..], schema, restIds[1..]).1);
      data := data[restIds[0] := DropNone(v.value)];
      ids := ids + [restIds[0]];
      rest, restIds := rest[1..], restIds[1..];
    }
    assert ids + [] == ids;
    return data, Ok(ids);
  }

  /** `m.Runner.__new__(m.Runner)`, then `initialize(device=device)` and `_load_assets()`. */
  ghost function CachedIn(c: ServerUtils.LruCache<Fetched>): set<Runners.BaseRunner>
    reads c
  {
    set k | k in c.cache :: c.cache[k].runner
  }

  /** Every runner the cache holds is well formed, between hook runs, and runs code that assigns user names only. */
  ghost predicate CacheReady(c: ServerUtils.LruCache<Fetched>)
    reads c, CachedIn(c)
  {
    forall k :: k in c.cache ==> c.cache[k].runner.Valid() && c.cache[k].runner.Idle() && Runners.UserCode(c.cache[k].runner.code)
  }

  /** The state of `algorithm_cache(maxsize=1)`, every runner in it ready. */
  ghost predicate CacheOk(c: ServerUtils.LruCache<Fetched>)
    reads c, CachedIn(c)
  {
    c.Valid() && c.maxsize == Some(1) && CacheReady(c)
  }

  /** A cache hit of `fetch_algorithm`: the entry is handed back and its runner re-initialised. */
  method ReuseCached(c: ServerUtils.LruCache<Fetched>, args: seq<string>) returns (f: Fetched)
    requires c.Valid() && c.maxsize == Some(1) && CacheReady(c) && ServerUtils.CacheKey(args) in c.cache
    modifies c, CachedIn(c)
    ensures c.Valid() && CacheReady(c) && c.cache == old(c.cache)
    ensures f == old(c.cache[ServerUtils.CacheKey(args)])
    ensures f.runner.State() == Runners.Initialize(old(f.runner.State()), None, f.runner.code).0
  {
    var key := ServerUtils.CacheKey(args);
    ghost var st := ServerUtils.LruState(c.cache, c.accessOrder);
    var called;
    f, called := c.Call(args, c.cache[key]);
    ServerUtils.AccessHit(st, c.maxsize, key, f);
    ServerUtils.OnlyKey(st, key);
    var _ := f.runner.Init(None);
  }

  /** A cache miss of `fetch_algorithm`: the fresh entry is stored and its runner re-initialised. */
  method CacheNew(c: ServerUtils.LruCache<Fetched>, args: seq<string>, f: Fetched)
    requires c.Valid() && c.maxsize == Some(1) && CacheReady(c) && ServerUtils.CacheKey(args) !in c.cache
    requires f.runner.Valid() && f.runner.Idle() && Runners.UserCode(f.runner.code)
    modifies c, f.runner
    ensures c.Valid() && CacheReady(c)
    ensures ServerUtils.CacheKey(args) in c.cache && c.cache[ServerUtils.CacheKey(args)] == f
    ensures f.runner.State() == Runners.Initialize(old(f.runner.State()), None, f.runner.code).0
  {
    var key := ServerUtils.CacheKey(args);
    ghost var st := ServerUtils.LruState(c.cache, c.accessOrder);
    var g, _ := c.Call(args, f);
    ServerUtils.AccessMissKeeps(st, c.maxsize, key, f);
    ServerUtils.OnlyKey(ServerUtils.LruState(c.cache, c.accessOrder), key);
    var _ := f.runner.Init(None);
  }

  method BuildRunner(code: Runners.RunnerCode, device: string) returns (runner: Runners.BaseRunner)
    requires Runners.UserCode(code)
    ensures fresh(runner) && runner.Valid() && runner.Idle() && runner.code == code && runner.State() == Loaded(code, device)
  {
    runner := new Runners.BaseRunner(code);
    var _ := runner.Init(Some(device));
    var _ := runner.LoadAllAssets();
  }

  class TaskHandler {
    const taskId: string
    const databaseUpdate: bool
    const sinkId: nat
    const db: Database
    const taskSession: Option<SessionRegistry.TaskSession>
    /** The closure state of `algorithm_cache(maxsize=1)`, shared by every handler. */
    const algorithmCache: ServerUtils.LruCache<Fetched>

    var progress: real
    var status: string
    var outputIds: Option<seq<string>>
    var timeCompleted: Option<string>
    var log: Option<string>
    var sessionToken: Option<Option<string>>
    var sinkOpen: bool
    var algorithmAssets: Option<map<string, string>>
    var fetchCount: nat
    var fetchTime: real
    var postCount: nat
    var postTime: real

    function Context(): Ctx
    {
      Ctx(taskId, databaseUpdate, sinkId)
    }

    function LocalState(): Local
      reads this
    {
      Local(progress, status, outputIds, timeCompleted, log, sessionToken, sinkOpen)
    }

    function H(): HState
      reads this, db
    {
      HState(LocalState(), db.records)
    }

    /** The file statistics and the recorded assets. */
    function Aside(): (nat, real, nat, real, Option<map<string, string>>)
      reads this
    {
      (fetchCount, fetchTime, postCount, postTime, algorithmAssets)
    }

    function SessionCfg(): Option<SessionRegistry.Config>
    {
      if taskSession.Some? then Some(taskSession.value.Cfg()) else None
    }

    ghost function CachedRunners(): set<Runners.BaseRunner>
      reads algorithmCache
    {
      CachedIn(algorithmCache)
    }

    ghost predicate Valid()
      reads db, algorithmCache, CachedRunners()
    {
      db.Valid() && CacheOk(algorithmCache)
    }

    /** The object part of `__init__`; the setter calls are made by Create. */
    constructor (taskId: string, databaseUpdate: bool, sinkId: nat, db: Database,
                 taskSession: Option<SessionRegistry.TaskSession>, algorithmCache: ServerUtils.LruCache<Fetched>)
      ensures Context() == Ctx(taskId, databaseUpdate, sinkId) && this.db == db
      ensures this.taskSession == taskSession && this.algorithmCache == algorithmCache
      ensures LocalState() == Fresh && Aside() == (0, 0.0, 0, 0.0, None)
    {
      this.taskId := taskId;
      this.databaseUpdate := databaseUpdate;
      this.sinkId := sinkId;
      this.db := db;
      this.taskSession := taskSession;
      this.algorithmCache := algorithmCache;
      progress := 0.0;
      status := "";
      outputIds := None;
      timeCompleted := None;
      log := None;
      sessionToken := None;
      sinkOpen := true;
      algorithmAssets := None;
      fetchCount := 0;
      fetchTime := 0.0;
      postCount := 0;
      postTime := 0.0;
    }

    /** The assignment to the handler's own attribute at the top of a setter. */
    method SetOwn(u: Update)
      modifies this
      ensures LocalState() == SetLocal(old(LocalState()), u) && Aside() == old(Aside())
    {
      match u
      case ProgressTo(p) => progress := p;
      case StatusTo(s) => status := s;
      case OutputsTo(ids) => outputIds := Some(ids);
      case TimeTo(t) => timeCompleted := Some(t);
      case LogTo(text) => log := Some(text);
      case TokenTo(t) => sessionToken := Some(t);
    }

    /** A setter after its value check. */
    method Write(u: Update) returns (err: Option<Exc>)
      requires Valid()
      modifies this, db
      ensures Valid() && (H(), err) == AfterWrite(old(H()), Context(), u)
      ensures Aside() == old(Aside()) && db.Others() == old(db.Others())
    {
      SetOwn(u);
      if !databaseUpdate {
        return None;
      }
      if taskId !in db.records.byId {
        progress := 1.0;
        return Some(RecursionError);
      }
      var r := Apply(db.records.byId[taskId], u);
      db.records := RecordStore(db.records.byId[taskId := r], db.records.writes + [r]);
      return None;
    }

    method SetProgress(p: real) returns (err: Option<Exc>)
      requires Valid()
      modifies this, db
      ensures Valid() && (H(), err) == AfterSetProgress(old(H()), Context(), p)
      ensures Aside() == old(Aside()) && db.Others() == old(db.Others())
    {
      if !(0.0 <= p <= 1.0) {
        return Some(ValueError(ProgressMessage));
      }
      err := Write(ProgressTo(p));
    }

    method SetStatus(s: string) returns (err: Option<Exc>)
      requires Valid()
      modifies this, db
      ensures Valid() && (H(), err) == AfterSetStatus(old(H()), Context(), s)
      ensures Aside() == old(Aside()) && db.Others() == old(db.Others())
    {
      if s !in Statuses {
        return Some(ValueError(StatusMessage(s)));
      }
      err := Write(StatusTo(s));
    }

    method SetOutputDatasetIds(ids: seq<string>) returns (err: Option<Exc>)
      requires Valid()
      modifies this, db
      ensures Valid() && (H(), err) == AfterWrite(old(H()), Context(), OutputsTo(ids))
      ensures Aside() == old(Aside()) && db.Others() == old(db.Others())
    {
      err := Write(OutputsTo(ids));
    }

    method SetTimeCompleted(t: string) returns (err: Option<Exc>)
      requires Valid()
      modifies this, db
      ensures Valid() && (H(), err) == AfterWrite(old(H()), Context(), TimeTo(t))
      ensures Aside() == old(Aside()) && db.Others() == old(db.Others())
    {
      err := Write(TimeTo(t));
    }

    method SetSessionToken(t: Option<string>) returns (err: Option<Exc>)
      requires Valid()
      modifies this, db
      ensures Valid() && (H(), err) == AfterWrite(old(H()), Context(), TokenTo(t))
      ensures Aside() == old(Aside()) && db.Others() == old(db.Others())
    {
      err := Write(TokenTo(t));
    }

    /** `update_log()`: the log stream's text goes to the record. */
    method UpdateLog(env: Env) returns (err: Option<Exc>)
      requires Valid()
      modifies this, db
      ensures Valid() && (H(), err) == AfterWrite(old(H()), Context(), LogTo(env.logText))
      ensures Aside() == old(Aside()) && db.Others() == old(db.Others())
    {
      err := Write(LogTo(env.logText));
    }

    /** `logger.remove(self.logger_sink_id)`. */
    method DropSink() returns (err: Option<Exc>)
      modifies this
      ensures (H(), err) == RemoveSink(old(H()), Context())
      ensures Aside() == old(Aside())
    {
      if !sinkOpen {
        return Some(ValueError(NoHandlerMessage(sinkId)));
      }
      sinkOpen := false;
      return None;
    }

    /** The last two setters of both marks, then `logger.remove(self.logger_sink_id)`. */
    method Finish(env: Env, s: string) returns (err: Option<Exc>)
      requires Valid() && s in Statuses
      modifies this, db
      ensures Valid() && (H(), err) == AfterFinish(old(H()), Context(), env, s)
      ensures Aside() == old(Aside()) && db.Others() == old(db.Others())
    {
      ghost var h0 := H();
      WritesStep(h0, Context(), [LogTo(env.logText), StatusTo(s)]);
      assert [LogTo(env.logText), StatusTo(s)][1..] == [StatusTo(s)];
      err := UpdateLog(env);
      if err.Some? {
        return;
      }
      ghost var h1 := H();
      WritesStep(h1, Context(), [StatusTo(s)]);
      assert [StatusTo(s)][1..] == [];
      err := SetStatus(s);
      if err.Some? {
        return;
      }
      err := DropSink();
    }

    method MarkAsCompleted(ids: seq<string>, env: Env) returns (err: Option<Exc>)
      requires Valid()
      modifies this, db
      ensures Valid() && (H(), err) == AfterCompleted(old(H()), Context(), ids, env)
      ensures Aside() == old(Aside()) && db.Others() == old(db.Others())
    {
      assert "COMPLETED" in Statuses;
      ghost var h0 := H();
      WritesStep(h0, Context(), [ProgressTo(1.0), OutputsTo(ids), TimeTo(env.now), LogTo(env.logText), StatusTo("COMPLETED")]);
      assert [ProgressTo(1.0), OutputsTo(ids), TimeTo(env.now), LogTo(env.logText), StatusTo("COMPLETED")][1..] == [OutputsTo(ids), TimeTo(env.now), LogTo(env.logText), StatusTo("COMPLETED")];
      err := SetProgress(1.0);
      if err.Some? {
        return;
      }
      ghost var h1 := H();
      WritesStep(h1, Context(), [OutputsTo(ids), TimeTo(env.now), LogTo(env.logText), StatusTo("COMPLETED")]);
      assert [OutputsTo(ids), TimeTo(env.now), LogTo(env.logText), StatusTo("COMPLETED")][1..] == [TimeTo(env.now), LogTo(env.logText), StatusTo("COMPLETED")];
      err := SetOutputDatasetIds(ids);
      if err.Some? {
        return;
      }
      ghost var h2 := H();
      WritesStep(h2, Context(), [TimeTo(env.now), LogTo(env.logText), StatusTo("COMPLETED")]);
      assert [TimeTo(env.now), LogTo(env.logText), StatusTo("COMPLETED")][1..] == [LogTo(env.logText), StatusTo("COMPLETED")];
      err := SetTimeCompleted(env.now);
      if err.Some? {
        return;
      }
      err := Finish(env, "COMPLETED");
    }

    method MarkAsFailed(env: Env) returns (err: Option<Exc>)
      requires Valid()
      modifies this, db
      ensures Valid() && (H(), err) == AfterFailed(old(H()), Context(), env)
      ensures Aside() == old(Aside()) && db.Others() == old(db.Others())
    {
      assert "FAILED" in Statuses;
      ghost var h0 := H();
      WritesStep(h0, Context(), [ProgressTo(1.0), TimeTo(env.now), OutputsTo([]), LogTo(env.logText), StatusTo("FAILED")]);
      assert [ProgressTo(1.0), TimeTo(env.now), OutputsTo([]), LogTo(env.logText), StatusTo("FAILED")][1..] == [TimeTo(env.now), OutputsTo([]), LogTo(env.logText), StatusTo("FAILED")];
      err := SetProgress(1.0);
      if err.Some? {
        return;
      }
      ghost var h1 := H();
      WritesStep(h1, Context(), [TimeTo(env.now), OutputsTo([]), LogTo(env.logText), StatusTo("FAILED")]);
      assert [TimeTo(env.now), OutputsTo([]), LogTo(env.logText), StatusTo("FAILED")][1..] == [OutputsTo([]), LogTo(env.logText), StatusTo("FAILED")];
      err := SetTimeCompleted(env.now);
      if err.Some? {
        return;
      }
      ghost var h2 := H();
      WritesStep(h2, Context(), [OutputsTo([]), LogTo(env.logText), StatusTo("FAILED")]);
      assert [OutputsTo([]), LogTo(env.logText), StatusTo("FAILED")][1..] == [LogTo(env.logText), StatusTo("FAILED")];
      err := SetOutputDatasetIds([]);
      if err.Some? {
        return;
      }
      err := Finish(env, "FAILED");
    }

    /** `self.mark_as_failed(e)` followed by `raise x`. */
    method Fail(env: Env, x: Exc) returns (exc: Exc)
      requires Valid()
      modifies this, db
      ensures Valid() && (H(), exc) == AfterFailure(old(H()), Context(), env, x)
      ensures Aside() == old(Aside()) && db.Others() == old(db.Others())
    {
      var err := MarkAsFailed(env);
      exc := if err.Some? then err.value else x;
    }

    method FetchAsset(path: string, env: Env) returns (r: Result<string>)
      requires Valid()
      modifies this, db
      ensures Valid() && (H(), r) == AfterFetchAsset(old(H()), Context(), env, old(algorithmAssets), old(db.assets), path)
      ensures Aside() == old(Aside()) && db.Others() == old(db.Others())
    {
      if algorithmAssets.None? {
        return Err(TypeError);
      }
      if path !in algorithmAssets.value {
        return Err(KeyError(path));
      }
      var id := algorithmAssets.value[path];
      if id in db.assets {
        return Ok(db.assets[id]);
      }
      var x := Fail(env, ValueError(AssetPrefix + Str(KeyError(id))));
      return Err(x);
    }

    /**
     * `fetch_data(file_ids, schema, *keys)`, sequentially; `elapsed` is what
     * the clock measures around the reads.
     */
    method FetchData(fileIds: seq<string>, schema: IoSchemas.Schema, keys: seq<string>, elapsed: real, env: Env)
      returns (r: Result<seq<IoSchemas.DataDict>>)
      requires Valid()
      modifies this, db
      ensures Valid() && (H(), r) == AfterFetchData(old(H()), Context(), env, old(db.data), fileIds, schema, keys)
      ensures db.Others() == old(db.Others()) && algorithmAssets == old(algorithmAssets)
      ensures postCount == old(postCount) && postTime == old(postTime)
      ensures r.Ok? ==> fetchCount == old(fetchCount) + |fileIds| && fetchTime == old(fetchTime) + elapsed
      ensures r.Err? ==> fetchCount == old(fetchCount) && fetchTime == old(fetchTime)
    {
      r := FetchFiles(db.data, fileIds, schema, keys);
      if r.Err? {
        var x := Fail(env, r.exc);
        return Err(x);
      }
      fetchCount := fetchCount + |fileIds|;
      fetchTime := fetchTime + elapsed;
    }

    /**
     * `post_data(result, schema)`, sequentially; `freshIds` are the ids
     * `generate_uuid` hands out, one per result.
     */
    method PostData(results: seq<IoSchemas.DataDict>, schema: IoSchemas.Schema, freshIds: seq<string>, elapsed: real, env: Env)
      returns (r: Result<seq<string>>)
      requires Valid() && |freshIds| == |results|
      modifies this, db
      ensures Valid() && (H(), db.data, r) == AfterPostData(old(H()), Context(), env, old(db.data), results, schema, freshIds)
      ensures db.algorithms == old(db.algorithms) && db.modules == old(db.modules) && db.assets == old(db.assets)
      ensures algorithmAssets == old(algorithmAssets) && fetchCount == old(fetchCount) && fetchTime == old(fetchTime)
      ensures r.Ok? ==> postCount == old(postCount) + |results| && postTime == old(postTime) + elapsed
      ensures r.Err? ==> postCount == old(postCount) && postTime == old(postTime)
    {
      r := db.PostAll(results, schema, freshIds);
      if r.Err? {
        var x := Fail(env, r.exc);
        return Err(x);
      }
      postCount := postCount + |results|;
      postTime := postTime + elapsed;
    }

    method SaveItemToSession(obj: SessionCache.Item, key: string, now: nat, env: Env) returns (err: Option<Exc>)
      requires Valid() && (taskSession.Some? ==> taskSession.value.registry.Valid())
      modifies this, db, if taskSession.Some? then {taskSession.value.registry} else {}
      ensures Valid() && Aside() == old(Aside()) && db.Others() == old(db.Others())
      ensures taskSession.Some? ==>
        (H(), taskSession.value.registry.sessions, err) == AfterSave(old(H()), Context(), env, old(taskSession.value.registry.sessions), SessionCfg(), now, key, obj)
      ensures taskSession.None? ==> err.Some? && (H(), err.value) == AfterFailure(old(H()), Context(), env, NoneAttribute("add_item"))
    {
      if taskSession.None? {
        var x := Fail(env, NoneAttribute("add_item"));
        return Some(x);
      }
      var st := taskSession.value.AddItem(obj, key, now);
      if st.Fail? {
        var x := Fail(env, st.exc);
        return Some(x);
      }
      return None;
    }

    method LoadItemFromSession(key: string, env: Env) returns (r: Result<SessionCache.Item>)
      requires Valid() && (taskSession.Some? ==> taskSession.value.registry.Valid())
      modifies this, db, if taskSession.Some? then {taskSession.value.registry} else {}
      ensures Valid() && Aside() == old(Aside()) && db.Others() == old(db.Others())
      ensures taskSession.Some? ==>
        (H(), taskSession.value.registry.sessions, r) == AfterLoad(old(H()), Context(), env, old(taskSession.value.registry.sessions), SessionCfg(), key)
      ensures taskSession.None? ==> r.Err? && (H(), r.exc) == AfterFailure(old(H()), Context(), env, TypeError)
    {
      if taskSession.None? {
        var x := Fail(env, TypeError);
        return Err(x);
      }
      var got := taskSession.value.GetItem(key);
      if got.Err? {
        var x := Fail(env, got.exc);
        return Err(x);
      }
      return got;
    }

    method RemoveItemFromSession(key: string, env: Env) returns (err: Option<Exc>)
      requires Valid() && (taskSession.Some? ==> taskSession.value.registry.Valid())
      modifies this, db, if taskSession.Some? then {taskSession.value.registry} else {}
      ensures Valid() && Aside() == old(Aside()) && db.Others() == old(db.Others())
      ensures taskSession.Some? ==>
        (H(), taskSession.value.registry.sessions, err) == AfterRemoveItem(old(H()), Context(), env, old(taskSession.value.registry.sessions), SessionCfg(), key)
      ensures taskSession.None? ==> err.Some? && (H(), err.value) == AfterFailure(old(H()), Context(), env, NoneAttribute("remove_item"))
    {
      if taskSession.None? {
        var x := Fail(env, NoneAttribute("remove_item"));
        return Some(x);
      }
      var st := taskSession.value.RemoveItem(key);
      if st.Fail? {
        var x := Fail(env, st.exc);
        return Some(x);
      }
      return None;
    }

    /** The first `try` of `__cached_fetch_algorithm`: find the algorithm and read its JSON. */
    method LookUpAlgorithm(id: string, env: Env) returns (r: Result<AlgorithmJson>)
      requires Valid()
      modifies this, db
      ensures Valid() && db.Others() == old(db.Others()) && Aside() == old(Aside())
      ensures Lookup(old(db.algorithms), id).Ok? ==> r == Lookup(old(db.algorithms), id) && H() == old(H())
      ensures Lookup(old(db.algorithms), id).Err? ==>
        r.Err? && (H(), r.exc) == AfterFailure(old(H()), Context(), env, Wrapped(Lookup(old(db.algorithms), id).exc))
    {
      var found := ServerUtils.FindAlgorithmById(id, db.algorithms.keys);
      if found.Err? {
        var x := Fail(env, Wrapped(found.exc));
        return Err(x);
      }
      if found.value.None? {
        var x := Fail(env, Wrapped(ValueError(NotFoundMessage(id))));
        return Err(x);
      }
      ServerUtils.FindFirstMatch(id, db.algorithms.keys);
      return Ok(db.algorithms.m[found.value.value.key]);
    }

    /** The end of `__cached_fetch_algorithm`: the runner is built from the algorithm's module. */
    method LoadModule(json: AlgorithmJson, device: string, env: Env) returns (r: Result<Fetched>)
      requires Valid()
      modifies this, db
      ensures Valid() && db.Others() == old(db.Others()) && Aside() == old(Aside())
      ensures json.moduleId in old(db.modules) ==>
        var code := old(db.modules)[json.moduleId];
        r.Ok? && fresh(r.value.runner) && r.value.runner.Valid() && r.value.runner.Idle()
        && r.value.runner.code == code && r.value.runner.State() == Loaded(code, device)
        && r.value == Fetched(r.value.runner, json.assets, json) && H() == old(H())
      ensures json.moduleId !in old(db.modules) ==>
        r.Err? && (H(), r.exc) == AfterFailure(old(H()), Context(), env, Wrapped(KeyError(json.moduleId)))
    {
      if json.moduleId !in db.modules {
        var x := Fail(env, Wrapped(KeyError(json.moduleId)));
        return Err(x);
      }
      var runner := BuildRunner(db.modules[json.moduleId], device);
      return Ok(Fetched(runner, json.assets, json));
    }

    /** The part of `__cached_fetch_algorithm` after the JSON is read. */
    method FetchFromJson(json: AlgorithmJson, override: Option<string>, gpu: bool, mps: bool, env: Env) returns (r: Result<Fetched>)
      requires Valid()
      modifies this, db
      ensures Valid() && db.Others() == old(db.Others()) && algorithmAssets == Some(json.assets)
      ensures fetchCount == old(fetchCount) && fetchTime == old(fetchTime) && postCount == old(postCount) && postTime == old(postTime)
      ensures var res := ResolveJson(json, old(db.modules), override, gpu, mps);
        res.Resolved? ==>
          r.Ok? && fresh(r.value.runner) && r.value.runner.Valid() && r.value.runner.Idle()
          && r.value.runner.code == res.code && r.value.runner.State() == Loaded(res.code, res.device)
          && r.value == Fetched(r.value.runner, json.assets, json) && H() == old(H())
      ensures var res := ResolveJson(json, old(db.modules), override, gpu, mps);
        res.DeviceFailed? ==> r == Err(res.e) && H() == old(H())
      ensures var res := ResolveJson(json, old(db.modules), override, gpu, mps);
        res.ModuleFailed? ==> r.Err? && (H(), r.exc) == AfterFailure(old(H()), Context(), env, Wrapped(res.e))
    {
      RecordAssets(json.assets);
      var device := GetDevice(json.defaultDevice, json.supportedDevices, override, gpu, mps);
      if device.Err? {
        return Err(device.exc);
      }
      r := LoadModule(json, device.value, env);
    }

    /** `self.algorithm_assets = algorithm_json["assets"]`. */
    method RecordAssets(assets: map<string, string>)
      requires Valid()
      modifies this
      ensures Valid() && H() == old(H()) && algorithmAssets == Some(assets)
      ensures fetchCount == old(fetchCount) && fetchTime == old(fetchTime) && postCount == old(postCount) && postTime == old(postTime)
    {
      algorithmAssets := Some(assets);
    }

    /**
     * The body of `__cached_fetch_algorithm`, run on a cache miss: look the
     * algorithm up, record its assets, choose the device, then build the
     * runner from its module.
     */
    method CachedFetch(id: string, override: Option<string>, gpu: bool, mps: bool, env: Env) returns (r: Result<Fetched>)
      requires Valid()
      modifies this, db
      ensures Valid() && db.Others() == old(db.Others())
      ensures fetchCount == old(fetchCount) && fetchTime == old(fetchTime) && postCount == old(postCount) && postTime == old(postTime)
      ensures var res := Resolve(old(db.algorithms), old(db.modules), id, override, gpu, mps);
        res.Resolved? ==>
          r.Ok? && fresh(r.value.runner) && r.value.runner.Valid() && r.value.runner.Idle()
          && r.value.runner.code == res.code && r.value.runner.State() == Loaded(res.code, res.device)
          && r.value.assets == res.json.assets && r.value.json == res.json
          && H() == old(H()) && algorithmAssets == Some(res.json.assets)
      ensures var res := Resolve(old(db.algorithms), old(db.modules), id, override, gpu, mps);
        !res.Resolved? ==>
          r.Err? && (H(), r.exc) == (if res.DeviceFailed? then (old(H()), res.e) else AfterFailure(old(H()), Context(), env, Wrapped(res.e)))
          && algorithmAssets == (if res.LookupFailed? then old(algorithmAssets) else Some(res.json.assets))
    {
      var found := LookUpAlgorithm(id, env);
      if found.Err? {
        return Err(found.exc);
      }
      r := FetchFromJson(found.value, override, gpu, mps, env);
    }

    /** `fetch_algorithm` on a cache hit: the cached runner object itself, re-initialised. */
    method FetchCached(args: seq<string>) returns (r: Runners.BaseRunner)
      requires Valid() && ServerUtils.CacheKey(args) in algorithmCache.cache
      modifies this, algorithmCache, CachedRunners()
      ensures Valid() && H() == old(H())
      ensures var f := old(algorithmCache.cache[ServerUtils.CacheKey(args)]);
        r == f.runner && r.State() == Runners.Initialize(old(f.runner.State()), None, f.runner.code).0
        && algorithmCache.cache == old(algorithmCache.cache) && Aside() == old(Aside()).(4 := Some(f.assets))
    {
      var f := ReuseCached(algorithmCache, args);
      algorithmAssets := Some(f.assets);
      return f.runner;
    }

    /** The end of a cache miss: the wrapper stores the fresh entry, then `fetch_algorithm` re-initialises it. */
    method StoreFetched(args: seq<string>, f: Fetched)
      requires Valid() && ServerUtils.CacheKey(args) !in algorithmCache.cache
      requires f.runner.Valid() && f.runner.Idle() && Runners.UserCode(f.runner.code)
      modifies this, algorithmCache, f.runner
      ensures Valid() && H() == old(H()) && Aside() == old(Aside()).(4 := Some(f.assets))
      ensures ServerUtils.CacheKey(args) in algorithmCache.cache && algorithmCache.cache[ServerUtils.CacheKey(args)] == f
      ensures f.runner.State() == Runners.Initialize(old(f.runner.State()), None, f.runner.code).0
    {
      CacheNew(algorithmCache, args, f);
      algorithmAssets := Some(f.assets);
    }

    /** `fetch_algorithm` on a cache miss: CachedFetch, then its result is cached and re-initialised. */
    method FetchUncached(id: string, override: Option<string>, gpu: bool, mps: bool, env: Env)
      returns (r: Result<Runners.BaseRunner>)
      requires Valid() && ServerUtils.CacheKey(CacheArgs(id, override)) !in algorithmCache.cache
      modifies this, db, algorithmCache
      ensures Valid() && db.Others() == old(db.Others())
      ensures fetchCount == old(fetchCount) && fetchTime == old(fetchTime) && postCount == old(postCount) && postTime == old(postTime)
      ensures var res := Resolve(old(db.algorithms), old(db.modules), id, override, gpu, mps);
        res.Resolved? ==>
          r.Ok? && fresh(r.value) && r.value.code == res.code
          && r.value.State() == Runners.Initialize(Loaded(res.code, res.device), None, res.code).0
          && var key := ServerUtils.CacheKey(CacheArgs(id, override));
          key in algorithmCache.cache && algorithmCache.cache[key] == Fetched(r.value, res.json.assets, res.json)
          && algorithmAssets == Some(res.json.assets) && H() == old(H())
      ensures var res := Resolve(old(db.algorithms), old(db.modules), id, override, gpu, mps);
        !res.Resolved? ==>
          r.Err? && (H(), r.exc) == OuterFailure(old(H()), Context(), env, res)
          && algorithmCache.cache == old(algorithmCache.cache)
    {
      var args := CacheArgs(id, override);
      var fetched := CachedFetch(id, override, gpu, mps, env);
      if fetched.Err? {
        var x := Fail(env, Wrapped(fetched.exc));
        return Err(x);
      }
      StoreFetched(args, fetched.value);
      return Ok(fetched.value.runner);
    }

    /**
     * `fetch_algorithm(algorithm_id, execution_device_override)`: a cache
     * hit hands back the cached runner object itself, re-initialised, without
     * reading the store; a miss runs CachedFetch and caches its result.
     */
    method FetchAlgorithm(id: string, override: Option<string>, gpu: bool, mps: bool, env: Env)
      returns (r: Result<Runners.BaseRunner>)
      requires Valid()
      modifies this, db, algorithmCache, CachedRunners()
      ensures Valid() && db.Others() == old(db.Others())
      ensures fetchCount == old(fetchCount) && fetchTime == old(fetchTime) && postCount == old(postCount) && postTime == old(postTime)
      ensures var key := ServerUtils.CacheKey(CacheArgs(id, override));
        key in old(algorithmCache.cache) ==>
          var f := old(algorithmCache.cache[key]);
          r == Ok(f.runner) && f.runner.State() == Runners.Initialize(old(f.runner.State()), None, f.runner.code).0
          && algorithmCache.cache == old(algorithmCache.cache) && algorithmAssets == Some(f.assets) && H() == old(H())
      ensures var key := ServerUtils.CacheKey(CacheArgs(id, override));
        var res := Resolve(old(db.algorithms), old(db.modules), id, override, gpu, mps);
        key !in old(algorithmCache.cache) && res.Resolved? ==>
          r.Ok? && fresh(r.value) && r.value.code == res.code
          && r.value.State() == Runners.Initialize(Loaded(res.code, res.device), None, res.code).0
          && key in algorithmCache.cache && algorithmCache.cache[key] == Fetched(r.value, res.json.assets, res.json)
          && algorithmAssets == Some(res.json.assets) && H() == old(H())
      ensures var key := ServerUtils.CacheKey(CacheArgs(id, override));
        var res := Resolve(old(db.algorithms), old(db.modules), id, override, gpu, mps);
        key !in old(algorithmCache.cache) && !res.Resolved? ==>
          r.Err? && (H(), r.exc) == OuterFailure(old(H()), Context(), env, res)
          && algorithmCache.cache == old(algorithmCache.cache)
    {
      var args := CacheArgs(id, override);
      if ServerUtils.CacheKey(args) in algorithmCache.cache {
        var runner := FetchCached(args);
        return Ok(runner);
      }
      r := FetchUncached(id, override, gpu, mps, env);
    }
  }

  /**
   * `TaskHandler(task_id, database_connection, database_update, task_session)`:
   * status STARTED goes through its setter, then the session's token.
   */
  method Create(taskId: string, databaseUpdate: bool, sinkId: nat, db: Database,
                taskSession: Option<SessionRegistry.TaskSession>, algorithmCache: ServerUtils.LruCache<Fetched>)
    returns (r: Result<TaskHandler>)
    requires db.Valid() && CacheOk(algorithmCache)
    modifies db
    ensures db.Others() == old(db.Others())
    ensures var cfg := if taskSession.Some? then Some(taskSession.value.Cfg()) else None;
      var (h1, err) := AfterWrites(HState(Fresh, old(db.records)), Ctx(taskId, databaseUpdate, sinkId), StartUpdates(cfg));
      db.records == h1.store
      && (err.Some? <==> r.Err?)
      && (r.Ok? ==> fresh(r.value) && r.value.Valid() && r.value.H() == h1 && r.value.db == db
                    && r.value.taskSession == taskSession && r.value.algorithmCache == algorithmCache)
  {
    var t := new TaskHandler(taskId, databaseUpdate, sinkId, db, taskSession, algorithmCache);
    ghost var us := StartUpdates(t.SessionCfg());
    ghost var h0 := t.H();
    assert us[0] == StatusTo("STARTED") && "STARTED" in Statuses;
    var err := t.SetStatus("STARTED");
    assert AfterWrites(h0, t.Context(), us) == if err.Some? then (t.H(), err) else AfterWrites(t.H(), t.Context(), us[1..]);
    if err.Some? {
      return Err(err.value);
    }
    if taskSession.Some? {
      assert us[1..] == [TokenTo(SessionRegistry.SessionToken(taskSession.value.Cfg()))];
      assert AfterWrites(h0, t.Context(), us) == AfterWrites(t.H(), t.Context(), us[1..]);
      var token := taskSession.value.GetSessionToken();
      ghost var h1 := t.H();
      err := t.SetSessionToken(token);
      assert us[1..][1..] == [];
      assert AfterWrites(h1, t.Context(), us[1..]) == if err.Some? then (t.H(), err) else AfterWrites(t.H(), t.Context(), us[1..][1..]);
      if err.Some? {
        return Err(err.value);
      }
    } else {
      assert us[1..] == [];
    }
    return Ok(t);
  }
}
