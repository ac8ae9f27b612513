/**
 * The execution-record bookkeeping of `TaskHandler`, its device choice and
 * the data it fetches and posts, as functions on values. The handler class
 * in TaskHandling is proved against these.
 *
 * The execution store holds decoded records: the JSON round trip of every
 * read-modify-write is not modelled, only its effect on the record.
 */
module TaskRecords {
  import opened Wrappers
  import opened PyStr
  import opened PyList
  import IoSchemas
  import ServerUtils
  import OrderedMap
  import Runners
  import SessionRegistry
  import SessionCache

  // ---------------------------------------------------------------- execution records

  /** The fields of an execution record the handler writes. */
  datatype Record = Record(
    progress: real,
    status: string,
    outputIds: seq<string>,
    timeCompleted: string,
    log: string,
    sessionToken: Option<string>)

  /** One property setter's write: the field and its new value. */
  datatype Update =
    | ProgressTo(p: real)
    | StatusTo(s: string)
    | OutputsTo(ids: seq<string>)
    | TimeTo(t: string)
    | LogTo(text: string)
    | TokenTo(token: Option<string>)

  datatype Field = ProgressField | StatusField | OutputsField | TimeField | LogField | TokenField

  function FieldOf(u: Update): Field
  {
    match u
    case ProgressTo(_) => ProgressField
    case StatusTo(_) => StatusField
    case OutputsTo(_) => OutputsField
    case TimeTo(_) => TimeField
    case LogTo(_) => LogField
    case TokenTo(_) => TokenField
  }

  /** `execution_record[<field>] = <value>` */
  function Apply(r: Record, u: Update): Record
  {
    match u
    case ProgressTo(p) => r.(progress := p)
    case StatusTo(s) => r.(status := s)
    case OutputsTo(ids) => r.(outputIds := ids)
    case TimeTo(t) => r.(timeCompleted := t)
    case LogTo(text) => r.(log := text)
    case TokenTo(t) => r.(sessionToken := t)
  }

  /** Two records hold the same value in field `f`. */
  predicate Agree(a: Record, b: Record, f: Field)
  {
    match f
    case ProgressField => a.progress == b.progress
    case StatusField => a.status == b.status
    case OutputsField => a.outputIds == b.outputIds
    case TimeField => a.timeCompleted == b.timeCompleted
    case LogField => a.log == b.log
    case TokenField => a.sessionToken == b.sessionToken
  }

  /** The record holds the value the update writes. */
  predicate Shows(r: Record, u: Update)
  {
    match u
    case ProgressTo(p) => r.progress == p
    case StatusTo(s) => r.status == s
    case OutputsTo(ids) => r.outputIds == ids
    case TimeTo(t) => r.timeCompleted == t
    case LogTo(text) => r.log == text
    case TokenTo(t) => r.sessionToken == t
  }

  /** A setter's write shows its value and rewrites no other field. */
  lemma ApplyFrame(r: Record, u: Update)
    ensures Shows(Apply(r, u), u)
    ensures forall f :: f != FieldOf(u) ==> Agree(Apply(r, u), r, f)
  {
  }

  /** A write is a no-op exactly when the record already shows its value. */
  lemma ApplyNoop(r: Record, u: Update)
    ensures Shows(r, u) <==> Apply(r, u) == r
  {
  }

  /**
   * The handler's own copies of the fields. Output ids, completion time and
   * log are unset until written; the session token is unset, or set to a
   * token or to None. `sinkOpen` says whether the handler's log sink is
   * still registered with the logger.
   */
  datatype Local = Local(
    progress: real,
    status: string,
    outputIds: Option<seq<string>>,
    timeCompleted: Option<string>,
    log: Option<string>,
    sessionToken: Option<Option<string>>,
    sinkOpen: bool)

  function SetLocal(l: Local, u: Update): Local
  {
    match u
    case ProgressTo(p) => l.(progress := p)
    case StatusTo(s) => l.(status := s)
    case OutputsTo(ids) => l.(outputIds := Some(ids))
    case TimeTo(t) => l.(timeCompleted := Some(t))
    case LogTo(text) => l.(log := Some(text))
    case TokenTo(t) => l.(sessionToken := Some(t))
  }

  /** The execution store: the records by task id and every record put, in order. */
  datatype RecordStore = RecordStore(byId: map<string, Record>, writes: seq<Record>)

  datatype HState = HState(local: Local, store: RecordStore)

  /** The handler's task id, its `database_update` flag and the id the logger gave its sink. */
  datatype Ctx = Ctx(taskId: string, databaseUpdate: bool, sinkId: nat)

  /** What the clock (`str(datetime.now())`) and the log stream read when they are consulted. */
  datatype Env = Env(now: string, logText: string)

  /**
   * One setter after its value check: the handler's copy is set, then (with
   * `database_update`) the record is read, changed in one field and put back.
   * A missing record sends the setter into `mark_as_failed`, whose own first
   * setter (progress 1.0) fails the same way, until Python's recursion limit.
   */
  function AfterWrite(h: HState, c: Ctx, u: Update): (HState, Option<Exc>)
  {
    var l1 := SetLocal(h.local, u);
    if !c.databaseUpdate then (HState(l1, h.store), None)
    else if c.taskId !in h.store.byId then (HState(SetLocal(l1, ProgressTo(1.0)), h.store), Some(RecursionError))
    else
      var r := Apply(h.store.byId[c.taskId], u);
      (HState(l1, RecordStore(h.store.byId[c.taskId := r], h.store.writes + [r])), None)
  }

  /** Setters called one after another; the first that raises ends the run. */
  function AfterWrites(h: HState, c: Ctx, us: seq<Update>): (HState, Option<Exc>)
    decreases |us|
  {
    if us == [] then (h, None)
    else
      var (h1, err) := AfterWrite(h, c, us[0]);
      if err.Some? then (h1, err) else AfterWrites(h1, c, us[1..])
  }

  /** The first setter of a run, then the others unless it raised. */
  lemma WritesStep(h: HState, c: Ctx, us: seq<Update>)
    requires us != []
    ensures AfterWrites(h, c, us)
         == if AfterWrite(h, c, us[0]).1.Some? then AfterWrite(h, c, us[0]) else AfterWrites(AfterWrite(h, c, us[0]).0, c, us[1..])
  {
  }

  function SetAllLocal(l: Local, us: seq<Update>): Local
    decreases |us|
  {
    if us == [] then l else SetAllLocal(SetLocal(l, us[0]), us[1..])
  }

  function ApplyAll(r: Record, us: seq<Update>): Record
    decreases |us|
  {
    if us == [] then r else ApplyAll(Apply(r, us[0]), us[1..])
  }

  /** The records put by a run of writes starting from `r`. */
  function Trace(r: Record, us: seq<Update>): (t: seq<Record>)
    ensures |t| == |us|
    decreases |us|
  {
    if us == [] then [] else [Apply(r, us[0])] + Trace(Apply(r, us[0]), us[1..])
  }

  const Statuses: seq<string> := ["RUNNING", "COMPLETED", "FAILED", "PENDING", "STARTED"]

  const ProgressMessage: string := "Progress must be between 0 and 1. Got: "

  function StatusMessage(s: string): string
  {
    "Invalid status. Got: " + s
  }

  /** The `progress` setter: a value outside [0, 1] raises before anything is written. */
  function AfterSetProgress(h: HState, c: Ctx, p: real): (HState, Option<Exc>)
  {
    if !(0.0 <= p <= 1.0) then (h, Some(ValueError(ProgressMessage))) else AfterWrite(h, c, ProgressTo(p))
  }

  /** The `status` setter: only the five statuses are accepted. */
  function AfterSetStatus(h: HState, c: Ctx, s: string): (HState, Option<Exc>)
  {
    if s !in Statuses then (h, Some(ValueError(StatusMessage(s)))) else AfterWrite(h, c, StatusTo(s))
  }

  /** The writes of `mark_as_completed`: progress, outputs, time, log, then status. */
  function CompletedUpdates(ids: seq<string>, env: Env): seq<Update>
  {
    [ProgressTo(1.0), OutputsTo(ids), TimeTo(env.now), LogTo(env.logText), StatusTo("COMPLETED")]
  }

  /** The writes of `mark_as_failed`: progress, time, empty outputs, log, then status. */
  function FailedUpdates(env: Env): seq<Update>
  {
    [ProgressTo(1.0), TimeTo(env.now), OutputsTo([]), LogTo(env.logText), StatusTo("FAILED")]
  }

  const NoHandlerHead: string := "There is no existing handler with id "
  const UnsupportedMiddle: string := " is not supported. Supported devices are "
  const UnsupportedTail: string := ". Check the algorithm pyproject.toml file."
  const NoneAttributeHead: string := "'NoneType' object has no attribute '"

  function NoHandlerMessage(id: nat): string
  {
    NoHandlerHead + NatToString(id)
  }

  /** `logger.remove(self.logger_sink_id)`: removing a sink already removed raises. */
  function RemoveSink(h: HState, c: Ctx): (HState, Option<Exc>)
  {
    if h.local.sinkOpen then (h.(local := h.local.(sinkOpen := false)), None)
    else (h, Some(ValueError(NoHandlerMessage(c.sinkId))))
  }

  /** The common end of both marks: log, status `s`, then the sink is removed. */
  function AfterFinish(h: HState, c: Ctx, env: Env, s: string): (HState, Option<Exc>)
  {
    var (h1, err) := AfterWrites(h, c, [LogTo(env.logText), StatusTo(s)]);
    if err.Some? then (h1, err) else RemoveSink(h1, c)
  }

  /** `mark_as_completed(ids)`: the five writes, then the sink is removed. */
  function AfterCompleted(h: HState, c: Ctx, ids: seq<string>, env: Env): (HState, Option<Exc>)
  {
    var (h1, err) := AfterWrites(h, c, CompletedUpdates(ids, env));
    if err.Some? then (h1, err) else RemoveSink(h1, c)
  }

  /** `mark_as_failed(e)`: the five writes, then the sink is removed. */
  function AfterFailed(h: HState, c: Ctx, env: Env): (HState, Option<Exc>)
  {
    var (h1, err) := AfterWrites(h, c, FailedUpdates(env));
    if err.Some? then (h1, err) else RemoveSink(h1, c)
  }

  /**
   * `except Exception as e: self.mark_as_failed(e); raise <x>`: the state after
   * `mark_as_failed` and the exception that leaves, which is `x` unless
   * `mark_as_failed` itself raised.
   */
  function AfterFailure(h: HState, c: Ctx, env: Env, x: Exc): (HState, Exc)
  {
    var (h1, err) := AfterFailed(h, c, env);
    (h1, if err.Some? then err.value else x)
  }

  // ---------------------------------------------------------------- record properties

  predicate Present(h: HState, c: Ctx)
  {
    c.databaseUpdate && c.taskId in h.store.byId
  }

  /**
   * With the record present every write succeeds: the handler's copy takes
   * all values, the record becomes the last one put, and exactly the
   * successive records are appended to the store's history.
   */
  lemma {:induction false} WritesPresent(h: HState, c: Ctx, us: seq<Update>)
    requires Present(h, c)
    ensures var r0 := h.store.byId[c.taskId];
      AfterWrites(h, c, us) == (HState(SetAllLocal(h.local, us),
        RecordStore(h.store.byId[c.taskId := ApplyAll(r0, us)], h.store.writes + Trace(r0, us))), None)
    decreases |us|
  {
    var r0 := h.store.byId[c.taskId];
    if us == [] {
      assert h.store.byId[c.taskId := r0] == h.store.byId;
      assert h.store.writes + [] == h.store.writes;
    } else {
      var (h1, _) := AfterWrite(h, c, us[0]);
      WritesPresent(h1, c, us[1..]);
      var r1 := Apply(r0, us[0]);
      assert h1.store.byId[c.taskId] == r1;
      assert h1.store.byId[c.taskId := ApplyAll(r1, us[1..])] == h.store.byId[c.taskId := ApplyAll(r0, us)];
      assert h1.store.writes + Trace(r1, us[1..]) == h.store.writes + Trace(r0, us);
    }
  }

  /** Without `database_update` nothing reaches the store and every value lands in the handler's copy. */
  lemma {:induction false} WritesDetached(h: HState, c: Ctx, us: seq<Update>)
    requires !c.databaseUpdate
    ensures AfterWrites(h, c, us) == (HState(SetAllLocal(h.local, us), h.store), None)
    decreases |us|
  {
    if us != [] {
      WritesDetached(HState(SetLocal(h.local, us[0]), h.store), c, us[1..]);
    }
  }

  /**
   * With the record missing the first write fails: only the first value and
   * the failure handler's progress 1.0 reach the handler's copy, and the
   * store is untouched.
   */
  lemma WritesMissing(h: HState, c: Ctx, us: seq<Update>)
    requires c.databaseUpdate && c.taskId !in h.store.byId && us != []
    ensures AfterWrites(h, c, us) == (HState(SetLocal(SetLocal(h.local, us[0]), ProgressTo(1.0)), h.store), Some(RecursionError))
  {
  }

  /** Five writes in a row, spelled out. */
  lemma Unfold5(r: Record, l: Local, us: seq<Update>)
    requires |us| == 5
    ensures var r1 := Apply(r, us[0]);
      var r2 := Apply(r1, us[1]);
      var r3 := Apply(r2, us[2]);
      var r4 := Apply(r3, us[3]);
      var r5 := Apply(r4, us[4]);
      Trace(r, us) == [r1, r2, r3, r4, r5] && ApplyAll(r, us) == r5
      && SetAllLocal(l, us) == SetLocal(SetLocal(SetLocal(SetLocal(SetLocal(l, us[0]), us[1]), us[2]), us[3]), us[4])
  {
    var r1 := Apply(r, us[0]);
    var r2 := Apply(r1, us[1]);
    var r3 := Apply(r2, us[2]);
    var r4 := Apply(r3, us[3]);
    var l4 := SetLocal(SetLocal(SetLocal(SetLocal(l, us[0]), us[1]), us[2]), us[3]);
    assert us[1..][1..] == us[2..] && us[2..][1..] == us[3..] && us[3..][1..] == us[4..];
    assert us[4..][1..] == [];
    assert Trace(r4, us[4..]) == [Apply(r4, us[4])] && ApplyAll(r4, us[4..]) == Apply(r4, us[4]);
    assert SetAllLocal(l4, us[4..]) == SetLocal(l4, us[4]);
    assert Trace(r3, us[3..]) == [r4] + Trace(r4, us[4..]);
    assert Trace(r2, us[2..]) == [r3] + Trace(r3, us[3..]);
    assert Trace(r1, us[1..]) == [r2] + Trace(r2, us[2..]);
    assert ApplyAll(r, us) == ApplyAll(r1, us[1..]) == ApplyAll(r2, us[2..]) == ApplyAll(r3, us[3..]) == ApplyAll(r4, us[4..]);
    var l1 := SetLocal(l, us[0]);
    var l2 := SetLocal(l1, us[1]);
    var l3 := SetLocal(l2, us[2]);
    assert SetAllLocal(l, us) == SetAllLocal(l1, us[1..]) == SetAllLocal(l2, us[2..]) == SetAllLocal(l3, us[3..]) == SetAllLocal(l4, us[4..]);
  }

  /**
   * `mark_as_completed`: five records are put, in the order progress 1.0,
   * outputs, completion time, log, status COMPLETED, so the status changes
   * only with the last put, after progress and outputs are already stored;
   * then the log sink is gone.
   */
  lemma CompletedOutcome(h: HState, c: Ctx, ids: seq<string>, env: Env)
    requires Present(h, c) && h.local.sinkOpen
    ensures var r0 := h.store.byId[c.taskId];
      var r1 := r0.(progress := 1.0);
      var r2 := r1.(outputIds := ids);
      var r3 := r2.(timeCompleted := env.now);
      var r4 := r3.(log := env.logText);
      var r5 := r4.(status := "COMPLETED");
      AfterCompleted(h, c, ids, env) ==
        (HState(h.local.(progress := 1.0, outputIds := Some(ids), timeCompleted := Some(env.now),
                         log := Some(env.logText), status := "COMPLETED", sinkOpen := false),
                RecordStore(h.store.byId[c.taskId := r5], h.store.writes + [r1, r2, r3, r4, r5])), None)
  {
    var us := CompletedUpdates(ids, env);
    WritesPresent(h, c, us);
    Unfold5(h.store.byId[c.taskId], h.local, us);
  }

  /**
   * `mark_as_failed`: five records are put, in the order progress 1.0,
   * completion time, empty outputs, log, status FAILED.
   */
  lemma FailedOutcome(h: HState, c: Ctx, env: Env)
    requires Present(h, c) && h.local.sinkOpen
    ensures var r0 := h.store.byId[c.taskId];
      var r1 := r0.(progress := 1.0);
      var r2 := r1.(timeCompleted := env.now);
      var r3 := r2.(outputIds := []);
      var r4 := r3.(log := env.logText);
      var r5 := r4.(status := "FAILED");
      AfterFailed(h, c, env) ==
        (HState(h.local.(progress := 1.0, timeCompleted := Some(env.now), outputIds := Some([]),
                         log := Some(env.logText), status := "FAILED", sinkOpen := false),
                RecordStore(h.store.byId[c.taskId := r5], h.store.writes + [r1, r2, r3, r4, r5])), None)
  {
    var us := FailedUpdates(env);
    WritesPresent(h, c, us);
    Unfold5(h.store.byId[c.taskId], h.local, us);
  }

  /**
   * With the record present (or no store updates), a failure handler marks
   * the task FAILED and lets the pending exception through, unless the log
   * sink was already removed by an earlier `mark_as_*`: then the removal
   * raises in its place.
   */
  lemma FailurePassesThrough(h: HState, c: Ctx, env: Env, x: Exc)
    requires Present(h, c) || !c.databaseUpdate
    ensures var (h1, x1) := AfterFailure(h, c, env, x);
      x1 == (if h.local.sinkOpen then x else ValueError(NoHandlerMessage(c.sinkId)))
      && h1.local.status == "FAILED" && !h1.local.sinkOpen
      && (Present(h, c) ==> Present(h1, c) && h1.store.byId[c.taskId].status == "FAILED")
  {
    Unfold5(if Present(h, c) then h.store.byId[c.taskId] else Record(0.0, "", [], "", "", None), h.local, FailedUpdates(env));
    if Present(h, c) {
      WritesPresent(h, c, FailedUpdates(env));
    } else {
      WritesDetached(h, c, FailedUpdates(env));
    }
  }

  /**
   * A progress outside [0, 1] is refused with nothing changed; one inside,
   * with the record present, changes the progress of the handler and the
   * record and no other field of the record.
   */
  lemma ProgressRange(h: HState, c: Ctx, p: real)
    ensures !(0.0 <= p <= 1.0) ==> AfterSetProgress(h, c, p) == (h, Some(ValueError(ProgressMessage)))
    ensures 0.0 <= p <= 1.0 && Present(h, c) ==>
      var (h1, err) := AfterSetProgress(h, c, p);
      err.None? && h1.local.progress == p && Present(h1, c)
      && h1.store.byId[c.taskId].progress == p
      && (forall f :: f != ProgressField ==> Agree(h1.store.byId[c.taskId], h.store.byId[c.taskId], f))
  {
    if 0.0 <= p <= 1.0 && Present(h, c) {
      ApplyFrame(h.store.byId[c.taskId], ProgressTo(p));
    }
  }

  /** The status setter raises ValueError iff the status is not one of the five; then nothing changes. */
  lemma StatusIff(h: HState, c: Ctx, s: string)
    ensures AfterSetStatus(h, c, s).1 == Some(ValueError(StatusMessage(s))) <==> s !in Statuses
    ensures s !in Statuses ==> AfterSetStatus(h, c, s).0 == h
  {
  }

  // ---------------------------------------------------------------- device choice

  /** `str(list)` for strings quoted plainly. */
  function ListRepr(xs: seq<string>): string
  {
    "[" + Join(seq(|xs|, i requires 0 <= i < |xs| => "'" + xs[i] + "'"), ", ") + "]"
  }

  function UnsupportedDefault(dd: string, supported: seq<string>): string
  {
    "Default device " + dd + UnsupportedMiddle + ListRepr(supported) + UnsupportedTail
  }

  /**
   * `__get_device(algorithm_json, execution_device_override)`. The GPU and
   * MPS probes are inputs. The default device must be among the supported
   * ones ignoring case; without an override (or with an empty one) the
   * default decides; an override is matched lower-cased against the
   * supported list as written, and anything but a usable cpu or gpu
   * override falls back to the default.
   */
  function GetDevice(dd: string, supported: seq<string>, override: Option<string>, gpu: bool, mps: bool): Result<string>
    decreases if override.Some? then 1 else 0
  {
    if Lower(dd) !in LowerAll(supported) then Err(AssertionError(UnsupportedDefault(dd, supported)))
    else if override.None? || override.value == "" then
      var d := Lower(dd);
      if d == "cpu" then Ok("cpu")
      else if d == "gpu" && gpu then Ok("cuda")
      else if d == "gpu" && !gpu then Ok("cpu")
      else if d == "" && "gpu" in supported && gpu then Ok("cuda")
      else if d == "" && "gpu" in supported && !gpu then Ok("cpu")
      else if d == "mps" then (if !mps then Ok("cpu") else Ok("mps"))
      else Err(ValueError("Default device " + dd + " is not supported."))
    else
      var o := Lower(override.value);
      if o in supported && o == "cpu" then Ok("cpu")
      else if o in supported && o == "gpu" && gpu then Ok("cuda")
      else if o in supported && o == "gpu" && !gpu then Ok("cpu")
      else GetDevice(dd, supported, None, gpu, mps)
  }

  /** The device is always cpu, cuda or mps; cuda needs the GPU probe, mps the MPS probe. */
  lemma DeviceRange(dd: string, supported: seq<string>, override: Option<string>, gpu: bool, mps: bool)
    ensures var r := GetDevice(dd, supported, override, gpu, mps);
      (r.Ok? ==> r.value in {"cpu", "cuda", "mps"})
      && (r == Ok("cuda") ==> gpu) && (r == Ok("mps") ==> mps)
  {
  }

  /** The assertion fails exactly when the default device is not supported, whatever the override. */
  lemma DefaultMustBeSupported(dd: string, supported: seq<string>, override: Option<string>, gpu: bool, mps: bool)
    ensures GetDevice(dd, supported, override, gpu, mps).Err? && GetDevice(dd, supported, override, gpu, mps).exc.AssertionError?
      <==> Lower(dd) !in LowerAll(supported)
  {
  }

  /**
   * Without an override, a supported default outside cpu, gpu and mps raises
   * ValueError, except an empty default when "gpu" is listed.
   */
  lemma UnknownDefault(dd: string, supported: seq<string>, gpu: bool, mps: bool)
    requires Lower(dd) in LowerAll(supported)
    ensures GetDevice(dd, supported, None, gpu, mps).Err? <==>
      Lower(dd) !in {"cpu", "gpu", "mps"} && !(Lower(dd) == "" && "gpu" in supported)
    ensures GetDevice(dd, supported, None, gpu, mps).Err? ==> GetDevice(dd, supported, None, gpu, mps).exc.ValueError?
  {
  }

  /** A gpu default without a GPU runs on the CPU. */
  lemma GpuDefaultWithoutGpu(dd: string, supported: seq<string>, mps: bool)
    requires Lower(dd) == "gpu" && "gpu" in LowerAll(supported)
    ensures GetDevice(dd, supported, None, false, mps) == Ok("cpu")
  {
  }

  /** A supported cpu override wins even when a GPU is there. */
  lemma CpuOverrideWins(dd: string, supported: seq<string>, o: string, mps: bool)
    requires Lower(dd) in LowerAll(supported) && Lower(o) == "cpu" && "cpu" in supported
    ensures GetDevice(dd, supported, Some(o), true, mps) == Ok("cpu")
  {
  }

  /** Any override that is not a supported cpu or gpu falls back to the default's resolution. */
  lemma OtherOverrideFallsBack(dd: string, supported: seq<string>, o: string, gpu: bool, mps: bool)
    requires o != "" && !(Lower(o) in supported && Lower(o) in {"cpu", "gpu"})
    ensures GetDevice(dd, supported, Some(o), gpu, mps) == GetDevice(dd, supported, None, gpu, mps)
  {
  }

  /** An override never adds a failure: it raises only when the default resolution raises. */
  lemma OverrideNeverRaises(dd: string, supported: seq<string>, o: string, gpu: bool, mps: bool)
    ensures GetDevice(dd, supported, Some(o), gpu, mps).Err? ==> GetDevice(dd, supported, None, gpu, mps).Err?
  {
  }

  // ---------------------------------------------------------------- data

  /**
   * The datasets of one HDF5 file as `fetch_data` reads them: every key when
   * no keys are asked for, otherwise exactly the asked keys, None for a key
   * the file lacks.
   */
  function Select(d: IoSchemas.DataDict, keys: seq<string>): (r: IoSchemas.DataDict)
  {
    if keys == [] then d else map k | k in keys :: if k in d then d[k] else IoSchemas.NoneValue
  }

  /** Reading and validating the files in order; the first missing file or invalid dataset raises. */
  function Fetch(data: map<string, IoSchemas.DataDict>, ids: seq<string>, s: IoSchemas.Schema, keys: seq<string>)
    : Result<seq<IoSchemas.DataDict>>
    decreases |ids|
  {
    if ids == [] then Ok([])
    else if ids[0] !in data then Err(KeyError(ids[0]))
    else
      var v :- IoSchemas.Validate(s, Select(data[ids[0]], keys));
      var rest :- Fetch(data, ids[1..], s, keys);
      Ok([v] + rest)
  }

  /** The datasets written to HDF5 by `post_data`: the None entries are skipped. */
  function DropNone(d: IoSchemas.DataDict): IoSchemas.DataDict
  {
    map k | k in d && !d[k].NoneValue? :: d[k]
  }

  /**
   * Validating and storing the results in order under the given fresh ids;
   * the first invalid result raises, leaving the earlier ones stored.
   */
  function Post(data: map<string, IoSchemas.DataDict>, results: seq<IoSchemas.DataDict>, s: IoSchemas.Schema, ids: seq<string>)
    : (map<string, IoSchemas.DataDict>, Result<seq<string>>)
    requires |ids| == |results|
    decreases |results|
  {
    if results == [] then (data, Ok([]))
    else
      match IoSchemas.Validate(s, results[0])
      case Err(e) => (data, Err(e))
      case Ok(v) =>
        var (data2, rest) := Post(data[ids[0] := DropNone(v)], results[1..], s, ids[1..]);
        (data2, if rest.Ok? then Ok([ids[0]] + rest.value) else rest)
  }

  /** One validated result stored, then the rest posted. */
  lemma PostStep(data: map<string, IoSchemas.DataDict>, results: seq<IoSchemas.DataDict>, s: IoSchemas.Schema, ids: seq<string>, v: IoSchemas.DataDict)
    requires |ids| == |results| && results != [] && IoSchemas.Validate(s, results[0]) == Ok(v)
    ensures var (data2, rest) := Post(data[ids[0] := DropNone(v)], results[1..], s, ids[1..]);
      Post(data, results, s, ids) == (data2, if rest.Ok? then Ok([ids[0]] + rest.value) else rest)
  {
  }

  /** Fetching succeeds iff every file exists and validates, giving one dataset per id in order. */
  lemma {:induction false} FetchSpec(data: map<string, IoSchemas.DataDict>, ids: seq<string>, s: IoSchemas.Schema, keys: seq<string>)
    ensures Fetch(data, ids, s, keys).Ok? <==>
      forall i :: 0 <= i < |ids| ==> ids[i] in data && IoSchemas.Validate(s, Select(data[ids[i]], keys)).Ok?
    ensures Fetch(data, ids, s, keys).Ok? ==>
      |Fetch(data, ids, s, keys).value| == |ids|
      && forall i :: 0 <= i < |ids| ==> Fetch(data, ids, s, keys).value[i] == IoSchemas.Validate(s, Select(data[ids[i]], keys)).value
    decreases |ids|
  {
    if ids != [] {
      FetchSpec(data, ids[1..], s, keys);
      assert forall i :: 1 <= i < |ids| ==> ids[i] == ids[1..][i - 1];
    }
  }

  /** Asking for keys gives a dataset with exactly those keys, None where the file has none. */
  lemma SelectSpec(d: IoSchemas.DataDict, keys: seq<string>)
    requires keys != []
    ensures forall k :: k in Select(d, keys) <==> k in keys
    ensures forall k :: k in keys ==> Select(d, keys)[k] == if k in d then d[k] else IoSchemas.NoneValue
  {
  }

  /**
   * Posting succeeds iff every result validates; then the ids returned are the
   * fresh ids, and (the ids being distinct) each stores its result validated
   * and without None entries while every other entry of the store is kept.
   */
  lemma {:induction false} PostSpec(data: map<string, IoSchemas.DataDict>, results: seq<IoSchemas.DataDict>, s: IoSchemas.Schema, ids: seq<string>)
    requires |ids| == |results| && Distinct(ids)
    ensures var (data2, r) := Post(data, results, s, ids);
      (r.Ok? <==> forall i :: 0 <= i < |results| ==> IoSchemas.Validate(s, results[i]).Ok?)
      && (r.Ok? ==>
           r.value == ids
           && (forall i :: 0 <= i < |ids| ==> ids[i] in data2 && data2[ids[i]] == DropNone(IoSchemas.Validate(s, results[i]).value))
           && (forall k :: k in data && k !in ids ==> k in data2 && data2[k] == data[k]))
    decreases |results|
  {
    if results != [] {
      var v := IoSchemas.Validate(s, results[0]);
      if v.Ok? {
        PostStep(data, results, s, ids, v.value);
        TailDistinct(ids);
        PostSpec(data[ids[0] := DropNone(v.value)], results[1..], s, ids[1..]);
        assert [ids[0]] + ids[1..] == ids;
        assert forall i :: 1 <= i < |ids| ==> ids[i] == ids[1..][i - 1] && results[i] == results[1..][i - 1];
        assert ids[0] !in ids[1..];
        assert forall k :: k in ids <==> k == ids[0] || k in ids[1..];
      }
    }
  }

  /** `fetch_data`: a failure marks the task failed and is re-raised. */
  function AfterFetchData(h: HState, c: Ctx, env: Env, data: map<string, IoSchemas.DataDict>, ids: seq<string>,
                          s: IoSchemas.Schema, keys: seq<string>): (HState, Result<seq<IoSchemas.DataDict>>)
  {
    match Fetch(data, ids, s, keys)
    case Ok(v) => (h, Ok(v))
    case Err(e) => var (h1, x) := AfterFailure(h, c, env, e); (h1, Err(x))
  }

  /** `post_data`: a failure marks the task failed and is re-raised; the results stored before it stay. */
  function AfterPostData(h: HState, c: Ctx, env: Env, data: map<string, IoSchemas.DataDict>, results: seq<IoSchemas.DataDict>,
                         s: IoSchemas.Schema, ids: seq<string>): (HState, map<string, IoSchemas.DataDict>, Result<seq<string>>)
    requires |ids| == |results|
  {
    var (data1, r) := Post(data, results, s, ids);
    if r.Err? then var (h1, x) := AfterFailure(h, c, env, r.exc); (h1, data1, Err(x))
    else (h, data1, r)
  }

  // ---------------------------------------------------------------- assets and the session

  const AssetPrefix: string := "Failed to fetch asset: "

  /**
   * `fetch_asset(path)`: the path is looked up in the recorded assets outside
   * any handler (no assets recorded: TypeError; unknown path: KeyError);
   * a failing read of the asset store marks the task failed and is wrapped.
   */
  function AfterFetchAsset(h: HState, c: Ctx, env: Env, assets: Option<map<string, string>>,
                           store: map<string, string>, path: string): (HState, Result<string>)
  {
    if assets.None? then (h, Err(TypeError))
    else if path !in assets.value then (h, Err(KeyError(path)))
    else
      var id := assets.value[path];
      if id in store then (h, Ok(store[id]))
      else
        var (h1, x) := AfterFailure(h, c, env, ValueError(AssetPrefix + Str(KeyError(id))));
        (h1, Err(x))
  }

  /** An asset is returned iff its path is recorded and its id is in the store; a lookup miss changes nothing. */
  lemma FetchAssetSpec(h: HState, c: Ctx, env: Env, assets: Option<map<string, string>>, store: map<string, string>, path: string)
    ensures var (h1, r) := AfterFetchAsset(h, c, env, assets, store, path);
      (r.Ok? <==> assets.Some? && path in assets.value && assets.value[path] in store)
      && (r.Ok? ==> r.value == store[assets.value[path]] && h1 == h)
      && (assets.None? || path !in assets.value ==> h1 == h && r.exc in {TypeError, KeyError(path)})
  {
  }

  /** `'NoneType' object has no attribute ...`, what a call on a missing session raises. */
  function NoneAttribute(name: string): Exc
  {
    AttributeError(NoneAttributeHead + name + "'")
  }

  /** `save_item_to_session(obj, key)` at time `now`; `cfg` is the session's, when there is one. */
  function AfterSave(h: HState, c: Ctx, env: Env, d: SessionRegistry.Sessions, cfg: Option<SessionRegistry.Config>,
                     now: nat, key: string, obj: SessionCache.Item): (HState, SessionRegistry.Sessions, Option<Exc>)
    requires SessionRegistry.SessionsValid(d)
  {
    if cfg.None? then
      var (h1, x) := AfterFailure(h, c, env, NoneAttribute("add_item"));
      (h1, d, Some(x))
    else
      var (st, d1) := SessionRegistry.SessionAdd(d, cfg.value, now, key, obj);
      if st.Fail? then
        var (h1, x) := AfterFailure(h, c, env, st.exc);
        (h1, d1, Some(x))
      else (h, d1, None)
  }

  /** `load_item_from_session(key)`: without a session, `None[key]` raises TypeError. */
  function AfterLoad(h: HState, c: Ctx, env: Env, d: SessionRegistry.Sessions, cfg: Option<SessionRegistry.Config>,
                     key: string): (HState, SessionRegistry.Sessions, Result<SessionCache.Item>)
    requires OrderedMap.Valid(d)
  {
    if cfg.None? then
      var (h1, x) := AfterFailure(h, c, env, TypeError);
      (h1, d, Err(x))
    else
      var (r, d1) := SessionRegistry.SessionGet(d, cfg.value, key);
      if r.Err? then
        var (h1, x) := AfterFailure(h, c, env, r.exc);
        (h1, d1, Err(x))
      else (h, d1, r)
  }

  /** `remove_item_from_session(key)`. */
  function AfterRemoveItem(h: HState, c: Ctx, env: Env, d: SessionRegistry.Sessions, cfg: Option<SessionRegistry.Config>,
                           key: string): (HState, SessionRegistry.Sessions, Option<Exc>)
    requires SessionRegistry.SessionsValid(d)
  {
    if cfg.None? then
      var (h1, x) := AfterFailure(h, c, env, NoneAttribute("remove_item"));
      (h1, d, Some(x))
    else
      var (st, d1) := SessionRegistry.SessionRemove(d, cfg.value, key);
      if st.Fail? then
        var (h1, x) := AfterFailure(h, c, env, st.exc);
        (h1, d1, Some(x))
      else (h, d1, None)
  }

  /**
   * Through the handler, an object saved to a session that can hold one item
   * is loaded back, and neither call touches the task's record.
   */
  lemma SaveThenLoad(h: HState, c: Ctx, env: Env, d: SessionRegistry.Sessions, cfg: SessionRegistry.Config,
                     now: nat, key: string, obj: SessionCache.Item)
    requires SessionRegistry.SessionsValid(d) && !cfg.notImplemented && SessionRegistry.EffectiveMaxSize(d, cfg) >= 1
    ensures var (h1, d1, err) := AfterSave(h, c, env, d, Some(cfg), now, key, obj);
      err.None? && h1 == h && SessionRegistry.SessionsValid(d1)
      && AfterLoad(h1, c, env, d1, Some(cfg), key).2 == Ok(obj) && AfterLoad(h1, c, env, d1, Some(cfg), key).0 == h
  {
    SessionRegistry.AddThenGet(d, cfg, now, key, obj);
  }

  /** Without a session every session call fails as a call on None does, and the registry is untouched. */
  lemma NoSessionFails(h: HState, c: Ctx, env: Env, d: SessionRegistry.Sessions, now: nat, key: string, obj: SessionCache.Item)
    requires SessionRegistry.SessionsValid(d) && (Present(h, c) || !c.databaseUpdate) && h.local.sinkOpen
    ensures AfterSave(h, c, env, d, None, now, key, obj).1 == d
    ensures AfterSave(h, c, env, d, None, now, key, obj).2 == Some(NoneAttribute("add_item"))
    ensures AfterLoad(h, c, env, d, None, key).2 == Err(TypeError)
    ensures AfterRemoveItem(h, c, env, d, None, key).2 == Some(NoneAttribute("remove_item"))
  {
    FailurePassesThrough(h, c, env, NoneAttribute("add_item"));
    FailurePassesThrough(h, c, env, TypeError);
    FailurePassesThrough(h, c, env, NoneAttribute("remove_item"));
  }

  // ---------------------------------------------------------------- algorithm lookup

  /** The fields of an algorithm's stored JSON the handler reads. */
  datatype AlgorithmJson = AlgorithmJson(moduleId: string, assets: map<string, string>, defaultDevice: string, supportedDevices: seq<string>)

  const FetchPrefix: string := "Failed to fetch algorithm: "

  /** `raise ValueError(f"Failed to fetch algorithm: {e}")` */
  function Wrapped(e: Exc): Exc
  {
    ValueError(FetchPrefix + Str(e))
  }

  /**
   * How `__cached_fetch_algorithm` ends on a cache miss: a lookup failure and
   * a module failure are wrapped by its own handlers, a device failure leaves
   * it unwrapped; the module failure and the device failure come after the
   * assets were recorded.
   */
  datatype Resolution =
    | Resolved(json: AlgorithmJson, device: string, code: Runners.RunnerCode)
    | LookupFailed(e: Exc)
    | DeviceFailed(json: AlgorithmJson, e: Exc)
    | ModuleFailed(json: AlgorithmJson, e: Exc)

  function NotFoundMessage(id: string): string
  {
    "Algorithm with id " + id + " not found."
  }

  /** The lookup half of `__cached_fetch_algorithm`: the first algorithm listed with that id. */
  function Lookup(algorithms: OrderedMap.OMap<AlgorithmJson>, id: string): Result<AlgorithmJson>
  {
    match ServerUtils.FindSpec(id, algorithms.keys)
    case Err(e) => Err(e)
    case Ok(None) => Err(ValueError(NotFoundMessage(id)))
    case Ok(Some(a)) => if a.key !in algorithms.m then Err(KeyError(a.key)) else Ok(algorithms.m[a.key])
  }

  function Resolve(algorithms: OrderedMap.OMap<AlgorithmJson>, modules: map<string, Runners.RunnerCode>,
                   id: string, override: Option<string>, gpu: bool, mps: bool): Resolution
  {
    match Lookup(algorithms, id)
    case Err(e) => LookupFailed(e)
    case Ok(json) => ResolveJson(json, modules, override, gpu, mps)
  }

  /** The rest of `__cached_fetch_algorithm` once the JSON is read: the device, then the module. */
  function ResolveJson(json: AlgorithmJson, modules: map<string, Runners.RunnerCode>, override: Option<string>, gpu: bool, mps: bool)
    : Resolution
  {
    match GetDevice(json.defaultDevice, json.supportedDevices, override, gpu, mps)
    case Err(e) => DeviceFailed(json, e)
    case Ok(device) =>
      if json.moduleId !in modules then ModuleFailed(json, KeyError(json.moduleId))
      else Resolved(json, device, modules[json.moduleId])
  }

  /** `str(execution_device_override)` in the cache key: None reads "None". */
  function OverrideStr(o: Option<string>): string
  {
    if o.None? then "None" else o.value
  }

  function CacheArgs(id: string, override: Option<string>): seq<string>
  {
    [id, OverrideStr(override)]
  }

  /** What a freshly fetched runner looks like: `initialize(device)`, then `_load_assets()`. */
  function Loaded(code: Runners.RunnerCode, device: string): (st: Runners.RunnerState)
    ensures Runners.UserCode(code) ==> Runners.Sane(st) && !st.lockingAssets && !st.initializing
  {
    var st1 := Runners.Initialize(Runners.Blank, Some(device), code).0;
    assert Runners.UserCode(code) ==> var st := Runners.LoadAssets(st1, code).0; Runners.Sane(st) && !st.lockingAssets && !st.initializing by {
      if Runners.UserCode(code) {
        Runners.InitializeSpec(Runners.Blank, Some(device), code);
        Runners.LoadAssetsSpec(st1, code);
      }
    }
    Runners.LoadAssets(st1, code).0
  }

  /**
   * A resolved lookup names the algorithm the store lists first with that id,
   * and its device comes from the device choice over that algorithm's JSON.
   */
  lemma ResolvedSpec(algorithms: OrderedMap.OMap<AlgorithmJson>, modules: map<string, Runners.RunnerCode>,
                     id: string, override: Option<string>, gpu: bool, mps: bool)
    requires Resolve(algorithms, modules, id, override, gpu, mps).Resolved?
    ensures var res := Resolve(algorithms, modules, id, override, gpu, mps);
      exists i :: 0 <= i < |algorithms.keys| && algorithms.keys[i] in algorithms.m
        && algorithms.m[algorithms.keys[i]] == res.json
        && Split(algorithms.keys[i], ServerUtils.Separator)[0] == id
        && ServerUtils.NoMatch(id, algorithms.keys[..i])
        && GetDevice(res.json.defaultDevice, res.json.supportedDevices, override, gpu, mps) == Ok(res.device)
        && modules[res.json.moduleId] == res.code
  {
    ServerUtils.FindFirstMatch(id, algorithms.keys);
  }

  /**
   * A lookup or module failure passes two handlers, each of which marks the
   * task failed: the inner one raises the wrapped error, and the outer one,
   * finding the log sink already removed, raises the logger's error instead
   * of wrapping the message a second time.
   */
  lemma DoubleFailure(h: HState, c: Ctx, env: Env, e: Exc)
    requires (Present(h, c) || !c.databaseUpdate) && h.local.sinkOpen
    ensures var (h1, e1) := AfterFailure(h, c, env, Wrapped(e));
      e1 == ValueError(FetchPrefix + Str(e))
      && AfterFailure(h1, c, env, Wrapped(e1)).1 == ValueError(NoHandlerMessage(c.sinkId))
  {
    FailurePassesThrough(h, c, env, Wrapped(e));
    var (h1, e1) := AfterFailure(h, c, env, Wrapped(e));
    assert Present(h, c) ==> Present(h1, c);
    FailurePassesThrough(h1, c, env, Wrapped(e1));
  }

  /**
   * The exception `fetch_algorithm` raises on a cache miss that fails, and
   * the handler after its `mark_as_failed`: lookup and module failures have
   * passed the inner handler already.
   */
  function OuterFailure(h: HState, c: Ctx, env: Env, res: Resolution): (HState, Exc)
    requires !res.Resolved?
  {
    match res
    case DeviceFailed(_, e) => AfterFailure(h, c, env, Wrapped(e))
    case LookupFailed(e) => var (h1, x1) := AfterFailure(h, c, env, Wrapped(e)); AfterFailure(h1, c, env, Wrapped(x1))
    case ModuleFailed(_, e) => var (h1, x1) := AfterFailure(h, c, env, Wrapped(e)); AfterFailure(h1, c, env, Wrapped(x1))
  }

  /**
   * What the caller of `fetch_algorithm` sees with the record in place: a
   * device failure wrapped once, and for lookup and module failures the
   * logger's complaint about the sink removed by the inner handler; the
   * task ends FAILED either way.
   */
  lemma FetchFailureSeen(h: HState, c: Ctx, env: Env, res: Resolution)
    requires !res.Resolved? && (Present(h, c) || !c.databaseUpdate) && h.local.sinkOpen
    ensures var (h1, x) := OuterFailure(h, c, env, res);
      x == (if res.DeviceFailed? then ValueError(FetchPrefix + Str(res.e)) else ValueError(NoHandlerMessage(c.sinkId)))
      && h1.local.status == "FAILED" && !h1.local.sinkOpen
      && (Present(h, c) ==> Present(h1, c) && h1.store.byId[c.taskId].status == "FAILED")
  {
    FailurePassesThrough(h, c, env, Wrapped(res.e));
    if !res.DeviceFailed? {
      DoubleFailure(h, c, env, res.e);
      var (h1, x1) := AfterFailure(h, c, env, Wrapped(res.e));
      FailurePassesThrough(h1, c, env, Wrapped(x1));
    }
  }

  /**
   * A freshly fetched runner, once `fetch_algorithm` has re-initialised it,
   * runs on the chosen device and reads every asset `load_assets` set,
   * whatever `__init__` assigned.
   */
  lemma FetchedRunnerReady(code: Runners.RunnerCode, device: string, n: string)
    requires Runners.UserCode(code) && device != "" && Runners.LastValue(code.assetAssigns, n).Some?
    ensures Runners.Sane(Loaded(code, device))
    ensures var st := Runners.Initialize(Loaded(code, device), None, code).0;
      st.device == Some(Runners.Str(device)) && Runners.IsLocked(st, n)
      && Runners.GetAttr(st, n) == Ok(Runners.LastValue(code.assetAssigns, n).value)
  {
    Runners.InitializeSpec(Runners.Blank, Some(device), code);
    var st1 := Runners.Initialize(Runners.Blank, Some(device), code).0;
    Runners.LoadAssetsSpec(st1, code);
    var st2 := Loaded(code, device);
    Runners.LastValueNames(code.assetAssigns, n);
    var i :| 0 <= i < |code.assetAssigns| && code.assetAssigns[i].name == n;
    Runners.ReinitializeExposesAssets(st2, None, code, n);
    Runners.InitializeSpec(st2, None, code);
  }

  // ---------------------------------------------------------------- construction

  /** The handler's copy right after `__init__` starts: progress 0, nothing else set, the sink registered. */
  const Fresh: Local := Local(0.0, "", None, None, None, None, true)

  /** `__init__`: status STARTED through the setter, then the session's token when there is a session. */
  function StartUpdates(cfg: Option<SessionRegistry.Config>): seq<Update>
  {
    [StatusTo("STARTED")] + (if cfg.Some? then [TokenTo(SessionRegistry.SessionToken(cfg.value))] else [])
  }

  /**
   * A handler built over a present record leaves it STARTED, with the
   * session's token when there is a session, and keeps every other field.
   */
  lemma StartSpec(store: RecordStore, c: Ctx, cfg: Option<SessionRegistry.Config>)
    requires Present(HState(Fresh, store), c)
    ensures var (h1, err) := AfterWrites(HState(Fresh, store), c, StartUpdates(cfg));
      var r0 := store.byId[c.taskId];
      err.None? && h1.local.status == "STARTED" && h1.local.progress == 0.0 && h1.local.sinkOpen
      && Present(h1, c) && h1.store.byId[c.taskId].status == "STARTED"
      && h1.store.byId[c.taskId].sessionToken == (if cfg.Some? then SessionRegistry.SessionToken(cfg.value) else r0.sessionToken)
      && h1.store.byId[c.taskId].(status := r0.status, sessionToken := r0.sessionToken) == r0
  {
    var h := HState(Fresh, store);
    var us := StartUpdates(cfg);
    WritesPresent(h, c, us);
    var r0 := store.byId[c.taskId];
    var r1 := Apply(r0, us[0]);
    var l1 := SetLocal(Fresh, us[0]);
    if cfg.Some? {
      assert us[1..][1..] == [];
      assert ApplyAll(r1, us[1..]) == Apply(r1, us[1]);
      assert SetAllLocal(l1, us[1..]) == SetLocal(l1, us[1]);
    } else {
      assert us[1..] == [];
      assert ApplyAll(r1, us[1..]) == r1;
      assert SetAllLocal(l1, us[1..]) == l1;
    }
  }
}
