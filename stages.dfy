/**
 * What the typed runners' stages share: the objects passed from one stage
 * to the next, the part of the world a stage changes (the handler's record
 * state, the data store, the handler's file statistics and the runner's
 * attributes), and the fetch, stack and post steps of the default
 * preprocessing and postprocessing.
 */
module Stages {
  import opened Wrappers
  import opened TaskRecords
  import opened PyStr
  import opened Runners
  import IoSchemas
  import TaskHandling

  /** A Python object handed between stages: a numpy array, a list, or an object of another class. */
  datatype Obj = Array(a: IoSchemas.NdArray) | List(items: seq<Obj>) | Other(cls: string)

  /** `type(x)` as an f-string renders it. */
  function TypeRepr(x: Obj): string
  {
    match x
    case Array(_) => "<class 'numpy.ndarray'>"
    case List(_) => "<class 'list'>"
    case Other(cls) => "<class '" + cls + "'>"
  }

  function IntToString(n: int): string
  {
    if n < 0 then "-" + NatToString(-n) else NatToString(n)
  }

  function NatStrings(ns: seq<nat>): (r: seq<string>)
    ensures |r| == |ns| && forall i :: 0 <= i < |ns| ==> r[i] == NatToString(ns[i])
  {
    if ns == [] then [] else [NatToString(ns[0])] + NatStrings(ns[1..])
  }

  /** A shape tuple as Python prints it: `(3,)`, `(2, 4, 4)`. */
  function ShapeRepr(ns: seq<nat>): string
  {
    "(" + Join(NatStrings(ns), ", ") + (if |ns| == 1 then "," else "") + ")"
  }

  /**
   * An attribute's value in an f-string; an object behind a reference and a
   * set (whose order is the hash order) print as opaque reprs.
   */
  function ValRepr(v: Val): string
  {
    match v
    case Int(n) => IntToString(n)
    case Tuple(ns) => ShapeRepr(ns)
    case Str(s) => s
    case Bool(b) => if b then "True" else "False"
    case Ref(_) => "<object>"
    case NameSet(_) => "<set>"
  }

  /** A dataset field as the stage code sees it. */
  function ToObj(v: IoSchemas.Value): Obj
  {
    match v
    case Arr(a) => Array(a)
    case ArrList(xs) => List(seq(|xs|, i requires 0 <= i < |xs| => Array(xs[i])))
    case Reals(xs) => List(seq(|xs|, _ => Other("float")))
    case Text(_) => Other("str")
    case IntTuple(_) => Other("tuple")
    case NoneValue => Other("NoneType")
  }

  /** `input_data`: lists of dataset ids, by key. */
  type InputData = map<string, seq<string>>

  const IdsKey: string := "input_dataset_ids"
  const ImageKey: string := "image"

  /**
   * What a stage can change: the handler's record state, the data store,
   * the handler's fetch and post statistics, and the runner's attributes.
   */
  datatype World = World(h: HState, data: map<string, IoSchemas.DataDict>,
                         fetchCount: nat, fetchTime: real, postCount: nat, postTime: real,
                         runner: RunnerState)

  /** What the clock measures around the reads and writes, and the ids `generate_uuid` hands out. */
  datatype Clock = Clock(fetchElapsed: real, postElapsed: real, uuid: nat -> string)

  function WorldOf(th: TaskHandling.TaskHandler, r: BaseRunner): World
    reads th, th.db, r
  {
    World(th.H(), th.db.data, th.fetchCount, th.fetchTime, th.postCount, th.postTime, r.State())
  }

  /** `mark_as_failed` and the exception that leaves the handler. */
  function Failure(w: World, c: Ctx, env: Env, e: Exc): (World, Exc)
  {
    var (h1, x) := AfterFailure(w.h, c, env, e);
    (w.(h := h1), x)
  }

  // ---------------------------------------------------------------- fetching

  /** `self.fetch_data(input_data["input_dataset_ids"], "image")` of the image runners. */
  function FetchImages(w: World, c: Ctx, env: Env, input: InputData, clock: Clock): (World, Result<seq<IoSchemas.DataDict>>)
  {
    if IdsKey !in input then (w, Err(KeyError(IdsKey)))
    else
      var ids := input[IdsKey];
      var (h1, r) := AfterFetchData(w.h, c, env, w.data, ids, IoSchemas.ImageSchema, [ImageKey]);
      if r.Ok? then (w.(h := h1, fetchCount := w.fetchCount + |ids|, fetchTime := w.fetchTime + clock.fetchElapsed), r)
      else (w.(h := h1), r)
  }

  /**
   * A fetch of image datasets succeeds iff every id is stored with a valid
   * image; then one dataset per id comes back, each holding that image, the
   * store and the runner are as they were and only the fetch statistics
   * grew. A failure has passed the handler's failure handler.
   */
  lemma FetchImagesSpec(w: World, c: Ctx, env: Env, input: InputData, clock: Clock)
    requires IdsKey in input
    ensures var ids := input[IdsKey];
      var (w1, r) := FetchImages(w, c, env, input, clock);
      (r.Ok? <==> forall i :: 0 <= i < |ids| ==> ids[i] in w.data && ValidImageAt(w.data[ids[i]]))
      && w1.data == w.data && w1.runner == w.runner && w1.postCount == w.postCount
      && (r.Ok? ==>
            (w1 == w.(fetchCount := w.fetchCount + |ids|, fetchTime := w.fetchTime + clock.fetchElapsed)
             && |r.value| == |ids|
             && forall i :: 0 <= i < |ids| ==> ImageKey in r.value[i] && r.value[i][ImageKey] == w.data[ids[i]][ImageKey]))
      && (r.Err? ==> (w1, r.exc) == Failure(w, c, env, FetchError(w.data, ids)))
  {
    var ids := input[IdsKey];
    FetchSpec(w.data, ids, IoSchemas.ImageSchema, [ImageKey]);
    forall i | 0 <= i < |ids| && ids[i] in w.data
      ensures IoSchemas.Validate(IoSchemas.ImageSchema, Select(w.data[ids[i]], [ImageKey])).Ok? <==> ValidImageAt(w.data[ids[i]])
      ensures ValidImageAt(w.data[ids[i]]) ==>
        IoSchemas.Validate(IoSchemas.ImageSchema, Select(w.data[ids[i]], [ImageKey])).value[ImageKey] == w.data[ids[i]][ImageKey]
    {
      SelectedImage(w.data[ids[i]]);
    }
    FetchErrorIs(w.data, ids);
  }

  /** A stored dataset whose "image" passes the image schema. */
  predicate ValidImageAt(d: IoSchemas.DataDict)
  {
    ImageKey in d && d[ImageKey].Arr? && IoSchemas.ImageShapeOk(d[ImageKey].arr) && d[ImageKey].arr.dtype in IoSchemas.ImageDTypes
  }

  /** The image of a dataset that has a valid one. */
  function ImageOf(d: IoSchemas.DataDict): IoSchemas.NdArray
    requires ValidImageAt(d)
  {
    d[ImageKey].arr
  }

  /** Selecting only "image" leaves the optional fields to their defaults. */
  lemma SelectedImage(d: IoSchemas.DataDict)
    ensures var v := IoSchemas.Validate(IoSchemas.ImageSchema, Select(d, [ImageKey]));
      (v.Ok? <==> ValidImageAt(d)) && (v.Ok? ==> ImageKey in v.value && v.value[ImageKey] == d[ImageKey])
  {
    SelectSpec(d, [ImageKey]);
    IoSchemas.ImageSchemaSpec(Select(d, [ImageKey]));
  }

  /** The exception of the first id that is missing or whose image fails validation. */
  function FetchError(data: map<string, IoSchemas.DataDict>, ids: seq<string>): Exc
    decreases |ids|
  {
    if ids == [] then KeyError("")
    else if ids[0] !in data then KeyError(ids[0])
    else
      var v := IoSchemas.Validate(IoSchemas.ImageSchema, Select(data[ids[0]], [ImageKey]));
      if v.Err? then v.exc else FetchError(data, ids[1..])
  }

  lemma {:induction false} FetchErrorIs(data: map<string, IoSchemas.DataDict>, ids: seq<string>)
    ensures var r := Fetch(data, ids, IoSchemas.ImageSchema, [ImageKey]); r.Err? ==> r.exc == FetchError(data, ids)
    decreases |ids|
  {
    if ids != [] && ids[0] in data {
      FetchErrorIs(data, ids[1..]);
    }
  }

  /**
   * The in-place loop `input_images[i] = input_images[i]["image"]`: each
   * dataset is replaced by its image, in order.
   */
  function Images(ds: seq<IoSchemas.DataDict>): (r: Result<seq<Obj>>)
    ensures r.Ok? <==> forall i :: 0 <= i < |ds| ==> ImageKey in ds[i]
    ensures r.Err? ==> r.exc == KeyError(ImageKey)
    ensures r.Ok? ==> |r.value| == |ds| && forall i :: 0 <= i < |ds| ==> r.value[i] == ToObj(ds[i][ImageKey])
  {
    if ds == [] then Ok([])
    else if ImageKey !in ds[0] then Err(KeyError(ImageKey))
    else
      match Images(ds[1..])
      case Err(e) => Err(e)
      case Ok(rest) => Ok([ToObj(ds[0][ImageKey])] + rest)
  }

  method ExtractImages(ds: seq<IoSchemas.DataDict>) returns (r: Result<seq<Obj>>)
    ensures r == Images(ds)
  {
    var out: seq<Obj> := [];
    var i := 0;
    while i < |ds|
      invariant 0 <= i <= |ds|
      invariant forall j :: 0 <= j < i ==> ImageKey in ds[j]
      invariant |out| == i && forall j :: 0 <= j < i ==> out[j] == ToObj(ds[j][ImageKey])
    {
      if ImageKey !in ds[i] {
        return Err(KeyError(ImageKey));
      }
      out := out + [ToObj(ds[i][ImageKey])];
      i := i + 1;
    }
    assert out == Images(ds).value;
    r := Ok(out);
  }

  // ---------------------------------------------------------------- numpy

  const StackEmpty: string := "need at least one array to stack"
  const StackShapes: string := "all input arrays must have the same shape"

  predicate SameShapes(xs: seq<Obj>)
  {
    xs != [] ==> xs[0].Array? && forall i :: 0 <= i < |xs| ==> xs[i].Array? && xs[i].a.shape == xs[0].a.shape
  }

  /** `np.stack(xs, axis=0)`: a new leading axis of length `len(xs)`. */
  function Stack(xs: seq<Obj>): (r: Result<Obj>)
    ensures r.Ok? <==> xs != [] && SameShapes(xs)
    ensures r.Ok? ==> r.value.Array? && r.value.a.shape == [|xs|] + xs[0].a.shape
  {
    if xs == [] then Err(ValueError(StackEmpty))
    else if !SameShapes(xs) then Err(ValueError(StackShapes))
    else Ok(Array(IoSchemas.NdArray(xs[0].a.dtype, [|xs|] + xs[0].a.shape)))
  }

  /** `a[i]` of an array with at least one axis. */
  function Slice(a: IoSchemas.NdArray): IoSchemas.NdArray
    requires |a.shape| > 0
  {
    IoSchemas.NdArray(a.dtype, a.shape[1..])
  }

  // ---------------------------------------------------------------- posting

  function FreshIds(clock: Clock, n: nat): (ids: seq<string>)
    ensures |ids| == n && forall i :: 0 <= i < n ==> ids[i] == clock.uuid(i)
  {
    seq(n, i requires 0 <= i < n => clock.uuid(i))
  }

  /** `self.post_data(results)` with the schema the runner binds. */
  function PostResults(w: World, c: Ctx, env: Env, results: seq<IoSchemas.DataDict>, schema: IoSchemas.Schema, clock: Clock)
    : (World, Result<seq<string>>)
  {
    var ids := FreshIds(clock, |results|);
    var (h1, d1, r) := AfterPostData(w.h, c, env, w.data, results, schema, ids);
    if r.Ok? then (w.(h := h1, data := d1, postCount := w.postCount + |results|, postTime := w.postTime + clock.postElapsed), r)
    else (w.(h := h1, data := d1), r)
  }

  /**
   * Posting with distinct fresh ids succeeds iff every result validates;
   * then the fresh ids come back, each stores its validated result, every
   * other dataset is kept, and the handler's record is untouched.
   */
  lemma PostResultsSpec(w: World, c: Ctx, env: Env, results: seq<IoSchemas.DataDict>, schema: IoSchemas.Schema, clock: Clock)
    requires PyList.Distinct(FreshIds(clock, |results|))
    ensures var ids := FreshIds(clock, |results|);
      var (w1, r) := PostResults(w, c, env, results, schema, clock);
      (r.Ok? <==> forall i :: 0 <= i < |results| ==> IoSchemas.Validate(schema, results[i]).Ok?)
      && w1.runner == w.runner && w1.fetchCount == w.fetchCount
      && (r.Ok? ==>
            (r.value == ids && w1.h == w.h && w1.postCount == w.postCount + |results|
             && (forall i :: 0 <= i < |ids| ==> ids[i] in w1.data && w1.data[ids[i]] == DropNone(IoSchemas.Validate(schema, results[i]).value))
             && (forall k :: k in w.data && k !in ids ==> k in w1.data && w1.data[k] == w.data[k])))
  {
    PostSpec(w.data, results, schema, FreshIds(clock, |results|));
  }

  // ---------------------------------------------------------------- the steps on the objects

  /** `self.fetch_data(...)` of an image runner, on the handler. */
  method FetchImagesStep(th: TaskHandling.TaskHandler, runner: BaseRunner, input: InputData, clock: Clock, env: Env)
    returns (r: Result<seq<IoSchemas.DataDict>>)
    requires th.Valid()
    modifies th, th.db
    ensures th.Valid() && (WorldOf(th, runner), r) == FetchImages(old(WorldOf(th, runner)), th.Context(), env, input, clock)
  {
    if IdsKey !in input {
      return Err(KeyError(IdsKey));
    }
    r := th.FetchData(input[IdsKey], IoSchemas.ImageSchema, [ImageKey], clock.fetchElapsed, env);
  }

  /** `self.post_data(results)` of a typed runner, on the handler. */
  method PostResultsStep(th: TaskHandling.TaskHandler, runner: BaseRunner, results: seq<IoSchemas.DataDict>,
                         schema: IoSchemas.Schema, clock: Clock, env: Env)
    returns (r: Result<seq<string>>)
    requires th.Valid()
    modifies th, th.db
    ensures th.Valid() && (WorldOf(th, runner), r) == PostResults(old(WorldOf(th, runner)), th.Context(), env, results, schema, clock)
  {
    var ids := FreshIds(clock, |results|);
    r := th.PostData(results, schema, ids, clock.postElapsed, env);
  }

  /** `self.<name> = v` made by a stage, with the runner between hook runs. */
  method SetRunnerAttr(th: TaskHandling.TaskHandler, runner: BaseRunner, name: string, v: Val) returns (err: Option<Exc>)
    modifies runner
    ensures name !in InternalNames ==> (old(th.Valid()) ==> th.Valid()) && (old(runner.Valid() && runner.Idle()) ==> runner.Valid() && runner.Idle())
    ensures (WorldOf(th, runner), err) == (var (st, e) := SetAttr(old(runner.State()), name, v); (old(WorldOf(th, runner)).(runner := st), e))
  {
    err := runner.SetAttribute(name, v);
  }

  /** `mark_as_failed(str(e))` and `raise e` at the end of `run`. */
  method FailStep(th: TaskHandling.TaskHandler, runner: BaseRunner, env: Env, e: Exc) returns (x: Exc)
    requires th.Valid()
    modifies th, th.db
    ensures th.Valid() && (WorldOf(th, runner), x) == Failure(old(WorldOf(th, runner)), th.Context(), env, e)
  {
    x := th.Fail(env, e);
  }
}
