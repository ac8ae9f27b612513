/**
 * `Image2SegmentationRunner`: the image datasets named by the input are
 * stacked into one array whose shape is remembered on the runner; the
 * inference output must have as many masks as there were images, and each
 * is posted as a segmentation dataset.
 */
module Image2SegmentationRunner {
  import opened Wrappers
  import opened TaskRecords
  import opened Runners
  import opened Stages
  import IoSchemas
  import TaskHandling

  const AlgorithmType: string := "Image2Segmentation"
  const ShapeName: string := "_input_images_shape"

  /** The stage's shape attribute is an ordinary user attribute, stored in the runner context. */
  lemma UserAttribute()
    ensures ShapeName !in InternalNames
  {
  }

  const MaskKey: string := "mask"
  const NotArrayMessage: string :=
    "Data is not a numpy array, please make sure that the inference method returns a numpy array."

  const ShapeHead: string := "Output masks shape "
  const ShapeMiddle: string := " does not correspond to the input images shape "

  function ShapeMessage(shape: seq<nat>, input: Val): string
  {
    ShapeHead + ShapeRepr(shape) + ShapeMiddle + ValRepr(input) + "."
  }

  /** `preprocess`: fetch, take each image, stack, remember the stacked shape. */
  function Preprocess(w: World, c: Ctx, env: Env, input: InputData, clock: Clock): (World, Result<Obj>)
  {
    var (w1, r) := FetchImages(w, c, env, input, clock);
    if r.Err? then (w1, Err(r.exc))
    else
      match Images(r.value)
      case Err(e) => (w1, Err(e))
      case Ok(xs) =>
        match Stack(xs)
        case Err(e) => (w1, Err(e))
        case Ok(stacked) => RecordShape(w1, stacked)
  }

  /** `self._input_images_shape = stacked.shape`, handing the stacked array on. */
  function RecordShape(w: World, stacked: Obj): (World, Result<Obj>)
    requires stacked.Array?
  {
    var (st, err) := SetAttr(w.runner, ShapeName, Tuple(stacked.a.shape));
    (w.(runner := st), if err.Some? then Err(err.value) else Ok(stacked))
  }

  /** `self._input_images_shape[0]`. */
  function FirstOf(v: Val): Result<nat>
  {
    match v
    case Tuple(ns) => if ns == [] then Err(IndexError) else Ok(ns[0])
    case _ => Err(TypeError)
  }

  /** `[{"mask": data[i]} for i in range(data.shape[0])]`. */
  function OutputDicts(a: IoSchemas.NdArray): seq<IoSchemas.DataDict>
    requires |a.shape| > 0
  {
    seq(a.shape[0], _ => map[MaskKey := IoSchemas.Arr(Slice(a))])
  }

  /** `postprocess`: the output must be an array with one mask per input image; each is posted. */
  function Postprocess(w: World, c: Ctx, env: Env, data: Obj, clock: Clock): (World, Result<seq<string>>)
  {
    if !data.Array? then (w, Err(AssertionError(NotArrayMessage)))
    else if |data.a.shape| == 0 then (w, Err(IndexError))
    else
      match GetAttr(w.runner, ShapeName)
      case Err(e) => (w, Err(e))
      case Ok(v) =>
        match FirstOf(v)
        case Err(e) => (w, Err(e))
        case Ok(n) =>
          if data.a.shape[0] != n then (w, Err(ValueError(ShapeMessage(data.a.shape, v))))
          else PostResults(w, c, env, OutputDicts(data.a), IoSchemas.SegmentationSchema, clock)
  }

  method PreprocessStep(th: TaskHandling.TaskHandler, runner: BaseRunner, input: InputData, clock: Clock, env: Env)
    returns (r: Result<Obj>)
    requires th.Valid() && runner.Valid() && runner.Idle()
    modifies th, th.db, runner
    ensures th.Valid() && runner.Valid() && runner.Idle()
    ensures (WorldOf(th, runner), r) == Preprocess(old(WorldOf(th, runner)), th.Context(), env, input, clock)
  {
    var fetched := FetchImagesStep(th, runner, input, clock, env);
    if fetched.Err? {
      return Err(fetched.exc);
    }
    var images := ExtractImages(fetched.value);
    if images.Err? {
      return Err(images.exc);
    }
    r := Stack(images.value);
    if r.Err? {
      return;
    }
    r := RecordShapeStep(th, runner, r.value);
  }

  method RecordShapeStep(th: TaskHandling.TaskHandler, runner: BaseRunner, stacked: Obj) returns (r: Result<Obj>)
    requires th.Valid() && runner.Valid() && runner.Idle() && stacked.Array?
    modifies runner
    ensures th.Valid() && runner.Valid() && runner.Idle()
    ensures (WorldOf(th, runner), r) == RecordShape(old(WorldOf(th, runner)), stacked)
  {
    UserAttribute();
    var err := SetRunnerAttr(th, runner, ShapeName, Tuple(stacked.a.shape));
    r := if err.Some? then Err(err.value) else Ok(stacked);
  }

  method PostprocessStep(th: TaskHandling.TaskHandler, runner: BaseRunner, data: Obj, clock: Clock, env: Env)
    returns (r: Result<seq<string>>)
    requires th.Valid()
    modifies th, th.db
    ensures th.Valid() && (WorldOf(th, runner), r) == Postprocess(old(WorldOf(th, runner)), th.Context(), env, data, clock)
  {
    if !data.Array? {
      return Err(AssertionError(NotArrayMessage));
    }
    if |data.a.shape| == 0 {
      return Err(IndexError);
    }
    var shape := runner.Attr(ShapeName);
    if shape.Err? {
      return Err(shape.exc);
    }
    var first := FirstOf(shape.value);
    if first.Err? {
      return Err(first.exc);
    }
    if data.a.shape[0] != first.value {
      return Err(ValueError(ShapeMessage(data.a.shape, shape.value)));
    }
    r := PostResultsStep(th, runner, OutputDicts(data.a), IoSchemas.SegmentationSchema, clock, env);
  }

  // ---------------------------------------------------------------- properties

  /**
   * With every id stored with a valid image and the shape attribute free,
   * preprocessing succeeds iff there is at least one image and all have one
   * shape; the stacked shape, led by the number of images, is what the
   * runner remembers. A failed stack leaves the attribute unset.
   */
  lemma PreprocessSpec(w: World, c: Ctx, env: Env, input: InputData, clock: Clock)
    requires !w.runner.lockingAssets && !IsLocked(w.runner, ShapeName)
    requires IdsKey in input && forall i :: 0 <= i < |input[IdsKey]| ==>
      input[IdsKey][i] in w.data && ValidImageAt(w.data[input[IdsKey][i]])
    ensures var ids := input[IdsKey];
      var (w1, r) := Preprocess(w, c, env, input, clock);
      w1.h == w.h && w1.data == w.data
      && (r.Ok? <==> ids != [] && forall i :: 0 <= i < |ids| ==> ImageOf(w.data[ids[i]]).shape == ImageOf(w.data[ids[0]]).shape)
      && (r.Ok? ==>
            var shape := [|ids|] + ImageOf(w.data[ids[0]]).shape;
            r.value == Array(IoSchemas.NdArray(ImageOf(w.data[ids[0]]).dtype, shape))
            && w1.runner == w.runner.(context := w.runner.context[ShapeName := Tuple(shape)])
            && GetAttr(w1.runner, ShapeName) == Ok(Tuple(shape)))
      && (r.Err? ==> w1.runner == w.runner)
  {
    FetchImagesSpec(w, c, env, input, clock);
  }

  /**
   * An output whose first dimension differs from the remembered one is
   * refused with the shapes in the message and nothing posted; a matching
   * one is posted slice by slice.
   */
  lemma PostprocessSpec(w: World, c: Ctx, env: Env, a: IoSchemas.NdArray, shape: seq<nat>, clock: Clock)
    requires GetAttr(w.runner, ShapeName) == Ok(Tuple(shape)) && |a.shape| > 0 && |shape| > 0
    ensures a.shape[0] != shape[0] ==>
      Postprocess(w, c, env, Array(a), clock) == (w, Err(ValueError(ShapeMessage(a.shape, Tuple(shape)))))
    ensures a.shape[0] == shape[0] ==>
      Postprocess(w, c, env, Array(a), clock) == PostResults(w, c, env, OutputDicts(a), IoSchemas.SegmentationSchema, clock)
  {
  }

  /**
   * Any array is a valid mask, so posting the slices always succeeds: one
   * mask dataset per slice under the fresh ids, which are returned.
   */
  lemma PostSlices(w: World, c: Ctx, env: Env, a: IoSchemas.NdArray, clock: Clock)
    requires |a.shape| > 0 && PyList.Distinct(FreshIds(clock, a.shape[0]))
    ensures var (w1, r) := PostResults(w, c, env, OutputDicts(a), IoSchemas.SegmentationSchema, clock);
      var ids := FreshIds(clock, a.shape[0]);
      r == Ok(ids) && w1.h == w.h && w1.runner == w.runner
      && forall i :: 0 <= i < |ids| ==> ids[i] in w1.data && w1.data[ids[i]] == map[MaskKey := IoSchemas.Arr(Slice(a))]
  {
    var ds := OutputDicts(a);
    PostResultsSpec(w, c, env, ds, IoSchemas.SegmentationSchema, clock);
    MaskDataset(Slice(a));
  }

  /** A lone mask validates to itself. */
  lemma MaskDataset(s: IoSchemas.NdArray)
    ensures IoSchemas.Validate(IoSchemas.SegmentationSchema, map[MaskKey := IoSchemas.Arr(s)]) == Ok(map[MaskKey := IoSchemas.Arr(s)])
    ensures DropNone(map[MaskKey := IoSchemas.Arr(s)]) == map[MaskKey := IoSchemas.Arr(s)]
  {
    var d := map[MaskKey := IoSchemas.Arr(s)];
    var fs := IoSchemas.Fields(IoSchemas.SegmentationSchema);
    assert fs[1..] == [];
    assert IoSchemas.ValidateField(IoSchemas.SegmentationSchema, fs[0], d) == Ok(IoSchemas.Arr(s));
    assert IoSchemas.ValidateFields(IoSchemas.SegmentationSchema, fs, d) == Ok(map[][MaskKey := IoSchemas.Arr(s)]);
    assert DropNone(d).Keys == d.Keys;
  }

  /**
   * The shape preprocessing remembers is the one postprocessing checks: an
   * inference that keeps the number of images passes the check.
   */
  lemma ShapeCarriesOver(w: World, c: Ctx, env: Env, input: InputData, clock: Clock, out: IoSchemas.NdArray)
    requires !w.runner.lockingAssets && !IsLocked(w.runner, ShapeName)
    requires IdsKey in input && forall i :: 0 <= i < |input[IdsKey]| ==>
      input[IdsKey][i] in w.data && ValidImageAt(w.data[input[IdsKey][i]])
    requires Preprocess(w, c, env, input, clock).1.Ok?
    requires |out.shape| > 0
    ensures var (w1, x) := Preprocess(w, c, env, input, clock);
      var (w2, r) := Postprocess(w1, c, env, Array(out), clock);
      x.value.a.shape[0] == |input[IdsKey]|
      && (out.shape[0] == x.value.a.shape[0] ==> (w2, r) == PostResults(w1, c, env, OutputDicts(out), IoSchemas.SegmentationSchema, clock))
      && (out.shape[0] != x.value.a.shape[0] ==> r.Err? && w2 == w1)
  {
    PreprocessSpec(w, c, env, input, clock);
  }
}
