/**
 * `Image2ImageRunner`: the image datasets named by the input are stacked
 * into one array, whose count of images is remembered on the runner; the
 * inference output must have as many images, each of which is posted as an
 * image dataset.
 */
module Image2ImageRunner {
  import opened Wrappers
  import opened TaskRecords
  import opened PyStr
  import opened Runners
  import opened Stages
  import IoSchemas
  import TaskHandling

  const AlgorithmType: string := "Image2Image"
  const CountName: string := "_input_images_count"

  /** The stage's count attribute is an ordinary user attribute, stored in the runner context. */
  lemma UserAttribute()
    ensures CountName !in InternalNames
  {
  }

  const NotArrayMessage: string :=
    "Data is not a numpy array, please make sure that the inference method returns a numpy array."

  const CountHead: string := "The first dimension of the numpy array output by the inferencemethod is "
  const CountMiddle: string := ", but the number of input images is "
  const CountTail: string := ". Please make sure that the inference method returns a numpy array with the same number of images as the input."

  /** The message of the count check; the source's literal joins "inference" and "method" without a space. */
  function CountMessage(n: nat, count: Val): string
  {
    CountHead + NatToString(n) + CountMiddle + ValRepr(count) + CountTail
  }

  /** `preprocess`: fetch, remember the count, take each image, stack. */
  function Preprocess(w: World, c: Ctx, env: Env, input: InputData, clock: Clock): (World, Result<Obj>)
  {
    var (w1, r) := FetchImages(w, c, env, input, clock);
    if r.Err? then (w1, Err(r.exc))
    else
      var (st, err) := SetAttr(w1.runner, CountName, Int(|r.value|));
      var w2 := w1.(runner := st);
      if err.Some? then (w2, Err(err.value))
      else
        match Images(r.value)
        case Err(e) => (w2, Err(e))
        case Ok(xs) => (w2, Stack(xs))
  }

  /** `[{"image": data[i]} for i in range(data.shape[0])]`. */
  function OutputDicts(a: IoSchemas.NdArray): seq<IoSchemas.DataDict>
    requires |a.shape| > 0
  {
    seq(a.shape[0], _ => map[ImageKey := IoSchemas.Arr(Slice(a))])
  }

  /** `postprocess`: the output must be an array with one image per input image; each is posted. */
  function Postprocess(w: World, c: Ctx, env: Env, data: Obj, clock: Clock): (World, Result<seq<string>>)
  {
    if !data.Array? then (w, Err(AssertionError(NotArrayMessage)))
    else if |data.a.shape| == 0 then (w, Err(IndexError))
    else
      match GetAttr(w.runner, CountName)
      case Err(e) => (w, Err(e))
      case Ok(v) =>
        if v != Int(data.a.shape[0]) then (w, Err(ValueError(CountMessage(data.a.shape[0], v))))
        else PostResults(w, c, env, OutputDicts(data.a), IoSchemas.ImageSchema, clock)
  }

  method PreprocessStep(th: TaskHandling.TaskHandler, runner: BaseRunner, input: InputData, clock: Clock, env: Env)
    returns (r: Result<Obj>)
    requires th.Valid() && runner.Valid() && runner.Idle()
    modifies th, th.db, runner
    ensures th.Valid() && runner.Valid() && runner.Idle()
    ensures (WorldOf(th, runner), r) == Preprocess(old(WorldOf(th, runner)), th.Context(), env, input, clock)
  {
    var fetched := FetchImagesStep(th, runner, input, clock, env);
    if fetched.Err? {
      return Err(fetched.exc);
    }
    UserAttribute();
    var err := SetRunnerAttr(th, runner, CountName, Int(|fetched.value|));
    if err.Some? {
      return Err(err.value);
    }
    var images := ExtractImages(fetched.value);
    if images.Err? {
      return Err(images.exc);
    }
    r := Stack(images.value);
  }

  method PostprocessStep(th: TaskHandling.TaskHandler, runner: BaseRunner, data: Obj, clock: Clock, env: Env)
    returns (r: Result<seq<string>>)
    requires th.Valid()
    modifies th, th.db
    ensures th.Valid() && (WorldOf(th, runner), r) == Postprocess(old(WorldOf(th, runner)), th.Context(), env, data, clock)
  {
    if !data.Array? {
      return Err(AssertionError(NotArrayMessage));
    }
    if |data.a.shape| == 0 {
      return Err(IndexError);
    }
    var count := runner.Attr(CountName);
    if count.Err? {
      return Err(count.exc);
    }
    if count.value != Int(data.a.shape[0]) {
      return Err(ValueError(CountMessage(data.a.shape[0], count.value)));
    }
    r := PostResultsStep(th, runner, OutputDicts(data.a), IoSchemas.ImageSchema, clock, env);
  }

  // ---------------------------------------------------------------- properties

  /**
   * With every id stored with a valid image and the count attribute free,
   * preprocessing succeeds iff there is at least one image and all have one
   * shape; the result stacks them along a new first axis of length
   * `len(ids)`, which the runner remembers in its execution context.
   */
  lemma PreprocessSpec(w: World, c: Ctx, env: Env, input: InputData, clock: Clock)
    requires !w.runner.lockingAssets && !IsLocked(w.runner, CountName)
    requires IdsKey in input && forall i :: 0 <= i < |input[IdsKey]| ==>
      input[IdsKey][i] in w.data && ValidImageAt(w.data[input[IdsKey][i]])
    ensures var ids := input[IdsKey];
      var (w1, r) := Preprocess(w, c, env, input, clock);
      w1.h == w.h && w1.data == w.data
      && w1.runner == w.runner.(context := w.runner.context[CountName := Int(|ids|)])
      && GetAttr(w1.runner, CountName) == Ok(Int(|ids|))
      && (r.Ok? <==> ids != [] && forall i :: 0 <= i < |ids| ==> ImageOf(w.data[ids[i]]).shape == ImageOf(w.data[ids[0]]).shape)
      && (r.Ok? ==> r.value == Array(IoSchemas.NdArray(ImageOf(w.data[ids[0]]).dtype, [|ids|] + ImageOf(w.data[ids[0]]).shape)))
  {
    FetchImagesSpec(w, c, env, input, clock);
  }

  /** An input without dataset ids is refused before anything is read or changed. */
  lemma MissingIds(w: World, c: Ctx, env: Env, input: InputData, clock: Clock)
    requires IdsKey !in input
    ensures Preprocess(w, c, env, input, clock) == (w, Err(KeyError(IdsKey)))
  {
  }

  /**
   * An output whose first dimension differs from the remembered count is
   * refused with nothing posted; one whose first dimension matches is posted
   * slice by slice.
   */
  lemma PostprocessSpec(w: World, c: Ctx, env: Env, a: IoSchemas.NdArray, n: nat, clock: Clock)
    requires GetAttr(w.runner, CountName) == Ok(Int(n)) && |a.shape| > 0
    ensures a.shape[0] != n ==> Postprocess(w, c, env, Array(a), clock) == (w, Err(ValueError(CountMessage(a.shape[0], Int(n)))))
    ensures a.shape[0] == n ==> Postprocess(w, c, env, Array(a), clock) == PostResults(w, c, env, OutputDicts(a), IoSchemas.ImageSchema, clock)
  {
  }

  /**
   * Posting the slices of an output succeeds iff they are valid images (or
   * there are none); then one image dataset per slice is stored under the
   * fresh ids, which are returned, and the record is untouched.
   */
  lemma PostSlices(w: World, c: Ctx, env: Env, a: IoSchemas.NdArray, clock: Clock)
    requires |a.shape| > 0 && PyList.Distinct(FreshIds(clock, a.shape[0]))
    ensures var (w1, r) := PostResults(w, c, env, OutputDicts(a), IoSchemas.ImageSchema, clock);
      var ids := FreshIds(clock, a.shape[0]);
      (r.Ok? <==> a.shape[0] == 0 || (IoSchemas.ImageShapeOk(Slice(a)) && a.dtype in IoSchemas.ImageDTypes))
      && (r.Ok? ==>
            (r.value == ids && w1.h == w.h && w1.runner == w.runner
             && forall i :: 0 <= i < |ids| ==> ids[i] in w1.data && w1.data[ids[i]] == map[ImageKey := IoSchemas.Arr(Slice(a))]))
  {
    var ds := OutputDicts(a);
    PostResultsSpec(w, c, env, ds, IoSchemas.ImageSchema, clock);
    SliceDataset(Slice(a));
  }

  /** A lone valid image validates and is stored without the absent optional fields. */
  lemma SliceDataset(s: IoSchemas.NdArray)
    ensures var v := IoSchemas.Validate(IoSchemas.ImageSchema, map[ImageKey := IoSchemas.Arr(s)]);
      (v.Ok? <==> IoSchemas.ImageShapeOk(s) && s.dtype in IoSchemas.ImageDTypes)
      && (v.Ok? ==> DropNone(v.value) == map[ImageKey := IoSchemas.Arr(s)])
  {
    var d := map[ImageKey := IoSchemas.Arr(s)];
    IoSchemas.ImageSchemaSpec(d);
    var v := IoSchemas.Validate(IoSchemas.ImageSchema, d);
    if v.Ok? {
      assert DropNone(v.value).Keys == {ImageKey};
    }
  }

  /**
   * The count preprocessing remembers is the one postprocessing checks: an
   * inference that keeps the number of images passes the check.
   */
  lemma CountCarriesOver(w: World, c: Ctx, env: Env, input: InputData, clock: Clock, out: IoSchemas.NdArray)
    requires !w.runner.lockingAssets && !IsLocked(w.runner, CountName)
    requires IdsKey in input && forall i :: 0 <= i < |input[IdsKey]| ==>
      input[IdsKey][i] in w.data && ValidImageAt(w.data[input[IdsKey][i]])
    requires Preprocess(w, c, env, input, clock).1.Ok?
    requires |out.shape| > 0
    ensures var (w1, x) := Preprocess(w, c, env, input, clock);
      var (w2, r) := Postprocess(w1, c, env, Array(out), clock);
      x.value.a.shape[0] == |input[IdsKey]|
      && (out.shape[0] == x.value.a.shape[0] ==> (w2, r) == PostResults(w1, c, env, OutputDicts(out), IoSchemas.ImageSchema, clock))
      && (out.shape[0] != x.value.a.shape[0] ==> r.Err? && w2 == w1)
  {
    PreprocessSpec(w, c, env, input, clock);
  }
}
