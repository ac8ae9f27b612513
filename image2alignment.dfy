/**
 * `Image2AlignmentRunner`: the images are fetched and stacked as for the
 * image-to-image runner; the inference output must be a list of one
 * homography matrix per pair of adjacent images, and each matrix is posted
 * as an alignment dataset.
 */
module Image2AlignmentRunner {
  import opened Wrappers
  import opened TaskRecords
  import opened PyStr
  import opened Runners
  import opened Stages
  import IoSchemas
  import TaskHandling
  import Image2ImageRunner

  const AlgorithmType: string := "Image2Alignment"
  const CountName: string := Image2ImageRunner.CountName
  const ListPrefix: string := "The data returned from the inference should be a list of numpy arrays, "

  const NotListMiddle: string := "but the data is of type "
  const NotArrayMiddle: string := "but the element on position "
  const NotArrayTail: string := " of the list is a "
  const CountHead: string := "The number of homography matrices returned from the inference should be "
  const CountMiddle: string := ", but the number of matrices is "
  const CountTail: string := ". The algorithm expects to find a match between adjacent images, so the number of homography matrices should be equal to the number of images minus one."

  function NotListMessage(data: Obj): string
  {
    ListPrefix + NotListMiddle + TypeRepr(data) + "."
  }

  function NotArrayMessage(i: nat, item: Obj): string
  {
    ListPrefix + NotArrayMiddle + NatToString(i) + NotArrayTail + TypeRepr(item) + "."
  }

  function CountMessage(expected: int, got: nat): string
  {
    CountHead + IntToString(expected) + CountMiddle + NatToString(got) + CountTail
  }

  /** `preprocess` is the image-to-image one, line for line: it remembers the image count. */
  function Preprocess(w: World, c: Ctx, env: Env, input: InputData, clock: Clock): (World, Result<Obj>)
  {
    Image2ImageRunner.Preprocess(w, c, env, input, clock)
  }

  /** The position of the first list element that is not an array. */
  function FirstNonArray(items: seq<Obj>): (r: Option<nat>)
    ensures r.None? <==> forall i :: 0 <= i < |items| ==> items[i].Array?
    ensures r.Some? ==> r.value < |items| && !items[r.value].Array? && forall j :: 0 <= j < r.value ==> items[j].Array?
  {
    if items == [] then None
    else if !items[0].Array? then Some(0)
    else
      match FirstNonArray(items[1..])
      case None => None
      case Some(i) => Some(i + 1)
  }

  /** The `isinstance` loop over the list. */
  method CheckElements(items: seq<Obj>) returns (r: Option<nat>)
    ensures r == FirstNonArray(items)
  {
    var i := 0;
    while i < |items|
      invariant 0 <= i <= |items| && forall j :: 0 <= j < i ==> items[j].Array?
    {
      if !items[i].Array? {
        return Some(i);
      }
      i := i + 1;
    }
    return None;
  }

  /** The dataset posted for one matrix: empty point lists and confidences, the matrix twice. */
  function AlignmentDict(m: IoSchemas.NdArray): IoSchemas.DataDict
  {
    map["points1" := IoSchemas.ArrList([]), "points2" := IoSchemas.ArrList([]), "confidence" := IoSchemas.Reals([]),
        "transform_matrix" := IoSchemas.Arr(m), "translation_matrix" := IoSchemas.Arr(m)]
  }

  function Matrices(items: seq<Obj>): (ms: seq<IoSchemas.NdArray>)
    requires forall i :: 0 <= i < |items| ==> items[i].Array?
    ensures |ms| == |items| && forall i :: 0 <= i < |items| ==> ms[i] == items[i].a
  {
    seq(|items|, i requires 0 <= i < |items| => items[i].a)
  }

  /** The `output_dicts.append(...)` loop. */
  method BuildDicts(ms: seq<IoSchemas.NdArray>) returns (ds: seq<IoSchemas.DataDict>)
    ensures |ds| == |ms| && forall i :: 0 <= i < |ms| ==> ds[i] == AlignmentDict(ms[i])
  {
    ds := [];
    for i := 0 to |ms|
      invariant |ds| == i && forall j :: 0 <= j < i ==> ds[j] == AlignmentDict(ms[j])
    {
      ds := ds + [AlignmentDict(ms[i])];
    }
  }

  function OutputDicts(ms: seq<IoSchemas.NdArray>): seq<IoSchemas.DataDict>
  {
    seq(|ms|, i requires 0 <= i < |ms| => AlignmentDict(ms[i]))
  }

  /** `len(data) == self._input_images_count - 1`, evaluated left to right. */
  function CountCheck(v: Val, got: nat): Option<Exc>
  {
    if !v.Int? then Some(TypeError)
    else if got != v.n - 1 then Some(AssertionError(CountMessage(v.n - 1, got)))
    else None
  }

  /** `postprocess`: a list of arrays, one fewer than the images; each matrix is posted. */
  function Postprocess(w: World, c: Ctx, env: Env, data: Obj, clock: Clock): (World, Result<seq<string>>)
  {
    if !data.List? then (w, Err(AssertionError(NotListMessage(data))))
    else
      match FirstNonArray(data.items)
      case Some(i) => (w, Err(AssertionError(NotArrayMessage(i, data.items[i]))))
      case None =>
        match GetAttr(w.runner, CountName)
        case Err(e) => (w, Err(e))
        case Ok(v) =>
          match CountCheck(v, |data.items|)
          case Some(e) => (w, Err(e))
          case None => PostResults(w, c, env, OutputDicts(Matrices(data.items)), IoSchemas.AlignmentSchema, clock)
  }

  method PostprocessStep(th: TaskHandling.TaskHandler, runner: BaseRunner, data: Obj, clock: Clock, env: Env)
    returns (r: Result<seq<string>>)
    requires th.Valid()
    modifies th, th.db
    ensures th.Valid() && (WorldOf(th, runner), r) == Postprocess(old(WorldOf(th, runner)), th.Context(), env, data, clock)
  {
    if !data.List? {
      return Err(AssertionError(NotListMessage(data)));
    }
    var bad := CheckElements(data.items);
    if bad.Some? {
      return Err(AssertionError(NotArrayMessage(bad.value, data.items[bad.value])));
    }
    var count := runner.Attr(CountName);
    if count.Err? {
      return Err(count.exc);
    }
    var err := CountCheck(count.value, |data.items|);
    if err.Some? {
      return Err(err.value);
    }
    var ds := BuildDicts(Matrices(data.items));
    assert ds == OutputDicts(Matrices(data.items));
    r := PostResultsStep(th, runner, ds, IoSchemas.AlignmentSchema, clock, env);
  }

  // ---------------------------------------------------------------- properties

  /**
   * Postprocessing refuses anything but a list of arrays whose length is
   * one less than the remembered image count, naming the first offending
   * element; an acceptable list is posted matrix by matrix.
   */
  lemma {:induction false} PostprocessSpec(w: World, c: Ctx, env: Env, items: seq<Obj>, n: int, clock: Clock)
    requires GetAttr(w.runner, CountName) == Ok(Int(n))
    ensures forall i :: 0 <= i < |items| && !items[i].Array? && (forall j :: 0 <= j < i ==> items[j].Array?) ==>
      Postprocess(w, c, env, List(items), clock) == (w, Err(AssertionError(NotArrayMessage(i, items[i]))))
    ensures (forall i :: 0 <= i < |items| ==> items[i].Array?) && |items| != n - 1 ==>
      Postprocess(w, c, env, List(items), clock) == (w, Err(AssertionError(CountMessage(n - 1, |items|))))
    ensures (forall i :: 0 <= i < |items| ==> items[i].Array?) && |items| == n - 1 ==>
      Postprocess(w, c, env, List(items), clock) == PostResults(w, c, env, OutputDicts(Matrices(items)), IoSchemas.AlignmentSchema, clock)
  {
    forall i | 0 <= i < |items| && !items[i].Array? && (forall j :: 0 <= j < i ==> items[j].Array?)
      ensures Postprocess(w, c, env, List(items), clock) == (w, Err(AssertionError(NotArrayMessage(i, items[i]))))
    {
      FirstNonArrayAt(items, i);
    }
    if forall i :: 0 <= i < |items| ==> items[i].Array? {
      assert FirstNonArray(items).None?;
      if |items| != n - 1 {
        CountRejected(w, c, env, items, n, clock);
      } else {
        MatricesPosted(w, c, env, items, n, clock);
      }
    }
  }

  /** A list of arrays of the wrong length fails the count check. */
  lemma {:induction false} CountRejected(w: World, c: Ctx, env: Env, items: seq<Obj>, n: int, clock: Clock)
    requires GetAttr(w.runner, CountName) == Ok(Int(n)) && FirstNonArray(items).None? && |items| != n - 1
    ensures Postprocess(w, c, env, List(items), clock) == (w, Err(AssertionError(CountMessage(n - 1, |items|))))
  {
    assert CountCheck(Int(n), |items|) == Some(AssertionError(CountMessage(n - 1, |items|)));
  }

  /** A list of arrays of the right length is posted matrix by matrix. */
  lemma {:induction false} MatricesPosted(w: World, c: Ctx, env: Env, items: seq<Obj>, n: int, clock: Clock)
    requires GetAttr(w.runner, CountName) == Ok(Int(n)) && FirstNonArray(items).None? && |items| == n - 1
    ensures Postprocess(w, c, env, List(items), clock)
      == PostResults(w, c, env, OutputDicts(Matrices(items)), IoSchemas.AlignmentSchema, clock)
  {
  }

  /** The first element that is not an array is the one reported. */
  lemma FirstNonArrayAt(items: seq<Obj>, i: nat)
    requires i < |items| && !items[i].Array? && forall j :: 0 <= j < i ==> items[j].Array?
    ensures FirstNonArray(items) == Some(i)
  {
    var f := FirstNonArray(items);
    assert f.Some? && f.value <= i && i <= f.value;
  }

  /**
   * Every alignment dataset built from a matrix validates to itself, so
   * posting the matrices always succeeds: one dataset per matrix under the
   * fresh ids, holding that matrix as both its transform and its translation.
   */
  lemma PostMatrices(w: World, c: Ctx, env: Env, ms: seq<IoSchemas.NdArray>, clock: Clock)
    requires PyList.Distinct(FreshIds(clock, |ms|))
    ensures var (w1, r) := PostResults(w, c, env, OutputDicts(ms), IoSchemas.AlignmentSchema, clock);
      var ids := FreshIds(clock, |ms|);
      r == Ok(ids) && w1.h == w.h && w1.runner == w.runner
      && forall i :: 0 <= i < |ids| ==> ids[i] in w1.data && w1.data[ids[i]] == AlignmentDict(ms[i])
  {
    var ds := OutputDicts(ms);
    forall i | 0 <= i < |ds|
      ensures IoSchemas.Validate(IoSchemas.AlignmentSchema, ds[i]) == Ok(ds[i]) && DropNone(ds[i]) == ds[i]
    {
      DictValid(ms[i]);
    }
    PostResultsSpec(w, c, env, ds, IoSchemas.AlignmentSchema, clock);
  }

  /** An alignment dataset with a matrix validates to itself and has no None entry. */
  lemma DictValid(m: IoSchemas.NdArray)
    ensures IoSchemas.Validate(IoSchemas.AlignmentSchema, AlignmentDict(m)) == Ok(AlignmentDict(m))
    ensures DropNone(AlignmentDict(m)) == AlignmentDict(m)
  {
    var fs := IoSchemas.Fields(IoSchemas.AlignmentSchema);
    var d := AlignmentDict(m);
    var s := IoSchemas.AlignmentSchema;
    assert fs[4..][1..] == fs[5..] == [];
    assert fs[3..][1..] == fs[4..];
    assert fs[2..][1..] == fs[3..];
    assert fs[1..][1..] == fs[2..];
    var m4 := map["translation_matrix" := IoSchemas.Arr(m)];
    var m3 := m4["transform_matrix" := IoSchemas.Arr(m)];
    var m2 := m3["confidence" := IoSchemas.Reals([])];
    var m1 := m2["points2" := IoSchemas.ArrList([])];
    assert IoSchemas.ValidateFields(s, fs[4..], d) == Ok(m4);
    assert IoSchemas.ValidateFields(s, fs[3..], d) == Ok(m3);
    assert IoSchemas.ValidateFields(s, fs[2..], d) == Ok(m2);
    assert IoSchemas.ValidateFields(s, fs[1..], d) == Ok(m1);
    assert m1["points1" := IoSchemas.ArrList([])] == d;
    assert DropNone(d).Keys == d.Keys;
  }

  /**
   * The count preprocessing remembers is the one postprocessing checks: a
   * list of one matrix per adjacent pair of input images passes the check.
   */
  lemma CountCarriesOver(w: World, c: Ctx, env: Env, input: InputData, clock: Clock, ms: seq<IoSchemas.NdArray>)
    requires !w.runner.lockingAssets && !IsLocked(w.runner, CountName)
    requires IdsKey in input && forall i :: 0 <= i < |input[IdsKey]| ==>
      input[IdsKey][i] in w.data && ValidImageAt(w.data[input[IdsKey][i]])
    requires Preprocess(w, c, env, input, clock).1.Ok?
    requires |ms| == |input[IdsKey]| - 1
    ensures var (w1, x) := Preprocess(w, c, env, input, clock);
      var items := seq(|ms|, i requires 0 <= i < |ms| => Array(ms[i]));
      Postprocess(w1, c, env, List(items), clock) == PostResults(w1, c, env, OutputDicts(ms), IoSchemas.AlignmentSchema, clock)
  {
    Image2ImageRunner.PreprocessSpec(w, c, env, input, clock);
    var (w1, x) := Preprocess(w, c, env, input, clock);
    var items := seq(|ms|, i requires 0 <= i < |ms| => Array(ms[i]));
    assert Matrices(items) == ms;
  }
}
