/**
 * `BaseRunner.run`: the status is set to RUNNING, then preprocessing,
 * inference and postprocessing run one after another, each followed by a
 * log update; the ids postprocessing returns mark the task completed. The
 * first exception anywhere marks the task failed and is raised again.
 *
 * A Runner's stages are its own hooks or, where it has none, the defaults
 * of its class. User hooks are modelled as functions of their input.
 */
module RunnerExecution {
  import opened Wrappers
  import opened TaskRecords
  import opened Runners
  import opened Stages
  import IoSchemas
  import TaskHandling
  import Image2ImageRunner
  import Image2SegmentationRunner
  import Image2AlignmentRunner

  /** The runner classes a Runner derives from. */
  datatype Kind = Generic | ImageToImage | ImageToSegmentation | ImageToAlignment

  /** The class attribute `algorithm_type`. */
  function AlgorithmType(k: Kind): string
  {
    match k
    case Generic => "Generic"
    case ImageToImage => Image2ImageRunner.AlgorithmType
    case ImageToSegmentation => Image2SegmentationRunner.AlgorithmType
    case ImageToAlignment => Image2AlignmentRunner.AlgorithmType
  }

  /** The stages a Runner overrides; an absent one is its class's default. */
  datatype Hooks = Hooks(
    kind: Kind,
    preprocess: Option<InputData -> Result<Obj>>,
    inference: Option<Obj -> Result<Obj>>,
    postprocess: Option<Obj -> Result<seq<string>>>)

  /** The handler calls and stages of a run, in the order they happen. */
  datatype Call = SetRunning | Preprocess | Inference | Postprocess | UpdateLog | Completed(ids: seq<string>) | MarkFailed

  /** The world after a run, the exception it raised, and what it did. */
  datatype Outcome = Outcome(w: World, raised: Option<Exc>, calls: seq<Call>)

  const NoHandler: string := "Task handler is not set."

  // ---------------------------------------------------------------- the stages

  function PreStage(w: World, c: Ctx, env: Env, hooks: Hooks, input: InputData, clock: Clock): (World, Result<Obj>)
  {
    match hooks.preprocess
    case Some(f) => (w, f(input))
    case None =>
      match hooks.kind
      case Generic => (w, Err(NotImplementedError))
      case ImageToImage => Image2ImageRunner.Preprocess(w, c, env, input, clock)
      case ImageToSegmentation => Image2SegmentationRunner.Preprocess(w, c, env, input, clock)
      case ImageToAlignment => Image2AlignmentRunner.Preprocess(w, c, env, input, clock)
  }

  function InferStage(hooks: Hooks, x: Obj): Result<Obj>
  {
    match hooks.inference
    case Some(f) => f(x)
    case None => Err(NotImplementedError)
  }

  function PostStage(w: World, c: Ctx, env: Env, hooks: Hooks, y: Obj, clock: Clock): (World, Result<seq<string>>)
  {
    match hooks.postprocess
    case Some(f) => (w, f(y))
    case None =>
      match hooks.kind
      case Generic => (w, Err(NotImplementedError))
      case ImageToImage => Image2ImageRunner.Postprocess(w, c, env, y, clock)
      case ImageToSegmentation => Image2SegmentationRunner.Postprocess(w, c, env, y, clock)
      case ImageToAlignment => Image2AlignmentRunner.Postprocess(w, c, env, y, clock)
  }

  // ---------------------------------------------------------------- the run

  /** The `except` branch: `mark_as_failed`, then the exception is raised again. */
  function Abort(w: World, c: Ctx, env: Env, calls: seq<Call>, e: Exc): Outcome
  {
    var (w1, x) := Failure(w, c, env, e);
    Outcome(w1, Some(x), calls + [MarkFailed])
  }

  function Then(calls: seq<Call>, o: Outcome): Outcome
  {
    o.(calls := calls + o.calls)
  }

  function WithLog(w: World, c: Ctx, env: Env): (World, Option<Exc>)
  {
    var (h1, err) := AfterWrite(w.h, c, LogTo(env.logText));
    (w.(h := h1), err)
  }

  /** `run`, with the handler set. */
  function RunSpec(w: World, c: Ctx, env: Env, hooks: Hooks, input: InputData, clock: Clock): Outcome
  {
    var (h1, err) := AfterSetStatus(w.h, c, "RUNNING");
    var w1 := w.(h := h1);
    if err.Some? then Abort(w1, c, env, [SetRunning], err.value)
    else Then([SetRunning], FromPre(w1, c, env, hooks, input, clock))
  }

  function FromPre(w: World, c: Ctx, env: Env, hooks: Hooks, input: InputData, clock: Clock): Outcome
  {
    var (w1, x) := PreStage(w, c, env, hooks, input, clock);
    AfterPre(w1, c, env, hooks, x, clock)
  }

  /** What follows preprocessing, given its result. */
  function AfterPre(w1: World, c: Ctx, env: Env, hooks: Hooks, x: Result<Obj>, clock: Clock): Outcome
  {
    if x.Err? then Abort(w1, c, env, [Preprocess], x.exc)
    else
      var (w2, err) := WithLog(w1, c, env);
      if err.Some? then Abort(w2, c, env, [Preprocess, UpdateLog], err.value)
      else Then([Preprocess, UpdateLog], FromInfer(w2, c, env, hooks, x.value, clock))
  }

  function FromInfer(w: World, c: Ctx, env: Env, hooks: Hooks, x: Obj, clock: Clock): Outcome
  {
    AfterInfer(w, c, env, hooks, InferStage(hooks, x), clock)
  }

  /** What follows inference, given its result. */
  function AfterInfer(w: World, c: Ctx, env: Env, hooks: Hooks, y: Result<Obj>, clock: Clock): Outcome
  {
    if y.Err? then Abort(w, c, env, [Inference], y.exc)
    else
      var (w1, err) := WithLog(w, c, env);
      if err.Some? then Abort(w1, c, env, [Inference, UpdateLog], err.value)
      else Then([Inference, UpdateLog], FromPost(w1, c, env, hooks, y.value, clock))
  }

  function FromPost(w: World, c: Ctx, env: Env, hooks: Hooks, y: Obj, clock: Clock): Outcome
  {
    var (w1, ids) := PostStage(w, c, env, hooks, y, clock);
    AfterPost(w1, c, env, ids)
  }

  /** What follows postprocessing, given its result. */
  function AfterPost(w1: World, c: Ctx, env: Env, ids: Result<seq<string>>): Outcome
  {
    if ids.Err? then Abort(w1, c, env, [Postprocess], ids.exc)
    else
      var (w2, err) := WithLog(w1, c, env);
      if err.Some? then Abort(w2, c, env, [Postprocess, UpdateLog], err.value)
      else Then([Postprocess, UpdateLog], Finish(w2, c, env, ids.value))
  }

  function Finish(w: World, c: Ctx, env: Env, ids: seq<string>): Outcome
  {
    var (h1, err) := AfterCompleted(w.h, c, ids, env);
    var w1 := w.(h := h1);
    if err.Some? then Abort(w1, c, env, [Completed(ids)], err.value)
    else Outcome(w1, None, [Completed(ids)])
  }

  // ---------------------------------------------------------------- the methods

  method Run(th: TaskHandling.TaskHandler?, runner: BaseRunner, hooks: Hooks, input: InputData, clock: Clock, env: Env)
    returns (raised: Option<Exc>, ghost calls: seq<Call>)
    requires runner.Valid() && runner.Idle() && (th != null ==> th.Valid())
    modifies runner, if th == null then {} else {th, th.db}
    ensures th == null ==> raised == Some(ValueError(NoHandler)) && calls == [] && unchanged(runner)
    ensures th != null ==> th.Valid() && runner.Valid() && runner.Idle()
    ensures th != null ==>
      Outcome(WorldOf(th, runner), raised, calls) == RunSpec(old(WorldOf(th, runner)), th.Context(), env, hooks, input, clock)
  {
    if th == null {
      return Some(ValueError(NoHandler)), [];
    }
    var err := th.SetStatus("RUNNING");
    if err.Some? {
      var x := FailStep(th, runner, env, err.value);
      return Some(x), [SetRunning, MarkFailed];
    }
    raised, calls := RunFromPre(th, runner, hooks, input, clock, env);
    calls := [SetRunning] + calls;
  }

  method LogStep(th: TaskHandling.TaskHandler, runner: BaseRunner, env: Env) returns (err: Option<Exc>)
    requires th.Valid()
    modifies th, th.db
    ensures th.Valid() && (WorldOf(th, runner), err) == WithLog(old(WorldOf(th, runner)), th.Context(), env)
  {
    err := th.UpdateLog(env);
  }

  method PreStep(th: TaskHandling.TaskHandler, runner: BaseRunner, hooks: Hooks, input: InputData, clock: Clock, env: Env)
    returns (r: Result<Obj>)
    requires th.Valid() && runner.Valid() && runner.Idle()
    modifies th, th.db, runner
    ensures th.Valid() && runner.Valid() && runner.Idle()
    ensures (WorldOf(th, runner), r) == PreStage(old(WorldOf(th, runner)), th.Context(), env, hooks, input, clock)
  {
    if hooks.preprocess.Some? {
      return hooks.preprocess.value(input);
    }
    match hooks.kind
    case Generic => r := Err(NotImplementedError);
    case ImageToImage => r := Image2ImageRunner.PreprocessStep(th, runner, input, clock, env);
    case ImageToSegmentation => r := Image2SegmentationRunner.PreprocessStep(th, runner, input, clock, env);
    case ImageToAlignment => r := Image2ImageRunner.PreprocessStep(th, runner, input, clock, env);
  }

  method PostStep(th: TaskHandling.TaskHandler, runner: BaseRunner, hooks: Hooks, y: Obj, clock: Clock, env: Env)
    returns (r: Result<seq<string>>)
    requires th.Valid()
    modifies th, th.db
    ensures th.Valid() && (WorldOf(th, runner), r) == PostStage(old(WorldOf(th, runner)), th.Context(), env, hooks, y, clock)
  {
    if hooks.postprocess.Some? {
      return hooks.postprocess.value(y);
    }
    match hooks.kind
    case Generic => r := Err(NotImplementedError);
    case ImageToImage => r := Image2ImageRunner.PostprocessStep(th, runner, y, clock, env);
    case ImageToSegmentation => r := Image2SegmentationRunner.PostprocessStep(th, runner, y, clock, env);
    case ImageToAlignment => r := Image2AlignmentRunner.PostprocessStep(th, runner, y, clock, env);
  }

  method RunFromPre(th: TaskHandling.TaskHandler, runner: BaseRunner, hooks: Hooks, input: InputData, clock: Clock, env: Env)
    returns (raised: Option<Exc>, ghost calls: seq<Call>)
    requires th.Valid() && runner.Valid() && runner.Idle()
    modifies th, th.db, runner
    ensures th.Valid() && runner.Valid() && runner.Idle()
    ensures Outcome(WorldOf(th, runner), raised, calls) == FromPre(old(WorldOf(th, runner)), th.Context(), env, hooks, input, clock)
  {
    var x := PreStep(th, runner, hooks, input, clock, env);
    if x.Err? {
      var e := FailStep(th, runner, env, x.exc);
      return Some(e), [Preprocess, MarkFailed];
    }
    var err := LogStep(th, runner, env);
    if err.Some? {
      var e := FailStep(th, runner, env, err.value);
      return Some(e), [Preprocess, UpdateLog, MarkFailed];
    }
    raised, calls := RunFromInfer(th, runner, hooks, x.value, clock, env);
    calls := [Preprocess, UpdateLog] + calls;
  }

  method RunFromInfer(th: TaskHandling.TaskHandler, runner: BaseRunner, hooks: Hooks, x: Obj, clock: Clock, env: Env)
    returns (raised: Option<Exc>, ghost calls: seq<Call>)
    requires th.Valid()
    modifies th, th.db
    ensures th.Valid() && Outcome(WorldOf(th, runner), raised, calls) == FromInfer(old(WorldOf(th, runner)), th.Context(), env, hooks, x, clock)
  {
    var y := InferStage(hooks, x);
    if y.Err? {
      var e := FailStep(th, runner, env, y.exc);
      return Some(e), [Inference, MarkFailed];
    }
    var err := LogStep(th, runner, env);
    if err.Some? {
      var e := FailStep(th, runner, env, err.value);
      return Some(e), [Inference, UpdateLog, MarkFailed];
    }
    raised, calls := RunFromPost(th, runner, hooks, y.value, clock, env);
    calls := [Inference, UpdateLog] + calls;
  }

  method RunFromPost(th: TaskHandling.TaskHandler, runner: BaseRunner, hooks: Hooks, y: Obj, clock: Clock, env: Env)
    returns (raised: Option<Exc>, ghost calls: seq<Call>)
    requires th.Valid()
    modifies th, th.db
    ensures th.Valid() && Outcome(WorldOf(th, runner), raised, calls) == FromPost(old(WorldOf(th, runner)), th.Context(), env, hooks, y, clock)
  {
    var ids := PostStep(th, runner, hooks, y, clock, env);
    if ids.Err? {
      var e := FailStep(th, runner, env, ids.exc);
      return Some(e), [Postprocess, MarkFailed];
    }
    var err := LogStep(th, runner, env);
    if err.Some? {
      var e := FailStep(th, runner, env, err.value);
      return Some(e), [Postprocess, UpdateLog, MarkFailed];
    }
    raised, calls := FinishStep(th, runner, ids.value, env);
    calls := [Postprocess, UpdateLog] + calls;
  }

  /** `mark_as_completed(ids)`, which fails the task when it raises. */
  method FinishStep(th: TaskHandling.TaskHandler, runner: BaseRunner, ids: seq<string>, env: Env)
    returns (raised: Option<Exc>, ghost calls: seq<Call>)
    requires th.Valid()
    modifies th, th.db
    ensures th.Valid() && Outcome(WorldOf(th, runner), raised, calls) == Finish(old(WorldOf(th, runner)), th.Context(), env, ids)
  {
    var err := th.MarkAsCompleted(ids, env);
    if err.Some? {
      var e := FailStep(th, runner, env, err.value);
      return Some(e), [Completed(ids), MarkFailed];
    }
    return None, [Completed(ids)];
  }

  // ---------------------------------------------------------------- properties

  /** The handler calls of a run that raises nothing, in order; the eighth is `mark_as_completed`. */
  const Pipeline: seq<Call> := [SetRunning, Preprocess, UpdateLog, Inference, UpdateLog, Postprocess, UpdateLog]

  predicate StepFits(j: nat, call: Call)
  {
    if j < 7 then call == Pipeline[j] else j == 7 && call.Completed?
  }

  /** `cs` are the calls of the pipeline from its step `k` on. */
  predicate Fits(cs: seq<Call>, k: nat)
  {
    forall i :: 0 <= i < |cs| ==> StepFits(k + i, cs[i])
  }

  /**
   * The calls of a run entered at step `k`: the rest of the pipeline when
   * nothing is raised; otherwise a part of it cut short and then
   * `mark_as_failed`.
   */
  predicate Shape(o: Outcome, k: nat)
  {
    (o.raised.None? ==> k + |o.calls| == 8 && Fits(o.calls, k))
    && (o.raised.Some? ==>
          o.calls != [] && o.calls[|o.calls| - 1] == MarkFailed && k + |o.calls| <= 9 && Fits(o.calls[..|o.calls| - 1], k))
  }

  lemma AbortShape(w: World, c: Ctx, env: Env, cs: seq<Call>, e: Exc, k: nat)
    requires Fits(cs, k) && k + |cs| <= 8
    ensures Shape(Abort(w, c, env, cs, e), k)
  {
    var o := Abort(w, c, env, cs, e);
    assert o.calls[..|o.calls| - 1] == cs;
  }

  lemma ThenShape(cs: seq<Call>, o: Outcome, k: nat)
    requires Fits(cs, k) && Shape(o, k + |cs|)
    ensures Shape(Then(cs, o), k)
  {
    var o2 := Then(cs, o);
    if o.raised.Some? {
      assert o2.calls[..|o2.calls| - 1] == cs + o.calls[..|o.calls| - 1];
    }
  }

  lemma FinishShape(w: World, c: Ctx, env: Env, ids: seq<string>)
    ensures Shape(Finish(w, c, env, ids), 7)
  {
    if AfterCompleted(w.h, c, ids, env).1.Some? {
      AbortShape(w.(h := AfterCompleted(w.h, c, ids, env).0), c, env, [Completed(ids)], AfterCompleted(w.h, c, ids, env).1.value, 7);
    }
  }

  lemma FromPostShape(w: World, c: Ctx, env: Env, hooks: Hooks, y: Obj, clock: Clock)
    ensures Shape(FromPost(w, c, env, hooks, y, clock), 5)
  {
    var (w1, ids) := PostStage(w, c, env, hooks, y, clock);
    AfterPostShape(w1, c, env, ids);
  }

  lemma AfterPostShape(w1: World, c: Ctx, env: Env, ids: Result<seq<string>>)
    ensures Shape(AfterPost(w1, c, env, ids), 5)
  {
    if ids.Err? {
      AbortShape(w1, c, env, [Postprocess], ids.exc, 5);
    } else {
      var (w2, err) := WithLog(w1, c, env);
      if err.Some? {
        AbortShape(w2, c, env, [Postprocess, UpdateLog], err.value, 5);
      } else {
        LoggedPostShape(w2, c, env, ids.value);
      }
    }
  }

  lemma LoggedPostShape(w2: World, c: Ctx, env: Env, ids: seq<string>)
    ensures Shape(Then([Postprocess, UpdateLog], Finish(w2, c, env, ids)), 5)
  {
    FinishShape(w2, c, env, ids);
    ThenShape([Postprocess, UpdateLog], Finish(w2, c, env, ids), 5);
  }

  lemma FromInferShape(w: World, c: Ctx, env: Env, hooks: Hooks, x: Obj, clock: Clock)
    ensures Shape(FromInfer(w, c, env, hooks, x, clock), 3)
  {
    AfterInferShape(w, c, env, hooks, InferStage(hooks, x), clock);
  }

  lemma AfterInferShape(w: World, c: Ctx, env: Env, hooks: Hooks, y: Result<Obj>, clock: Clock)
    ensures Shape(AfterInfer(w, c, env, hooks, y, clock), 3)
  {
    if y.Err? {
      AbortShape(w, c, env, [Inference], y.exc, 3);
    } else {
      var (w1, err) := WithLog(w, c, env);
      if err.Some? {
        AbortShape(w1, c, env, [Inference, UpdateLog], err.value, 3);
      } else {
        InferThenPostShape(w1, c, env, hooks, y.value, clock);
      }
    }
  }

  lemma InferThenPostShape(w: World, c: Ctx, env: Env, hooks: Hooks, y: Obj, clock: Clock)
    ensures Shape(Then([Inference, UpdateLog], FromPost(w, c, env, hooks, y, clock)), 3)
  {
    FromPostShape(w, c, env, hooks, y, clock);
    ThenShape([Inference, UpdateLog], FromPost(w, c, env, hooks, y, clock), 3);
  }

  lemma FromPreShape(w: World, c: Ctx, env: Env, hooks: Hooks, input: InputData, clock: Clock)
    ensures Shape(FromPre(w, c, env, hooks, input, clock), 1)
  {
    var (w1, x) := PreStage(w, c, env, hooks, input, clock);
    AfterPreShape(w1, c, env, hooks, x, clock);
  }

  lemma AfterPreShape(w1: World, c: Ctx, env: Env, hooks: Hooks, x: Result<Obj>, clock: Clock)
    ensures Shape(AfterPre(w1, c, env, hooks, x, clock), 1)
  {
    if x.Err? {
      AbortShape(w1, c, env, [Preprocess], x.exc, 1);
    } else {
      var (w2, err) := WithLog(w1, c, env);
      if err.Some? {
        AbortShape(w2, c, env, [Preprocess, UpdateLog], err.value, 1);
      } else {
        FromInferShape(w2, c, env, hooks, x.value, clock);
        ThenShape([Preprocess, UpdateLog], FromInfer(w2, c, env, hooks, x.value, clock), 1);
      }
    }
  }

  /**
   * Every run makes its calls in pipeline order: status RUNNING, then each
   * stage followed by a log update, then `mark_as_completed`. A run that
   * raises stops at the first failing call and then calls `mark_as_failed`
   * exactly once, at the end; a run that raises nothing makes all eight
   * calls and never calls `mark_as_failed`.
   */
  lemma RunOrder(w: World, c: Ctx, env: Env, hooks: Hooks, input: InputData, clock: Clock)
    ensures var o := RunSpec(w, c, env, hooks, input, clock);
      (o.raised.None? ==> |o.calls| == 8 && Fits(o.calls, 0) && MarkFailed !in o.calls)
      && (o.raised.Some? ==> 2 <= |o.calls| <= 9 && o.calls[|o.calls| - 1] == MarkFailed && Fits(o.calls[..|o.calls| - 1], 0))
  {
    var (h1, err) := AfterSetStatus(w.h, c, "RUNNING");
    var w1 := w.(h := h1);
    var o := RunSpec(w, c, env, hooks, input, clock);
    if err.Some? {
      AbortShape(w1, c, env, [SetRunning], err.value, 0);
    } else {
      FromPreShape(w1, c, env, hooks, input, clock);
      ThenShape([SetRunning], FromPre(w1, c, env, hooks, input, clock), 0);
    }
    if o.raised.None? {
      assert forall i :: 0 <= i < |o.calls| ==> StepFits(i, o.calls[i]);
    }
    if o.raised.Some? {
      assert o.calls[0] == SetRunning;
    }
  }

  /** The record is there to update and the log sink is still registered. */
  predicate Live(h: HState, c: Ctx)
  {
    Present(h, c) && h.local.sinkOpen
  }

  /** The handler and the record after `mark_as_completed(ids)`. */
  predicate Done(h: HState, c: Ctx, ids: seq<string>)
  {
    Present(h, c) && h.local.status == "COMPLETED" && h.local.outputIds == Some(ids) && h.local.progress == 1.0
    && !h.local.sinkOpen
    && h.store.byId[c.taskId].status == "COMPLETED" && h.store.byId[c.taskId].outputIds == ids
    && h.store.byId[c.taskId].progress == 1.0
  }

  /** A run that raises nothing ends with `mark_as_completed` and its effect. */
  predicate EndsCompleted(o: Outcome, c: Ctx)
  {
    o.raised.None? ==> o.calls != [] && o.calls[|o.calls| - 1].Completed? && Done(o.w.h, c, o.calls[|o.calls| - 1].ids)
  }

  lemma WriteLive(h: HState, c: Ctx, u: Update)
    requires Live(h, c)
    ensures AfterWrite(h, c, u).1.None? && Live(AfterWrite(h, c, u).0, c)
  {
  }

  /** A default stage that succeeds has left the record alone. */
  lemma PreKeepsRecord(w: World, c: Ctx, env: Env, hooks: Hooks, input: InputData, clock: Clock)
    ensures var (w1, x) := PreStage(w, c, env, hooks, input, clock); x.Ok? ==> w1.h == w.h
  {
  }

  lemma PostKeepsRecord(w: World, c: Ctx, env: Env, hooks: Hooks, y: Obj, clock: Clock)
    ensures var (w1, ids) := PostStage(w, c, env, hooks, y, clock); ids.Ok? ==> w1.h == w.h
  {
  }

  lemma FinishDone(w: World, c: Ctx, env: Env, ids: seq<string>)
    requires Live(w.h, c)
    ensures EndsCompleted(Finish(w, c, env, ids), c)
  {
    CompletedOutcome(w.h, c, ids, env);
  }

  lemma ThenDone(cs: seq<Call>, o: Outcome, c: Ctx)
    requires EndsCompleted(o, c)
    ensures EndsCompleted(Then(cs, o), c)
  {
  }

  lemma FromPostDone(w: World, c: Ctx, env: Env, hooks: Hooks, y: Obj, clock: Clock)
    requires Live(w.h, c)
    ensures EndsCompleted(FromPost(w, c, env, hooks, y, clock), c)
  {
    var (w1, ids) := PostStage(w, c, env, hooks, y, clock);
    PostKeepsRecord(w, c, env, hooks, y, clock);
    if ids.Ok? {
      WriteLive(w1.h, c, LogTo(env.logText));
      var (w2, _) := WithLog(w1, c, env);
      FinishDone(w2, c, env, ids.value);
      ThenDone([Postprocess, UpdateLog], Finish(w2, c, env, ids.value), c);
    }
  }

  lemma FromInferDone(w: World, c: Ctx, env: Env, hooks: Hooks, x: Obj, clock: Clock)
    requires Live(w.h, c)
    ensures EndsCompleted(FromInfer(w, c, env, hooks, x, clock), c)
  {
    var y := InferStage(hooks, x);
    if y.Ok? {
      WriteLive(w.h, c, LogTo(env.logText));
      var (w1, _) := WithLog(w, c, env);
      FromPostDone(w1, c, env, hooks, y.value, clock);
      ThenDone([Inference, UpdateLog], FromPost(w1, c, env, hooks, y.value, clock), c);
    }
  }

  lemma FromPreDone(w: World, c: Ctx, env: Env, hooks: Hooks, input: InputData, clock: Clock)
    requires Live(w.h, c)
    ensures EndsCompleted(FromPre(w, c, env, hooks, input, clock), c)
  {
    var (w1, x) := PreStage(w, c, env, hooks, input, clock);
    PreKeepsRecord(w, c, env, hooks, input, clock);
    if x.Ok? {
      WriteLive(w1.h, c, LogTo(env.logText));
      var (w2, _) := WithLog(w1, c, env);
      FromInferDone(w2, c, env, hooks, x.value, clock);
      ThenDone([Preprocess, UpdateLog], FromInfer(w2, c, env, hooks, x.value, clock), c);
    }
  }

  /**
   * With the record present, a run that raises nothing has handed the ids
   * its postprocessing returned to `mark_as_completed`: the handler and the
   * record read COMPLETED with progress 1.0 and exactly those output ids,
   * and the log sink is gone.
   */
  lemma CompletedRun(w: World, c: Ctx, env: Env, hooks: Hooks, input: InputData, clock: Clock)
    requires Live(w.h, c)
    ensures var o := RunSpec(w, c, env, hooks, input, clock);
      o.raised.None? ==> |o.calls| == 8 && o.calls[7].Completed? && Done(o.w.h, c, o.calls[7].ids)
  {
    RunOrder(w, c, env, hooks, input, clock);
    WriteLive(w.h, c, StatusTo("RUNNING"));
    var w1 := w.(h := AfterSetStatus(w.h, c, "RUNNING").0);
    FromPreDone(w1, c, env, hooks, input, clock);
    ThenDone([SetRunning], FromPre(w1, c, env, hooks, input, clock), c);
  }

  /** `mark_as_failed` with the record present and the sink registered: FAILED everywhere, the exception passes. */
  lemma AbortLive(w: World, c: Ctx, env: Env, cs: seq<Call>, e: Exc)
    requires Live(w.h, c)
    ensures var o := Abort(w, c, env, cs, e);
      o.raised == Some(e) && o.calls == cs + [MarkFailed] && o.w == w.(h := o.w.h)
      && Present(o.w.h, c) && o.w.h.local.status == "FAILED" && o.w.h.store.byId[c.taskId].status == "FAILED"
  {
    FailurePassesThrough(w.h, c, env, e);
  }

  /**
   * A Runner's own preprocessing that raises ends the run at once: the task
   * is marked FAILED in the handler and the record, and the very exception
   * is raised again; nothing was fetched, posted or set on the runner.
   */
  lemma PreprocessHookFails(w: World, c: Ctx, env: Env, hooks: Hooks, input: InputData, clock: Clock)
    requires Live(w.h, c)
    requires hooks.preprocess.Some? && hooks.preprocess.value(input).Err?
    ensures var o := RunSpec(w, c, env, hooks, input, clock);
      o.raised == Some(hooks.preprocess.value(input).exc) && o.calls == [SetRunning, Preprocess, MarkFailed]
      && o.w.data == w.data && o.w.runner == w.runner
      && Present(o.w.h, c) && o.w.h.local.status == "FAILED" && o.w.h.store.byId[c.taskId].status == "FAILED"
  {
    WriteLive(w.h, c, StatusTo("RUNNING"));
    var w1 := w.(h := AfterSetStatus(w.h, c, "RUNNING").0);
    AbortLive(w1, c, env, [Preprocess], hooks.preprocess.value(input).exc);
  }

  /**
   * An inference that raises (the default one raises NotImplementedError)
   * skips postprocessing and completion: the task is marked FAILED and the
   * exception is raised again.
   */
  lemma InferenceFails(w: World, c: Ctx, env: Env, hooks: Hooks, x: Obj, clock: Clock)
    requires Live(w.h, c) && InferStage(hooks, x).Err?
    ensures var o := FromInfer(w, c, env, hooks, x, clock);
      o.raised == Some(InferStage(hooks, x).exc) && o.calls == [Inference, MarkFailed]
      && o.w.data == w.data && o.w.runner == w.runner
      && Present(o.w.h, c) && o.w.h.local.status == "FAILED" && o.w.h.store.byId[c.taskId].status == "FAILED"
    ensures hooks.inference.None? ==> FromInfer(w, c, env, hooks, x, clock).raised == Some(NotImplementedError)
  {
    AbortLive(w, c, env, [Inference], InferStage(hooks, x).exc);
  }

  /**
   * A default preprocessing whose fetch fails has already been through the
   * handler's own failure path, which removed the log sink; the failure
   * path of `run` then tries to remove it again, so the run raises the
   * logger's complaint about the missing sink instead of the fetch error.
   */
  lemma FetchFailureMasked(w: World, c: Ctx, env: Env, hooks: Hooks, input: InputData, clock: Clock, i: nat)
    requires Live(w.h, c)
    requires hooks.preprocess.None? && !hooks.kind.Generic?
    requires IdsKey in input && i < |input[IdsKey]| && input[IdsKey][i] !in w.data
    ensures var o := RunSpec(w, c, env, hooks, input, clock);
      o.raised == Some(ValueError(NoHandlerMessage(c.sinkId))) && o.calls == [SetRunning, Preprocess, MarkFailed]
      && Present(o.w.h, c) && o.w.h.local.status == "FAILED" && o.w.h.store.byId[c.taskId].status == "FAILED"
  {
    WriteLive(w.h, c, StatusTo("RUNNING"));
    var w1 := w.(h := AfterSetStatus(w.h, c, "RUNNING").0);
    var ids := input[IdsKey];
    FetchSpec(w1.data, ids, IoSchemas.ImageSchema, [ImageKey]);
    var e := Fetch(w1.data, ids, IoSchemas.ImageSchema, [ImageKey]).exc;
    FailurePassesThrough(w1.h, c, env, e);
    var (h2, x) := AfterFailure(w1.h, c, env, e);
    var w2 := w1.(h := h2);
    assert PreStage(w1, c, env, hooks, input, clock) == (w2, Err(x));
    FailurePassesThrough(h2, c, env, x);
  }

  // ---------------------------------------------------------------- progress and log messages

  /** The argument handed to `set_progress`: a float, or anything else. */
  datatype ProgressArg = Float(x: real) | NotFloat

  const NotFloatMessage: string := "Progress must be a float."
  const RangeMessage: string := "Progress must be between 0 and 1."
  const LevelMessage: string := "Invalid logging level provided."
  const Levels: set<string> := {"INFO", "WARNING", "ERROR", "DEBUG"}

  /** The Runner's own checks of `set_progress`, made before the handler is looked up. */
  function ProgressCheck(p: ProgressArg): (r: Option<Exc>)
    ensures r.None? <==> p.Float? && 0.0 <= p.x <= 1.0
    ensures !p.Float? ==> r == Some(ValueError(NotFloatMessage))
    ensures p.Float? && r.Some? ==> r == Some(ValueError(RangeMessage))
  {
    if !p.Float? then Some(ValueError(NotFloatMessage))
    else if p.x < 0.0 || p.x > 1.0 then Some(ValueError(RangeMessage))
    else None
  }

  /**
   * `set_progress`: a value that is not a float in [0, 1] is refused with
   * nothing touched; otherwise the handler's `progress` is set, or the
   * missing handler is reported.
   */
  method SetProgress(th: TaskHandling.TaskHandler?, p: ProgressArg) returns (err: Option<Exc>)
    requires th != null ==> th.Valid()
    modifies if th == null then {} else {th, th.db}
    ensures ProgressCheck(p).Some? ==> err == ProgressCheck(p) && (th != null ==> th.H() == old(th.H()))
    ensures ProgressCheck(p).None? && th == null ==> err == Some(ValueError(NoHandler))
    ensures th != null ==> th.Valid() && th.Aside() == old(th.Aside()) && th.db.Others() == old(th.db.Others())
    ensures ProgressCheck(p).None? && th != null ==> (th.H(), err) == AfterWrite(old(th.H()), th.Context(), ProgressTo(p.x))
  {
    err := ProgressCheck(p);
    if err.Some? {
      return;
    }
    if th == null {
      return Some(ValueError(NoHandler));
    }
    err := th.SetProgress(p.x);
  }

  /**
   * The Runner's range check is the handler's own: a float the Runner lets
   * through is never refused by the `progress` setter, and one it refuses
   * the setter would have refused too, with its own message.
   */
  lemma ProgressChecksAgree(h: HState, c: Ctx, x: real)
    ensures ProgressCheck(Float(x)).None? ==> AfterSetProgress(h, c, x) == AfterWrite(h, c, ProgressTo(x))
    ensures ProgressCheck(Float(x)).Some? ==> AfterSetProgress(h, c, x) == (h, Some(ValueError(ProgressMessage)))
  {
  }

  /**
   * `log_message`: an unknown level is refused whether or not a handler is
   * set; a known level needs the handler, whose logger receives the message.
   */
  function LogMessage(hasHandler: bool, level: string): (r: Option<Exc>)
    ensures r.None? <==> level in Levels && hasHandler
    ensures level !in Levels ==> r == Some(ValueError(LevelMessage))
    ensures level in Levels && !hasHandler ==> r == Some(ValueError(NoHandler))
  {
    if level == "INFO" || level == "WARNING" || level == "ERROR" || level == "DEBUG" then
      (if hasHandler then None else Some(ValueError(NoHandler)))
    else Some(ValueError(LevelMessage))
  }
}
