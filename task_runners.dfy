/**
 * `runTasks` and its two runners. Each runner merges the options again,
 * calls the four set-up hooks of every task, executes, and calls the four
 * completion hooks. In parallel every task shares one fragment and receives
 * every visited node; in isolation task `ii` gets chamber `ii` and either its
 * own `execute` or a walk delivered to it alone.
 */
module TaskRunners {
  import opened Wrappers
  import opened Dom
  import opened JsValues
  import opened Externals
  import opened MergeOptions
  import opened NodeFilter
  import opened Lifecycle
  import opened Seqs

  /** preSetup, setup, postSetup and preExecute, one `forEach` each. */
  function PreRun(tasks: seq<JsValue>, isolated: bool): Run
  {
    Then(Then(Then(PhaseRun(tasks, PreSetup, isolated), PhaseRun(tasks, Setup, isolated)),
              PhaseRun(tasks, PostSetup, isolated)),
         PhaseRun(tasks, PreExecute, isolated))
  }

  /** postExecute, preComplete, complete and postComplete, one `forEach` each. */
  function PostRun(tasks: seq<JsValue>, isolated: bool): Run
  {
    Then(Then(Then(PhaseRun(tasks, PostExecute, isolated), PhaseRun(tasks, PreComplete, isolated)),
              PhaseRun(tasks, Complete, isolated)),
         PhaseRun(tasks, PostComplete, isolated))
  }

  /** The options `filterChildNodes(storyData)` merges: `{}` over the stored ones. */
  function FilterOptions(baseline: Options, env: Env): Result<Options, MergeError>
  {
    Merge(baseline, Object(map[]), env)
  }

  /** The filtered children of a chamber's `tw-storydata`, walked and delivered. */
  function WalkStoryData(tasks: seq<JsValue>, only: Option<nat>, sd: Node, filterOptions: Result<Options, MergeError>,
                         walker: Walker, env: Env): Run
    requires only.Some? ==> only.value < |tasks|
  {
    match FilterWith(DomNode(sd), filterOptions)
    case Failure(e) => Run([], Some(RunFilterFailed(e)))
    case Success(children) => WalkFrom(tasks, only, children, 0, walker, env)
  }

  /** The four set-up `forEach` statements. */
  method RunSetUp(tasks: seq<JsValue>, isolated: bool) returns (run: Run)
    ensures run == PreRun(tasks, isolated)
  {
    run := RunPhase(tasks, PreSetup, isolated);
    var next: Run;
    if run.error.None? { next := RunPhase(tasks, Setup, isolated); run := Then(run, next); }
    if run.error.None? { next := RunPhase(tasks, PostSetup, isolated); run := Then(run, next); }
    if run.error.None? { next := RunPhase(tasks, PreExecute, isolated); run := Then(run, next); }
  }

  /** The four completion `forEach` statements. */
  method RunCompletion(tasks: seq<JsValue>, isolated: bool) returns (run: Run)
    ensures run == PostRun(tasks, isolated)
  {
    run := RunPhase(tasks, PostExecute, isolated);
    var next: Run;
    if run.error.None? { next := RunPhase(tasks, PreComplete, isolated); run := Then(run, next); }
    if run.error.None? { next := RunPhase(tasks, Complete, isolated); run := Then(run, next); }
    if run.error.None? { next := RunPhase(tasks, PostComplete, isolated); run := Then(run, next); }
  }

  /** The walker a runner builds from its own merge's outcome; a failed merge never reaches the walk. */
  function MergedWalker(merged: Result<Options, MergeError>, taskOptions: Options): (r: Walker)
    ensures merged.Success? ==> r == WalkerOf(merged.value, taskOptions)
  {
    match merged
    case Success(copy) => WalkerOf(copy, taskOptions)
    case Failure(_) => Walker(RecurserOf(taskOptions), Undefined, Undefined, Object(taskOptions))
  }

  /** The parallel execute stage on the shared fragment (`undefined` when there is none). */
  function ParallelExecute(tasks: seq<JsValue>, fragment: Option<Fragment>, filterOptions: Result<Options, MergeError>,
                           walker: Walker, env: Env): Run
  {
    if fragment.None? then Run([], Some(FragmentMissing))
    else
      match QuerySelector(fragment.value, "tw-storydata")
      case None => Run([], Some(ParallelStoryDataInvalid))
      case Some(sd) => WalkStoryData(tasks, None, sd, filterOptions, walker, env)
  }

  /** `runTasksInParallel` once its own merge has produced `merged`. */
  function ParallelRunWith(tasks: seq<JsValue>, fragment: Option<Fragment>, merged: Result<Options, MergeError>,
                           filterOptions: Result<Options, MergeError>, taskOptions: Options, env: Env): Run
  {
    match merged
    case Failure(e) => Run([], Some(RunMergeFailed(e)))
    case Success(_) =>
      Then(Then(PreRun(tasks, false), ParallelExecute(tasks, fragment, filterOptions, MergedWalker(merged, taskOptions), env)),
           PostRun(tasks, false))
  }

  /** `runTasksInParallel`. */
  function ParallelRun(tasks: seq<JsValue>, fragment: Option<Fragment>, linterOptions: JsValue,
                       taskOptions: Options, baseline: Options, env: Env): Run
  {
    ParallelRunWith(tasks, fragment, Merge(baseline, linterOptions, env), FilterOptions(baseline, env), taskOptions, env)
  }

  /** Task `ii`'s execute step in isolation: `execute` if it has one, else a walk of its own chamber. */
  function ExecuteIsolated(tasks: seq<JsValue>, ii: nat, chambers: seq<Fragment>, filterOptions: Result<Options, MergeError>,
                           walker: Walker, env: Env): Run
    requires ii < |tasks|
  {
    if HasHook(tasks[ii], "execute") then Run([HookCall(Execute, ii, ii)], None)
    else if HasHook(tasks[ii], "executeMicrotask") then
      if ii >= |chambers| then Run([], Some(FragmentMissing))
      else
        match QuerySelector(chambers[ii], "tw-storydata")
        case None => Run([], Some(IsolationStoryDataInvalid))
        case Some(sd) => WalkStoryData(tasks, Some(ii), sd, filterOptions, walker, env)
    else Run([], Some(IsolationTaskInvalid))
  }

  /** The isolation execute `forEach`, from task `i` on. */
  function IsolatedFrom(tasks: seq<JsValue>, i: nat, chambers: seq<Fragment>, filterOptions: Result<Options, MergeError>,
                        walker: Walker, env: Env): Run
    requires i <= |tasks|
    decreases |tasks| - i
  {
    if i == |tasks| then Run([], None)
    else Then(ExecuteIsolated(tasks, i, chambers, filterOptions, walker, env),
              IsolatedFrom(tasks, i + 1, chambers, filterOptions, walker, env))
  }

  /** `runTasksInIsolation` once its own merge has produced `merged`. */
  function IsolationRunWith(tasks: seq<JsValue>, chambers: seq<Fragment>, merged: Result<Options, MergeError>,
                            filterOptions: Result<Options, MergeError>, taskOptions: Options, env: Env): Run
  {
    match merged
    case Failure(e) => Run([], Some(RunMergeFailed(e)))
    case Success(_) =>
      Then(Then(PreRun(tasks, true), IsolatedFrom(tasks, 0, chambers, filterOptions, MergedWalker(merged, taskOptions), env)),
           PostRun(tasks, true))
  }

  /** `runTasksInIsolation`. */
  function IsolationRun(tasks: seq<JsValue>, chambers: seq<Fragment>, linterOptions: JsValue,
                        taskOptions: Options, baseline: Options, env: Env): Run
  {
    IsolationRunWith(tasks, chambers, Merge(baseline, linterOptions, env), FilterOptions(baseline, env), taskOptions, env)
  }

  /** `runTasks`: merge, then isolation exactly when the merged `runInIsolation` is `true`. */
  function RunAll(tasks: seq<JsValue>, chambers: seq<Fragment>, linterOptions: JsValue,
                  taskOptions: Options, baseline: Options, env: Env): Run
  {
    match Merge(baseline, linterOptions, env)
    case Failure(e) => Run([], Some(RunMergeFailed(e)))
    case Success(copy) =>
      if Get(Object(copy), "runInIsolation") == Bool(true) then
        IsolationRun(tasks, chambers, Object(copy), taskOptions, baseline, env)
      else
        ParallelRun(tasks, if |chambers| > 0 then Some(chambers[0]) else None, Object(copy), taskOptions, baseline, env)
  }

  /** What a runner returns: the task array itself, or the error it threw. */
  function Outcome(tasks: seq<JsValue>, run: Run): (r: Result<seq<JsValue>, RunError>)
    ensures r.Success? <==> run.error.None?
    ensures r.Success? ==> r.value == tasks
    ensures r.Failure? ==> Some(r.error) == run.error
  {
    if run.error.Some? then Failure(run.error.value) else Success(tasks)
  }

  /** The parallel execute stage: find the story data, filter its children, walk them. */
  method ExecuteInParallel(tasks: seq<JsValue>, fragment: Option<Fragment>, baseline: Options,
                           walker: Walker, env: Env) returns (run: Run)
    ensures run == ParallelExecute(tasks, fragment, FilterOptions(baseline, env), walker, env)
  {
    if fragment.None? {
      return Run([], Some(FragmentMissing));
    }
    var storyData := QuerySelector(fragment.value, "tw-storydata");
    if storyData.None? {
      return Run([], Some(ParallelStoryDataInvalid));
    }
    var children := FilterChildNodes(DomNode(storyData.value), Object(map[]), baseline, env);
    if children.Failure? {
      return Run([], Some(RunFilterFailed(children.error)));
    }
    run := WalkChildren(tasks, None, children.value, walker, env);
  }

  method RunTasksInParallel(tasks: seq<JsValue>, fragment: Option<Fragment>, linterOptions: JsValue,
                            taskOptions: Options, baseline: Options, env: Env)
    returns (result: Result<seq<JsValue>, RunError>, trace: seq<Event>)
    ensures trace == ParallelRun(tasks, fragment, linterOptions, taskOptions, baseline, env).trace
    ensures result == Outcome(tasks, ParallelRun(tasks, fragment, linterOptions, taskOptions, baseline, env))
  {
    var merged := Merge(baseline, linterOptions, env);
    if merged.Failure? {
      return Failure(RunMergeFailed(merged.error)), [];
    }
    var run := RunSetUp(tasks, false);
    var next: Run;
    if run.error.None? { next := ExecuteInParallel(tasks, fragment, baseline, WalkerOf(merged.value, taskOptions), env); run := Then(run, next); }
    if run.error.None? { next := RunCompletion(tasks, false); run := Then(run, next); }
    return Outcome(tasks, run), run.trace;
  }

  /** Task `ii`'s step of the isolation execute `forEach`. */
  method ExecuteTaskInIsolation(tasks: seq<JsValue>, ii: nat, chambers: seq<Fragment>,
                                filterOptions: Result<Options, MergeError>,
                                walker: Walker, env: Env) returns (run: Run)
    requires ii < |tasks|
    ensures run == ExecuteIsolated(tasks, ii, chambers, filterOptions, walker, env)
  {
    if HasHook(tasks[ii], "execute") {
      return Run([HookCall(Execute, ii, ii)], None);
    } else if HasHook(tasks[ii], "executeMicrotask") {
      if ii >= |chambers| {
        return Run([], Some(FragmentMissing));
      }
      var storyData := QuerySelector(chambers[ii], "tw-storydata");
      if storyData.None? {
        return Run([], Some(IsolationStoryDataInvalid));
      }
      var children := FilterChildNodesWith(DomNode(storyData.value), filterOptions);
      if children.Failure? {
        return Run([], Some(RunFilterFailed(children.error)));
      }
      run := WalkChildren(tasks, Some(ii), children.value, walker, env);
    } else {
      return Run([], Some(IsolationTaskInvalid));
    }
  }

  /** The isolation execute `forEach` from task `ii` on: task `ii`'s step, then the rest. */
  lemma IsolatedFromStep(tasks: seq<JsValue>, ii: nat, chambers: seq<Fragment>, filterOptions: Result<Options, MergeError>,
                         walker: Walker, env: Env)
    requires ii < |tasks|
    ensures IsolatedFrom(tasks, ii, chambers, filterOptions, walker, env)
      == Then(ExecuteIsolated(tasks, ii, chambers, filterOptions, walker, env),
              IsolatedFrom(tasks, ii + 1, chambers, filterOptions, walker, env))
  {
  }

  /** One turn of the isolation `forEach`: stop at the task's error, or go on to the next task. */
  lemma IsolatedLoopStep(whole: Run, trace: seq<Event>, tasks: seq<JsValue>, ii: nat, chambers: seq<Fragment>,
                         filterOptions: Result<Options, MergeError>, walker: Walker, env: Env, step: Run)
    requires ii < |tasks|
    requires step == ExecuteIsolated(tasks, ii, chambers, filterOptions, walker, env)
    requires whole.trace == trace + IsolatedFrom(tasks, ii, chambers, filterOptions, walker, env).trace
    requires whole.error == IsolatedFrom(tasks, ii, chambers, filterOptions, walker, env).error
    ensures step.error.Some? ==> whole == Run(trace + step.trace, step.error)
    ensures step.error.None? ==>
      whole.trace == (trace + step.trace) + IsolatedFrom(tasks, ii + 1, chambers, filterOptions, walker, env).trace
    ensures step.error.None? ==>
      whole.error == IsolatedFrom(tasks, ii + 1, chambers, filterOptions, walker, env).error
  {
    IsolatedFromStep(tasks, ii, chambers, filterOptions, walker, env);
    ChainStep(whole, trace, step, IsolatedFrom(tasks, ii + 1, chambers, filterOptions, walker, env));
  }

  /**
   * The isolation execute `forEach`. Each task's `filterChildNodes(storyData, {})`
   * merges `{}` over the same stored options, so `filterOptions` is that merge's
   * outcome, the same for every task.
   */
  method ExecuteInIsolation(tasks: seq<JsValue>, chambers: seq<Fragment>, filterOptions: Result<Options, MergeError>,
                            walker: Walker, env: Env) returns (run: Run)
    ensures run == IsolatedFrom(tasks, 0, chambers, filterOptions, walker, env)
  {
    ghost var whole := IsolatedFrom(tasks, 0, chambers, filterOptions, walker, env);
    var trace: seq<Event> := [];
    var ii := 0;
    while ii < |tasks|
      invariant 0 <= ii <= |tasks|
      invariant whole.trace == trace + IsolatedFrom(tasks, ii, chambers, filterOptions, walker, env).trace
      invariant whole.error == IsolatedFrom(tasks, ii, chambers, filterOptions, walker, env).error
    {
      var step := ExecuteTaskInIsolation(tasks, ii, chambers, filterOptions, walker, env);
      IsolatedLoopStep(whole, trace, tasks, ii, chambers, filterOptions, walker, env, step);
      if step.error.Some? {
        return Run(trace + step.trace, step.error);
      }
      trace := trace + step.trace;
      ii := ii + 1;
    }
    AppendEmpty(trace);
    return Run(trace, None);
  }

  method RunTasksInIsolation(tasks: seq<JsValue>, chambers: seq<Fragment>, linterOptions: JsValue,
                             taskOptions: Options, baseline: Options, env: Env)
    returns (result: Result<seq<JsValue>, RunError>, trace: seq<Event>)
    ensures trace == IsolationRun(tasks, chambers, linterOptions, taskOptions, baseline, env).trace
    ensures result == Outcome(tasks, IsolationRun(tasks, chambers, linterOptions, taskOptions, baseline, env))
  {
    var merged := Merge(baseline, linterOptions, env);
    if merged.Failure? {
      return Failure(RunMergeFailed(merged.error)), [];
    }
    var run := RunSetUp(tasks, true);
    var next: Run;
    if run.error.None? {
      var filterOptions := Merge(baseline, Object(map[]), env);
      next := ExecuteInIsolation(tasks, chambers, filterOptions, WalkerOf(merged.value, taskOptions), env);
      run := Then(run, next);
    }
    if run.error.None? { next := RunCompletion(tasks, true); run := Then(run, next); }
    return Outcome(tasks, run), run.trace;
  }

  method RunTasks(tasks: seq<JsValue>, chambers: seq<Fragment>, linterOptions: JsValue,
                  taskOptions: Options, baseline: Options, env: Env)
    returns (result: Result<seq<JsValue>, RunError>, trace: seq<Event>)
    ensures trace == RunAll(tasks, chambers, linterOptions, taskOptions, baseline, env).trace
    ensures result == Outcome(tasks, RunAll(tasks, chambers, linterOptions, taskOptions, baseline, env))
  {
    var merged := Merge(baseline, linterOptions, env);
    if merged.Failure? {
      return Failure(RunMergeFailed(merged.error)), [];
    }
    var copy := merged.value;
    if Get(Object(copy), "runInIsolation") == Bool(true) {
      result, trace := RunTasksInIsolation(tasks, chambers, Object(copy), taskOptions, baseline, env);
    } else {
      var first := if |chambers| > 0 then Some(chambers[0]) else None;
      result, trace := RunTasksInParallel(tasks, first, Object(copy), taskOptions, baseline, env);
    }
  }
}
