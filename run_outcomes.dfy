/**
 * The complete call sequence of a run that does not throw, where each of
 * the runners' errors comes from, the node-by-node delivery of the parallel
 * walk, and how `runTasks` picks and feeds a runner.
 */
module RunOutcomes {
  import opened Wrappers
  import opened Dom
  import opened JsValues
  import opened Constants
  import opened Externals
  import opened MergeOptions
  import opened NodeFilter
  import opened TypeGuards
  import opened Lifecycle
  import opened TaskRunners
  import opened RunnerProperties

  /** Every task's preSetup, then every task's setup, postSetup and preExecute. */
  function SetUpEvents(isolated: bool, n: nat): seq<Event>
  {
    HookEvents(PreSetup, isolated, n) + HookEvents(Setup, isolated, n)
      + HookEvents(PostSetup, isolated, n) + HookEvents(PreExecute, isolated, n)
  }

  /** Every task's postExecute, then every task's preComplete, complete and postComplete. */
  function CompletionEvents(isolated: bool, n: nat): seq<Event>
  {
    HookEvents(PostExecute, isolated, n) + HookEvents(PreComplete, isolated, n)
      + HookEvents(Complete, isolated, n) + HookEvents(PostComplete, isolated, n)
  }

  predicate HasAll(tasks: seq<JsValue>, phase: Phase)
  {
    forall j :: 0 <= j < |tasks| ==> HasHook(tasks[j], HookName(phase))
  }

  lemma PhaseRunCompletes(tasks: seq<JsValue>, phase: Phase, isolated: bool)
    ensures PhaseRun(tasks, phase, isolated).error.None? <==> HasAll(tasks, phase)
    ensures PhaseRun(tasks, phase, isolated).error.None? ==>
      PhaseRun(tasks, phase, isolated).trace == HookEvents(phase, isolated, |tasks|)
    ensures PhaseRun(tasks, phase, isolated).error.Some? ==>
      PhaseRun(tasks, phase, isolated).error.value.HookNotAFunction?
  {
    PhaseRunShape(tasks, phase, isolated);
    var k := FirstMissing(tasks, HookName(phase), 0);
    if k == |tasks| {
      assert HasAll(tasks, phase);
    }
  }

  /** The set-up stage completes exactly when every task has all four set-up hooks, and then calls them all. */
  lemma SetUpShape(tasks: seq<JsValue>, isolated: bool)
    ensures PreRun(tasks, isolated).error.None? <==>
      HasAll(tasks, PreSetup) && HasAll(tasks, Setup) && HasAll(tasks, PostSetup) && HasAll(tasks, PreExecute)
    ensures PreRun(tasks, isolated).error.None? ==> PreRun(tasks, isolated).trace == SetUpEvents(isolated, |tasks|)
    ensures PreRun(tasks, isolated).error.Some? ==> PreRun(tasks, isolated).error.value.HookNotAFunction?
  {
    PhaseRunCompletes(tasks, PreSetup, isolated);
    PhaseRunCompletes(tasks, Setup, isolated);
    PhaseRunCompletes(tasks, PostSetup, isolated);
    PhaseRunCompletes(tasks, PreExecute, isolated);
  }

  /** The completion stage completes exactly when every task has all four completion hooks, and then calls them all. */
  lemma CompletionShape(tasks: seq<JsValue>, isolated: bool)
    ensures PostRun(tasks, isolated).error.None? <==>
      HasAll(tasks, PostExecute) && HasAll(tasks, PreComplete) && HasAll(tasks, Complete) && HasAll(tasks, PostComplete)
    ensures PostRun(tasks, isolated).error.None? ==> PostRun(tasks, isolated).trace == CompletionEvents(isolated, |tasks|)
    ensures PostRun(tasks, isolated).error.Some? ==> PostRun(tasks, isolated).error.value.HookNotAFunction?
  {
    PhaseRunCompletes(tasks, PostExecute, isolated);
    PhaseRunCompletes(tasks, PreComplete, isolated);
    PhaseRunCompletes(tasks, Complete, isolated);
    PhaseRunCompletes(tasks, PostComplete, isolated);
  }

  lemma ParallelRunWithSucceeds(tasks: seq<JsValue>, fragment: Option<Fragment>, merged: Result<Options, MergeError>,
                                filterOptions: Result<Options, MergeError>, taskOptions: Options, env: Env)
    requires ParallelRunWith(tasks, fragment, merged, filterOptions, taskOptions, env).error.None?
    ensures merged.Success?
    ensures ParallelRunWith(tasks, fragment, merged, filterOptions, taskOptions, env).trace
      == SetUpEvents(false, |tasks|) + ParallelExecute(tasks, fragment, filterOptions, MergedWalker(merged, taskOptions), env).trace
         + CompletionEvents(false, |tasks|)
  {
    SetUpShape(tasks, false);
    CompletionShape(tasks, false);
  }

  /**
   * A parallel run that does not throw calls, in order: every task's four
   * set-up hooks phase by phase, the execute stage's microtasks, and every
   * task's four completion hooks phase by phase.
   */
  lemma ParallelRunSucceeds(tasks: seq<JsValue>, fragment: Option<Fragment>, linterOptions: JsValue,
                            taskOptions: Options, baseline: Options, env: Env)
    requires ParallelRun(tasks, fragment, linterOptions, taskOptions, baseline, env).error.None?
    ensures Merge(baseline, linterOptions, env).Success?
    ensures ParallelRun(tasks, fragment, linterOptions, taskOptions, baseline, env).trace
      == SetUpEvents(false, |tasks|) + ParallelExecute(tasks, fragment, FilterOptions(baseline, env), MergedWalker(Merge(baseline, linterOptions, env), taskOptions), env).trace
         + CompletionEvents(false, |tasks|)
  {
    ParallelRunWithSucceeds(tasks, fragment, Merge(baseline, linterOptions, env), FilterOptions(baseline, env), taskOptions, env);
  }

  lemma IsolationRunWithSucceeds(tasks: seq<JsValue>, chambers: seq<Fragment>, merged: Result<Options, MergeError>,
                                 filterOptions: Result<Options, MergeError>, taskOptions: Options, env: Env)
    requires IsolationRunWith(tasks, chambers, merged, filterOptions, taskOptions, env).error.None?
    ensures merged.Success?
    ensures IsolationRunWith(tasks, chambers, merged, filterOptions, taskOptions, env).trace
      == SetUpEvents(true, |tasks|) + IsolatedFrom(tasks, 0, chambers, filterOptions, MergedWalker(merged, taskOptions), env).trace
         + CompletionEvents(true, |tasks|)
    ensures forall k :: 0 <= k < |tasks| && HasHook(tasks[k], "execute") ==>
      HookCall(Execute, k, k) in IsolatedFrom(tasks, 0, chambers, filterOptions, MergedWalker(merged, taskOptions), env).trace
  {
    SetUpShape(tasks, true);
    CompletionShape(tasks, true);
    forall k | 0 <= k < |tasks| && HasHook(tasks[k], "execute")
      ensures HookCall(Execute, k, k) in IsolatedFrom(tasks, 0, chambers, filterOptions, MergedWalker(merged, taskOptions), env).trace
    {
      IsolatedExecuteCalled(tasks, 0, chambers, filterOptions, MergedWalker(merged, taskOptions), env, k);
    }
  }

  /**
   * An isolation run that does not throw calls every task's four set-up
   * hooks phase by phase (task `ii` with chamber `ii`), then the execute
   * stage, in which every task that has `execute` gets it called, then the
   * four completion hooks phase by phase.
   */
  lemma IsolationRunSucceeds(tasks: seq<JsValue>, chambers: seq<Fragment>, linterOptions: JsValue,
                             taskOptions: Options, baseline: Options, env: Env)
    requires IsolationRun(tasks, chambers, linterOptions, taskOptions, baseline, env).error.None?
    ensures Merge(baseline, linterOptions, env).Success?
    ensures IsolationRun(tasks, chambers, linterOptions, taskOptions, baseline, env).trace
      == SetUpEvents(true, |tasks|) + IsolatedFrom(tasks, 0, chambers, FilterOptions(baseline, env), MergedWalker(Merge(baseline, linterOptions, env), taskOptions), env).trace
         + CompletionEvents(true, |tasks|)
    ensures forall k :: 0 <= k < |tasks| && HasHook(tasks[k], "execute") ==>
      HookCall(Execute, k, k) in IsolationRun(tasks, chambers, linterOptions, taskOptions, baseline, env).trace
  {
    IsolationRunWithSucceeds(tasks, chambers, Merge(baseline, linterOptions, env), FilterOptions(baseline, env), taskOptions, env);
  }

  lemma ParallelStoryDataWith(tasks: seq<JsValue>, fragment: Option<Fragment>, merged: Result<Options, MergeError>,
                              filterOptions: Result<Options, MergeError>, taskOptions: Options, env: Env)
    ensures ParallelRunWith(tasks, fragment, merged, filterOptions, taskOptions, env).error == Some(ParallelStoryDataInvalid)
      <==> merged.Success? && PreRun(tasks, false).error.None? && fragment.Some?
           && QuerySelector(fragment.value, "tw-storydata").None?
    ensures ParallelRunWith(tasks, fragment, merged, filterOptions, taskOptions, env).error == Some(ParallelStoryDataInvalid)
      ==> ParallelRunWith(tasks, fragment, merged, filterOptions, taskOptions, env).trace == SetUpEvents(false, |tasks|)
  {
    if merged.Success? {
      SetUpShape(tasks, false);
      CompletionShape(tasks, false);
      ParallelExecuteStoryDataInvalid(tasks, fragment, filterOptions, MergedWalker(merged, taskOptions), env);
      MiddleStageError(PreRun(tasks, false), ParallelExecute(tasks, fragment, filterOptions, MergedWalker(merged, taskOptions), env),
                       PostRun(tasks, false), ParallelStoryDataInvalid);
    }
  }

  /** Of three chained stages, only the middle one raises `e` when the other two never do. */
  lemma MiddleStageError(pre: Run, x: Run, post: Run, e: RunError)
    requires pre.error.Some? ==> pre.error.value != e
    requires post.error.Some? ==> post.error.value != e
    ensures Then(Then(pre, x), post).error == Some(e) <==> pre.error.None? && x.error == Some(e)
    ensures Then(Then(pre, x), post).error == Some(e) ==> Then(Then(pre, x), post).trace == pre.trace + x.trace
  {
  }

  /** The parallel execute stage raises its story-data error exactly when the fragment has no `tw-storydata`, calling nothing. */
  lemma ParallelExecuteStoryDataInvalid(tasks: seq<JsValue>, fragment: Option<Fragment>,
                                        filterOptions: Result<Options, MergeError>, walker: Walker, env: Env)
    ensures ParallelExecute(tasks, fragment, filterOptions, walker, env).error == Some(ParallelStoryDataInvalid)
      <==> fragment.Some? && QuerySelector(fragment.value, "tw-storydata").None?
    ensures ParallelExecute(tasks, fragment, filterOptions, walker, env).error == Some(ParallelStoryDataInvalid)
      ==> ParallelExecute(tasks, fragment, filterOptions, walker, env).trace == []
  {
    if fragment.Some? {
      match QuerySelector(fragment.value, "tw-storydata")
      case None =>
      case Some(sd) =>
        match FilterWith(DomNode(sd), filterOptions)
        case Failure(_) =>
        case Success(children) =>
          WalkEvents(tasks, None, children, 0, walker, env);
    }
  }

  /**
   * The parallel runner throws its story-data error exactly when the merge
   * and the set-up stage succeed and the fragment holds no `tw-storydata`
   * element; by then it has called every set-up hook and nothing else.
   */
  lemma ParallelStoryDataInvalidWhen(tasks: seq<JsValue>, fragment: Option<Fragment>, linterOptions: JsValue,
                                     taskOptions: Options, baseline: Options, env: Env)
    ensures ParallelRun(tasks, fragment, linterOptions, taskOptions, baseline, env).error == Some(ParallelStoryDataInvalid)
      <==> Merge(baseline, linterOptions, env).Success? && PreRun(tasks, false).error.None? && fragment.Some?
           && QuerySelector(fragment.value, "tw-storydata").None?
    ensures ParallelRun(tasks, fragment, linterOptions, taskOptions, baseline, env).error == Some(ParallelStoryDataInvalid)
      ==> ParallelRun(tasks, fragment, linterOptions, taskOptions, baseline, env).trace == SetUpEvents(false, |tasks|)
  {
    ParallelStoryDataWith(tasks, fragment, Merge(baseline, linterOptions, env), FilterOptions(baseline, env), taskOptions, env);
  }

  lemma IsolationTaskInvalidWith(tasks: seq<JsValue>, chambers: seq<Fragment>, merged: Result<Options, MergeError>,
                                 filterOptions: Result<Options, MergeError>, taskOptions: Options, env: Env)
    requires IsolationRunWith(tasks, chambers, merged, filterOptions, taskOptions, env).error == Some(IsolationTaskInvalid)
    ensures merged.Success? && PreRun(tasks, true).error.None?
    ensures SetUpEvents(true, |tasks|) <= IsolationRunWith(tasks, chambers, merged, filterOptions, taskOptions, env).trace
    ensures exists k :: 0 <= k < |tasks| && !HasHook(tasks[k], "execute") && !HasHook(tasks[k], "executeMicrotask")
  {
    SetUpShape(tasks, true);
    CompletionShape(tasks, true);
    MiddleStageError(PreRun(tasks, true), IsolatedFrom(tasks, 0, chambers, filterOptions, MergedWalker(merged, taskOptions), env),
                     PostRun(tasks, true), IsolationTaskInvalid);
    IsolatedTaskInvalid(tasks, 0, chambers, filterOptions, MergedWalker(merged, taskOptions), env);
    var k := FirstHookless(tasks, 0);
    assert !HasHook(tasks[k], "execute") && !HasHook(tasks[k], "executeMicrotask");
  }

  /**
   * The isolation runner's task-invalid error is thrown only after every
   * set-up hook of every task has been called, and only when some task has
   * neither `execute` nor `executeMicrotask`.
   */
  lemma IsolationTaskInvalidAfterSetUp(tasks: seq<JsValue>, chambers: seq<Fragment>, linterOptions: JsValue,
                                       taskOptions: Options, baseline: Options, env: Env)
    requires IsolationRun(tasks, chambers, linterOptions, taskOptions, baseline, env).error == Some(IsolationTaskInvalid)
    ensures SetUpEvents(true, |tasks|) <= IsolationRun(tasks, chambers, linterOptions, taskOptions, baseline, env).trace
    ensures exists k :: 0 <= k < |tasks| && !HasHook(tasks[k], "execute") && !HasHook(tasks[k], "executeMicrotask")
  {
    IsolationTaskInvalidWith(tasks, chambers, Merge(baseline, linterOptions, env), FilterOptions(baseline, env), taskOptions, env);
  }

  /** Every task's microtask for each visited node in turn: the reference for the parallel callback. */
  function NodeDeliveries(n: nat, visited: seq<Visit>, passageName: JsValue): seq<Event>
  {
    if visited == [] then []
    else MicrotaskEvents(n, visited[0], passageName) + NodeDeliveries(n, visited[1..], passageName)
  }

  /** The deliveries for each child in turn, each with that child's passage name. */
  function ChildDeliveries(n: nat, children: seq<JsValue>, walker: Walker, env: Env): seq<Event>
  {
    if children == [] then []
    else NodeDeliveries(n, env.recurse(walker, children[0]), PassageNameFor(children[0]))
         + ChildDeliveries(n, children[1..], walker, env)
  }

  predicate AllHaveMicrotask(tasks: seq<JsValue>)
  {
    forall j :: 0 <= j < |tasks| ==> HasHook(tasks[j], "executeMicrotask")
  }

  lemma {:induction false} VisitDelivers(tasks: seq<JsValue>, visited: seq<Visit>, i: nat, passageName: JsValue)
    requires AllHaveMicrotask(tasks)
    requires i <= |visited|
    decreases |visited| - i
    ensures VisitFrom(tasks, None, visited, i, passageName) == Run(NodeDeliveries(|tasks|, visited[i..], passageName), None)
  {
    if i < |visited| {
      FanOutShape(tasks, visited[i], passageName);
      VisitDelivers(tasks, visited, i + 1, passageName);
      assert visited[i..][1..] == visited[i + 1..];
    }
  }

  lemma {:induction false} WalkDelivers(tasks: seq<JsValue>, children: seq<JsValue>, i: nat, walker: Walker, env: Env)
    requires AllHaveMicrotask(tasks)
    requires i <= |children|
    decreases |children| - i
    ensures WalkFrom(tasks, None, children, i, walker, env) == Run(ChildDeliveries(|tasks|, children[i..], walker, env), None)
  {
    if i < |children| {
      VisitDelivers(tasks, env.recurse(walker, children[i]), 0, PassageNameFor(children[i]));
      WalkDelivers(tasks, children, i + 1, walker, env);
      assert env.recurse(walker, children[i])[0..] == env.recurse(walker, children[i]);
      assert children[i..][1..] == children[i + 1..];
    }
  }

  /**
   * When every task has `executeMicrotask`, the parallel execute stage on a
   * fragment whose story data filters to `children` does not throw and makes
   * exactly the calls of `ChildDeliveries`: for each child in order, for
   * each node the recurser visits, every task's microtask in task order,
   * with the child's passage name.
   */
  lemma ParallelExecuteDelivers(tasks: seq<JsValue>, fragment: Fragment, filterOptions: Result<Options, MergeError>,
                                walker: Walker, env: Env, sd: Node, children: seq<JsValue>)
    requires AllHaveMicrotask(tasks)
    requires QuerySelector(fragment, "tw-storydata") == Some(sd)
    requires FilterWith(DomNode(sd), filterOptions) == Success(children)
    ensures ParallelExecute(tasks, Some(fragment), filterOptions, walker, env)
      == Run(ChildDeliveries(|tasks|, children, walker, env), None)
  {
    WalkDelivers(tasks, children, 0, walker, env);
    assert children[0..] == children;
  }

  /**
   * `runTasks` runs in isolation when the argument sets `runInIsolation` to
   * `true`, and in parallel on the first chamber when neither the argument
   * nor the stored options set it.
   */
  lemma RunTasksDispatch(tasks: seq<JsValue>, chambers: seq<Fragment>, linterOptions: JsValue,
                         taskOptions: Options, baseline: Options, env: Env)
    requires Merge(baseline, linterOptions, env).Success?
    ensures var copy := Merge(baseline, linterOptions, env).value;
      HasKey(ArgsObject(linterOptions), "runInIsolation") && Get(ArgsObject(linterOptions), "runInIsolation") == Bool(true)
      ==> RunAll(tasks, chambers, linterOptions, taskOptions, baseline, env)
          == IsolationRun(tasks, chambers, Object(copy), taskOptions, baseline, env)
    ensures var copy := Merge(baseline, linterOptions, env).value;
      !HasKey(ArgsObject(linterOptions), "runInIsolation") && "runInIsolation" !in baseline
      ==> RunAll(tasks, chambers, linterOptions, taskOptions, baseline, env)
          == ParallelRun(tasks, if |chambers| > 0 then Some(chambers[0]) else None, Object(copy), taskOptions, baseline, env)
  {
    var copy := Merge(baseline, linterOptions, env).value;
    IsolationChoice(baseline, linterOptions, env);
    assert RunAll(tasks, chambers, linterOptions, taskOptions, baseline, env)
      == if Get(Object(copy), "runInIsolation") == Bool(true)
         then IsolationRun(tasks, chambers, Object(copy), taskOptions, baseline, env)
         else ParallelRun(tasks, if |chambers| > 0 then Some(chambers[0]) else None, Object(copy), taskOptions, baseline, env);
  }

  /** The merged `runInIsolation` is `true` when the argument sets it so, and `false` when nobody sets it. */
  lemma IsolationChoice(baseline: Options, linterOptions: JsValue, env: Env)
    requires Merge(baseline, linterOptions, env).Success?
    ensures var copy := Merge(baseline, linterOptions, env).value;
      HasKey(ArgsObject(linterOptions), "runInIsolation") && Get(ArgsObject(linterOptions), "runInIsolation") == Bool(true)
      ==> Get(Object(copy), "runInIsolation") == Bool(true)
    ensures var copy := Merge(baseline, linterOptions, env).value;
      !HasKey(ArgsObject(linterOptions), "runInIsolation") && "runInIsolation" !in baseline
      ==> Get(Object(copy), "runInIsolation") == Bool(false)
  {
    MergePrecedence(baseline, linterOptions, env, RunInIsolation);
  }

  /**
   * `runTasks` merges the options it is given, and each runner merges that
   * result again as its argument: when the merged `ignores` does not pass
   * the ignores guard, the second merge throws before any task is called.
   */
  lemma RunTasksRejectsUnguardedIgnores(tasks: seq<JsValue>, chambers: seq<Fragment>, linterOptions: JsValue,
                                        taskOptions: Options, baseline: Options, env: Env)
    requires Merge(baseline, linterOptions, env).Success?
    requires "ignores" in Merge(baseline, linterOptions, env).value
    requires IsIIgnores(Merge(baseline, linterOptions, env).value["ignores"]) != Some(true)
    ensures RunAll(tasks, chambers, linterOptions, taskOptions, baseline, env).error.Some?
    ensures RunAll(tasks, chambers, linterOptions, taskOptions, baseline, env).error.value.RunMergeFailed?
    ensures RunAll(tasks, chambers, linterOptions, taskOptions, baseline, env).trace == []
  {
    var copy := Merge(baseline, linterOptions, env).value;
    RemergeFailsOnUnguardedIgnores(copy, baseline, env);
    RunnersRefuseFailedMerge(tasks, chambers, Object(copy), taskOptions, baseline, env);
    assert RunAll(tasks, chambers, linterOptions, taskOptions, baseline, env)
      == if Get(Object(copy), "runInIsolation") == Bool(true)
         then IsolationRun(tasks, chambers, Object(copy), taskOptions, baseline, env)
         else ParallelRun(tasks, if |chambers| > 0 then Some(chambers[0]) else None, Object(copy), taskOptions, baseline, env);
  }

  /** Both runners throw their merge error before calling any task when their own merge fails. */
  lemma RunnersRefuseFailedMerge(tasks: seq<JsValue>, chambers: seq<Fragment>, linterOptions: JsValue,
                                 taskOptions: Options, baseline: Options, env: Env)
    requires Merge(baseline, linterOptions, env).Failure?
    ensures var e := Merge(baseline, linterOptions, env).error;
      IsolationRun(tasks, chambers, linterOptions, taskOptions, baseline, env) == Run([], Some(RunMergeFailed(e)))
    ensures var e := Merge(baseline, linterOptions, env).error;
      forall fragment :: ParallelRun(tasks, fragment, linterOptions, taskOptions, baseline, env) == Run([], Some(RunMergeFailed(e)))
  {
  }

  /**
   * With `ignores` in neither the argument nor the stored options, the
   * merged options carry the default ignores, which fail the ignores guard:
   * such a `runTasks` throws before calling any task.
   */
  lemma RunTasksRejectsDefaultIgnores(tasks: seq<JsValue>, chambers: seq<Fragment>, linterOptions: JsValue,
                                      taskOptions: Options, baseline: Options, env: Env)
    requires Merge(baseline, linterOptions, env).Success?
    requires !HasKey(ArgsObject(linterOptions), "ignores") && "ignores" !in baseline
    ensures RunAll(tasks, chambers, linterOptions, taskOptions, baseline, env).error.Some?
    ensures RunAll(tasks, chambers, linterOptions, taskOptions, baseline, env).trace == []
  {
    DefaultIgnoresStored(baseline, linterOptions, env);
    DefaultIgnoresFailGuard();
    RunTasksRejectsUnguardedIgnores(tasks, chambers, linterOptions, taskOptions, baseline, env);
  }

}
