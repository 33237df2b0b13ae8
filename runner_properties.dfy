/**
 * What the runners guarantee about the calls they make: which kinds of call
 * each stage makes and into which chamber, the phase order, the complete
 * call sequence of a run that does not throw, and where each error can come
 * from.
 */
module RunnerProperties {
  import opened Wrappers
  import opened Dom
  import opened JsValues
  import opened Externals
  import opened MergeOptions
  import opened NodeFilter
  import opened TypeGuards
  import opened Lifecycle
  import opened TaskRunners

  /** A microtask call, delivered into the shared fragment or only to task `only` in its own chamber. */
  predicate Delivered(e: Event, only: Option<nat>)
  {
    e.MicrotaskCall?
    && (only.None? ==> e.chamber == 0)
    && (only.Some? ==> e.task == only.value && e.chamber == only.value)
  }

  lemma {:induction false} FanOutEvents(tasks: seq<JsValue>, i: nat, visit: Visit, passageName: JsValue)
    requires i <= |tasks|
    decreases |tasks| - i
    ensures forall e :: e in FanOutFrom(tasks, i, visit, passageName).trace ==>
      Delivered(e, None) && e.visit == visit && e.passageName == passageName
    ensures FanOutFrom(tasks, i, visit, passageName).error.Some? ==>
      FanOutFrom(tasks, i, visit, passageName).error.value.MicrotaskNotAFunction?
  {
    if i < |tasks| && HasHook(tasks[i], "executeMicrotask") {
      FanOutEvents(tasks, i + 1, visit, passageName);
    }
  }

  lemma {:induction false} VisitEvents(tasks: seq<JsValue>, only: Option<nat>, visited: seq<Visit>, i: nat, passageName: JsValue)
    requires i <= |visited|
    requires only.Some? ==> only.value < |tasks|
    decreases |visited| - i
    ensures forall e :: e in VisitFrom(tasks, only, visited, i, passageName).trace ==>
      Delivered(e, only) && e.passageName == passageName && e.visit in visited[i..]
    ensures VisitFrom(tasks, only, visited, i, passageName).error.Some? ==>
      only.None? && VisitFrom(tasks, only, visited, i, passageName).error.value.MicrotaskNotAFunction?
  {
    if i < |visited| {
      if only.None? {
        FanOutEvents(tasks, 0, visited[i], passageName);
      }
      VisitEvents(tasks, only, visited, i + 1, passageName);
      assert visited[i] in visited[i..];
      assert forall v :: v in visited[i + 1..] ==> v in visited[i..];
    }
  }

  /**
   * Every `executeMicrotask` call of a child's walk passes on a node, format,
   * version and options the recurser handed its callback, the recurser having
   * been given the merged `format` and `version` and the task options.
   */
  lemma WalkChildPassesVisits(tasks: seq<JsValue>, only: Option<nat>, child: JsValue, walker: Walker, env: Env)
    requires only.Some? ==> only.value < |tasks|
    ensures forall e :: e in WalkChild(tasks, only, child, walker, env).trace ==>
      Delivered(e, only) && e.visit in env.recurse(walker, child) && e.passageName == PassageNameFor(child)
  {
    var visited := env.recurse(walker, child);
    VisitEvents(tasks, only, visited, 0, PassageNameFor(child));
    assert visited[0..] == visited;
  }

  /**
   * A walk makes only microtask calls, into chamber 0 for all tasks in
   * parallel or into task `only`'s chamber for task `only` alone; only a
   * parallel walk can throw, and only because a task lacks `executeMicrotask`.
   */
  lemma {:induction false} WalkEvents(tasks: seq<JsValue>, only: Option<nat>, children: seq<JsValue>, i: nat,
                                      walker: Walker, env: Env)
    requires i <= |children|
    requires only.Some? ==> only.value < |tasks|
    decreases |children| - i
    ensures forall e :: e in WalkFrom(tasks, only, children, i, walker, env).trace ==> Delivered(e, only)
    ensures WalkFrom(tasks, only, children, i, walker, env).error.Some? ==>
      only.None? && WalkFrom(tasks, only, children, i, walker, env).error.value.MicrotaskNotAFunction?
  {
    if i < |children| {
      VisitEvents(tasks, only, env.recurse(walker, children[i]), 0, PassageNameFor(children[i]));
      WalkEvents(tasks, only, children, i + 1, walker, env);
    }
  }

  /** A phase calls only its own hook, each task with the chamber it is given, and throws only for a missing hook. */
  lemma PhaseEvents(tasks: seq<JsValue>, phase: Phase, isolated: bool)
    ensures forall e :: e in PhaseRun(tasks, phase, isolated).trace ==>
      e.HookCall? && e.phase == phase && e.task < |tasks| && e.chamber == ChamberFor(e.task, isolated)
    ensures PhaseRun(tasks, phase, isolated).error.Some? ==>
      PhaseRun(tasks, phase, isolated).error.value.HookNotAFunction?
  {
    PhaseRunShape(tasks, phase, isolated);
    var t := PhaseRun(tasks, phase, isolated).trace;
    forall e | e in t
      ensures e.HookCall? && e.phase == phase && e.task < |tasks| && e.chamber == ChamberFor(e.task, isolated)
    {
      var j :| 0 <= j < |t| && t[j] == e;
    }
  }

  /** Task `ii`'s execute step calls only into chamber `ii` on behalf of task `ii`, and calls `execute` exactly when it has one. */
  lemma ExecuteIsolatedEvents(tasks: seq<JsValue>, ii: nat, chambers: seq<Fragment>,
                              filterOptions: Result<Options, MergeError>, walker: Walker, env: Env)
    requires ii < |tasks|
    ensures var r := ExecuteIsolated(tasks, ii, chambers, filterOptions, walker, env);
      (forall e :: e in r.trace ==> EventPhase(e) == Execute && e.task == ii && e.chamber == ii)
      && (forall e :: e in r.trace ==> (e.HookCall? <==> HasHook(tasks[ii], "execute")))
      && (HookCall(Execute, ii, ii) in r.trace <==> HasHook(tasks[ii], "execute"))
      && (r.error == Some(IsolationTaskInvalid) <==>
            !HasHook(tasks[ii], "execute") && !HasHook(tasks[ii], "executeMicrotask"))
      && (r.error.Some? ==> !r.error.value.HookNotAFunction? && !r.error.value.MicrotaskNotAFunction?
                            && !r.error.value.ParallelStoryDataInvalid? && !r.error.value.RunMergeFailed?)
  {
    if !HasHook(tasks[ii], "execute") && HasHook(tasks[ii], "executeMicrotask") && ii < |chambers| {
      match QuerySelector(chambers[ii], "tw-storydata")
      case None =>
      case Some(sd) =>
        match FilterWith(DomNode(sd), filterOptions)
        case Failure(_) =>
        case Success(children) =>
          WalkEvents(tasks, Some(ii), children, 0, walker, env);
    }
  }

  /**
   * The isolation execute `forEach` from task `i` on: each task's calls go
   * into its own chamber, and a task makes a hook call (its `execute`)
   * exactly when it has `execute`, so it then receives no microtask.
   */
  lemma {:induction false} IsolatedEvents(tasks: seq<JsValue>, i: nat, chambers: seq<Fragment>,
                                          filterOptions: Result<Options, MergeError>, walker: Walker, env: Env)
    requires i <= |tasks|
    decreases |tasks| - i
    ensures forall e :: e in IsolatedFrom(tasks, i, chambers, filterOptions, walker, env).trace ==>
      EventPhase(e) == Execute && e.chamber == e.task && i <= e.task < |tasks|
      && (e.HookCall? <==> HasHook(tasks[e.task], "execute"))
    ensures var err := IsolatedFrom(tasks, i, chambers, filterOptions, walker, env).error;
      err.Some? ==> !err.value.HookNotAFunction? && !err.value.MicrotaskNotAFunction?
                    && !err.value.ParallelStoryDataInvalid? && !err.value.RunMergeFailed?
  {
    if i < |tasks| {
      ExecuteIsolatedEvents(tasks, i, chambers, filterOptions, walker, env);
      IsolatedEvents(tasks, i + 1, chambers, filterOptions, walker, env);
    }
  }

  /** Task `ii`'s execute step fails as task-invalid exactly when the task has neither hook, and never with the other stages' errors. */
  lemma ExecuteIsolatedError(tasks: seq<JsValue>, ii: nat, chambers: seq<Fragment>,
                             filterOptions: Result<Options, MergeError>, walker: Walker, env: Env)
    requires ii < |tasks|
    ensures var r := ExecuteIsolated(tasks, ii, chambers, filterOptions, walker, env);
      (r.error == Some(IsolationTaskInvalid) <==>
         !HasHook(tasks[ii], "execute") && !HasHook(tasks[ii], "executeMicrotask"))
      && (r.error.Some? ==> !r.error.value.HookNotAFunction? && !r.error.value.MicrotaskNotAFunction?
                            && !r.error.value.ParallelStoryDataInvalid? && !r.error.value.RunMergeFailed?)
  {
    if !HasHook(tasks[ii], "execute") && HasHook(tasks[ii], "executeMicrotask") && ii < |chambers| {
      match QuerySelector(chambers[ii], "tw-storydata")
      case None =>
      case Some(sd) =>
        match FilterWith(DomNode(sd), filterOptions)
        case Failure(_) =>
        case Success(children) =>
          WalkEvents(tasks, Some(ii), children, 0, walker, env);
    }
  }

  /** The first task from `i` on with neither `execute` nor `executeMicrotask`, or `|tasks|` when there is none. */
  function FirstHookless(tasks: seq<JsValue>, i: nat): (r: nat)
    requires i <= |tasks|
    decreases |tasks| - i
    ensures i <= r <= |tasks|
    ensures r < |tasks| ==> !HasHook(tasks[r], "execute") && !HasHook(tasks[r], "executeMicrotask")
    ensures forall k :: i <= k < r ==> HasHook(tasks[k], "execute") || HasHook(tasks[k], "executeMicrotask")
  {
    if i == |tasks| || (!HasHook(tasks[i], "execute") && !HasHook(tasks[i], "executeMicrotask")) then i
    else FirstHookless(tasks, i + 1)
  }

  /** In isolation, the task-invalid error names a task with neither `execute` nor `executeMicrotask`. */
  lemma {:induction false} IsolatedTaskInvalid(tasks: seq<JsValue>, i: nat, chambers: seq<Fragment>,
                                               filterOptions: Result<Options, MergeError>, walker: Walker, env: Env)
    requires i <= |tasks|
    requires IsolatedFrom(tasks, i, chambers, filterOptions, walker, env).error == Some(IsolationTaskInvalid)
    decreases |tasks| - i
    ensures FirstHookless(tasks, i) < |tasks|
  {
    IsolatedInvalidStep(tasks, i, chambers, filterOptions, walker, env);
    if FirstHookless(tasks, i) != i {
      IsolatedTaskInvalid(tasks, i + 1, chambers, filterOptions, walker, env);
    }
  }

  /**
   * The task-invalid error from task `i` on is task `i`'s own, and then task
   * `i` has neither hook, or else it comes from task `i + 1` on and task `i`
   * has a hook.
   */
  lemma IsolatedInvalidStep(tasks: seq<JsValue>, i: nat, chambers: seq<Fragment>,
                            filterOptions: Result<Options, MergeError>, walker: Walker, env: Env)
    requires i <= |tasks|
    requires IsolatedFrom(tasks, i, chambers, filterOptions, walker, env).error == Some(IsolationTaskInvalid)
    ensures i < |tasks|
    ensures FirstHookless(tasks, i) == i
            || (IsolatedFrom(tasks, i + 1, chambers, filterOptions, walker, env).error == Some(IsolationTaskInvalid)
                && FirstHookless(tasks, i) == FirstHookless(tasks, i + 1))
  {
    ExecuteIsolatedError(tasks, i, chambers, filterOptions, walker, env);
  }

  /** When the isolation execute `forEach` completes, every task that has `execute` had it called. */
  lemma {:induction false} IsolatedExecuteCalled(tasks: seq<JsValue>, i: nat, chambers: seq<Fragment>,
                                                 filterOptions: Result<Options, MergeError>, walker: Walker, env: Env,
                                                 k: nat)
    requires i <= k < |tasks|
    requires IsolatedFrom(tasks, i, chambers, filterOptions, walker, env).error.None?
    requires HasHook(tasks[k], "execute")
    decreases |tasks| - i
    ensures HookCall(Execute, k, k) in IsolatedFrom(tasks, i, chambers, filterOptions, walker, env).trace
  {
    var x := ExecuteIsolated(tasks, i, chambers, filterOptions, walker, env);
    var rest := IsolatedFrom(tasks, i + 1, chambers, filterOptions, walker, env);
    assert IsolatedFrom(tasks, i, chambers, filterOptions, walker, env).trace == x.trace + rest.trace;
    if k > i {
      IsolatedExecuteCalled(tasks, i + 1, chambers, filterOptions, walker, env, k);
      assert HookCall(Execute, k, k) in rest.trace;
    } else {
      assert x.trace == [HookCall(Execute, k, k)];
    }
  }

  /** No two calls out of phase order: a later call never belongs to an earlier phase. */
  predicate PhaseOrdered(t: seq<Event>)
  {
    forall i, j :: 0 <= i < j < |t| ==> PhaseIndex(EventPhase(t[i])) <= PhaseIndex(EventPhase(t[j]))
  }

  predicate NoLaterThan(t: seq<Event>, p: Phase)
  {
    forall e :: e in t ==> PhaseIndex(EventPhase(e)) <= PhaseIndex(p)
  }

  predicate WithinPhase(t: seq<Event>, p: Phase)
  {
    forall e :: e in t ==> EventPhase(e) == p
  }

  lemma ThenOrdered(r1: Run, p1: Phase, r2: Run, p2: Phase)
    requires PhaseOrdered(r1.trace) && NoLaterThan(r1.trace, p1)
    requires WithinPhase(r2.trace, p2) && PhaseIndex(p1) <= PhaseIndex(p2)
    ensures PhaseOrdered(Then(r1, r2).trace) && NoLaterThan(Then(r1, r2).trace, p2)
  {
    if r1.error.None? {
      var t := r1.trace + r2.trace;
      forall i, j | 0 <= i < j < |t|
        ensures PhaseIndex(EventPhase(t[i])) <= PhaseIndex(EventPhase(t[j]))
      {
        if j < |r1.trace| {
          assert t[i] == r1.trace[i] && t[j] == r1.trace[j];
        } else if i >= |r1.trace| {
          assert t[i] == r2.trace[i - |r1.trace|] && t[j] == r2.trace[j - |r1.trace|];
        } else {
          assert t[i] == r1.trace[i] && t[j] == r2.trace[j - |r1.trace|];
        }
      }
    }
  }

  lemma ThenAssociative(a: Run, b: Run, c: Run)
    ensures Then(a, Then(b, c)) == Then(Then(a, b), c)
  {
    if a.error.None? && b.error.None? {
      assert a.trace + (b.trace + c.trace) == (a.trace + b.trace) + c.trace;
    }
  }

  /** A phase's calls, in order, as one ordered stretch ending at that phase. */
  lemma PhaseOrderedAlone(tasks: seq<JsValue>, phase: Phase, isolated: bool)
    ensures PhaseOrdered(PhaseRun(tasks, phase, isolated).trace)
    ensures NoLaterThan(PhaseRun(tasks, phase, isolated).trace, phase)
    ensures WithinPhase(PhaseRun(tasks, phase, isolated).trace, phase)
  {
    PhaseEvents(tasks, phase, isolated);
    var t := PhaseRun(tasks, phase, isolated).trace;
    assert forall i :: 0 <= i < |t| ==> t[i] in t;
  }

  /** Appends the four completion phases to an ordered run that ends at most in the execute phase. */
  lemma CompletionOrdered(r: Run, tasks: seq<JsValue>, isolated: bool)
    requires PhaseOrdered(r.trace) && NoLaterThan(r.trace, Execute)
    ensures PhaseOrdered(Then(r, PostRun(tasks, isolated)).trace)
  {
    var p5 := PhaseRun(tasks, PostExecute, isolated);
    var p6 := PhaseRun(tasks, PreComplete, isolated);
    var p7 := PhaseRun(tasks, Complete, isolated);
    var p8 := PhaseRun(tasks, PostComplete, isolated);
    PhaseOrderedAlone(tasks, PostExecute, isolated);
    PhaseOrderedAlone(tasks, PreComplete, isolated);
    PhaseOrderedAlone(tasks, Complete, isolated);
    PhaseOrderedAlone(tasks, PostComplete, isolated);
    ThenAssociative(r, Then(Then(p5, p6), p7), p8);
    ThenAssociative(r, Then(p5, p6), p7);
    ThenAssociative(r, p5, p6);
    ThenOrdered(r, Execute, p5, PostExecute);
    ThenOrdered(Then(r, p5), PostExecute, p6, PreComplete);
    ThenOrdered(Then(Then(r, p5), p6), PreComplete, p7, Complete);
    ThenOrdered(Then(Then(Then(r, p5), p6), p7), Complete, p8, PostComplete);
  }

  /** Set-up, an execute stage within its phase, then completion: the three stages in order. */
  lemma StagesOrdered(pre: Run, x: Run, tasks: seq<JsValue>, isolated: bool)
    requires PhaseOrdered(pre.trace) && NoLaterThan(pre.trace, PreExecute)
    requires WithinPhase(x.trace, Execute)
    ensures PhaseOrdered(Then(Then(pre, x), PostRun(tasks, isolated)).trace)
  {
    ThenOrdered(pre, PreExecute, x, Execute);
    CompletionOrdered(Then(pre, x), tasks, isolated);
  }

  /** The four set-up phases, in order. */
  lemma SetUpOrdered(tasks: seq<JsValue>, isolated: bool)
    ensures PhaseOrdered(PreRun(tasks, isolated).trace) && NoLaterThan(PreRun(tasks, isolated).trace, PreExecute)
  {
    var p1 := PhaseRun(tasks, PreSetup, isolated);
    var p2 := PhaseRun(tasks, Setup, isolated);
    var p3 := PhaseRun(tasks, PostSetup, isolated);
    var p4 := PhaseRun(tasks, PreExecute, isolated);
    PhaseOrderedAlone(tasks, PreSetup, isolated);
    PhaseOrderedAlone(tasks, Setup, isolated);
    PhaseOrderedAlone(tasks, PostSetup, isolated);
    PhaseOrderedAlone(tasks, PreExecute, isolated);
    ThenOrdered(p1, PreSetup, p2, Setup);
    ThenOrdered(Then(p1, p2), Setup, p3, PostSetup);
    ThenOrdered(Then(Then(p1, p2), p3), PostSetup, p4, PreExecute);
  }

  /** The parallel execute stage makes only microtask calls into the shared fragment. */
  lemma ParallelExecuteEvents(tasks: seq<JsValue>, fragment: Option<Fragment>,
                              filterOptions: Result<Options, MergeError>, walker: Walker, env: Env)
    ensures forall e :: e in ParallelExecute(tasks, fragment, filterOptions, walker, env).trace ==> Delivered(e, None)
    ensures var err := ParallelExecute(tasks, fragment, filterOptions, walker, env).error;
      err.Some? ==> !err.value.HookNotAFunction? && !err.value.IsolationTaskInvalid?
                    && !err.value.IsolationStoryDataInvalid? && !err.value.RunMergeFailed?
  {
    if fragment.Some? {
      match QuerySelector(fragment.value, "tw-storydata")
      case None =>
      case Some(sd) =>
        match FilterWith(DomNode(sd), filterOptions)
        case Failure(_) =>
        case Success(children) =>
          WalkEvents(tasks, None, children, 0, walker, env);
    }
  }

  lemma ParallelExecuteWithin(tasks: seq<JsValue>, fragment: Option<Fragment>,
                              filterOptions: Result<Options, MergeError>, walker: Walker, env: Env)
    ensures WithinPhase(ParallelExecute(tasks, fragment, filterOptions, walker, env).trace, Execute)
    ensures SharedCalls(ParallelExecute(tasks, fragment, filterOptions, walker, env).trace)
  {
    ParallelExecuteEvents(tasks, fragment, filterOptions, walker, env);
  }

  /** Calls into the shared fragment only, and never a task's `execute`. */
  predicate SharedCalls(t: seq<Event>)
  {
    forall e :: e in t ==> e.chamber == 0 && !(e.HookCall? && e.phase == Execute)
  }

  lemma ThenSharedCalls(r1: Run, r2: Run)
    requires SharedCalls(r1.trace) && SharedCalls(r2.trace)
    ensures SharedCalls(Then(r1, r2).trace)
  {
  }

  lemma PhaseSharedCalls(tasks: seq<JsValue>, phase: Phase)
    requires phase != Execute
    ensures SharedCalls(PhaseRun(tasks, phase, false).trace)
  {
    PhaseEvents(tasks, phase, false);
  }

  lemma SetUpSharedCalls(tasks: seq<JsValue>)
    ensures SharedCalls(PreRun(tasks, false).trace)
  {
    PhaseSharedCalls(tasks, PreSetup);
    PhaseSharedCalls(tasks, Setup);
    PhaseSharedCalls(tasks, PostSetup);
    PhaseSharedCalls(tasks, PreExecute);
    ThenSharedCalls(PhaseRun(tasks, PreSetup, false), PhaseRun(tasks, Setup, false));
    ThenSharedCalls(Then(PhaseRun(tasks, PreSetup, false), PhaseRun(tasks, Setup, false)), PhaseRun(tasks, PostSetup, false));
    ThenSharedCalls(Then(Then(PhaseRun(tasks, PreSetup, false), PhaseRun(tasks, Setup, false)), PhaseRun(tasks, PostSetup, false)),
                    PhaseRun(tasks, PreExecute, false));
  }

  lemma CompletionSharedCalls(tasks: seq<JsValue>)
    ensures SharedCalls(PostRun(tasks, false).trace)
  {
    PhaseSharedCalls(tasks, PostExecute);
    PhaseSharedCalls(tasks, PreComplete);
    PhaseSharedCalls(tasks, Complete);
    PhaseSharedCalls(tasks, PostComplete);
    ThenSharedCalls(PhaseRun(tasks, PostExecute, false), PhaseRun(tasks, PreComplete, false));
    ThenSharedCalls(Then(PhaseRun(tasks, PostExecute, false), PhaseRun(tasks, PreComplete, false)), PhaseRun(tasks, Complete, false));
    ThenSharedCalls(Then(Then(PhaseRun(tasks, PostExecute, false), PhaseRun(tasks, PreComplete, false)), PhaseRun(tasks, Complete, false)),
                    PhaseRun(tasks, PostComplete, false));
  }

  lemma ParallelRunWithOrdered(tasks: seq<JsValue>, fragment: Option<Fragment>, merged: Result<Options, MergeError>,
                               filterOptions: Result<Options, MergeError>, taskOptions: Options, env: Env)
    ensures PhaseOrdered(ParallelRunWith(tasks, fragment, merged, filterOptions, taskOptions, env).trace)
  {
    if merged.Success? {
      ParallelExecuteWithin(tasks, fragment, filterOptions, MergedWalker(merged, taskOptions), env);
      SetUpOrdered(tasks, false);
      StagesOrdered(PreRun(tasks, false), ParallelExecute(tasks, fragment, filterOptions, MergedWalker(merged, taskOptions), env), tasks, false);
    }
  }

  lemma ParallelRunWithShared(tasks: seq<JsValue>, fragment: Option<Fragment>, merged: Result<Options, MergeError>,
                              filterOptions: Result<Options, MergeError>, taskOptions: Options, env: Env)
    ensures SharedCalls(ParallelRunWith(tasks, fragment, merged, filterOptions, taskOptions, env).trace)
  {
    if merged.Success? {
      var pre := PreRun(tasks, false);
      var x := ParallelExecute(tasks, fragment, filterOptions, MergedWalker(merged, taskOptions), env);
      ParallelExecuteWithin(tasks, fragment, filterOptions, MergedWalker(merged, taskOptions), env);
      SetUpSharedCalls(tasks);
      CompletionSharedCalls(tasks);
      ThenSharedCalls(pre, x);
      ThenSharedCalls(Then(pre, x), PostRun(tasks, false));
    }
  }

  /**
   * `runTasksInParallel` calls the phases in order, gives every task the one
   * shared fragment, and never calls a task's `execute`.
   */
  lemma ParallelRunEvents(tasks: seq<JsValue>, fragment: Option<Fragment>, linterOptions: JsValue,
                          taskOptions: Options, baseline: Options, env: Env)
    ensures PhaseOrdered(ParallelRun(tasks, fragment, linterOptions, taskOptions, baseline, env).trace)
    ensures SharedCalls(ParallelRun(tasks, fragment, linterOptions, taskOptions, baseline, env).trace)
  {
    ParallelRunWithOrdered(tasks, fragment, Merge(baseline, linterOptions, env), FilterOptions(baseline, env), taskOptions, env);
    ParallelRunWithShared(tasks, fragment, Merge(baseline, linterOptions, env), FilterOptions(baseline, env), taskOptions, env);
  }

  /** Calls on behalf of a task go into that task's own chamber; `execute` and microtasks never meet. */
  predicate OwnChamberCalls(tasks: seq<JsValue>, t: seq<Event>)
  {
    forall e :: e in t ==>
      && e.chamber == e.task
      && e.task < |tasks|
      && (e.MicrotaskCall? ==> !HasHook(tasks[e.task], "execute"))
      && (e.HookCall? && e.phase == Execute ==> HasHook(tasks[e.task], "execute"))
  }

  lemma ThenOwnChamberCalls(tasks: seq<JsValue>, r1: Run, r2: Run)
    requires OwnChamberCalls(tasks, r1.trace) && OwnChamberCalls(tasks, r2.trace)
    ensures OwnChamberCalls(tasks, Then(r1, r2).trace)
  {
  }

  lemma PhaseOwnChamberCalls(tasks: seq<JsValue>, phase: Phase)
    requires phase != Execute
    ensures OwnChamberCalls(tasks, PhaseRun(tasks, phase, true).trace)
  {
    PhaseEvents(tasks, phase, true);
  }

  lemma SetUpOwnChamberCalls(tasks: seq<JsValue>)
    ensures OwnChamberCalls(tasks, PreRun(tasks, true).trace)
  {
    PhaseOwnChamberCalls(tasks, PreSetup);
    PhaseOwnChamberCalls(tasks, Setup);
    PhaseOwnChamberCalls(tasks, PostSetup);
    PhaseOwnChamberCalls(tasks, PreExecute);
    ThenOwnChamberCalls(tasks, PhaseRun(tasks, PreSetup, true), PhaseRun(tasks, Setup, true));
    ThenOwnChamberCalls(tasks, Then(PhaseRun(tasks, PreSetup, true), PhaseRun(tasks, Setup, true)), PhaseRun(tasks, PostSetup, true));
    ThenOwnChamberCalls(tasks, Then(Then(PhaseRun(tasks, PreSetup, true), PhaseRun(tasks, Setup, true)), PhaseRun(tasks, PostSetup, true)),
                        PhaseRun(tasks, PreExecute, true));
  }

  lemma CompletionOwnChamberCalls(tasks: seq<JsValue>)
    ensures OwnChamberCalls(tasks, PostRun(tasks, true).trace)
  {
    PhaseOwnChamberCalls(tasks, PostExecute);
    PhaseOwnChamberCalls(tasks, PreComplete);
    PhaseOwnChamberCalls(tasks, Complete);
    PhaseOwnChamberCalls(tasks, PostComplete);
    ThenOwnChamberCalls(tasks, PhaseRun(tasks, PostExecute, true), PhaseRun(tasks, PreComplete, true));
    ThenOwnChamberCalls(tasks, Then(PhaseRun(tasks, PostExecute, true), PhaseRun(tasks, PreComplete, true)), PhaseRun(tasks, Complete, true));
    ThenOwnChamberCalls(tasks, Then(Then(PhaseRun(tasks, PostExecute, true), PhaseRun(tasks, PreComplete, true)), PhaseRun(tasks, Complete, true)),
                        PhaseRun(tasks, PostComplete, true));
  }

  lemma IsolatedWithin(tasks: seq<JsValue>, chambers: seq<Fragment>,
                        filterOptions: Result<Options, MergeError>, walker: Walker, env: Env)
    ensures WithinPhase(IsolatedFrom(tasks, 0, chambers, filterOptions, walker, env).trace, Execute)
  {
    IsolatedEvents(tasks, 0, chambers, filterOptions, walker, env);
  }

  lemma IsolationRunWithOrdered(tasks: seq<JsValue>, chambers: seq<Fragment>, merged: Result<Options, MergeError>,
                                filterOptions: Result<Options, MergeError>, taskOptions: Options, env: Env)
    ensures PhaseOrdered(IsolationRunWith(tasks, chambers, merged, filterOptions, taskOptions, env).trace)
  {
    if merged.Success? {
      IsolatedWithin(tasks, chambers, filterOptions, MergedWalker(merged, taskOptions), env);
      SetUpOrdered(tasks, true);
      StagesOrdered(PreRun(tasks, true), IsolatedFrom(tasks, 0, chambers, filterOptions, MergedWalker(merged, taskOptions), env), tasks, true);
    }
  }

  lemma IsolationRunWithOwnChambers(tasks: seq<JsValue>, chambers: seq<Fragment>, merged: Result<Options, MergeError>,
                                    filterOptions: Result<Options, MergeError>, taskOptions: Options, env: Env)
    ensures OwnChamberCalls(tasks, IsolationRunWith(tasks, chambers, merged, filterOptions, taskOptions, env).trace)
  {
    if merged.Success? {
      var pre := PreRun(tasks, true);
      var x := IsolatedFrom(tasks, 0, chambers, filterOptions, MergedWalker(merged, taskOptions), env);
      IsolatedEvents(tasks, 0, chambers, filterOptions, MergedWalker(merged, taskOptions), env);
      assert OwnChamberCalls(tasks, x.trace);
      SetUpOwnChamberCalls(tasks);
      CompletionOwnChamberCalls(tasks);
      ThenOwnChamberCalls(tasks, pre, x);
      ThenOwnChamberCalls(tasks, Then(pre, x), PostRun(tasks, true));
    }
  }

  /**
   * `runTasksInIsolation` calls the phases in order, gives task `ii` chamber
   * `ii` throughout, calls `execute` only for tasks that have it and
   * delivers microtasks only to tasks that do not.
   */
  lemma IsolationRunEvents(tasks: seq<JsValue>, chambers: seq<Fragment>, linterOptions: JsValue,
                           taskOptions: Options, baseline: Options, env: Env)
    ensures PhaseOrdered(IsolationRun(tasks, chambers, linterOptions, taskOptions, baseline, env).trace)
    ensures OwnChamberCalls(tasks, IsolationRun(tasks, chambers, linterOptions, taskOptions, baseline, env).trace)
  {
    IsolationRunWithOrdered(tasks, chambers, Merge(baseline, linterOptions, env), FilterOptions(baseline, env), taskOptions, env);
    IsolationRunWithOwnChambers(tasks, chambers, Merge(baseline, linterOptions, env), FilterOptions(baseline, env), taskOptions, env);
  }
}
