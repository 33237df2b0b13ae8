/**
 * The task lifecycle shared by both runners: nine phases, the hook calls a
 * runner makes (recorded as an event trace) and the way a thrown error stops
 * a run.
 */
module Lifecycle {
  import opened Wrappers
  import opened Text
  import opened Dom
  import opened JsValues
  import opened Externals
  import opened NodeFilter
  import opened Seqs

  datatype Phase =
    | PreSetup | Setup | PostSetup | PreExecute
    | Execute
    | PostExecute | PreComplete | Complete | PostComplete

  function PhaseIndex(p: Phase): nat
  {
    match p
    case PreSetup => 0
    case Setup => 1
    case PostSetup => 2
    case PreExecute => 3
    case Execute => 4
    case PostExecute => 5
    case PreComplete => 6
    case Complete => 7
    case PostComplete => 8
  }

  /** The task method each phase calls. */
  function HookName(p: Phase): string
  {
    match p
    case PreSetup => "preSetup"
    case Setup => "setup"
    case PostSetup => "postSetup"
    case PreExecute => "preExecute"
    case Execute => "execute"
    case PostExecute => "postExecute"
    case PreComplete => "preComplete"
    case Complete => "complete"
    case PostComplete => "postComplete"
  }

  /**
   * A call a runner makes: a phase hook of task `task` given chamber
   * `chamber` (index into the chamber list; the parallel runner's single
   * fragment is chamber 0), or an `executeMicrotask(node, passageName, …)`.
   */
  datatype Event =
    | HookCall(phase: Phase, task: nat, chamber: nat)
    | MicrotaskCall(task: nat, chamber: nat, visit: Visit, passageName: JsValue)

  function EventPhase(e: Event): Phase
  {
    if e.HookCall? then e.phase else Execute
  }

  datatype RunError =
    /** `task.<hook>(…)` on a task whose hook is not a function (a TypeError). */
    | HookNotAFunction(phase: Phase, task: nat)
    /** `executeMicrotask` is not a function (a TypeError in the parallel callback). */
    | MicrotaskNotAFunction(task: nat)
    /** `querySelector` on a missing fragment (a TypeError). */
    | FragmentMissing
    | ParallelStoryDataInvalid
    | IsolationStoryDataInvalid
    | IsolationTaskInvalid
    | RunMergeFailed(mergeError: MergeOptions.MergeError)
    | RunFilterFailed(filterError: FilterError)

  /** The calls made, in order, and the error that ended the run, if any. */
  datatype Run = Run(trace: seq<Event>, error: Option<RunError>)

  /** Run `r1`, then, unless it threw, `r2`. */
  function Then(r1: Run, r2: Run): (r: Run)
    ensures r.trace == if r1.error.Some? then r1.trace else r1.trace + r2.trace
    ensures r.error == if r1.error.Some? then r1.error else r2.error
  {
    if r1.error.Some? then r1 else Run(r1.trace + r2.trace, r2.error)
  }

  /** One more stage of a chain whose remainder is `Then(step, rest)`, after `trace` was recorded. */
  lemma ChainStep(whole: Run, trace: seq<Event>, step: Run, rest: Run)
    requires whole.trace == trace + Then(step, rest).trace && whole.error == Then(step, rest).error
    ensures step.error.Some? ==> whole == Run(trace + step.trace, step.error)
    ensures step.error.None? ==> whole.trace == (trace + step.trace) + rest.trace && whole.error == rest.error
  {
    if step.error.None? {
      AppendAssoc(trace, step.trace, rest.trace);
    }
  }

  /**
   * `typeof task[name] === 'function'`, read off the task's own properties:
   * no hook name is a property of the other kinds of value (see `HookIsOwnMethod`).
   */
  predicate HasHook(task: JsValue, name: string)
  {
    task.Object? && name in task.props && IsFunction(task.props[name])
  }

  /** For every name a runner calls, `HasHook` is the property read `Get` followed by `typeof`. */
  lemma HookIsOwnMethod(task: JsValue, phase: Phase)
    ensures HasHook(task, HookName(phase)) <==> IsFunction(Get(task, HookName(phase)))
    ensures HasHook(task, "executeMicrotask") <==> IsFunction(Get(task, "executeMicrotask"))
  {
    var name := HookName(phase);
    assert name !in ArrayMethods && name != "length" && name != "nodeType" && name != "tagName" by {
      assert name[0] != 'f' && name[0] != 'm' && name[0] != 'r' && name[0] != 'i' && name[0] != 'l'
        && name[0] != 'n' && name[0] != 't';
    }
    assert "executeMicrotask"[0] == 'e';
  }

  /** The chamber task `i` is given: its own in isolation, the shared one otherwise. */
  function ChamberFor(i: nat, isolated: bool): nat
  {
    if isolated then i else 0
  }

  /** One `forEach` over the tasks calling the phase's hook, from task `i` on. */
  function PhaseFrom(tasks: seq<JsValue>, phase: Phase, isolated: bool, i: nat): Run
    requires i <= |tasks|
    decreases |tasks| - i
  {
    if i == |tasks| then Run([], None)
    else if !HasHook(tasks[i], HookName(phase)) then Run([], Some(HookNotAFunction(phase, i)))
    else
      var rest := PhaseFrom(tasks, phase, isolated, i + 1);
      Run([HookCall(phase, i, ChamberFor(i, isolated))] + rest.trace, rest.error)
  }

  /** `tasks.forEach((task, ii) => task.<hook>(chamber, taskCopy))`. */
  function PhaseRun(tasks: seq<JsValue>, phase: Phase, isolated: bool): Run
  {
    PhaseFrom(tasks, phase, isolated, 0)
  }

  /** Every task's hook of the phase, in task order. */
  function HookEvents(phase: Phase, isolated: bool, n: nat): (r: seq<Event>)
    ensures |r| == n
    ensures forall i :: 0 <= i < n ==> r[i] == HookCall(phase, i, ChamberFor(i, isolated))
  {
    if n == 0 then [] else HookEvents(phase, isolated, n - 1) + [HookCall(phase, n - 1, ChamberFor(n - 1, isolated))]
  }

  /** The first task, from `i` on, whose hook `name` is not a function (`|tasks|` if none). */
  function FirstMissing(tasks: seq<JsValue>, name: string, i: nat): (k: nat)
    requires i <= |tasks|
    decreases |tasks| - i
    ensures i <= k <= |tasks|
    ensures forall j :: i <= j < k ==> HasHook(tasks[j], name)
    ensures k < |tasks| ==> !HasHook(tasks[k], name)
  {
    if i == |tasks| || !HasHook(tasks[i], name) then i else FirstMissing(tasks, name, i + 1)
  }

  lemma {:induction false} PhaseFromShape(tasks: seq<JsValue>, phase: Phase, isolated: bool, i: nat)
    requires i <= |tasks|
    decreases |tasks| - i
    ensures var k := FirstMissing(tasks, HookName(phase), i);
      PhaseFrom(tasks, phase, isolated, i).error == (if k < |tasks| then Some(HookNotAFunction(phase, k)) else None)
      && |PhaseFrom(tasks, phase, isolated, i).trace| == k - i
      && forall j :: 0 <= j < k - i ==>
           PhaseFrom(tasks, phase, isolated, i).trace[j] == HookCall(phase, i + j, ChamberFor(i + j, isolated))
  {
    if i < |tasks| && HasHook(tasks[i], HookName(phase)) {
      PhaseFromShape(tasks, phase, isolated, i + 1);
    }
  }

  /**
   * A phase calls the hooks of the tasks before the first task lacking one,
   * in task order, and throws at that task; with no such task it calls every
   * task's hook.
   */
  lemma PhaseRunShape(tasks: seq<JsValue>, phase: Phase, isolated: bool)
    ensures var k := FirstMissing(tasks, HookName(phase), 0);
      PhaseRun(tasks, phase, isolated).error == (if k < |tasks| then Some(HookNotAFunction(phase, k)) else None)
      && PhaseRun(tasks, phase, isolated).trace == HookEvents(phase, isolated, k)
  {
    PhaseFromShape(tasks, phase, isolated, 0);
    var k := FirstMissing(tasks, HookName(phase), 0);
    assert PhaseRun(tasks, phase, isolated).trace == HookEvents(phase, isolated, k);
  }

  /** The `passageName` delivered for a child: its `name` for a `tw-passagedata`, else `null`. */
  function PassageNameFor(child: JsValue): (r: JsValue)
    ensures r.Null? || r.Str?
    ensures r.Str? <==> IsPassageData(child) && GetAttribute(child.node, "name").Some?
  {
    if IsPassageData(child) then
      match GetAttribute(child.node, "name")
      case Some(s) => Str(s)
      case None => Null
    else Null
  }

  /** The parallel callback: every task's `executeMicrotask`, in task order, from task `i` on. */
  function FanOutFrom(tasks: seq<JsValue>, i: nat, visit: Visit, passageName: JsValue): Run
    requires i <= |tasks|
    decreases |tasks| - i
  {
    if i == |tasks| then Run([], None)
    else if !HasHook(tasks[i], "executeMicrotask") then Run([], Some(MicrotaskNotAFunction(i)))
    else
      var rest := FanOutFrom(tasks, i + 1, visit, passageName);
      Run([MicrotaskCall(i, 0, visit, passageName)] + rest.trace, rest.error)
  }

  /** Which tasks a walk delivers to: all of them (parallel) or task `only` (isolation). */
  function Deliver(tasks: seq<JsValue>, only: Option<nat>, visit: Visit, passageName: JsValue): Run
    requires only.Some? ==> only.value < |tasks|
  {
    match only
    case None => FanOutFrom(tasks, 0, visit, passageName)
    case Some(i) => Run([MicrotaskCall(i, i, visit, passageName)], None)
  }

  /**
   * A task the parallel walk is evidently meant to reach: one whose
   * `executeMicrotask` is a function and which has no `execute`, the choice
   * the isolation runner makes for each task.
   */
  predicate MicrotaskOnly(task: JsValue)
  {
    !HasHook(task, "execute") && HasHook(task, "executeMicrotask")
  }

  /**
   * The parallel callback as evidently intended, from task `i` on: the node
   * goes to every task that is served by microtasks, in task order, and no
   * task makes it throw.
   */
  function FanOutCorrectedFrom(tasks: seq<JsValue>, i: nat, visit: Visit, passageName: JsValue): (r: Run)
    requires i <= |tasks|
    decreases |tasks| - i
    ensures r.error.None?
    ensures forall e :: e in r.trace ==>
      e.MicrotaskCall? && i <= e.task < |tasks| && MicrotaskOnly(tasks[e.task])
      && e.chamber == 0 && e.visit == visit && e.passageName == passageName
    ensures forall j :: i <= j < |tasks| && MicrotaskOnly(tasks[j]) ==> MicrotaskCall(j, 0, visit, passageName) in r.trace
  {
    if i == |tasks| then Run([], None)
    else
      var rest := FanOutCorrectedFrom(tasks, i + 1, visit, passageName);
      if MicrotaskOnly(tasks[i]) then Run([MicrotaskCall(i, 0, visit, passageName)] + rest.trace, None) else rest
  }

  /**
   * The `execute` calls the corrected parallel stage owes, from task `i` on:
   * one per task that has `execute`, on the shared fragment, in task order.
   */
  function ExecuteCallsFrom(tasks: seq<JsValue>, i: nat): (r: seq<Event>)
    requires i <= |tasks|
    decreases |tasks| - i
    ensures forall e :: e in r ==>
      e.HookCall? && e.phase == Execute && e.chamber == 0 && i <= e.task < |tasks| && HasHook(tasks[e.task], "execute")
    ensures forall j :: i <= j < |tasks| && HasHook(tasks[j], "execute") ==> HookCall(Execute, j, 0) in r
  {
    if i == |tasks| then []
    else
      var rest := ExecuteCallsFrom(tasks, i + 1);
      if HasHook(tasks[i], "execute") then [HookCall(Execute, i, 0)] + rest else rest
  }

  /** The callback invoked once per node the recurser visits, from the `i`-th on. */
  function VisitFrom(tasks: seq<JsValue>, only: Option<nat>, visited: seq<Visit>, i: nat, passageName: JsValue): Run
    requires i <= |visited|
    requires only.Some? ==> only.value < |tasks|
    decreases |visited| - i
  {
    if i == |visited| then Run([], None)
    else Then(Deliver(tasks, only, visited[i], passageName), VisitFrom(tasks, only, visited, i + 1, passageName))
  }

  /** The recurser a run uses: the task options' `recurser` if it is a function, else the built-in one. */
  function RecurserOf(taskOptions: map<string, JsValue>): (r: JsValue)
    ensures IsFunction(r)
    ensures IsFunction(Get(Object(taskOptions), "recurser")) ==> r == taskOptions["recurser"]
  {
    var r := Get(Object(taskOptions), "recurser");
    if IsFunction(r) then r else Function("Recurser.leftTopRecurse")
  }

  /**
   * What the recurser is handed besides the child and the callback: the
   * merged linter options' `format` and `version`, and the task options.
   */
  function WalkerOf(copy: map<string, JsValue>, taskOptions: map<string, JsValue>): (r: Walker)
    ensures r.recurser == RecurserOf(taskOptions)
    ensures r.format == Get(Object(copy), "format") && r.version == Get(Object(copy), "version")
    ensures r.taskCopy == Object(taskOptions)
  {
    Walker(RecurserOf(taskOptions), Get(Object(copy), "format"), Get(Object(copy), "version"), Object(taskOptions))
  }

  /** The walk of child `child`: the callback for each node the recurser visits. */
  function WalkChild(tasks: seq<JsValue>, only: Option<nat>, child: JsValue, walker: Walker, env: Env): Run
    requires only.Some? ==> only.value < |tasks|
  {
    VisitFrom(tasks, only, env.recurse(walker, child), 0, PassageNameFor(child))
  }

  /** `filterChildNodes(storyData).forEach(...)`: each child walked by the recurser, from the `i`-th on. */
  function WalkFrom(tasks: seq<JsValue>, only: Option<nat>, children: seq<JsValue>, i: nat,
                    walker: Walker, env: Env): Run
    requires i <= |children|
    requires only.Some? ==> only.value < |tasks|
    decreases |children| - i
  {
    if i == |children| then Run([], None)
    else Then(WalkChild(tasks, only, children[i], walker, env), WalkFrom(tasks, only, children, i + 1, walker, env))
  }

  /** Every task's microtask for one node, in task order. */
  function MicrotaskEvents(n: nat, visit: Visit, passageName: JsValue): (r: seq<Event>)
    ensures |r| == n
    ensures forall i :: 0 <= i < n ==> r[i] == MicrotaskCall(i, 0, visit, passageName)
  {
    if n == 0 then [] else MicrotaskEvents(n - 1, visit, passageName) + [MicrotaskCall(n - 1, 0, visit, passageName)]
  }

  lemma {:induction false} FanOutFromShape(tasks: seq<JsValue>, i: nat, visit: Visit, passageName: JsValue)
    requires i <= |tasks|
    decreases |tasks| - i
    ensures FanOutFrom(tasks, i, visit, passageName).error.None? <==>
      forall j :: i <= j < |tasks| ==> HasHook(tasks[j], "executeMicrotask")
    ensures FanOutFrom(tasks, i, visit, passageName).error.None? ==>
      |FanOutFrom(tasks, i, visit, passageName).trace| == |tasks| - i &&
      forall j :: 0 <= j < |tasks| - i ==>
        FanOutFrom(tasks, i, visit, passageName).trace[j] == MicrotaskCall(i + j, 0, visit, passageName)
  {
    if i < |tasks| && HasHook(tasks[i], "executeMicrotask") {
      FanOutFromShape(tasks, i + 1, visit, passageName);
    }
  }

  /** In parallel mode, a visited node reaches every task's `executeMicrotask`, in task order. */
  lemma FanOutShape(tasks: seq<JsValue>, visit: Visit, passageName: JsValue)
    ensures Deliver(tasks, None, visit, passageName).error.None? <==>
      forall j :: 0 <= j < |tasks| ==> HasHook(tasks[j], "executeMicrotask")
    ensures Deliver(tasks, None, visit, passageName).error.None? ==>
      Deliver(tasks, None, visit, passageName).trace == MicrotaskEvents(|tasks|, visit, passageName)
  {
    FanOutFromShape(tasks, 0, visit, passageName);
    var r := Deliver(tasks, None, visit, passageName);
    if r.error.None? {
      assert r.trace == MicrotaskEvents(|tasks|, visit, passageName);
    }
  }

  /** One phase's `forEach`: the hooks in task order, stopping at the first that throws. */
  method RunPhase(tasks: seq<JsValue>, phase: Phase, isolated: bool) returns (run: Run)
    ensures run == PhaseRun(tasks, phase, isolated)
  {
    var trace: seq<Event> := [];
    var i := 0;
    while i < |tasks|
      invariant 0 <= i <= |tasks|
      invariant PhaseRun(tasks, phase, isolated).trace == trace + PhaseFrom(tasks, phase, isolated, i).trace
      invariant PhaseRun(tasks, phase, isolated).error == PhaseFrom(tasks, phase, isolated, i).error
    {
      if !HasHook(tasks[i], HookName(phase)) {
        return Run(trace, Some(HookNotAFunction(phase, i)));
      }
      var e := HookCall(phase, i, ChamberFor(i, isolated));
      ghost var rest := PhaseFrom(tasks, phase, isolated, i + 1);
      assert PhaseFrom(tasks, phase, isolated, i) == Run([e] + rest.trace, rest.error);
      AppendAssoc(trace, [e], rest.trace);
      trace := trace + [e];
      i := i + 1;
    }
    AppendEmpty(trace);
    return Run(trace, None);
  }

  /** The callback handed to the recurser, applied to one visited node. */
  method DeliverNode(tasks: seq<JsValue>, only: Option<nat>, visit: Visit, passageName: JsValue) returns (run: Run)
    requires only.Some? ==> only.value < |tasks|
    ensures run == Deliver(tasks, only, visit, passageName)
  {
    if only.Some? {
      return Run([MicrotaskCall(only.value, only.value, visit, passageName)], None);
    }
    ghost var whole := FanOutFrom(tasks, 0, visit, passageName);
    var trace: seq<Event> := [];
    var i := 0;
    while i < |tasks|
      invariant 0 <= i <= |tasks|
      invariant whole.trace == trace + FanOutFrom(tasks, i, visit, passageName).trace
      invariant whole.error == FanOutFrom(tasks, i, visit, passageName).error
    {
      ghost var step := if HasHook(tasks[i], "executeMicrotask") then Run([MicrotaskCall(i, 0, visit, passageName)], None)
                        else Run([], Some(MicrotaskNotAFunction(i)));
      ghost var rest := FanOutFrom(tasks, i + 1, visit, passageName);
      assert FanOutFrom(tasks, i, visit, passageName) == Then(step, rest);
      ChainStep(whole, trace, step, rest);
      if !HasHook(tasks[i], "executeMicrotask") {
        AppendEmpty(trace);
        return Run(trace, Some(MicrotaskNotAFunction(i)));
      }
      trace := trace + [MicrotaskCall(i, 0, visit, passageName)];
      i := i + 1;
    }
    AppendEmpty(trace);
    return Run(trace, None);
  }

  /** The recurser's walk of one child: the callback for each visited node, in visiting order. */
  method WalkOneChild(tasks: seq<JsValue>, only: Option<nat>, child: JsValue, walker: Walker, env: Env)
    returns (run: Run)
    requires only.Some? ==> only.value < |tasks|
    ensures run == WalkChild(tasks, only, child, walker, env)
  {
    var visited := env.recurse(walker, child);
    var passageName := PassageNameFor(child);
    ghost var whole := VisitFrom(tasks, only, visited, 0, passageName);
    var trace: seq<Event> := [];
    var i := 0;
    while i < |visited|
      invariant 0 <= i <= |visited|
      invariant whole.trace == trace + VisitFrom(tasks, only, visited, i, passageName).trace
      invariant whole.error == VisitFrom(tasks, only, visited, i, passageName).error
    {
      var step := DeliverNode(tasks, only, visited[i], passageName);
      ghost var rest := VisitFrom(tasks, only, visited, i + 1, passageName);
      assert VisitFrom(tasks, only, visited, i, passageName) == Then(step, rest);
      if step.error.Some? {
        return Run(trace + step.trace, step.error);
      }
      AppendAssoc(trace, step.trace, rest.trace);
      trace := trace + step.trace;
      i := i + 1;
    }
    AppendEmpty(trace);
    return Run(trace, None);
  }

  /** A run recorded after `trace`. */
  function After(trace: seq<Event>, r: Run): Run
  {
    Run(trace + r.trace, r.error)
  }

  /** One child walked: the walk stops at its error or goes on with the next child. */
  lemma WalkAdvance(whole: Run, trace: seq<Event>, tasks: seq<JsValue>, only: Option<nat>, children: seq<JsValue>,
                    i: nat, walker: Walker, env: Env, step: Run)
    requires i < |children|
    requires only.Some? ==> only.value < |tasks|
    requires whole == After(trace, WalkFrom(tasks, only, children, i, walker, env))
    requires step == WalkChild(tasks, only, children[i], walker, env)
    ensures step.error.Some? ==> whole == Run(trace + step.trace, step.error)
    ensures step.error.None? ==> whole == After(trace + step.trace, WalkFrom(tasks, only, children, i + 1, walker, env))
  {
    var rest := WalkFrom(tasks, only, children, i + 1, walker, env);
    assert WalkFrom(tasks, only, children, i, walker, env) == Then(step, rest);
    ChainStep(whole, trace, step, rest);
  }

  /** `filterChildNodes(storyData).forEach(...)` over the filtered children. */
  method WalkChildren(tasks: seq<JsValue>, only: Option<nat>, children: seq<JsValue>, walker: Walker, env: Env)
    returns (run: Run)
    requires only.Some? ==> only.value < |tasks|
    ensures run == WalkFrom(tasks, only, children, 0, walker, env)
  {
    ghost var whole := WalkFrom(tasks, only, children, 0, walker, env);
    AppendEmpty(whole.trace);
    var trace: seq<Event> := [];
    var i := 0;
    while i < |children|
      invariant 0 <= i <= |children|
      invariant whole == After(trace, WalkFrom(tasks, only, children, i, walker, env))
    {
      var step := WalkOneChild(tasks, only, children[i], walker, env);
      WalkAdvance(whole, trace, tasks, only, children, i, walker, env, step);
      if step.error.Some? {
        return Run(trace + step.trace, step.error);
      }
      trace := trace + step.trace;
      i := i + 1;
    }
    AppendEmpty(trace);
    return Run(trace, None);
  }
}
