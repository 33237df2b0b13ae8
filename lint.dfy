/**
 * `Linter.lint`: merge the options, obtain the story-data element (parsing a
 * string through the document getter), check the task list, filter the
 * element's children, run the two intermediate-representation stages, build
 * the isolation chambers and hand everything to `runTasks`. Each helper the
 * pipeline calls merges the options it is given once more over the stored
 * options.
 */
module Lint {
  import opened Wrappers
  import opened Dom
  import opened JsValues
  import opened NumericStrings
  import opened Text
  import opened TypeGuards
  import opened Constants
  import opened Externals
  import opened MergeOptions
  import opened NodeFilter
  import opened Lifecycle
  import opened TaskRunners
  import opened PassageDataFactory
  import StageOne = ArrayIntermediateRepresentationGenerator
  import StageTwo = DocumentFragmentIntermediateRepresentationGenerator

  datatype LintError =
    | LintMergeFailed(mergeError: MergeError)
    | StoryDataEmptyString
    | DocumentGetterInvalid
    /** `LINT_DOCUMENT_INVALID`, a message the linter never defines: the error is thrown all the same. */
    | DocumentInvalid
    | StoryDataInvalid
    | TasksInvalid
    | TasksEmpty
    | TaskInvalid
    | TaskNoExecuteMethod
    | LintFilterFailed(filterError: FilterError)
    | StageOneMergeFailed(stageOneMergeError: MergeError)
    | StageOneFailed(stageOneError: StageOne.GenerateError)
    | StageTwoMergeFailed(stageTwoMergeError: MergeError)
    | StageTwoFailed(stageTwoError: StageTwo.GenerateError)
    | LintRunFailed(runError: RunError)

  /** What `lint` returns or throws, and the task hooks it called on the way. */
  datatype Linted = Linted(result: Result<seq<JsValue>, LintError>, trace: seq<Event>)

  function Thrown(e: LintError): Linted
  {
    Linted(Failure(e), [])
  }

  /**
   * `_storyData` once the string path is taken: an empty string, a getter
   * that is not a function and a getter product that is not a document each
   * throw; otherwise the markup is parsed and `tw-storydata` looked up.
   */
  function StoryDataOf(storyData: JsValue, copy: Options, env: Env): (r: Result<JsValue, LintError>)
    ensures r.Success? ==> IsElementLike(r.value)
    ensures !storyData.Str? ==> (r.Success? <==> IsElementLike(storyData))
    ensures !storyData.Str? && r.Success? ==> r.value == storyData
  {
    var sd :-
      if !storyData.Str? then Success(storyData)
      else if storyData.s == "" then Failure(StoryDataEmptyString)
      else
        var getter := OwnProperty(Object(copy), "documentGetter");
        if !IsFunction(getter) then Failure(DocumentGetterInvalid)
        else if !IsDocumentLike(env.call(getter.id)) then Failure(DocumentInvalid)
        else Success(env.parseStoryData(storyData.s));
    if !IsElementLike(sd) then Failure(LintError.StoryDataInvalid) else Success(sd)
  }

  /** The check made on each task in the `forEach`. */
  function TaskError(task: JsValue): Option<LintError>
  {
    if !Truthy(task) || !IsObject(task) then Some(TaskInvalid)
    else if !HasHook(task, "execute") && !HasHook(task, "executeMicrotask") then Some(TaskNoExecuteMethod)
    else None
  }

  /** The first task error in `tasks[i..]`. */
  function TaskErrorFrom(tasks: seq<JsValue>, i: nat): (r: Option<LintError>)
    requires i <= |tasks|
    ensures r.Some? ==> r.value == TaskInvalid || r.value == TaskNoExecuteMethod
    decreases |tasks| - i
  {
    if i == |tasks| then None
    else if TaskError(tasks[i]).Some? then TaskError(tasks[i])
    else TaskErrorFrom(tasks, i + 1)
  }

  /** The checks on the tasks value: array-likeness spelt out, emptiness, then each task. */
  function TasksError(tasks: JsValue): Option<LintError>
  {
    if !ArrayLike(tasks) then Some(TasksInvalid)
    else if Get(tasks, "length") == Num(0.0) then Some(TasksEmpty)
    else TaskErrorFrom(Present(tasks), 0)
  }

  /** `.filter(isIElementLike)` on the filtered children. */
  function Elements(items: seq<JsValue>): (r: seq<JsValue>)
    ensures forall i :: 0 <= i < |r| ==> IsElementLike(r[i])
    ensures forall x :: x in r ==> x in items
  {
    if items == [] then []
    else if IsElementLike(items[0]) then [items[0]] + Elements(items[1..])
    else Elements(items[1..])
  }

  /** `len`: `tasks.length` when the merged `runInIsolation` is `true`, else 1. */
  function Len(copy: Options, tasks: JsValue): JsValue
  {
    if Get(Object(copy), "runInIsolation") == Bool(true) then Get(tasks, "length") else Num(1.0)
  }

  /** How many whole numbers `ii` with `1 <= ii` satisfy `ii < n`. */
  function CountBelow(n: real): nat
  {
    if n <= 1.0 then 0 else if n == n.Floor as real then n.Floor - 1 else n.Floor
  }

  /** How many times the chamber loop `for (ii = 1; ii < len; ii += 1)` runs. */
  function Clones(len: JsValue): nat
  {
    if ToNumber(len).Finite? then CountBelow(ToNumber(len).x) else 0
  }

  /**
   * `docFrag.cloneNode()`: with no argument the clone is shallow, as in
   * section 4.5 of the WHATWG DOM Standard (`cloneNode(deep = false)`), so
   * the copy has no children.
   */
  function CloneNode(f: Fragment): (r: Fragment)
    ensures r.childNodes == []
  {
    Fragment([])
  }

  /** `[docFrag]` followed by `clones` clones of it. */
  function Chambers(docFrag: Fragment, clones: nat): (r: seq<Fragment>)
    ensures |r| == clones + 1
    ensures r[0] == docFrag
    ensures forall i :: 1 <= i < |r| ==> r[i] == CloneNode(docFrag)
  {
    if clones == 0 then [docFrag] else Chambers(docFrag, clones - 1) + [CloneNode(docFrag)]
  }

  /** What `lint` returns once `runTasks` has run. */
  function Finish(tasks: seq<JsValue>, run: Run): Linted
  {
    match Outcome(tasks, run)
    case Success(ts) => Linted(Success(ts), run.trace)
    case Failure(e) => Linted(Failure(LintRunFailed(e)), run.trace)
  }

  /** Stage two, the chambers and `runTasks(tasks, isolationChambers, copy)`. */
  function LintTail(passages: seq<Passage>, tasks: JsValue, copy: Options, baseline: Options, env: Env): Linted
  {
    var clones := Clones(Len(copy, tasks));
    match Merge(baseline, Object(copy), env)
    case Failure(e) => Thrown(StageTwoMergeFailed(e))
    case Success(c2) =>
      match StageTwo.Generate(passages, Object(c2), env).result
      case Failure(e) => Thrown(StageTwoFailed(e))
      case Success(docFrag) =>
        Finish(Present(tasks), RunAll(Present(tasks), Chambers(docFrag, clones), Object(copy), map[], baseline, env))
  }

  /** `generateIRStageOne(children, copy)`, then the rest. */
  function FromStageOne(children: seq<JsValue>, tasks: JsValue, copy: Options, baseline: Options, env: Env): Linted
  {
    match Merge(baseline, Object(copy), env)
    case Failure(e) => Thrown(StageOneMergeFailed(e))
    case Success(c1) =>
      match StageOne.Generate(Array(children), Object(c1), env)
      case Failure(e) => Thrown(StageOneFailed(e))
      case Success(passages) => LintTail(passages, tasks, copy, baseline, env)
  }

  /** `lint` once the options are merged into `copy`. */
  function LintWith(storyData: JsValue, tasks: JsValue, copy: Options, baseline: Options, env: Env): Linted
  {
    match StoryDataOf(storyData, copy, env)
    case Failure(e) => Thrown(e)
    case Success(sd) =>
      if TasksError(tasks).Some? then Thrown(TasksError(tasks).value)
      else
        match Filtered(sd, Object(copy), baseline, env)
        case Failure(e) => Thrown(LintFilterFailed(e))
        case Success(items) => FromStageOne(Elements(items), tasks, copy, baseline, env)
  }

  /** `lint(storyData, tasks, options)` on a linter whose stored options are `baseline`. */
  function Lint(storyData: JsValue, tasks: JsValue, options: JsValue, baseline: Options, env: Env): Linted
  {
    match Merge(baseline, if Truthy(options) then options else Object(map[]), env)
    case Failure(e) => Thrown(LintMergeFailed(e))
    case Success(copy) => LintWith(storyData, tasks, copy, baseline, env)
  }

  /** The checks on `tasks`: array-like, not empty, then each task in turn. */
  method CheckTaskList(tasks: JsValue) returns (error: Option<LintError>)
    ensures error == TasksError(tasks)
  {
    if !ArrayLike(tasks) {
      return Some(TasksInvalid);
    } else if Get(tasks, "length") == Num(0.0) {
      return Some(TasksEmpty);
    }
    error := CheckTasks(Present(tasks));
  }

  /** The `tasks.forEach` check, stopping at the first bad task. */
  method CheckTasks(tasks: seq<JsValue>) returns (error: Option<LintError>)
    ensures error == TaskErrorFrom(tasks, 0)
  {
    for i := 0 to |tasks|
      invariant TaskErrorFrom(tasks, 0) == TaskErrorFrom(tasks, i)
    {
      if !Truthy(tasks[i]) || !IsObject(tasks[i]) {
        return Some(TaskInvalid);
      }
      if !HasHook(tasks[i], "execute") && !HasHook(tasks[i], "executeMicrotask") {
        return Some(TaskNoExecuteMethod);
      }
    }
    return None;
  }

  /** The chamber loop: the fragment, then one clone per pass. */
  method BuildChambers(docFrag: Fragment, len: JsValue) returns (isolationChambers: seq<Fragment>)
    ensures isolationChambers == Chambers(docFrag, Clones(len))
  {
    isolationChambers := [docFrag];
    var n := ToNumber(len);
    if !n.Finite? {
      return;
    }
    var ii := 1;
    while (ii as real) < n.x
      invariant 1 <= ii && ii - 1 <= CountBelow(n.x)
      invariant isolationChambers == Chambers(docFrag, ii - 1)
      decreases n.x.Floor + 1 - ii
    {
      CountBelowCounts(n.x, ii);
      CountBelowCounts(n.x, ii + 1);
      isolationChambers := isolationChambers + [CloneNode(docFrag)];
      ii := ii + 1;
    }
    CountBelowCounts(n.x, ii);
  }

  /** `CountBelow(n)` counts exactly the whole numbers from 1 that are below `n`. */
  lemma CountBelowCounts(n: real, k: int)
    requires k >= 1
    ensures (k as real) < n <==> k <= CountBelow(n)
    ensures (k as real) < n ==> k <= n.Floor
  {
  }

  /** `lint`, step by step, through the helpers' own step-by-step forms. */
  method LintStory(storyData: JsValue, tasks: JsValue, options: JsValue, baseline: Options, env: Env)
    returns (result: Result<seq<JsValue>, LintError>, trace: seq<Event>)
    ensures Linted(result, trace) == Lint(storyData, tasks, options, baseline, env)
  {
    trace := [];
    var tempOpts := if Truthy(options) then options else Object(map[]);
    var merged := Merge(baseline, tempOpts, env);
    if merged.Failure? {
      return Failure(LintMergeFailed(merged.error)), trace;
    }
    result, trace := LintCopy(storyData, tasks, merged.value, baseline, env);
  }

  /** `lint` once the options are merged, up to `generateIRStageOne`, step by step. */
  method LintCopy(storyData: JsValue, tasks: JsValue, copy: Options, baseline: Options, env: Env)
    returns (result: Result<seq<JsValue>, LintError>, trace: seq<Event>)
    ensures Linted(result, trace) == LintWith(storyData, tasks, copy, baseline, env)
  {
    trace := [];
    var sd := StoryDataOf(storyData, copy, env);
    if sd.Failure? {
      return Failure(sd.error), trace;
    }
    var taskError := CheckTaskList(tasks);
    if taskError.Some? {
      return Failure(taskError.value), trace;
    }
    var filtered := FilterChildNodes(sd.value, Object(copy), baseline, env);
    assert LintWith(storyData, tasks, copy, baseline, env)
      == match filtered
         case Failure(e) => Thrown(LintFilterFailed(e))
         case Success(items) => FromStageOne(Elements(items), tasks, copy, baseline, env);
    if filtered.Failure? {
      return Failure(LintFilterFailed(filtered.error)), trace;
    }
    var children := Elements(filtered.value);
    result, trace := LintFromStageOne(children, tasks, copy, baseline, env);
  }

  /** From `generateIRStageOne` on, step by step. */
  method LintFromStageOne(children: seq<JsValue>, tasks: JsValue, copy: Options, baseline: Options, env: Env)
    returns (result: Result<seq<JsValue>, LintError>, trace: seq<Event>)
    ensures Linted(result, trace) == FromStageOne(children, tasks, copy, baseline, env)
  {
    trace := [];
    var c1 := Merge(baseline, Object(copy), env);
    if c1.Failure? {
      return Failure(StageOneMergeFailed(c1.error)), trace;
    }
    var passages := StageOne.GenerateRecords(Array(children), Object(c1.value), env);
    if passages.Failure? {
      return Failure(StageOneFailed(passages.error)), trace;
    }
    result, trace := LintFromStageTwo(passages.value, tasks, copy, baseline, env);
  }

  /** `len`, `generateIRStageTwo`, the chamber loop and `runTasks`, step by step. */
  method LintFromStageTwo(passages: seq<Passage>, tasks: JsValue, copy: Options, baseline: Options, env: Env)
    returns (result: Result<seq<JsValue>, LintError>, trace: seq<Event>)
    ensures Linted(result, trace) == LintTail(passages, tasks, copy, baseline, env)
  {
    trace := [];
    var len := Len(copy, tasks);
    var c2 := Merge(baseline, Object(copy), env);
    if c2.Failure? {
      return Failure(StageTwoMergeFailed(c2.error)), trace;
    }
    var docFrag, _ := StageTwo.GenerateFragment(passages, Object(c2.value), env);
    if docFrag.Failure? {
      return Failure(StageTwoFailed(docFrag.error)), trace;
    }
    var isolationChambers := BuildChambers(docFrag.value, len);
    var ran;
    ran, trace := RunTasks(Present(tasks), isolationChambers, Object(copy), map[], baseline, env);
    if ran.Failure? {
      return Failure(LintRunFailed(ran.error)), trace;
    }
    return Success(ran.value), trace;
  }

  /**
   * The task checks decide in their order: a value that is not array-like,
   * a length of 0, then the first task that is not an object or has neither
   * `execute` nor `executeMicrotask`.
   */
  lemma TaskChecksInOrder(tasks: JsValue)
    ensures TasksError(tasks) == Some(TasksInvalid) <==> !ArrayLike(tasks)
    ensures TasksError(tasks) == Some(TasksEmpty) <==> ArrayLike(tasks) && Get(tasks, "length") == Num(0.0)
    ensures ArrayLike(tasks) && Get(tasks, "length") != Num(0.0) ==> TasksError(tasks) == TaskErrorFrom(Present(tasks), 0)
  {
  }

  /** A checked task list has a finite, whole, non-negative length, so the chamber loop ends. */
  lemma CheckedLengthIsFinite(tasks: JsValue)
    requires TasksError(tasks).None?
    ensures ToNumber(Get(tasks, "length")).Finite?
    ensures ToNumber(Get(tasks, "length")).x >= 0.0
    ensures Clones(Get(tasks, "length")) == CountBelow(ToNumber(Get(tasks, "length")).x)
  {
  }

  /** The one-task list whose `length` is the string "1". */
  function OneTaskList(task: JsValue): JsValue
  {
    Object(ListLike(Str("1")).props["0" := task])
  }

  lemma OneTaskListReads(task: JsValue)
    ensures ArrayLike(OneTaskList(task))
    ensures Get(OneTaskList(task), "length") == Str("1")
    ensures ArrayFrom(OneTaskList(task)) == [task]
    ensures Present(OneTaskList(task)) == [task]
  {
    OneTaskListShape(task);
    NumericStringsCompare();
    OneTaskListItems(task);
  }

  /** The one-task list keeps the length and the four methods of the list it extends. */
  lemma OneTaskListShape(task: JsValue)
    ensures Get(OneTaskList(task), "length") == Str("1")
    ensures Truthy(OneTaskList(task)) && IsObject(OneTaskList(task)) && HasArrayMethods(OneTaskList(task))
  {
    assert HasArrayMethods(ListLike(Str("1")));
  }

  /** `Number("1")` is 1. */
  lemma OneReadsAsOne()
    ensures ToNumber(Str("1")) == Finite(1.0)
  {
    DecimalReadings();
  }

  /** Its length reads as 1, so `Array.from` and `forEach` both take the one entry "0". */
  lemma OneTaskListItems(task: JsValue)
    ensures ArrayFrom(OneTaskList(task)) == [task]
    ensures Present(OneTaskList(task)) == [task]
  {
    var l := OneTaskList(task);
    var n := ToNumber(Get(l, "length"));
    OneTaskListShape(task);
    OneReadsAsOne();
    assert ToLength(n) == 1;
    assert ArrayFrom(l) == Indexed(l.props, 1);
    assert NatToString(0) == "0";
    assert Indexed(l.props, 1) == [l.props["0"]];
    assert Present(l) == PresentIndexed(l.props, 1);
    assert PresentIndexed(l.props, 1) == [l.props["0"]];
  }

  /** The list `{length: 2, "0": task}` with the array methods, whose index 1 is a hole. */
  function HoledTaskList(task: JsValue): JsValue
  {
    Object(ListLike(Num(2.0)).props["0" := task])
  }

  /**
   * The `tasks.forEach` check skips a hole, so a list whose only task has
   * `execute` passes the checks although `Array.from` reads its second
   * entry as `undefined`, which the check would refuse.
   */
  lemma HoleSkippedByTaskChecks(task: JsValue)
    requires HasHook(task, "execute")
    ensures ArrayLike(HoledTaskList(task))
    ensures Present(HoledTaskList(task)) == [task]
    ensures ArrayFrom(HoledTaskList(task)) == [task, Undefined]
    ensures TasksError(HoledTaskList(task)) == None
    ensures TaskErrorFrom(ArrayFrom(HoledTaskList(task)), 0) == Some(TaskInvalid)
  {
    var l := HoledTaskList(task);
    assert Get(l, "length") == Num(2.0);
    assert HasArrayMethods(ListLike(Num(2.0)));
    assert ToNumber(Num(2.0)) == Finite(2.0);
    assert (2.0).Floor == 2;
    assert ToLength(Finite(2.0)) == 2;
    assert NatToString(0) == "0" && NatToString(1) == "1";
    assert "1" !in l.props;
    assert PresentIndexed(l.props, 1) == [task];
    assert Present(l) == PresentIndexed(l.props, 2) == [task];
    assert Indexed(l.props, 1) == [task];
    assert ArrayFrom(l) == Indexed(l.props, 2) == [task, Undefined];
    assert TaskError(task) == None;
    assert TaskErrorFrom([task], 1) == None;
    assert TaskErrorFrom([task, Undefined], 1) == Some(TaskInvalid);
  }

  /**
   * A task list whose `length` is the string "1" is array-like, so `lint`
   * goes on to check its one task, which passes.
   */
  lemma StringLengthTasksChecked(task: JsValue)
    requires HasHook(task, "execute")
    ensures TasksError(OneTaskList(task)) == None
  {
    OneTaskListReads(task);
    assert TaskError(task) == None;
    assert TaskErrorFrom([task], 0) == None by {
      assert TaskErrorFrom([task], 1) == None;
    }
  }

  /** A list of tasks passes exactly when it is non-empty and every task is an object with an execute hook. */
  lemma {:induction false} TaskListAccepted(tasks: seq<JsValue>, i: nat)
    requires i <= |tasks|
    ensures TaskErrorFrom(tasks, i).None? <==>
      forall k :: i <= k < |tasks| ==>
        Truthy(tasks[k]) && IsObject(tasks[k]) && (HasHook(tasks[k], "execute") || HasHook(tasks[k], "executeMicrotask"))
    ensures TaskErrorFrom(tasks, i).Some? ==> exists k :: i <= k < |tasks| && TaskError(tasks[k]) == TaskErrorFrom(tasks, i)
    decreases |tasks| - i
  {
    if i < |tasks| {
      TaskListAccepted(tasks, i + 1);
    }
  }

  /**
   * A task with `execute` and no `executeMicrotask` passes `lint`'s task
   * check, yet the parallel callback as written throws at it for every
   * visited node.
   */
  lemma ExecuteOnlyTaskBreaksParallelCallback(task: JsValue, visit: Visit, passageName: JsValue)
    requires HasHook(task, "execute") && !HasHook(task, "executeMicrotask")
    ensures TaskErrorFrom([task], 0) == None
    ensures FanOutFrom([task], 0, visit, passageName) == Run([], Some(MicrotaskNotAFunction(0)))
  {
    assert TaskErrorFrom([task], 1) == None;
  }

  /**
   * With the correction, every task that passes `lint`'s check is served in
   * parallel and the callback never throws: a task's `execute` is called on
   * the shared fragment exactly when it has one, and otherwise each visited
   * node reaches its `executeMicrotask`.
   */
  lemma CheckedTasksServedInParallel(tasks: seq<JsValue>, visit: Visit, passageName: JsValue)
    requires TaskErrorFrom(tasks, 0) == None
    ensures FanOutCorrectedFrom(tasks, 0, visit, passageName).error.None?
    ensures forall j :: 0 <= j < |tasks| ==>
      (HookCall(Execute, j, 0) in ExecuteCallsFrom(tasks, 0) <==> HasHook(tasks[j], "execute"))
    ensures forall j :: 0 <= j < |tasks| ==>
      var fan := FanOutCorrectedFrom(tasks, 0, visit, passageName);
      (MicrotaskCall(j, 0, visit, passageName) in fan.trace <==> !HasHook(tasks[j], "execute"))
  {
    TaskListAccepted(tasks, 0);
  }

  /**
   * `tasks.length` chambers are built when the merged `runInIsolation` is
   * `true` (for a non-empty list), exactly one otherwise; the first is the
   * stage-two fragment and every clone is empty.
   */
  lemma ChamberCount(copy: Options, tasks: seq<JsValue>, docFrag: Fragment)
    ensures |Chambers(docFrag, Clones(Len(copy, Array(tasks))))| ==
      if Get(Object(copy), "runInIsolation") == Bool(true) && tasks != [] then |tasks| else 1
    ensures Chambers(docFrag, Clones(Len(copy, Array(tasks))))[0] == docFrag
    ensures forall i :: 1 <= i < |Chambers(docFrag, Clones(Len(copy, Array(tasks))))| ==>
      Chambers(docFrag, Clones(Len(copy, Array(tasks))))[i].childNodes == []
  {
    assert (|tasks| as real).Floor == |tasks|;
  }

  /** Stage one is handed a list, and the generator refuses anything but an element. */
  lemma StageOneAlwaysRefuses(children: seq<JsValue>, tasks: JsValue, copy: Options, baseline: Options, env: Env)
    ensures FromStageOne(children, tasks, copy, baseline, env).result.Failure?
    ensures FromStageOne(children, tasks, copy, baseline, env).trace == []
    ensures Merge(baseline, Object(copy), env).Success? ==>
      FromStageOne(children, tasks, copy, baseline, env).result == Failure(StageOneFailed(StageOne.NotAnElement))
  {
  }

  /**
   * As written, `lint` never reaches `runTasks`: whatever it is given, it
   * throws before any task hook is called.
   */
  lemma LintNeverRunsTasks(storyData: JsValue, tasks: JsValue, options: JsValue, baseline: Options, env: Env)
    ensures Lint(storyData, tasks, options, baseline, env).result.Failure?
    ensures Lint(storyData, tasks, options, baseline, env).trace == []
  {
    var m := Merge(baseline, if Truthy(options) then options else Object(map[]), env);
    if m.Success? {
      MergedLintNeverRunsTasks(storyData, tasks, m.value, baseline, env);
    }
  }

  /** Once the options are merged, `lint` still throws before any task hook is called. */
  lemma MergedLintNeverRunsTasks(storyData: JsValue, tasks: JsValue, copy: Options, baseline: Options, env: Env)
    ensures LintWith(storyData, tasks, copy, baseline, env).result.Failure?
    ensures LintWith(storyData, tasks, copy, baseline, env).trace == []
  {
    var sd := StoryDataOf(storyData, copy, env);
    if sd.Success? && TasksError(tasks).None? {
      var f := Filtered(sd.value, Object(copy), baseline, env);
      if f.Success? {
        StageOneAlwaysRefuses(Elements(f.value), tasks, copy, baseline, env);
      }
    }
  }

  /**
   * When the first merge stored the default ignore rules, the filter's own
   * merge receives them as an argument, and `isIIgnores` refuses them: lint
   * stops in the filter once the story data and the tasks pass.
   */
  lemma DefaultIgnoresStopTheFilter(storyData: JsValue, tasks: JsValue, copy: Options, baseline: Options, env: Env)
    requires "ignores" in copy && copy["ignores"] == DefaultIgnores()
    requires StoryDataOf(storyData, copy, env).Success? && TasksError(tasks).None?
    ensures LintWith(storyData, tasks, copy, baseline, env).result.Failure?
    ensures LintWith(storyData, tasks, copy, baseline, env).result.error.LintFilterFailed?
    ensures LintWith(storyData, tasks, copy, baseline, env).result.error.filterError.MergeFailed?
  {
    RemergeOfDefaultIgnoresFails(copy, baseline, env);
    ElementsHaveChildNodes(StoryDataOf(storyData, copy, env).value);
  }

  lemma ElementsHaveChildNodes(sd: JsValue)
    requires IsElementLike(sd)
    ensures ChildNodesOf(sd) == Some(DomNodes(sd.node.childNodes))
  {
    assert Get(sd, "length") == Undefined;
  }

  /** Merging a copy that holds the default ignore rules fails: they arrive as the argument's own. */
  lemma RemergeOfDefaultIgnoresFails(copy: Options, baseline: Options, env: Env)
    requires "ignores" in copy && copy["ignores"] == DefaultIgnores()
    ensures Merge(baseline, Object(copy), env).Failure?
  {
    DefaultIgnoresFailGuard();
    RemergeFailsOnUnguardedIgnores(copy, baseline, env);
  }
}
