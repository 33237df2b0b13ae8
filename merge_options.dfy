/**
 * `Linter.mergeOptions`: the six option fields are resolved one after the
 * other, each from the argument when it has the key, else from the stored
 * baseline when it has the key, else from a default.
 */
module MergeOptions {
  import opened Wrappers
  import opened Text
  import opened JsValues
  import opened Constants
  import opened TypeGuards
  import opened Externals

  /** An options object: its own keys and their values. */
  type Options = map<string, JsValue>

  datatype Field = DetectionMode | DocumentGetter | Format | Ignores | RunInIsolation | Version

  /** `ARGS_` errors are about the argument, `THIS_` errors about the baseline. */
  datatype Source = Args | Baseline

  datatype MergeError =
    | Invalid(field: Field, source: Source)
    | Unrecognized(field: Field, source: Source)
    | NotSemantic(source: Source)
    | ArgsStoryDataInvalid
    /** `isIIgnores` itself threw, reading the `length` of a `null` nodeTypes. */
    | IgnoresGuardTypeError

  /** The resolution order. */
  const FieldOrder: seq<Field> := [DetectionMode, DocumentGetter, Format, Ignores, RunInIsolation, Version]

  function FieldKey(f: Field): string
  {
    match f
    case DetectionMode => "detectionMode"
    case DocumentGetter => "documentGetter"
    case Format => "format"
    case Ignores => "ignores"
    case RunInIsolation => "runInIsolation"
    case Version => "version"
  }


  /** The built-in `documentGetter` function. */
  const BuiltinDocumentGetter: JsValue := Function("documentGetter")

  /** `args && typeof args === 'object' ? args : {}`. */
  function ArgsObject(args: JsValue): JsValue
  {
    if Truthy(args) && IsObject(args) then args else Object(map[])
  }

  /** The check applied to a present value, and the value stored when it passes. */
  function Validate(f: Field, src: Source, v: JsValue, env: Env): Result<JsValue, MergeError>
  {
    match f
    case DetectionMode =>
      if !Truthy(v) || !v.Str? then Failure(Invalid(f, src))
      else if ToLower(v.s) !in DetectionModes then Failure(Unrecognized(f, src))
      else Success(Str(ToLower(v.s)))
    case Format =>
      if !Truthy(v) || !v.Str? then Failure(Invalid(f, src))
      else if ToLower(v.s) !in Formats then Failure(Unrecognized(f, src))
      else Success(Str(ToLower(v.s)))
    case DocumentGetter =>
      if !IsFunction(v) then Failure(Invalid(f, src)) else Success(v)
    case Ignores =>
      if IsIIgnores(v).None? then Failure(IgnoresGuardTypeError)
      else if !IsIIgnores(v).value then Failure(Invalid(f, src))
      else Success(v)
    case RunInIsolation =>
      if !v.Bool? then Failure(Invalid(f, src)) else Success(v)
    case Version =>
      if !Truthy(v) || !v.Str? then Failure(Invalid(f, src))
      else if !env.semverValid(v.s) then Failure(NotSemantic(src))
      else Success(v)
  }

  /** The story data a detector may be given: a non-empty string or an element. */
  predicate StoryDataUsable(storyData: JsValue)
  {
    Truthy(storyData) && (storyData.Str? || IsElementLike(storyData))
  }

  /** The value used when neither the argument nor the baseline has the key. */
  function Default(f: Field, opts: Options, a: JsValue, env: Env): Result<JsValue, MergeError>
  {
    match f
    case DetectionMode => Success(Str("manual"))
    case DocumentGetter => Success(BuiltinDocumentGetter)
    case Ignores => Success(DefaultIgnores())
    case RunInIsolation => Success(Bool(false))
    case Format =>
      var storyData := Get(a, "storyData");
      if !StoryDataUsable(storyData) then Failure(ArgsStoryDataInvalid)
      else Success(env.detectFormat(storyData, Get(Object(opts), "detectionMode")))
    case Version =>
      var storyData := Get(a, "storyData");
      if !StoryDataUsable(storyData) then Failure(ArgsStoryDataInvalid)
      else Success(env.detectVersion(storyData, Get(Object(opts), "detectionMode")))
  }

  /** The stored form of an accepted value: mode and format are lower-cased. */
  function Normalized(f: Field, v: JsValue): JsValue
  {
    if f in {DetectionMode, Format} && v.Str? then Str(ToLower(v.s)) else v
  }

  /** The documented default of each field; format and version come from the detectors. */
  function DefaultValue(f: Field, a: JsValue, env: Env, mode: JsValue): JsValue
  {
    match f
    case DetectionMode => Str("manual")
    case DocumentGetter => BuiltinDocumentGetter
    case Ignores => DefaultIgnores()
    case RunInIsolation => Bool(false)
    case Format => env.detectFormat(Get(a, "storyData"), mode)
    case Version => env.detectVersion(Get(a, "storyData"), mode)
  }

  /** Argument first, then the options at hand, then the default. */
  function Chosen(f: Field, opts: Options, a: JsValue, env: Env, mode: JsValue): JsValue
  {
    if HasKey(a, FieldKey(f)) then Normalized(f, Get(a, FieldKey(f)))
    else if FieldKey(f) in opts then Normalized(f, opts[FieldKey(f)])
    else DefaultValue(f, a, env, mode)
  }

  /** One step of the resolver: argument, else baseline, else default. */
  function ResolveField(f: Field, opts: Options, a: JsValue, env: Env): (r: Result<Options, MergeError>)
    ensures r.Success? ==> r.value.Keys == opts.Keys + {FieldKey(f)}
    ensures r.Success? ==> forall k :: k in opts && k != FieldKey(f) ==> r.value[k] == opts[k]
  {
    var key := FieldKey(f);
    var v :=
      if HasKey(a, key) then Validate(f, Args, Get(a, key), env)
      else if key in opts then Validate(f, Baseline, opts[key], env)
      else Default(f, opts, a, env);
    match v
    case Failure(e) => Failure(e)
    case Success(x) => Success(opts[key := x])
  }

  /** Resolves `fields` one after the other, stopping at the first error. */
  function ResolveFields(fields: seq<Field>, opts: Options, a: JsValue, env: Env): Result<Options, MergeError>
  {
    if fields == [] then Success(opts)
    else
      var next :- ResolveField(fields[0], opts, a, env);
      ResolveFields(fields[1..], next, a, env)
  }

  /** `mergeOptions(args)` over the stored options `baseline`. */
  function Merge(baseline: Options, args: JsValue, env: Env): Result<Options, MergeError>
  {
    ResolveFields(FieldOrder, baseline, ArgsObject(args), env)
  }

  /** The error a field raises on its own, judged against the baseline. */
  function FieldError(f: Field, baseline: Options, a: JsValue, env: Env): Option<MergeError>
  {
    var key := FieldKey(f);
    var v :=
      if HasKey(a, key) then Validate(f, Args, Get(a, key), env)
      else if key in baseline then Validate(f, Baseline, baseline[key], env)
      else if f in {Format, Version} && !StoryDataUsable(Get(a, "storyData")) then Failure(ArgsStoryDataInvalid)
      else Success(Null);
    if v.Failure? then Some(v.error) else None
  }

  /** The error of the earliest field in `fields` that has one. */
  function FirstError(fields: seq<Field>, baseline: Options, a: JsValue, env: Env): Option<MergeError>
  {
    if fields == [] then None
    else if FieldError(fields[0], baseline, a, env).Some? then FieldError(fields[0], baseline, a, env)
    else FirstError(fields[1..], baseline, a, env)
  }

  /** A step fails exactly as the field fails on its own, whatever earlier steps stored. */
  lemma ResolveFieldFailsAsFieldError(f: Field, opts: Options, baseline: Options, a: JsValue, env: Env)
    requires FieldKey(f) in opts <==> FieldKey(f) in baseline
    requires FieldKey(f) in opts ==> opts[FieldKey(f)] == baseline[FieldKey(f)]
    ensures ResolveField(f, opts, a, env).Failure? <==> FieldError(f, baseline, a, env).Some?
    ensures ResolveField(f, opts, a, env).Failure? ==>
      ResolveField(f, opts, a, env).error == FieldError(f, baseline, a, env).value
  {
    var key := FieldKey(f);
    if !HasKey(a, key) && key !in opts {
      assert Default(f, opts, a, env).Failure? <==> f in {Format, Version} && !StoryDataUsable(Get(a, "storyData"));
    }
  }

  /** A successful step stores the chosen value: argument, else the options at hand, else the default. */
  lemma ResolveFieldStoresChosen(f: Field, opts: Options, a: JsValue, env: Env)
    requires ResolveField(f, opts, a, env).Success?
    ensures ResolveField(f, opts, a, env).value[FieldKey(f)] == Chosen(f, opts, a, env, Get(Object(opts), "detectionMode"))
  {
    var key := FieldKey(f);
    if !HasKey(a, key) && key !in opts {
      assert Default(f, opts, a, env).value == DefaultValue(f, a, env, Get(Object(opts), "detectionMode"));
    }
  }

  /** The keys of `fields` still hold their baseline values in `opts`. */
  predicate Untouched(fields: seq<Field>, opts: Options, baseline: Options)
  {
    forall k :: 0 <= k < |fields| ==>
      (FieldKey(fields[k]) in opts <==> FieldKey(fields[k]) in baseline)
      && (FieldKey(fields[k]) in opts ==> opts[FieldKey(fields[k])] == baseline[FieldKey(fields[k])])
  }

  /** After a successful first step over distinct fields, the other fields are still distinct and untouched. */
  lemma TailUntouched(fields: seq<Field>, opts: Options, next: Options, baseline: Options, a: JsValue, env: Env)
    requires fields != []
    requires forall i, j :: 0 <= i < j < |fields| ==> fields[i] != fields[j]
    requires Untouched(fields, opts, baseline)
    requires ResolveField(fields[0], opts, a, env) == Success(next)
    ensures forall i, j :: 0 <= i < j < |fields[1..]| ==> fields[1..][i] != fields[1..][j]
    ensures Untouched(fields[1..], next, baseline)
  {
    FieldKeyInjective();
    forall k | 0 <= k < |fields[1..]|
      ensures FieldKey(fields[1..][k]) != FieldKey(fields[0])
    {
      assert fields[1..][k] == fields[k + 1];
    }
  }

  lemma {:induction false} ResolveFieldsFailsAsFirstError(fields: seq<Field>, opts: Options, baseline: Options, a: JsValue, env: Env)
    requires forall i, j :: 0 <= i < j < |fields| ==> fields[i] != fields[j]
    requires Untouched(fields, opts, baseline)
    ensures ResolveFields(fields, opts, a, env).Failure? <==> FirstError(fields, baseline, a, env).Some?
    ensures ResolveFields(fields, opts, a, env).Failure? ==>
      ResolveFields(fields, opts, a, env).error == FirstError(fields, baseline, a, env).value
    decreases |fields|
  {
    if fields != [] {
      ResolveFieldFailsAsFieldError(fields[0], opts, baseline, a, env);
      var r := ResolveField(fields[0], opts, a, env);
      if r.Success? {
        TailUntouched(fields, opts, r.value, baseline, a, env);
        ResolveFieldsFailsAsFirstError(fields[1..], r.value, baseline, a, env);
      }
    }
  }

  /**
   * Fields are resolved in the fixed order detectionMode, documentGetter,
   * format, ignores, runInIsolation, version: the merge fails iff some field
   * fails, and then with the error of the earliest failing field.
   */
  lemma MergeErrorIsEarliestFieldError(baseline: Options, args: JsValue, env: Env)
    ensures Merge(baseline, args, env).Failure? <==> FirstError(FieldOrder, baseline, ArgsObject(args), env).Some?
    ensures Merge(baseline, args, env).Failure? ==>
      Merge(baseline, args, env).error == FirstError(FieldOrder, baseline, ArgsObject(args), env).value
  {
    ResolveFieldsFailsAsFirstError(FieldOrder, baseline, baseline, ArgsObject(args), env);
  }

  function KeysOf(fields: seq<Field>): set<string>
  {
    set f | f in fields :: FieldKey(f)
  }

  /** The six option keys. */
  function FieldKeys(): set<string>
  {
    KeysOf(FieldOrder)
  }

  lemma FieldKeyInjective()
    ensures forall f: Field, g: Field :: f != g ==> FieldKey(f) != FieldKey(g)
  {
    forall f: Field, g: Field | f != g
      ensures FieldKey(f) != FieldKey(g)
    {
      if |FieldKey(f)| == |FieldKey(g)| {
        assert FieldKey(f)[0] != FieldKey(g)[0];
      }
    }
  }

  lemma KeysOfCons(fields: seq<Field>)
    requires fields != []
    ensures KeysOf(fields) == {FieldKey(fields[0])} + KeysOf(fields[1..])
  {
    forall k | k in KeysOf(fields)
      ensures k in {FieldKey(fields[0])} + KeysOf(fields[1..])
    {
      var f :| f in fields && FieldKey(f) == k;
      if f != fields[0] {
        assert f in fields[1..];
      }
    }
  }

  lemma KeyNotInOthers(f: Field, fields: seq<Field>)
    requires f !in fields
    ensures FieldKey(f) !in KeysOf(fields)
  {
    FieldKeyInjective();
  }

  /** Two updates in a row: the first stores `key`, the second the keys `later`. */
  lemma UpdatesCompose(opts: Options, next: Options, last: Options, key: string, later: set<string>)
    requires next.Keys == opts.Keys + {key}
    requires forall k :: k in opts && k != key ==> next[k] == opts[k]
    requires last.Keys == next.Keys + later
    requires forall k :: k in next && k !in later ==> last[k] == next[k]
    ensures last.Keys == opts.Keys + ({key} + later)
    ensures forall k :: k in opts && k !in {key} + later ==> last[k] == opts[k]
  {
  }

  /** Resolving fields stores exactly their keys; every other key keeps its value. */
  lemma {:induction false} ResolveFieldsFrame(fields: seq<Field>, opts: Options, a: JsValue, env: Env)
    requires ResolveFields(fields, opts, a, env).Success?
    ensures ResolveFields(fields, opts, a, env).value.Keys == opts.Keys + KeysOf(fields)
    ensures forall k :: k in opts && k !in KeysOf(fields) ==> ResolveFields(fields, opts, a, env).value[k] == opts[k]
    decreases |fields|
  {
    if fields != [] {
      var first := ResolveField(fields[0], opts, a, env);
      assert first.Success?;
      var next := first.value;
      var r := ResolveFields(fields, opts, a, env);
      assert r == ResolveFields(fields[1..], next, a, env);
      ResolveFieldsFrame(fields[1..], next, a, env);
      KeysOfCons(fields);
      UpdatesCompose(opts, next, r.value, FieldKey(fields[0]), KeysOf(fields[1..]));
    }
  }

  /** The first of the fields lands on its chosen value and leaves the rest untouched. */
  lemma ResolveFieldsHead(fields: seq<Field>, opts: Options, baseline: Options, a: JsValue, env: Env)
    returns (next: Options)
    requires fields != []
    requires forall i, j :: 0 <= i < j < |fields| ==> fields[i] != fields[j]
    requires DetectionMode !in fields
    requires Untouched(fields, opts, baseline)
    requires ResolveFields(fields, opts, a, env).Success?
    ensures ResolveField(fields[0], opts, a, env) == Success(next)
    ensures ResolveFields(fields, opts, a, env) == ResolveFields(fields[1..], next, a, env)
    ensures FieldKey(fields[0]) in next
    ensures next[FieldKey(fields[0])] == Chosen(fields[0], baseline, a, env, Get(Object(opts), "detectionMode"))
    ensures Get(Object(next), "detectionMode") == Get(Object(opts), "detectionMode")
    ensures Untouched(fields[1..], next, baseline)
    ensures FieldKey(fields[0]) !in KeysOf(fields[1..])
  {
    var first := ResolveField(fields[0], opts, a, env);
    assert first.Success?;
    next := first.value;
    var key := FieldKey(fields[0]);
    ResolveFieldStoresChosen(fields[0], opts, a, env);
    HeadKeyFresh(fields);
    assert Untouched(fields, opts, baseline);
    assert (key in opts <==> key in baseline) && (key in opts ==> opts[key] == baseline[key]);
    assert Chosen(fields[0], opts, a, env, Get(Object(opts), "detectionMode"))
        == Chosen(fields[0], baseline, a, env, Get(Object(opts), "detectionMode"));
    assert "detectionMode" in next <==> "detectionMode" in opts;
    assert "detectionMode" in opts ==> next["detectionMode"] == opts["detectionMode"];
    UntouchedTail(fields, opts, next, baseline);
  }

  /** The later fields keep their baseline values when only the first field's key was stored. */
  lemma UntouchedTail(fields: seq<Field>, opts: Options, next: Options, baseline: Options)
    requires fields != []
    requires Untouched(fields, opts, baseline)
    requires next.Keys == opts.Keys + {FieldKey(fields[0])}
    requires forall k :: k in opts && k != FieldKey(fields[0]) ==> next[k] == opts[k]
    requires forall k :: 0 <= k < |fields[1..]| ==> FieldKey(fields[1..][k]) != FieldKey(fields[0])
    ensures Untouched(fields[1..], next, baseline)
  {
    forall k | 0 <= k < |fields[1..]|
      ensures FieldKey(fields[1..][k]) in next <==> FieldKey(fields[1..][k]) in baseline
      ensures FieldKey(fields[1..][k]) in next ==> next[FieldKey(fields[1..][k])] == baseline[FieldKey(fields[1..][k])]
    {
      assert fields[1..][k] == fields[k + 1];
    }
  }

  /** Among distinct fields without the detection mode, the first one's key is nobody else's. */
  lemma HeadKeyFresh(fields: seq<Field>)
    requires fields != []
    requires forall i, j :: 0 <= i < j < |fields| ==> fields[i] != fields[j]
    requires DetectionMode !in fields
    ensures FieldKey(fields[0]) != "detectionMode"
    ensures forall k :: 0 <= k < |fields[1..]| ==> FieldKey(fields[1..][k]) != FieldKey(fields[0])
    ensures FieldKey(fields[0]) !in KeysOf(fields[1..])
  {
    FieldKeyInjective();
    assert FieldKey(fields[0]) != FieldKey(DetectionMode);
    forall k | 0 <= k < |fields[1..]|
      ensures FieldKey(fields[1..][k]) != FieldKey(fields[0])
    {
      assert fields[1..][k] == fields[k + 1];
    }
    assert fields[0] !in fields[1..] by {
      forall k | 0 <= k < |fields[1..]| ensures fields[1..][k] != fields[0] {
        assert fields[1..][k] == fields[k + 1];
      }
    }
    KeyNotInOthers(fields[0], fields[1..]);
  }

  /** Resolving fields other than the detection mode: each lands on its chosen value. */
  lemma {:induction false} ResolveFieldsChosen(fields: seq<Field>, opts: Options, baseline: Options, a: JsValue, env: Env)
    requires forall i, j :: 0 <= i < j < |fields| ==> fields[i] != fields[j]
    requires DetectionMode !in fields
    requires Untouched(fields, opts, baseline)
    requires ResolveFields(fields, opts, a, env).Success?
    ensures forall i :: 0 <= i < |fields| ==>
      FieldKey(fields[i]) in ResolveFields(fields, opts, a, env).value &&
      ResolveFields(fields, opts, a, env).value[FieldKey(fields[i])]
        == Chosen(fields[i], baseline, a, env, Get(Object(opts), "detectionMode"))
    decreases |fields|
  {
    if fields != [] {
      var next := ResolveFieldsHead(fields, opts, baseline, a, env);
      var rest := fields[1..];
      assert forall i, j :: 0 <= i < j < |rest| ==> rest[i] != rest[j] by {
        forall i, j | 0 <= i < j < |rest| ensures rest[i] != rest[j] {
          assert rest[i] == fields[i + 1] && rest[j] == fields[j + 1];
        }
      }
      assert DetectionMode !in rest;
      ResolveFieldsChosen(rest, next, baseline, a, env);
      ResolveFieldsFrame(rest, next, a, env);
      var r := ResolveFields(fields, opts, a, env).value;
      assert r == ResolveFields(rest, next, a, env).value;
      forall i | 0 <= i < |fields|
        ensures FieldKey(fields[i]) in r
        ensures r[FieldKey(fields[i])] == Chosen(fields[i], baseline, a, env, Get(Object(opts), "detectionMode"))
      {
        if i > 0 {
          assert fields[i] == rest[i - 1];
        }
      }
    }
  }

  /** A successful merge is the detection-mode step followed by the other five. */
  lemma MergeFirstStep(baseline: Options, args: JsValue, env: Env) returns (o1: Options)
    requires Merge(baseline, args, env).Success?
    ensures ResolveField(DetectionMode, baseline, ArgsObject(args), env) == Success(o1)
    ensures Merge(baseline, args, env) == ResolveFields(FieldOrder[1..], o1, ArgsObject(args), env)
    ensures FieldOrder[1..] == [DocumentGetter, Format, Ignores, RunInIsolation, Version]
  {
    var a := ArgsObject(args);
    o1 := ResolveField(DetectionMode, baseline, a, env).value;
    assert ResolveFields(FieldOrder, baseline, a, env) == ResolveFields(FieldOrder[1..], o1, a, env);
  }

  /** A successful merge holds the baseline's keys plus the six fields, and nothing else. */
  lemma MergeKeys(baseline: Options, args: JsValue, env: Env)
    requires Merge(baseline, args, env).Success?
    ensures Merge(baseline, args, env).value.Keys == baseline.Keys + FieldKeys()
  {
    var o1 := MergeFirstStep(baseline, args, env);
    ResolveFieldsFrame(FieldOrder[1..], o1, ArgsObject(args), env);
    KeysOfCons(FieldOrder);
  }

  /** A successful merge copies every key other than the six fields unchanged. */
  lemma MergeKeepsOtherKeys(baseline: Options, args: JsValue, env: Env)
    requires Merge(baseline, args, env).Success?
    ensures forall k :: k in baseline && k !in FieldKeys() ==>
      k in Merge(baseline, args, env).value && Merge(baseline, args, env).value[k] == baseline[k]
  {
    var o1 := MergeFirstStep(baseline, args, env);
    ResolveFieldsFrame(FieldOrder[1..], o1, ArgsObject(args), env);
    KeysOfCons(FieldOrder);
  }

  /** After the detection-mode step, the other five keys still hold their baseline values. */
  lemma RestUntouched(baseline: Options, o1: Options, a: JsValue, env: Env)
    requires ResolveField(DetectionMode, baseline, a, env) == Success(o1)
    ensures Untouched(FieldOrder[1..], o1, baseline)
  {
    var rest := FieldOrder[1..];
    assert rest == [DocumentGetter, Format, Ignores, RunInIsolation, Version];
    FieldKeyInjective();
    forall k | 0 <= k < |rest|
      ensures FieldKey(rest[k]) != FieldKey(DetectionMode)
    {
    }
  }

  /** The stored detection mode is the chosen one, and the later steps leave it alone. */
  lemma MergeDetectionMode(baseline: Options, args: JsValue, env: Env) returns (o1: Options)
    requires Merge(baseline, args, env).Success?
    ensures Merge(baseline, args, env) == ResolveFields(FieldOrder[1..], o1, ArgsObject(args), env)
    ensures Untouched(FieldOrder[1..], o1, baseline)
    ensures "detectionMode" in o1
    ensures "detectionMode" in Merge(baseline, args, env).value
    ensures Merge(baseline, args, env).value["detectionMode"] == o1["detectionMode"]
    ensures o1["detectionMode"] == Chosen(DetectionMode, baseline, ArgsObject(args), env, Get(Object(o1), "detectionMode"))
  {
    var a := ArgsObject(args);
    o1 := MergeFirstStep(baseline, args, env);
    ModeStepChosen(baseline, a, env, Get(Object(o1), "detectionMode"));
    RestUntouched(baseline, o1, a, env);
    var rest := FieldOrder[1..];
    ResolveFieldsFrame(rest, o1, a, env);
    KeyNotInOthers(DetectionMode, rest);
  }

  /** The detection-mode step stores the chosen mode, whatever mode the defaults are asked with. */
  lemma ModeStepChosen(baseline: Options, a: JsValue, env: Env, mode: JsValue)
    requires ResolveField(DetectionMode, baseline, a, env).Success?
    ensures "detectionMode" in ResolveField(DetectionMode, baseline, a, env).value
    ensures ResolveField(DetectionMode, baseline, a, env).value["detectionMode"]
      == Chosen(DetectionMode, baseline, a, env, mode)
  {
    ResolveFieldStoresChosen(DetectionMode, baseline, a, env);
    assert DefaultValue(DetectionMode, a, env, mode)
      == DefaultValue(DetectionMode, a, env, Get(Object(baseline), "detectionMode"));
  }

  /**
   * Precedence: each field of a successful merge is the argument's value if
   * the argument has the key, else the baseline's, else the default (the
   * detectors, called with the resolved detection mode, for format and
   * version).
   */
  lemma MergePrecedence(baseline: Options, args: JsValue, env: Env, f: Field)
    requires Merge(baseline, args, env).Success?
    ensures "detectionMode" in Merge(baseline, args, env).value
    ensures FieldKey(f) in Merge(baseline, args, env).value
    ensures Merge(baseline, args, env).value[FieldKey(f)]
      == Chosen(f, baseline, ArgsObject(args), env, Merge(baseline, args, env).value["detectionMode"])
  {
    var o1 := MergeDetectionMode(baseline, args, env);
    StoredKeyRead(o1, "detectionMode");
    if f != DetectionMode {
      MergeLaterField(baseline, args, env, f, o1);
    } else {
      assert FieldKey(f) == "detectionMode";
    }
  }

  /** Reading a stored key of the options object yields its value. */
  lemma StoredKeyRead(o: Options, key: string)
    requires key in o
    ensures Get(Object(o), key) == o[key]
  {
  }

  /** A field after the detection mode lands on its chosen value, under the stored mode. */
  lemma MergeLaterField(baseline: Options, args: JsValue, env: Env, f: Field, o1: Options)
    requires f != DetectionMode
    requires Merge(baseline, args, env).Success?
    requires Merge(baseline, args, env) == ResolveFields(FieldOrder[1..], o1, ArgsObject(args), env)
    requires Untouched(FieldOrder[1..], o1, baseline)
    ensures FieldKey(f) in Merge(baseline, args, env).value
    ensures Merge(baseline, args, env).value[FieldKey(f)]
      == Chosen(f, baseline, ArgsObject(args), env, Get(Object(o1), "detectionMode"))
  {
    var i := LaterFieldIndex(f);
    ResolveFieldsChosen(FieldOrder[1..], o1, baseline, ArgsObject(args), env);
  }

  /** The five fields after the detection mode are distinct, and each field but the mode is among them. */
  lemma LaterFieldIndex(f: Field) returns (i: nat)
    requires f != DetectionMode
    ensures i < |FieldOrder[1..]| && FieldOrder[1..][i] == f
    ensures forall i, j :: 0 <= i < j < |FieldOrder[1..]| ==> FieldOrder[1..][i] != FieldOrder[1..][j]
    ensures DetectionMode !in FieldOrder[1..]
  {
    i := if f == DocumentGetter then 0
      else if f == Format then 1
      else if f == Ignores then 2
      else if f == RunInIsolation then 3
      else 4;
  }

  lemma {:induction false} FirstErrorCoversEveryField(fields: seq<Field>, baseline: Options, a: JsValue, env: Env, f: Field)
    requires f in fields
    ensures FieldError(f, baseline, a, env).Some? ==> FirstError(fields, baseline, a, env).Some?
    ensures FirstError(fields, baseline, a, env).None? ==> FieldError(f, baseline, a, env).None?
    decreases |fields|
  {
    if fields[0] != f {
      assert f in fields[1..];
      FirstErrorCoversEveryField(fields[1..], baseline, a, env, f);
    }
  }

  /** A merge fails whenever any single field fails on its own. */
  lemma MergeFailsOnAnyFieldError(baseline: Options, args: JsValue, env: Env, f: Field)
    requires FieldError(f, baseline, ArgsObject(args), env).Some?
    ensures Merge(baseline, args, env).Failure?
  {
    MergeErrorIsEarliestFieldError(baseline, args, env);
    FirstErrorCoversEveryField(FieldOrder, baseline, ArgsObject(args), env, f);
  }

  /**
   * With `format` (or `version`) in neither the argument nor the baseline, a
   * merge whose argument carries no usable story data fails: it never falls
   * back to a default.
   */
  lemma MergeNeedsStoryDataToDetect(baseline: Options, args: JsValue, env: Env, f: Field)
    requires f == Format || f == Version
    requires !HasKey(ArgsObject(args), FieldKey(f)) && FieldKey(f) !in baseline
    requires !StoryDataUsable(Get(ArgsObject(args), "storyData"))
    ensures Merge(baseline, args, env).Failure?
  {
    MergeFailsOnAnyFieldError(baseline, args, env, f);
  }

  /**
   * A successful merge stores a recognised lower-case detection mode, a
   * function as document getter and a boolean isolation flag.
   */
  lemma MergedOptionsAreWellTyped(baseline: Options, args: JsValue, env: Env)
    requires Merge(baseline, args, env).Success?
    ensures "detectionMode" in Merge(baseline, args, env).value
    ensures "documentGetter" in Merge(baseline, args, env).value
    ensures "runInIsolation" in Merge(baseline, args, env).value
    ensures var r := Merge(baseline, args, env).value;
      r["detectionMode"].Str? && r["detectionMode"].s in DetectionModes
      && r["documentGetter"].Function? && r["runInIsolation"].Bool?
  {
    MergedFieldValid(baseline, args, env, DetectionMode);
    MergedFieldValid(baseline, args, env, DocumentGetter);
    MergedFieldValid(baseline, args, env, RunInIsolation);
  }

  /** The stored value of a field is the chosen one, and that field raised no error of its own. */
  lemma MergedFieldValid(baseline: Options, args: JsValue, env: Env, f: Field)
    requires Merge(baseline, args, env).Success?
    ensures "detectionMode" in Merge(baseline, args, env).value
    ensures FieldKey(f) in Merge(baseline, args, env).value
    ensures FieldError(f, baseline, ArgsObject(args), env).None?
    ensures Merge(baseline, args, env).value[FieldKey(f)]
      == Chosen(f, baseline, ArgsObject(args), env, Merge(baseline, args, env).value["detectionMode"])
  {
    MergeErrorIsEarliestFieldError(baseline, args, env);
    FirstErrorCoversEveryField(FieldOrder, baseline, ArgsObject(args), env, f);
    MergePrecedence(baseline, args, env, f);
  }

  /** Options whose own `ignores` fails the guard cannot be merged again as an argument. */
  lemma RemergeFailsOnUnguardedIgnores(copy: Options, baseline: Options, env: Env)
    requires "ignores" in copy
    requires IsIIgnores(copy["ignores"]) != Some(true)
    ensures Merge(baseline, Object(copy), env).Failure?
  {
    assert ArgsObject(Object(copy)) == Object(copy);
    assert Validate(Ignores, Args, Get(Object(copy), "ignores"), env).Failure?;
    assert FieldError(Ignores, baseline, ArgsObject(Object(copy)), env).Some?;
    MergeFailsOnAnyFieldError(baseline, Object(copy), env, Ignores);
  }

  /** With `ignores` set by nobody, the merged options hold the default ignores. */
  lemma DefaultIgnoresStored(baseline: Options, args: JsValue, env: Env)
    requires Merge(baseline, args, env).Success?
    requires !HasKey(ArgsObject(args), "ignores") && "ignores" !in baseline
    ensures "ignores" in Merge(baseline, args, env).value
    ensures Merge(baseline, args, env).value["ignores"] == DefaultIgnores()
  {
    MergePrecedence(baseline, args, env, Ignores);
    ChosenDefault(Ignores, baseline, ArgsObject(args), env, Merge(baseline, args, env).value["detectionMode"]);
  }

  /** A field that neither the argument nor the options at hand set takes its default. */
  lemma ChosenDefault(f: Field, opts: Options, a: JsValue, env: Env, mode: JsValue)
    requires !HasKey(a, FieldKey(f)) && FieldKey(f) !in opts
    ensures Chosen(f, opts, a, env, mode) == DefaultValue(f, a, env, mode)
  {
  }

  /**
   * Merging again over a merged result whose ignores were defaulted fails:
   * the stored `constants.ignores` does not pass `isIIgnores`, so unless the
   * new argument brings its own ignores the baseline check rejects it.
   */
  lemma RemergeOverDefaultIgnoresFails(baseline: Options, args: JsValue, env: Env, again: JsValue)
    requires Merge(baseline, args, env).Success?
    requires !HasKey(ArgsObject(args), "ignores") && "ignores" !in baseline
    requires !HasKey(ArgsObject(again), "ignores")
    ensures Merge(Merge(baseline, args, env).value, again, env).Failure?
  {
    DefaultIgnoresStored(baseline, args, env);
    DefaultIgnoresFailGuard();
    StoredIgnoresRejected(Merge(baseline, args, env).value, again, env);
  }

  /** Stored ignores that fail the guard make every merge fail whose argument brings none of its own. */
  lemma StoredIgnoresRejected(baseline: Options, args: JsValue, env: Env)
    requires "ignores" in baseline && IsIIgnores(baseline["ignores"]) == Some(false)
    requires !HasKey(ArgsObject(args), "ignores")
    ensures Merge(baseline, args, env).Failure?
  {
    assert FieldError(Ignores, baseline, ArgsObject(args), env) == Some(Invalid(Ignores, Baseline));
    MergeFailsOnAnyFieldError(baseline, args, env, Ignores);
  }
}
