/**
 * `DocumentFragmentIntermediateRepresentationGenerator.generate`, the
 * stage-two generator the linter calls: a document comes from the options'
 * `documentConstructor`, and a fresh fragment receives the story element
 * built from the passage records. The passages themselves are not checked.
 */
module DocumentFragmentIntermediateRepresentationGenerator {
  import opened Wrappers
  import opened Text
  import opened Dom
  import opened JsValues
  import opened Externals
  import opened MergeOptions
  import opened PassageDataFactory
  import opened StoryDataFactory

  datatype GenerateError =
    /** Reading `documentConstructor` off a `null` or `undefined` options value: a `TypeError`. */
    | OptionsTypeError
    /** 'The documentConstructor argument did not produce a valid document.' */
    | DocumentInvalid

  /** The outcome, and how many times `documentConstructor` was called. */
  datatype Generated = Generated(result: Result<Fragment, GenerateError>, constructorCalls: nat)

  /** `options[key] && typeof options[key] === 'function'`. */
  predicate HasConstructor(options: JsValue, key: string)
  {
    Truthy(OwnProperty(options, key)) && IsFunction(OwnProperty(options, key))
  }

  /** `doc` after the conditional call of `options[key]`: its product, or `null`. */
  function DocumentOf(options: JsValue, key: string, env: Env): JsValue
  {
    if HasConstructor(options, key) then env.call(OwnProperty(options, key).id) else Null
  }

  /** `generate(passages, options)` with the document built by the option named `key`. */
  function GenerateReading(key: string, passages: seq<Passage>, options: JsValue, env: Env): Generated
  {
    if Nullish(options) then Generated(Failure(OptionsTypeError), 0)
    else
      var calls := if HasConstructor(options, key) then 1 else 0;
      if !IsDocumentLike(DocumentOf(options, key, env)) then Generated(Failure(DocumentInvalid), calls)
      else Generated(Success(Fragment([StoryElement(passages, env)])), calls)
  }

  /** `generate(passages, options)` as written: the document comes from `documentConstructor`. */
  function Generate(passages: seq<Passage>, options: JsValue, env: Env): Generated
  {
    GenerateReading("documentConstructor", passages, options, env)
  }

  /**
   * `generate` as evidently intended: the document comes from the
   * `documentGetter` option that the option merger does set.
   */
  function GenerateCorrected(passages: seq<Passage>, options: JsValue, env: Env): (r: Generated)
    ensures r.constructorCalls <= 1
    ensures r.result.Success? ==> r.result.value == Fragment([StoryElement(passages, env)])
    ensures !Nullish(options) ==>
      (r.result.Success? <==> IsDocumentLike(DocumentOf(options, "documentGetter", env)))
  {
    GenerateReading("documentGetter", passages, options, env)
  }

  /** `generate`, step by step: `doc` starts `null`, the fragment starts empty and gets one `append`. */
  method GenerateFragment(passages: seq<Passage>, options: JsValue, env: Env)
    returns (result: Result<Fragment, GenerateError>, constructorCalls: nat)
    ensures Generated(result, constructorCalls) == Generate(passages, options, env)
  {
    if Nullish(options) {
      return Failure(OptionsTypeError), 0;
    }
    var doc := Null;
    constructorCalls := 0;
    var ctor := OwnProperty(options, "documentConstructor");
    if Truthy(ctor) && IsFunction(ctor) {
      doc := env.call(ctor.id);
      constructorCalls := constructorCalls + 1;
    }
    assert doc == DocumentOf(options, "documentConstructor", env);
    assert constructorCalls == if HasConstructor(options, "documentConstructor") then 1 else 0;
    if !IsDocumentLike(doc) {
      return Failure(DocumentInvalid), constructorCalls;
    }
    var docFragment := Fragment([]);
    var storyData, _ := BuildStoryData(passages, env);
    docFragment := Fragment(docFragment.childNodes + [storyData]);
    assert docFragment.childNodes == [StoryElement(passages, env)];
    return Success(docFragment), constructorCalls;
  }

  /** `documentConstructor` is called once exactly when it is a function. */
  lemma ConstructorCalledOnceIffFunction(passages: seq<Passage>, options: JsValue, env: Env)
    requires !Nullish(options)
    ensures Generate(passages, options, env).constructorCalls == 1 <==> IsFunction(OwnProperty(options, "documentConstructor"))
    ensures Generate(passages, options, env).constructorCalls <= 1
  {
  }

  /**
   * A product that is not document-like, including the `null` left when there
   * is no constructor, is refused; otherwise the result is a fragment whose
   * only child is the story element, whatever the passages, none included.
   */
  lemma FragmentShape(passages: seq<Passage>, options: JsValue, env: Env)
    requires !Nullish(options)
    ensures !HasConstructor(options, "documentConstructor") ==> Generate(passages, options, env).result == Failure(DocumentInvalid)
    ensures Generate(passages, options, env).result.Success? <==> IsDocumentLike(DocumentOf(options, "documentConstructor", env))
    ensures Generate(passages, options, env).result.Success? ==>
      && |Generate(passages, options, env).result.value.childNodes| == 1
      && Generate(passages, options, env).result.value.childNodes[0] == StoryElement(passages, env)
      && |Generate(passages, options, env).result.value.childNodes[0].childNodes| == |passages|
  {
  }

  /** The story element is what `querySelector('tw-storydata')` finds in the returned fragment. */
  lemma StoryDataIsFound(passages: seq<Passage>, options: JsValue, env: Env)
    requires Generate(passages, options, env).result.Success?
    ensures QuerySelector(Generate(passages, options, env).result.value, "tw-storydata") == Some(StoryElement(passages, env))
  {
    var e := StoryElement(passages, env);
    assert Generate(passages, options, env).result.value == Fragment([e] + []);
    StoryTagIsLower();
    QueryFindsLeadingElement(e, [], "tw-storydata");
  }

  lemma StoryTagIsLower()
    ensures ToLower("tw-storydata") == "tw-storydata"
  {
    LowerOfLower("tw-storydata");
  }

  /**
   * The key this generator reads is not one of the six the option merger
   * sets: over options merged from stored options without that key, the
   * generator always refuses, having called nothing.
   */
  lemma MergedOptionsBuildNoDocument(passages: seq<Passage>, baseline: Options, args: JsValue, env: Env)
    requires Merge(baseline, args, env).Success?
    requires "documentConstructor" !in baseline
    ensures Generate(passages, Object(Merge(baseline, args, env).value), env) == Generated(Failure(DocumentInvalid), 0)
  {
    MergeKeys(baseline, args, env);
    ConstructorIsNotAField();
  }

  lemma ConstructorIsNotAField()
    ensures "documentConstructor" !in FieldKeys()
  {
    forall f: Field | f in FieldOrder
      ensures FieldKey(f) != "documentConstructor"
    {
      assert |FieldKey(f)| < |"documentConstructor"|;
    }
  }

  /**
   * Reading `documentGetter` instead, the stage works over every merged
   * options value: the getter is always a function there, it is called once,
   * and the stage succeeds exactly when its product is document-like.
   */
  lemma CorrectedStageUsesMergedGetter(passages: seq<Passage>, baseline: Options, args: JsValue, env: Env)
    requires Merge(baseline, args, env).Success?
    ensures var m := Merge(baseline, args, env).value;
      var g := GenerateCorrected(passages, Object(m), env);
      && g.constructorCalls == 1
      && (g.result.Success? <==> IsDocumentLike(env.call(m["documentGetter"].id)))
  {
    MergedOptionsAreWellTyped(baseline, args, env);
  }
}
