/**
 * `DocumentFragmentIRGenerator.generate`, the validating stage-two
 * generator: a chain of checks on the passages value and the options, one
 * call of `options.documentFactory`, then a fresh fragment that receives the
 * story element. Its first check uses `isArrayLikeObject`, which holds only
 * for values that are NOT array-like, so every genuine list of passages is
 * refused there.
 */
module DocumentFragmentIRGenerator {
  import opened Wrappers
  import opened Dom
  import opened JsValues
  import opened TypeGuards
  import opened Externals
  import opened PassageDataFactory
  import opened StoryDataFactory

  datatype GenerateError =
    | PassagesInvalid
    /** `passages.length` read off `null` or `undefined`, which the first check lets through. */
    | PassagesTypeError
    | PassagesEmpty
    | OptionsInvalid
    | DocumentFactoryInvalid
    | DocumentInvalid

  /** The outcome, and how many times `documentFactory` was called. */
  datatype Generated = Generated(result: Result<Fragment, GenerateError>, factoryCalls: nat)

  /** The checks on the passages value that come before the options are looked at. */
  predicate PassagesPass(passages: JsValue)
  {
    IsArrayLikeObject(passages) && !Nullish(passages) && Get(passages, "length") != Num(0.0)
  }

  /** The checks on the options that come before `documentFactory` is called. */
  predicate OptionsPass(options: JsValue)
  {
    Truthy(options) && IsObject(options) && IsFunction(OwnProperty(options, "documentFactory"))
  }

  /** The checks in their order, ending with the document `documentFactory()` produced. */
  function Check(passages: JsValue, options: JsValue, env: Env): (r: Result<JsValue, GenerateError>)
    ensures r.Success? ==> IsDocumentLike(r.value)
    ensures r.Success? <==> PassagesPass(passages) && OptionsPass(options)
                            && IsDocumentLike(env.call(OwnProperty(options, "documentFactory").id))
  {
    if !IsArrayLikeObject(passages) then Failure(PassagesInvalid)
    else if Nullish(passages) then Failure(PassagesTypeError)
    else if Get(passages, "length") == Num(0.0) then Failure(PassagesEmpty)
    else if !Truthy(options) || !IsObject(options) then Failure(OptionsInvalid)
    else
      var factory := OwnProperty(options, "documentFactory");
      if !IsFunction(factory) then Failure(DocumentFactoryInvalid)
      else
        var doc := env.call(factory.id);
        if !IsDocumentLike(doc) then Failure(DocumentInvalid) else Success(doc)
  }

  /** `documentFactory` is called when, and only when, every check before it passes. */
  function FactoryCalls(passages: JsValue, options: JsValue): nat
  {
    if PassagesPass(passages) && OptionsPass(options) then 1 else 0
  }

  /**
   * A passage record as the JavaScript object the generator receives; the
   * checks look only at the list around it.
   */
  function PassageValue(p: Passage): JsValue
  {
    Object(map["passageName" := Str(p.passageName), "tags" := Array(Strings(p.tags))])
  }

  function PassageValues(passages: seq<Passage>): (r: seq<JsValue>)
    ensures |r| == |passages|
  {
    if passages == [] then [] else [PassageValue(passages[0])] + PassageValues(passages[1..])
  }

  /** `generate(passages, options)` on a list of passage records. */
  function Generate(passages: seq<Passage>, options: JsValue, env: Env): Generated
  {
    var value := Array(PassageValues(passages));
    var calls := FactoryCalls(value, options);
    match Check(value, options, env)
    case Failure(e) => Generated(Failure(e), calls)
    case Success(_) => Generated(Success(Fragment([StoryElement(passages, env)])), calls)
  }

  /**
   * `generate`, step by step: the checks, the one `documentFactory()` call
   * into `doc`, then one fragment with one `append`.
   */
  method GenerateFragment(passages: seq<Passage>, options: JsValue, env: Env)
    returns (result: Result<Fragment, GenerateError>, factoryCalls: nat)
    ensures Generated(result, factoryCalls) == Generate(passages, options, env)
  {
    var value := Array(PassageValues(passages));
    var doc;
    doc, factoryCalls := RunChecks(value, options, env);
    if doc.Failure? {
      return Failure(doc.error), factoryCalls;
    }
    var docFragment := Fragment([]);
    var storyData, _ := BuildStoryData(passages, env);
    docFragment := Fragment(docFragment.childNodes + [storyData]);
    assert docFragment.childNodes == [StoryElement(passages, env)];
    return Success(docFragment), factoryCalls;
  }

  /** The checks of `generate` in their order, with the conditional `documentFactory()` call. */
  method RunChecks(value: JsValue, options: JsValue, env: Env)
    returns (doc: Result<JsValue, GenerateError>, factoryCalls: nat)
    ensures doc == Check(value, options, env)
    ensures factoryCalls == FactoryCalls(value, options)
  {
    factoryCalls := 0;
    if !IsArrayLikeObject(value) {
      return Failure(PassagesInvalid), factoryCalls;
    } else if Nullish(value) {
      return Failure(PassagesTypeError), factoryCalls;
    } else if Get(value, "length") == Num(0.0) {
      return Failure(PassagesEmpty), factoryCalls;
    } else if !Truthy(options) || !IsObject(options) {
      return Failure(OptionsInvalid), factoryCalls;
    }
    var product := Null;
    var factory := OwnProperty(options, "documentFactory");
    if IsFunction(factory) {
      product := env.call(factory.id);
      factoryCalls := factoryCalls + 1;
    } else {
      return Failure(DocumentFactoryInvalid), factoryCalls;
    }
    if !IsDocumentLike(product) {
      return Failure(DocumentInvalid), factoryCalls;
    }
    return Success(product), factoryCalls;
  }

  /**
   * Each check has its own error, and the first one that fails decides:
   * passages guard, `length` of a nullish value, empty passages, options not
   * an object, no `documentFactory` function, a product that is not a document.
   */
  lemma CheckOrder(passages: JsValue, options: JsValue, env: Env)
    ensures Check(passages, options, env) == Failure(PassagesInvalid) <==> !IsArrayLikeObject(passages)
    ensures Check(passages, options, env) == Failure(PassagesTypeError) <==>
      IsArrayLikeObject(passages) && Nullish(passages)
    ensures Check(passages, options, env) == Failure(PassagesEmpty) <==>
      IsArrayLikeObject(passages) && !Nullish(passages) && Get(passages, "length") == Num(0.0)
    ensures Check(passages, options, env) == Failure(OptionsInvalid) <==>
      PassagesPass(passages) && (!Truthy(options) || !IsObject(options))
    ensures Check(passages, options, env) == Failure(DocumentFactoryInvalid) <==>
      PassagesPass(passages) && Truthy(options) && IsObject(options)
      && !IsFunction(OwnProperty(options, "documentFactory"))
    ensures Check(passages, options, env) == Failure(DocumentInvalid) <==>
      PassagesPass(passages) && OptionsPass(options)
      && !IsDocumentLike(env.call(OwnProperty(options, "documentFactory").id))
  {
  }

  /** The factory is called exactly when its product is what decides the outcome. */
  lemma FactoryCalledOnceBeforeVerdict(passages: JsValue, options: JsValue, env: Env)
    ensures FactoryCalls(passages, options) <= 1
    ensures FactoryCalls(passages, options) == 1 <==>
      Check(passages, options, env).Success? || Check(passages, options, env) == Failure(DocumentInvalid)
  {
  }

  /**
   * As written, every list of passages, empty or not, is refused by the first
   * check, before the options are looked at and without calling the factory.
   */
  lemma EveryListIsRefused(passages: seq<Passage>, options: JsValue, env: Env)
    ensures Generate(passages, options, env) == Generated(Failure(PassagesInvalid), 0)
  {
    ArraysFailArrayLikeGuard(PassageValues(passages));
  }

  /** Values that do pass the first check: anything falsy, and objects short of an array method. */
  lemma NonArraysPassFirstCheck(options: JsValue, env: Env)
    ensures Check(Undefined, options, env) == Failure(PassagesTypeError)
    ensures Check(Str(""), options, env) == Failure(PassagesEmpty)
    ensures Check(Object(map["length" := Num(0.0)]), options, env) == Failure(PassagesEmpty)
  {
    assert Get(Object(map["length" := Num(0.0)]), "length") == Num(0.0);
    assert !IsFunction(Get(Object(map["length" := Num(0.0)]), "filter"));
  }
}
