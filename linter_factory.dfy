/**
 * `linterFactory`: the format and the version are taken from the options
 * when truthy, and otherwise asked of the detectors, but only under the
 * exact detection mode 'auto'. A parser is then built for the format, and
 * only after that are the results written back into the options object the
 * caller passed in, which is the same object and not a copy.
 */
module LinterFactory {
  import opened Wrappers
  import opened JsValues
  import opened Externals

  /** A caller's options object, updated in place. */
  class OptionsObject {
    var props: map<string, JsValue>

    constructor(props0: map<string, JsValue>)
      ensures props == props0
    {
      props := props0;
    }
  }

  datatype FactoryError =
    /** 'No format was provided, but the detection mode was manual.' */
    | FormatNotProvided
    /** 'No format could be detected.' */
    | FormatNotDetected
    /** 'No version was provided, but the detection mode was manual.' */
    | VersionNotProvided
    /** 'No version could be detected.' */
    | VersionNotDetected
    /** Whatever `parserFactory(format)` throws for the resolved format. */
    | ParserNotBuilt

  datatype Resolution = Resolution(format: JsValue, version: JsValue)

  /** `opts[key]` on a plain options object. */
  function Prop(props: map<string, JsValue>, key: string): JsValue
  {
    if key in props then props[key] else Undefined
  }

  /**
   * One of the two resolution steps: the option itself when truthy, else
   * the detector's answer under detection mode 'auto' (compared exactly);
   * a falsy answer is an error of its own.
   */
  function ResolveOne(given: JsValue, mode: JsValue, detected: JsValue, notProvided: FactoryError,
                      notDetected: FactoryError): (r: Result<JsValue, FactoryError>)
    ensures Truthy(given) ==> r == Success(given)
    ensures !Truthy(given) && mode != Str("auto") ==> r == Failure(notProvided)
    ensures !Truthy(given) && mode == Str("auto") ==>
      r == if Truthy(detected) then Success(detected) else Failure(notDetected)
  {
    var v := if Truthy(given) then given else if mode == Str("auto") then detected else Undefined;
    if !Truthy(given) && mode != Str("auto") then Failure(notProvided)
    else if !Truthy(v) then Failure(notDetected)
    else Success(v)
  }

  /**
   * The format, then the version, resolved against the options `props`,
   * then the parser built for the format.
   */
  function Resolve(props: map<string, JsValue>, storyData: JsValue, env: Env): (r: Result<Resolution, FactoryError>)
    ensures r.Success? ==> Truthy(r.value.format) && Truthy(r.value.version)
    ensures r.Success? ==> !env.parserFactoryThrows(r.value.format)
  {
    var mode := Prop(props, "detectionMode");
    var format :- ResolveOne(Prop(props, "format"), mode, env.detectFormat(storyData, Undefined),
                             FormatNotProvided, FormatNotDetected);
    var version :- ResolveOne(Prop(props, "version"), mode, env.detectVersion(storyData, Undefined),
                              VersionNotProvided, VersionNotDetected);
    if env.parserFactoryThrows(format) then Failure(ParserNotBuilt)
    else Success(Resolution(format, version))
  }

  /** The options after the four writes at the end of the factory. */
  function Written(props: map<string, JsValue>, res: Resolution): (r: map<string, JsValue>)
    ensures r.Keys == props.Keys + {"format", "version", "detectionMode", "documentGetter"}
    ensures r["format"] == res.format && r["version"] == res.version
    ensures forall k :: k in props && k !in {"format", "version", "detectionMode", "documentGetter"} ==> r[k] == props[k]
  {
    var mode := Prop(props, "detectionMode");
    props["format" := res.format]["version" := res.version]
         ["detectionMode" := if Truthy(mode) then mode else Str("manual")]
         ["documentGetter" := Prop(props, "documentGetter")]
  }

  /**
   * `linterFactory(storyData, options)`: `opts` is the caller's object when
   * there is one (`null` stands for every falsy `options`) and a fresh `{}`
   * otherwise. The resolved values are written into it only when both
   * resolutions succeed and the parser factory does not throw.
   */
  method Factory(storyData: JsValue, options: OptionsObject?, env: Env)
    returns (r: Result<Resolution, FactoryError>, opts: OptionsObject)
    modifies options
    ensures options != null ==> opts == options
    ensures options == null ==> fresh(opts)
    ensures r == Resolve(if options != null then old(options.props) else map[], storyData, env)
    ensures r.Success? ==> opts.props == Written(old(opts.props), r.value)
    ensures r.Failure? ==> opts.props == (if options != null then old(options.props) else map[])
  {
    if options != null {
      opts := options;
    } else {
      opts := new OptionsObject(map[]);
    }
    var format := Prop(opts.props, "format");
    if !Truthy(format) {
      if Prop(opts.props, "detectionMode") == Str("auto") {
        format := env.detectFormat(storyData, Undefined);
      } else {
        return Failure(FormatNotProvided), opts;
      }
    }
    if !Truthy(format) {
      return Failure(FormatNotDetected), opts;
    }
    var version := Prop(opts.props, "version");
    if !Truthy(version) {
      if Prop(opts.props, "detectionMode") == Str("auto") {
        version := env.detectVersion(storyData, Undefined);
      } else {
        return Failure(VersionNotProvided), opts;
      }
    }
    if !Truthy(version) {
      return Failure(VersionNotDetected), opts;
    }
    if env.parserFactoryThrows(format) {
      return Failure(ParserNotBuilt), opts;
    }
    r := Success(Resolution(format, version));
    WriteBack(opts, r.value);
  }

  /** The four writes into `opts`: format, version, the detection mode or 'manual', the getter. */
  method WriteBack(opts: OptionsObject, res: Resolution)
    modifies opts
    ensures opts.props == Written(old(opts.props), res)
  {
    ghost var props0 := opts.props;
    opts.props := opts.props["format" := res.format];
    opts.props := opts.props["version" := res.version];
    assert Prop(opts.props, "detectionMode") == Prop(props0, "detectionMode");
    var mode := Prop(opts.props, "detectionMode");
    opts.props := opts.props["detectionMode" := if Truthy(mode) then mode else Str("manual")];
    assert Prop(opts.props, "documentGetter") == Prop(props0, "documentGetter");
    opts.props := opts.props["documentGetter" := Prop(opts.props, "documentGetter")];
  }

  /** The format is resolved first, so its error wins over any version error. */
  lemma FormatErrorWins(props: map<string, JsValue>, storyData: JsValue, env: Env)
    ensures var f := ResolveOne(Prop(props, "format"), Prop(props, "detectionMode"),
                                env.detectFormat(storyData, Undefined), FormatNotProvided, FormatNotDetected);
      f.Failure? ==> Resolve(props, storyData, env) == Failure(f.error)
    ensures Resolve(props, storyData, env).Failure? ==>
      Resolve(props, storyData, env).error in {VersionNotProvided, VersionNotDetected} ==>
        ResolveOne(Prop(props, "format"), Prop(props, "detectionMode"),
                   env.detectFormat(storyData, Undefined), FormatNotProvided, FormatNotDetected).Success?
  {
  }

  /**
   * A truthy format and version are used as given, whatever the detection
   * mode, and the detectors are consulted only under the exact mode 'auto':
   * 'AUTO' does not count.
   */
  lemma GivenValuesWin(props: map<string, JsValue>, storyData: JsValue, env: Env)
    ensures Truthy(Prop(props, "format")) && Truthy(Prop(props, "version")) ==>
      Resolve(props, storyData, env) ==
        if env.parserFactoryThrows(props["format"]) then Failure(ParserNotBuilt)
        else Success(Resolution(props["format"], props["version"]))
    ensures !Truthy(Prop(props, "format")) && Prop(props, "detectionMode") == Str("AUTO") ==>
      Resolve(props, storyData, env) == Failure(FormatNotProvided)
  {
  }

  /** Without options there is no format and no 'auto' mode: the factory always throws the first error. */
  lemma NoOptionsNoFormat(storyData: JsValue, env: Env)
    ensures Resolve(map[], storyData, env) == Failure(FormatNotProvided)
  {
  }

  /**
   * Under 'auto' with neither value given, the result is exactly what the
   * two detectors say about the story data, when both say something and a
   * parser can be built for the detected format.
   */
  lemma AutoDetects(props: map<string, JsValue>, storyData: JsValue, env: Env)
    requires Prop(props, "detectionMode") == Str("auto")
    requires !Truthy(Prop(props, "format")) && !Truthy(Prop(props, "version"))
    ensures Resolve(props, storyData, env).Success? <==>
      Truthy(env.detectFormat(storyData, Undefined)) && Truthy(env.detectVersion(storyData, Undefined))
      && !env.parserFactoryThrows(env.detectFormat(storyData, Undefined))
    ensures Resolve(props, storyData, env).Success? ==>
      Resolve(props, storyData, env).value ==
        Resolution(env.detectFormat(storyData, Undefined), env.detectVersion(storyData, Undefined))
  {
  }

  /**
   * The parser is built only after both resolutions succeed, so a throwing
   * parser factory is reported exactly when nothing else went wrong, and it
   * leaves the options unwritten.
   */
  lemma ParserErrorComesLast(props: map<string, JsValue>, storyData: JsValue, env: Env)
    ensures Resolve(props, storyData, env) == Failure(ParserNotBuilt) <==>
      var mode := Prop(props, "detectionMode");
      var f := ResolveOne(Prop(props, "format"), mode, env.detectFormat(storyData, Undefined),
                          FormatNotProvided, FormatNotDetected);
      var v := ResolveOne(Prop(props, "version"), mode, env.detectVersion(storyData, Undefined),
                          VersionNotProvided, VersionNotDetected);
      f.Success? && v.Success? && env.parserFactoryThrows(f.value)
  {
  }

  /** Writing back keeps a given detection mode and fills in 'manual' for a falsy one. */
  lemma DetectionModeWrittenBack(props: map<string, JsValue>, res: Resolution)
    ensures Written(props, res)["detectionMode"] ==
      if Truthy(Prop(props, "detectionMode")) then props["detectionMode"] else Str("manual")
    ensures Written(props, res)["documentGetter"] == Prop(props, "documentGetter")
  {
  }
}
