/**
 * `ArrayIRGenerator.generate`, the validating stage-one generator: the
 * context's format and version are checked first, the version picks the
 * major version whose attribute holds the passage name, and then every
 * element child of the story data becomes a passage record.
 */
module ArrayIRGenerator {
  import opened Wrappers
  import opened Text
  import opened Dom
  import opened JsValues
  import opened Constants
  import opened Externals
  import opened PassageDataFactory

  datatype GenerateError =
    | StoryDataInvalid
    | ContextFormatInvalid
    | ContextFormatUnrecognized
    | ContextVersionInvalid
    | ContextVersionNotSemantic
    | ContextVersionUnrecognized
    | ParserNotBuilt
    | NoOutput
    | InvalidPassageName

  datatype MajorVersion = MajorOne | MajorTwo

  /** What the checks settle before the loop: the parser's format and the major version. */
  datatype Setting = Setting(format: string, major: MajorVersion)

  /** The checks before the loop, in their order; `context || {}` stands in for a falsy context. */
  function CheckContext(storyData: JsValue, context: JsValue, env: Env): (r: Result<Setting, GenerateError>)
    ensures !IsElementLike(storyData) ==> r == Failure(StoryDataInvalid)
    ensures r.Success? ==> r.value.format in Formats
  {
    var ctx := if Truthy(context) then context else Object(map[]);
    var format := OwnProperty(ctx, "format");
    var version := OwnProperty(ctx, "version");
    if !IsElementLike(storyData) then Failure(StoryDataInvalid)
    else if !Truthy(format) || !format.Str? then Failure(ContextFormatInvalid)
    else if format.s !in Formats then Failure(ContextFormatUnrecognized)
    else if !Truthy(version) || !version.Str? then Failure(ContextVersionInvalid)
    else if !env.semverValid(version.s) then Failure(ContextVersionNotSemantic)
    else if env.semverSatisfies(version.s, VersionOne) then Success(Setting(format.s, MajorOne))
    else if env.semverSatisfies(version.s, VersionTwo) then Success(Setting(format.s, MajorTwo))
    else Failure(ContextVersionUnrecognized)
  }

  /** One iteration of the loop, with the parser `parserFactory(format)`. */
  function RecordFor(child: Node, setting: Setting, env: Env): Result<Passage, GenerateError>
  {
    var ast := env.parse(setting.format, TextContent(child));
    if ast.None? || ast.value == [] then Failure(NoOutput)
    else
      var name := GetAttribute(child, if setting.major == MajorOne then "tiddler" else "name");
      if name.None? || name.value == "" then Failure(InvalidPassageName)
      else Success(Passage(ast.value, name.value, Tokens(GetAttribute(child, "tags").GetOr(""))))
  }

  /** The records of `children[i..]`, stopping at the first error. */
  function RecordsFrom(children: seq<Node>, i: nat, setting: Setting, env: Env): Result<seq<Passage>, GenerateError>
    requires i <= |children|
    decreases |children| - i
  {
    if i == |children| then Success([])
    else
      match RecordFor(children[i], setting, env)
      case Failure(e) => Failure(e)
      case Success(p) =>
        match RecordsFrom(children, i + 1, setting, env)
        case Failure(e) => Failure(e)
        case Success(rest) => Success([p] + rest)
  }

  /** `generate(storyData, context)`: the checks, `parserFactory(format)`, then the loop. */
  function Generate(storyData: JsValue, context: JsValue, env: Env): Result<seq<Passage>, GenerateError>
  {
    match CheckContext(storyData, context, env)
    case Failure(e) => Failure(e)
    case Success(setting) =>
      if env.parserFactoryThrows(Str(setting.format)) then Failure(ParserNotBuilt)
      else RecordsFrom(Children(storyData.node.childNodes), 0, setting, env)
  }

  /** `passages` put in front of the records of a later run, keeping an error as it is. */
  function Prefixed(passages: seq<Passage>, r: Result<seq<Passage>, GenerateError>): Result<seq<Passage>, GenerateError>
  {
    match r
    case Failure(e) => Failure(e)
    case Success(rest) => Success(passages + rest)
  }

  /** One more record read by the loop moves from the remaining run into the prefix. */
  lemma RecordsStep(children: seq<Node>, i: nat, setting: Setting, env: Env, passages: seq<Passage>)
    requires i < |children|
    requires RecordFor(children[i], setting, env).Success?
    ensures Prefixed(passages, RecordsFrom(children, i, setting, env))
         == Prefixed(passages + [RecordFor(children[i], setting, env).value], RecordsFrom(children, i + 1, setting, env))
  {
    var rest := RecordsFrom(children, i + 1, setting, env);
    if rest.Success? {
      assert passages + ([RecordFor(children[i], setting, env).value] + rest.value)
          == (passages + [RecordFor(children[i], setting, env).value]) + rest.value;
    }
  }

  /** `generate`, step by step: the checks, one `parserFactory` call, then the loop. */
  method GenerateRecords(storyData: JsValue, context: JsValue, env: Env)
    returns (r: Result<seq<Passage>, GenerateError>)
    ensures r == Generate(storyData, context, env)
  {
    var setting := CheckContext(storyData, context, env);
    if setting.Failure? {
      return Failure(setting.error);
    }
    if env.parserFactoryThrows(Str(setting.value.format)) {
      return Failure(ParserNotBuilt);
    }
    var children := Children(storyData.node.childNodes);
    ghost var whole := RecordsFrom(children, 0, setting.value, env);
    assert whole == Generate(storyData, context, env);
    assert Prefixed([], whole) == whole by {
      if whole.Success? {
        assert [] + whole.value == whole.value;
      }
    }
    var passages: seq<Passage> := [];
    var ii := 0;
    while ii < |children|
      invariant ii <= |children|
      invariant whole == Prefixed(passages, RecordsFrom(children, ii, setting.value, env))
      decreases |children| - ii
    {
      var passage := RecordFor(children[ii], setting.value, env);
      if passage.Failure? {
        return Failure(passage.error);
      }
      RecordsStep(children, ii, setting.value, env, passages);
      passages := passages + [passage.value];
      ii := ii + 1;
    }
    assert passages + [] == passages;
    return Success(passages);
  }

  /**
   * The checks before the loop decide the error in their order: story data,
   * format present, format known, version present, version semantic, and a
   * version in neither major range.
   */
  lemma CheckOrder(storyData: JsValue, context: JsValue, env: Env)
    requires IsElementLike(storyData)
    ensures var ctx := if Truthy(context) then context else Object(map[]);
      var format := OwnProperty(ctx, "format");
      var version := OwnProperty(ctx, "version");
      && (!Truthy(format) || !format.Str? <==> CheckContext(storyData, context, env) == Failure(ContextFormatInvalid))
      && (CheckContext(storyData, context, env) == Failure(ContextFormatUnrecognized) <==>
            format.Str? && format.s != "" && format.s !in Formats)
      && (CheckContext(storyData, context, env) == Failure(ContextVersionInvalid) <==>
            format.Str? && format.s in Formats && (!Truthy(version) || !version.Str?))
      && (CheckContext(storyData, context, env) == Failure(ContextVersionNotSemantic) <==>
            format.Str? && format.s in Formats && version.Str? && version.s != "" && !env.semverValid(version.s))
  {
    assert "" !in Formats;
  }

  /**
   * The `^1` range is tested first and `^2` only when `^1` fails; a valid
   * version in neither range is refused.
   */
  lemma MajorVersionChoice(storyData: JsValue, context: JsValue, env: Env)
    requires CheckContext(storyData, context, env).Success? || CheckContext(storyData, context, env) == Failure(ContextVersionUnrecognized)
    ensures var version := OwnProperty(if Truthy(context) then context else Object(map[]), "version");
      && version.Str?
      && (CheckContext(storyData, context, env) == Failure(ContextVersionUnrecognized) <==>
            !env.semverSatisfies(version.s, VersionOne) && !env.semverSatisfies(version.s, VersionTwo))
      && (CheckContext(storyData, context, env).Success? ==>
            (CheckContext(storyData, context, env).value.major == MajorOne <==> env.semverSatisfies(version.s, VersionOne)))
  {
  }

  /**
   * One record: an empty parse is refused before the name is looked at; the
   * name comes from `tiddler` under major version 1 and from `name` otherwise.
   */
  lemma RecordRules(child: Node, setting: Setting, env: Env)
    ensures var ast := env.parse(setting.format, TextContent(child));
      ast.None? || ast.value == [] ==> RecordFor(child, setting, env) == Failure(NoOutput)
    ensures var ast := env.parse(setting.format, TextContent(child));
      var name := GetAttribute(child, if setting.major == MajorOne then "tiddler" else "name");
      ast.Some? && ast.value != [] ==>
        (RecordFor(child, setting, env) == Failure(InvalidPassageName) <==> name.None? || name.value == "")
    ensures RecordFor(child, setting, env).Success? ==>
      && Some(RecordFor(child, setting, env).value.abstractSyntaxTree) == env.parse(setting.format, TextContent(child))
      && Some(RecordFor(child, setting, env).value.passageName)
           == GetAttribute(child, if setting.major == MajorOne then "tiddler" else "name")
      && RecordFor(child, setting, env).value.tags == Tokens(GetAttribute(child, "tags").GetOr(""))
  {
  }

  /** A child's record fails only for an empty parse or a missing name, never for the parser. */
  lemma {:induction false} RecordsNeverParserError(children: seq<Node>, i: nat, setting: Setting, env: Env)
    requires i <= |children|
    ensures RecordsFrom(children, i, setting, env) != Failure(ParserNotBuilt)
    decreases |children| - i
  {
    if i < |children| && RecordFor(children[i], setting, env).Success? {
      RecordsNeverParserError(children, i + 1, setting, env);
    }
  }

  /**
   * `parserFactory(format)` is called after every context check has passed
   * and before any child is read: its throw is reported exactly when the
   * checks pass and the factory throws, whatever the children hold.
   */
  lemma ParserBuiltAfterChecks(storyData: JsValue, context: JsValue, env: Env)
    ensures CheckContext(storyData, context, env).Failure? ==>
      Generate(storyData, context, env) == Failure(CheckContext(storyData, context, env).error)
    ensures Generate(storyData, context, env) == Failure(ParserNotBuilt) <==>
      CheckContext(storyData, context, env).Success?
      && env.parserFactoryThrows(Str(CheckContext(storyData, context, env).value.format))
  {
    var setting := CheckContext(storyData, context, env);
    if setting.Success? && IsElementLike(storyData) {
      RecordsNeverParserError(Children(storyData.node.childNodes), 0, setting.value, env);
    }
  }

  /** The loop succeeds exactly when every child's record can be read. */
  lemma {:induction false} RecordsSucceed(children: seq<Node>, i: nat, setting: Setting, env: Env)
    requires i <= |children|
    ensures RecordsFrom(children, i, setting, env).Success? <==>
      forall k :: i <= k < |children| ==> RecordFor(children[k], setting, env).Success?
    decreases |children| - i
  {
    if i < |children| {
      RecordsSucceed(children, i + 1, setting, env);
    }
  }

  /** A successful loop yields one record per child, in child order. */
  lemma {:induction false} RecordsInOrder(children: seq<Node>, i: nat, setting: Setting, env: Env)
    requires i <= |children|
    requires RecordsFrom(children, i, setting, env).Success?
    ensures |RecordsFrom(children, i, setting, env).value| == |children| - i
    ensures forall k :: i <= k < |children| ==>
      RecordFor(children[k], setting, env) == Success(RecordsFrom(children, i, setting, env).value[k - i])
    decreases |children| - i
  {
    if i < |children| {
      var here := RecordFor(children[i], setting, env).value;
      var rest := RecordsFrom(children, i + 1, setting, env).value;
      RecordsInOrder(children, i + 1, setting, env);
      var all := RecordsFrom(children, i, setting, env).value;
      assert all == [here] + rest;
      forall k | i < k < |children|
        ensures RecordFor(children[k], setting, env) == Success(all[k - i])
      {
        assert all[k - i] == rest[k - (i + 1)];
      }
    }
  }

  /** A failing loop reports the error of its first failing child. */
  lemma {:induction false} RecordsFailAtFirst(children: seq<Node>, i: nat, setting: Setting, env: Env)
    requires i <= |children|
    requires RecordsFrom(children, i, setting, env).Failure?
    ensures exists k ::
      && i <= k < |children|
      && RecordFor(children[k], setting, env) == Failure(RecordsFrom(children, i, setting, env).error)
      && forall j :: i <= j < k ==> RecordFor(children[j], setting, env).Success?
    decreases |children| - i
  {
    if RecordFor(children[i], setting, env).Success? {
      RecordsFailAtFirst(children, i + 1, setting, env);
    }
  }

  /**
   * Stage two followed by this stage, under major version 2: every passage
   * element the passage factory writes reads back with its name and tags,
   * when the name is non-empty, the tags are tokens and the parser has output.
   */
  lemma ReadsBackFactoryOutput(passage: Passage, format: string, env: Env)
    requires passage.passageName != ""
    requires forall i :: 0 <= i < |passage.tags| ==> IsToken(passage.tags[i])
    requires var ast := env.parse(format, TextContent(PassageElement(passage, env))); ast.Some? && ast.value != []
    ensures RecordFor(PassageElement(passage, env), Setting(format, MajorTwo), env).Success?
    ensures RecordFor(PassageElement(passage, env), Setting(format, MajorTwo), env).value.passageName == passage.passageName
    ensures RecordFor(PassageElement(passage, env), Setting(format, MajorTwo), env).value.tags == passage.tags
  {
    TagsRoundTrip(passage, env);
  }
}
