/**
 * `ArrayIntermediateRepresentationGenerator.generate`, the stage-one
 * generator the linter calls: every element child of the story data becomes
 * a passage record. Unlike its validating twin it checks neither the format
 * nor the version, and it tests both version ranges one after the other.
 */
module ArrayIntermediateRepresentationGenerator {
  import opened Wrappers
  import opened Text
  import opened Dom
  import opened JsValues
  import opened Constants
  import opened Externals
  import opened PassageDataFactory
  import opened Seqs

  datatype GenerateError =
    /** 'The storyDataElem argument was not an element.' */
    | NotAnElement
    /** `context.parser.parse` could not be called: a `TypeError`. */
    | ParserNotCallable
    /** 'There is no output.' */
    | NoOutput
    /** 'A passage name could not be found in one of the passage elements.' */
    | NoPassageName

  /** `semver.satisfies(version, range)`; a version that is not a string satisfies nothing. */
  predicate Satisfies(version: JsValue, range: string, env: Env)
  {
    version.Str? && env.semverSatisfies(version.s, range)
  }

  /** `child.nodeType.toString()`. */
  function NodeTypeString(child: Node): (r: string)
    ensures r == NatToString(NodeTypeCode(child))
  {
    match child
    case Element(_, _, _) => "1"
    case TextNode(_) => "3"
    case ProcessingInstruction(_) => "7"
    case Comment(_) => "8"
    case DocumentType(_) => "10"
  }

  /**
   * `values.indexOf(child.nodeType.toString()) !== -1`, where the loop takes
   * `values` to be `Object.values(NodeTypes)`.
   */
  predicate Skipped(child: Node, values: seq<JsValue>)
  {
    Str(NodeTypeString(child)) in values
  }

  /**
   * The name left in `passageName` after both range tests: `tiddler` when the
   * version satisfies `^1`, overwritten by `name` when it satisfies `^2`.
   */
  function NameOf(child: Node, version: JsValue, env: Env): (r: Option<string>)
    ensures Satisfies(version, VersionTwo, env) ==> r == GetAttribute(child, "name")
    ensures !Satisfies(version, VersionTwo, env) && Satisfies(version, VersionOne, env)
            ==> r == GetAttribute(child, "tiddler")
    ensures !Satisfies(version, VersionOne, env) && !Satisfies(version, VersionTwo, env) ==> r.None?
  {
    var first := if Satisfies(version, VersionOne, env) then GetAttribute(child, "tiddler") else None;
    if Satisfies(version, VersionTwo, env) then GetAttribute(child, "name") else first
  }

  /** One iteration of the loop past the skip test. */
  function ParsedRecord(child: Node, context: JsValue, env: Env): Result<Passage, GenerateError>
  {
    var parse := OwnProperty(OwnProperty(context, "parser"), "parse");
    if !parse.Function? then Failure(ParserNotCallable)
    else
      var ast := env.parse(parse.id, TextContent(child));
      if ast.None? || ast.value == [] then Failure(NoOutput)
      else
        var name := NameOf(child, OwnProperty(context, "version"), env);
        if name.None? || name.value == "" then Failure(NoPassageName)
        else Success(Passage(ast.value, name.value, Tokens(GetAttribute(child, "tags").GetOr(""))))
  }

  /** One iteration of the loop: `None` when the child is skipped. */
  function RecordOf(child: Node, context: JsValue, values: seq<JsValue>, env: Env): Result<Option<Passage>, GenerateError>
  {
    if Skipped(child, values) then Success(None)
    else
      match ParsedRecord(child, context, env)
      case Failure(e) => Failure(e)
      case Success(p) => Success(Some(p))
  }

  /** The records of `children[i..]`, stopping at the first error. */
  function RecordsFrom(children: seq<Node>, i: nat, context: JsValue, values: seq<JsValue>, env: Env): Result<seq<Passage>, GenerateError>
    requires i <= |children|
    decreases |children| - i
  {
    if i == |children| then Success([])
    else
      match RecordOf(children[i], context, values, env)
      case Failure(e) => Failure(e)
      case Success(rec) => Prefixed(if rec.Some? then [rec.value] else [], RecordsFrom(children, i + 1, context, values, env))
  }

  /** `generate(storyData, context)`. */
  function Generate(storyData: JsValue, context: JsValue, env: Env): Result<seq<Passage>, GenerateError>
  {
    if !IsElementLike(storyData) then Failure(NotAnElement)
    else RecordsFrom(Children(storyData.node.childNodes), 0, context, NodeTypeValues, env)
  }

  /** `passages` followed by the outcome of the rest of the loop. */
  function Prefixed(passages: seq<Passage>, rest: Result<seq<Passage>, GenerateError>): Result<seq<Passage>, GenerateError>
  {
    match rest
    case Failure(e) => Failure(e)
    case Success(more) => Success(passages + more)
  }

  /** `generate(storyData, context)`, step by step. */
  method GenerateRecords(storyData: JsValue, context: JsValue, env: Env)
    returns (r: Result<seq<Passage>, GenerateError>)
    ensures r == Generate(storyData, context, env)
  {
    if !IsElementLike(storyData) {
      return Failure(NotAnElement);
    }
    var children := Children(storyData.node.childNodes);
    r := ExtractRecords(children, context, NodeTypeValues, env);
  }

  /** The loop over `storyData.children`, pushing one record per iteration. */
  method ExtractRecords(children: seq<Node>, context: JsValue, values: seq<JsValue>, env: Env)
    returns (r: Result<seq<Passage>, GenerateError>)
    ensures r == RecordsFrom(children, 0, context, values, env)
  {
    var passages: seq<Passage> := [];
    ghost var whole := RecordsFrom(children, 0, context, values, env);
    assert whole == Prefixed([], whole) by {
      if whole.Success? { AppendEmpty(whole.value); }
    }
    var ii := 0;
    while ii < |children|
      invariant ii <= |children|
      invariant whole == Prefixed(passages, RecordsFrom(children, ii, context, values, env))
      decreases |children| - ii
    {
      var rec := RecordOf(children[ii], context, values, env);
      ExtractStep(children, ii, context, values, env, passages, whole);
      if rec.Failure? {
        return Failure(rec.error);
      }
      var pushed := if rec.value.Some? then [rec.value.value] else [];
      passages := passages + pushed;
      ii := ii + 1;
    }
    AppendEmpty(passages);
    return Success(passages);
  }

  /** One turn of the loop: a failing record ends it with its error, any other pushes its passage, if any. */
  lemma ExtractStep(children: seq<Node>, ii: nat, context: JsValue, values: seq<JsValue>, env: Env,
                    passages: seq<Passage>, whole: Result<seq<Passage>, GenerateError>)
    requires ii < |children|
    requires whole == Prefixed(passages, RecordsFrom(children, ii, context, values, env))
    ensures var rec := RecordOf(children[ii], context, values, env);
      if rec.Failure? then whole == Failure(rec.error)
      else whole == Prefixed(passages + (if rec.value.Some? then [rec.value.value] else []),
                             RecordsFrom(children, ii + 1, context, values, env))
  {
    var rec := RecordOf(children[ii], context, values, env);
    if rec.Success? {
      PrefixedStep(passages, if rec.value.Some? then [rec.value.value] else [],
                   RecordsFrom(children, ii + 1, context, values, env));
    }
  }

  lemma PrefixedStep(passages: seq<Passage>, pushed: seq<Passage>, rest: Result<seq<Passage>, GenerateError>)
    ensures Prefixed(passages, Prefixed(pushed, rest)) == Prefixed(passages + pushed, rest)
  {
    if rest.Success? {
      AppendAssoc(passages, pushed, rest.value);
    }
  }

  /**
   * No child is ever skipped: a decimal rendering of a node-type code never
   * equals a value of the numeric enum, whose values are its member names
   * and its numbers.
   */
  lemma NeverSkipped(child: Node)
    ensures !Skipped(child, NodeTypeValues)
  {
    NodeTypeValuesHoldNoDecimalString(NodeTypeCode(child));
  }

  /** The error checks of one iteration, in their order: the parse result before the name. */
  lemma RecordErrors(child: Node, context: JsValue, env: Env)
    ensures var parse := OwnProperty(OwnProperty(context, "parser"), "parse");
      !parse.Function? <==> ParsedRecord(child, context, env) == Failure(ParserNotCallable)
    ensures var parse := OwnProperty(OwnProperty(context, "parser"), "parse");
      && parse.Function?
      && (env.parse(parse.id, TextContent(child)).None? || env.parse(parse.id, TextContent(child)) == Some([]))
      ==> ParsedRecord(child, context, env) == Failure(NoOutput)
    ensures var parse := OwnProperty(OwnProperty(context, "parser"), "parse");
      var name := NameOf(child, OwnProperty(context, "version"), env);
      && parse.Function?
      && env.parse(parse.id, TextContent(child)).Some?
      && env.parse(parse.id, TextContent(child)) != Some([])
      ==> (ParsedRecord(child, context, env) == Failure(NoPassageName) <==> name.None? || name.value == "")
  {
  }

  /** A record that is produced holds the parse output, the chosen name and the tag tokens. */
  lemma RecordContents(child: Node, context: JsValue, env: Env)
    requires ParsedRecord(child, context, env).Success?
    ensures var p := ParsedRecord(child, context, env).value;
      var parse := OwnProperty(OwnProperty(context, "parser"), "parse");
      && parse.Function?
      && Some(p.abstractSyntaxTree) == env.parse(parse.id, TextContent(child))
      && p.abstractSyntaxTree != []
      && Some(p.passageName) == NameOf(child, OwnProperty(context, "version"), env)
      && p.passageName != ""
      && p.tags == Tokens(GetAttribute(child, "tags").GetOr(""))
  {
  }

  /** With nothing skipped, the loop succeeds exactly when no child's record fails to be read. */
  lemma RecordsFromSucceeds(children: seq<Node>, i: nat, context: JsValue, values: seq<JsValue>, env: Env)
    requires i <= |children|
    requires forall k :: 0 <= k < |children| ==> !Skipped(children[k], values)
    ensures RecordsFrom(children, i, context, values, env).Success? <==>
      FirstFailing(children, i, context, env) == |children|
    decreases |children| - i
  {
    if RecordsFrom(children, i, context, values, env).Success? {
      SucceedsWithoutFailure(children, i, context, values, env);
    } else {
      RecordsFromFails(children, i, context, values, env);
    }
  }

  /** With nothing skipped, a successful loop met no child whose record fails to be read. */
  lemma {:induction false} SucceedsWithoutFailure(children: seq<Node>, i: nat, context: JsValue, values: seq<JsValue>, env: Env)
    requires i <= |children|
    requires forall k :: 0 <= k < |children| ==> !Skipped(children[k], values)
    requires RecordsFrom(children, i, context, values, env).Success?
    ensures FirstFailing(children, i, context, env) == |children|
    decreases |children| - i
  {
    if i < |children| {
      RecordsFromStep(children, i, context, values, env);
      SucceedsWithoutFailure(children, i + 1, context, values, env);
    }
  }

  /** One turn of the loop over a child that is not skipped: its record, then the rest. */
  lemma RecordsFromStep(children: seq<Node>, i: nat, context: JsValue, values: seq<JsValue>, env: Env)
    requires i < |children| && !Skipped(children[i], values)
    ensures var here := ParsedRecord(children[i], context, env);
      RecordsFrom(children, i, context, values, env)
      == if here.Failure? then Failure(here.error)
         else Prefixed([here.value], RecordsFrom(children, i + 1, context, values, env))
  {
  }

  /** With nothing skipped, a successful loop yields one record per child, in child order. */
  lemma {:induction false} RecordsFromContents(children: seq<Node>, i: nat, context: JsValue, values: seq<JsValue>, env: Env)
    requires i <= |children|
    requires forall k :: 0 <= k < |children| ==> !Skipped(children[k], values)
    requires RecordsFrom(children, i, context, values, env).Success?
    ensures |RecordsFrom(children, i, context, values, env).value| == |children| - i
    ensures forall k :: i <= k < |children| ==>
      ParsedRecord(children[k], context, env) == Success(RecordsFrom(children, i, context, values, env).value[k - i])
    decreases |children| - i
  {
    if i < |children| {
      var here := ParsedRecord(children[i], context, env);
      RecordsFromStep(children, i, context, values, env);
      var rest := RecordsFrom(children, i + 1, context, values, env);
      RecordsFromContents(children, i + 1, context, values, env);
      var all := RecordsFrom(children, i, context, values, env).value;
      assert all == [here.value] + rest.value;
      forall k | i <= k < |children|
        ensures ParsedRecord(children[k], context, env) == Success(all[k - i])
      {
        if k > i {
          assert all[k - i] == rest.value[k - (i + 1)];
        }
      }
    }
  }

  /** The first child from `i` on whose record cannot be read, or `|children|` when there is none. */
  function FirstFailing(children: seq<Node>, i: nat, context: JsValue, env: Env): (r: nat)
    requires i <= |children|
    decreases |children| - i
    ensures i <= r <= |children|
    ensures r < |children| ==> ParsedRecord(children[r], context, env).Failure?
    ensures forall j :: i <= j < r ==> ParsedRecord(children[j], context, env).Success?
  {
    if i == |children| || ParsedRecord(children[i], context, env).Failure? then i
    else FirstFailing(children, i + 1, context, env)
  }

  /** With nothing skipped, a failing loop fails with the error of the first failing child. */
  lemma {:induction false} RecordsFromFails(children: seq<Node>, i: nat, context: JsValue, values: seq<JsValue>, env: Env)
    requires i <= |children|
    requires forall k :: 0 <= k < |children| ==> !Skipped(children[k], values)
    requires RecordsFrom(children, i, context, values, env).Failure?
    ensures FirstFailing(children, i, context, env) < |children|
    ensures ParsedRecord(children[FirstFailing(children, i, context, env)], context, env)
            == Failure(RecordsFrom(children, i, context, values, env).error)
    decreases |children| - i
  {
    if i == |children| {
      assert false;
    } else {
      RecordsFromStep(children, i, context, values, env);
      if ParsedRecord(children[i], context, env).Success? {
        RecordsFromFails(children, i + 1, context, values, env);
      }
    }
  }

  /** No element child of any story data is skipped. */
  lemma NoChildSkipped(children: seq<Node>)
    ensures forall k :: 0 <= k < |children| ==> !Skipped(children[k], NodeTypeValues)
  {
    forall k | 0 <= k < |children| ensures !Skipped(children[k], NodeTypeValues) {
      NeverSkipped(children[k]);
    }
  }

  /** `generate` on an element: one record per element child, in child order, each read from its child. */
  lemma GenerateInOrder(storyData: JsValue, context: JsValue, env: Env)
    requires IsElementLike(storyData)
    ensures var children := Children(storyData.node.childNodes);
      Generate(storyData, context, env).Success? <==>
        forall k :: 0 <= k < |children| ==> ParsedRecord(children[k], context, env).Success?
    ensures var children := Children(storyData.node.childNodes);
      Generate(storyData, context, env).Success? ==>
        |Generate(storyData, context, env).value| == |children|
        && forall k :: 0 <= k < |children| ==>
             ParsedRecord(children[k], context, env) == Success(Generate(storyData, context, env).value[k])
  {
    var children := Children(storyData.node.childNodes);
    assert Generate(storyData, context, env) == RecordsFrom(children, 0, context, NodeTypeValues, env);
    NoChildSkipped(children);
    RecordsFromSucceeds(children, 0, context, NodeTypeValues, env);
    if Generate(storyData, context, env).Success? {
      RecordsFromContents(children, 0, context, NodeTypeValues, env);
    }
  }

  /** A failing `generate` on an element reports the error of the first child that fails. */
  lemma GenerateFailsAtFirstBadChild(storyData: JsValue, context: JsValue, env: Env)
    requires IsElementLike(storyData)
    requires Generate(storyData, context, env).Failure?
    ensures exists k ::
      && 0 <= k < |Children(storyData.node.childNodes)|
      && ParsedRecord(Children(storyData.node.childNodes)[k], context, env) == Failure(Generate(storyData, context, env).error)
      && forall j :: 0 <= j < k ==> ParsedRecord(Children(storyData.node.childNodes)[j], context, env).Success?
  {
    var children := Children(storyData.node.childNodes);
    assert Generate(storyData, context, env) == RecordsFrom(children, 0, context, NodeTypeValues, env);
    NoChildSkipped(children);
    RecordsFromFails(children, 0, context, NodeTypeValues, env);
    var k := FirstFailing(children, 0, context, env);
    assert ParsedRecord(children[k], context, env) == Failure(Generate(storyData, context, env).error);
  }

  /** Anything but an element is refused before any child is read. */
  lemma RefusesNonElements(storyData: JsValue, context: JsValue, env: Env)
    requires !IsElementLike(storyData)
    ensures Generate(storyData, context, env) == Failure(NotAnElement)
  {
  }
}
