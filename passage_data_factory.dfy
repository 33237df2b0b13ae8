/**
 * `passageDataFactory`: one passage record becomes a `tw-passagedata`
 * element carrying the passage name and the space-joined tags as
 * attributes, with one child per abstract-syntax-tree node.
 */
module PassageDataFactory {
  import opened Wrappers
  import opened Text
  import opened Dom
  import opened Externals

  /** A passage record, as the stage-one generators produce it. */
  datatype Passage = Passage(abstractSyntaxTree: seq<AstNode>, passageName: string, tags: seq<string>)

  /** `abstractSyntaxTree.map((node) => nodeFactory(node, document))`. */
  function NodesOf(ast: seq<AstNode>, env: Env): (r: seq<Node>)
    ensures |r| == |ast|
    ensures forall i :: 0 <= i < |ast| ==> r[i] == env.nodeFactory(ast[i])
  {
    if ast == [] then [] else NodesOf(ast[..|ast| - 1], env) + [env.nodeFactory(ast[|ast| - 1])]
  }

  /** The element built for `passage`. */
  function PassageElement(passage: Passage, env: Env): (r: Node)
    ensures r.Element? && r.tagName == "tw-passagedata"
    ensures GetAttribute(r, "name") == Some(passage.passageName)
    ensures GetAttribute(r, "tags") == Some(Join(passage.tags))
    ensures r.childNodes == NodesOf(passage.abstractSyntaxTree, env)
  {
    Element("tw-passagedata", map["name" := passage.passageName, "tags" := Join(passage.tags)],
            NodesOf(passage.abstractSyntaxTree, env))
  }

  /** The factory, step by step: create, two `setAttribute` calls, the `map`, one `append`. */
  method BuildPassageData(passage: Passage, env: Env) returns (passageData: Node)
    ensures passageData == PassageElement(passage, env)
  {
    passageData := CreateElement("tw-passagedata");
    passageData := SetAttribute(passageData, "name", passage.passageName);
    passageData := SetAttribute(passageData, "tags", Join(passage.tags));
    var ast := passage.abstractSyntaxTree;
    var nodes: seq<Node> := [];
    for i := 0 to |ast|
      invariant nodes == NodesOf(ast[..i], env)
    {
      assert ast[..i + 1][..i] == ast[..i];
      nodes := nodes + [env.nodeFactory(ast[i])];
    }
    assert ast[..|ast|] == ast;
    passageData := Append(passageData, nodes);
    assert passageData.attributes == map["name" := passage.passageName, "tags" := Join(passage.tags)];
  }

  /**
   * Tags round trip: reading the written `tags` attribute back the way both
   * stage-one generators do (split on ' ', drop empties) gives the original
   * list whenever every tag is non-empty and free of spaces.
   */
  lemma TagsRoundTrip(passage: Passage, env: Env)
    requires forall i :: 0 <= i < |passage.tags| ==> IsToken(passage.tags[i])
    ensures Tokens(GetAttribute(PassageElement(passage, env), "tags").GetOr("")) == passage.tags
  {
    TokensOfJoin(passage.tags);
  }

  /** A tag containing a space does not survive the round trip: it comes back split. */
  lemma SpacedTagSplits(env: Env)
    ensures Tokens(GetAttribute(PassageElement(Passage([], "p", ["a b"]), env), "tags").GetOr("")) == ["a", "b"]
  {
    var p := Passage([], "p", ["a b"]);
    assert Join(p.tags) == "a b";
    SplitAtSpace("a", "b");
    SplitOfSpaceFree("b");
    assert Split("a b") == ["a", "b"];
  }
}
