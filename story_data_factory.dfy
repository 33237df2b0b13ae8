/**
 * `storyDataFactory`: a list of passage records becomes one `tw-storydata`
 * element whose children are the passage elements, in passage order.
 */
module StoryDataFactory {
  import opened Wrappers
  import opened Text
  import opened Dom
  import opened Externals
  import opened PassageDataFactory

  /** `passages.map(...)`: one passage element per record. */
  function PassageElements(passages: seq<Passage>, env: Env): (r: seq<Node>)
    ensures |r| == |passages|
    ensures forall i :: 0 <= i < |passages| ==> r[i] == PassageElement(passages[i], env)
  {
    if passages == [] then []
    else PassageElements(passages[..|passages| - 1], env) + [PassageElement(passages[|passages| - 1], env)]
  }

  /** The element built for `passages`. */
  function StoryElement(passages: seq<Passage>, env: Env): (r: Node)
    ensures r.Element? && r.tagName == "tw-storydata" && r.attributes == map[]
    ensures r.childNodes == PassageElements(passages, env)
  {
    Append(CreateElement("tw-storydata"), PassageElements(passages, env))
  }

  /** The number of records with an empty name: how far the `UNKNOWN_n` counter gets. */
  function UnnamedCount(passages: seq<Passage>): (r: nat)
    ensures r <= |passages|
  {
    if passages == [] then 0
    else UnnamedCount(passages[..|passages| - 1]) + (if passages[|passages| - 1].passageName == "" then 1 else 0)
  }

  /**
   * The factory, step by step. The fallback name `UNKNOWN_n` is computed for
   * every unnamed record and then dropped: the record itself is what is handed
   * to the passage factory.
   */
  method BuildStoryData(passages: seq<Passage>, env: Env) returns (storyData: Node, counter: nat)
    ensures storyData == StoryElement(passages, env)
    ensures counter == UnnamedCount(passages)
  {
    storyData := CreateElement("tw-storydata");
    counter := 0;
    var nodes: seq<Node> := [];
    for i := 0 to |passages|
      invariant nodes == PassageElements(passages[..i], env)
      invariant counter == UnnamedCount(passages[..i])
    {
      assert passages[..i + 1][..i] == passages[..i];
      var passageName := passages[i].passageName;
      if passageName == "" {
        passageName := "UNKNOWN_" + NatToString(counter);
        counter := counter + 1;
      }
      var node := BuildPassageData(passages[i], env);
      nodes := nodes + [node];
    }
    assert passages[..|passages|] == passages;
    storyData := Append(storyData, nodes);
  }

  /**
   * Child `i` of the story element carries record `i`'s own name and tags,
   * an empty name included: the fallback never reaches the output.
   */
  lemma ChildCarriesRecord(passages: seq<Passage>, env: Env, i: nat)
    requires i < |passages|
    ensures i < |StoryElement(passages, env).childNodes|
    ensures GetAttribute(StoryElement(passages, env).childNodes[i], "name") == Some(passages[i].passageName)
    ensures GetAttribute(StoryElement(passages, env).childNodes[i], "tags") == Some(Join(passages[i].tags))
    ensures StoryElement(passages, env).childNodes[i].tagName == "tw-passagedata"
  {
  }

  /** The story element's element children are exactly its passage elements. */
  lemma {:induction false} ChildrenArePassages(passages: seq<Passage>, env: Env)
    ensures Children(PassageElements(passages, env)) == PassageElements(passages, env)
  {
    if passages != [] {
      var init := passages[..|passages| - 1];
      ChildrenArePassages(init, env);
      ChildrenAppend(PassageElements(init, env), PassageElement(passages[|passages| - 1], env));
    }
  }

  lemma {:induction false} ChildrenAppend(ns: seq<Node>, n: Node)
    requires n.Element?
    ensures Children(ns + [n]) == Children(ns) + [n]
  {
    if ns == [] {
      assert [] + [n] == [n];
    } else {
      assert (ns + [n])[1..] == ns[1..] + [n];
      ChildrenAppend(ns[1..], n);
    }
  }
}
