/**
 * Document nodes as values: the story-data element, its passage elements and
 * the document fragments (isolation chambers) the linter hands to its tasks.
 */
module Dom {
  import opened Wrappers
  import opened Text

  /** An abstract-syntax-tree node produced by a story-format parser. */
  datatype AstNode = AstNode(kind: string)

  datatype Node =
    | Element(tagName: string, attributes: map<string, string>, childNodes: seq<Node>)
    | TextNode(data: string)
    | Comment(data: string)
    | ProcessingInstruction(data: string)
    | DocumentType(name: string)

  /** A document fragment: a parentless list of nodes. */
  datatype Fragment = Fragment(childNodes: seq<Node>)

  /** The `nodeType` number of each kind of node. */
  function NodeTypeCode(n: Node): (r: nat)
    ensures r == 1 <==> n.Element?
  {
    match n
    case Element(_, _, _) => 1
    case TextNode(_) => 3
    case ProcessingInstruction(_) => 7
    case Comment(_) => 8
    case DocumentType(_) => 10
  }

  /** `getAttribute(name)`, `None` standing for `null`. */
  function GetAttribute(n: Node, name: string): (r: Option<string>)
    ensures r.Some? <==> n.Element? && name in n.attributes
  {
    if n.Element? && name in n.attributes then Some(n.attributes[name]) else None
  }

  /** `setAttribute(name, value)` on an element. */
  function SetAttribute(n: Node, name: string, value: string): (r: Node)
    requires n.Element?
    ensures r.Element? && r.tagName == n.tagName && r.childNodes == n.childNodes
    ensures GetAttribute(r, name) == Some(value)
    ensures forall other :: other != name ==> GetAttribute(r, other) == GetAttribute(n, other)
  {
    n.(attributes := n.attributes[name := value])
  }

  /** `append(...nodes)` on an element. */
  function Append(n: Node, nodes: seq<Node>): (r: Node)
    requires n.Element?
    ensures r.Element? && r.tagName == n.tagName && r.attributes == n.attributes
    ensures r.childNodes == n.childNodes + nodes
  {
    n.(childNodes := n.childNodes + nodes)
  }

  /** `document.createElement(tag)`. */
  function CreateElement(tag: string): (r: Node)
    ensures r.Element? && r.tagName == tag && r.childNodes == [] && r.attributes == map[]
  {
    Element(tag, map[], [])
  }

  /** `children`: the element children, in document order. */
  function Children(ns: seq<Node>): (r: seq<Node>)
    ensures |r| <= |ns|
    ensures forall i :: 0 <= i < |r| ==> r[i].Element? && r[i] in ns
    ensures forall i :: 0 <= i < |ns| && ns[i].Element? ==> ns[i] in r
  {
    if ns == [] then []
    else if ns[0].Element? then [ns[0]] + Children(ns[1..])
    else Children(ns[1..])
  }

  /** `textContent`: an element's is the concatenation of its children's. */
  function TextContent(n: Node): string
  {
    match n
    case Element(_, _, kids) => ForestText(kids)
    case TextNode(d) => d
    case Comment(d) => d
    case ProcessingInstruction(d) => d
    case DocumentType(_) => ""
  }

  function ForestText(ns: seq<Node>): string
  {
    if ns == [] then "" else ForestText(ns[..|ns| - 1]) + TextContent(ns[|ns| - 1])
  }

  /** `querySelector(tag)` over a forest: the first matching element in document order. */
  function QueryForest(ns: seq<Node>, tag: string): (r: Option<Node>)
    ensures r.Some? ==> r.value.Element? && ToLower(r.value.tagName) == tag
    decreases ns
  {
    if ns == [] then None
    else
      match QueryTree(ns[0], tag)
      case Some(e) => Some(e)
      case None => QueryForest(ns[1..], tag)
  }

  function QueryTree(n: Node, tag: string): (r: Option<Node>)
    ensures r.Some? ==> r.value.Element? && ToLower(r.value.tagName) == tag
    decreases n
  {
    if n.Element? && ToLower(n.tagName) == tag then Some(n)
    else if n.Element? then QueryForest(n.childNodes, tag)
    else None
  }

  /** An element whose lower-cased tag name is `tag`. */
  predicate Matches(n: Node, tag: string)
  {
    n.Element? && ToLower(n.tagName) == tag
  }

  /** Tree order: each node, then the nodes under it, then its next sibling's. */
  function TreeOrder(ns: seq<Node>): (r: seq<Node>)
    ensures |r| >= |ns|
    decreases ns
  {
    if ns == [] then [] else SubtreeOrder(ns[0]) + TreeOrder(ns[1..])
  }

  function SubtreeOrder(n: Node): (r: seq<Node>)
    ensures r != [] && r[0] == n
    decreases n
  {
    if n.Element? then [n] + TreeOrder(n.childNodes) else [n]
  }

  /** The first node of a list that matches, by a plain linear search. */
  function FirstMatch(s: seq<Node>, tag: string): (r: Option<Node>)
    ensures r.None? <==> forall n :: n in s ==> !Matches(n, tag)
    ensures r.Some? ==> exists i :: 0 <= i < |s| && s[i] == r.value && Matches(s[i], tag)
                          && forall j :: 0 <= j < i ==> !Matches(s[j], tag)
  {
    if s == [] then None
    else if Matches(s[0], tag) then Some(s[0])
    else
      var r := FirstMatch(s[1..], tag);
      if r.Some? then FirstMatchShifts(s, tag, r.value); r else r
  }

  /** A match found past a non-matching head is still the first one. */
  lemma FirstMatchShifts(s: seq<Node>, tag: string, x: Node)
    requires s != [] && !Matches(s[0], tag)
    requires exists i :: 0 <= i < |s[1..]| && s[1..][i] == x && Matches(s[1..][i], tag)
                           && forall j :: 0 <= j < i ==> !Matches(s[1..][j], tag)
    ensures exists i :: 0 <= i < |s| && s[i] == x && Matches(s[i], tag)
                          && forall j :: 0 <= j < i ==> !Matches(s[j], tag)
  {
    var i :| 0 <= i < |s[1..]| && s[1..][i] == x && Matches(s[1..][i], tag)
             && forall j :: 0 <= j < i ==> !Matches(s[1..][j], tag);
    assert s[i + 1] == x && Matches(s[i + 1], tag);
    forall j | 0 <= j < i + 1
      ensures !Matches(s[j], tag)
    {
      if j > 0 {
        assert s[j] == s[1..][j - 1];
      }
    }
  }

  lemma {:induction false} FirstMatchAppend(a: seq<Node>, b: seq<Node>, tag: string)
    ensures FirstMatch(a + b, tag) == if FirstMatch(a, tag).Some? then FirstMatch(a, tag) else FirstMatch(b, tag)
  {
    if a != [] {
      assert (a + b)[0] == a[0] && (a + b)[1..] == a[1..] + b;
      FirstMatchAppend(a[1..], b, tag);
    } else {
      assert a + b == b;
    }
  }

  /** The recursive search visits the nodes in tree order and stops at the first match. */
  lemma {:induction false} QueryForestInTreeOrder(ns: seq<Node>, tag: string)
    ensures QueryForest(ns, tag) == FirstMatch(TreeOrder(ns), tag)
    decreases ns
  {
    if ns != [] {
      QueryTreeInTreeOrder(ns[0], tag);
      QueryForestInTreeOrder(ns[1..], tag);
      FirstMatchAppend(SubtreeOrder(ns[0]), TreeOrder(ns[1..]), tag);
    }
  }

  lemma {:induction false} QueryTreeInTreeOrder(n: Node, tag: string)
    ensures QueryTree(n, tag) == FirstMatch(SubtreeOrder(n), tag)
    decreases n
  {
    if n.Element? {
      QueryForestInTreeOrder(n.childNodes, tag);
      FirstMatchAppend([n], TreeOrder(n.childNodes), tag);
    }
  }

  /**
   * `fragment.querySelector(tag)`: the first element in tree order with the
   * tag, and `null` exactly when no element of the fragment has it.
   */
  function QuerySelector(f: Fragment, tag: string): (r: Option<Node>)
    ensures r == FirstMatch(TreeOrder(f.childNodes), tag)
    ensures r.None? <==> forall n :: n in TreeOrder(f.childNodes) ==> !Matches(n, tag)
    ensures r.Some? ==> r.value.Element? && ToLower(r.value.tagName) == tag
    ensures r.Some? ==>
      var t := TreeOrder(f.childNodes);
      exists i :: 0 <= i < |t| && t[i] == r.value && forall j :: 0 <= j < i ==> !Matches(t[j], tag)
  {
    QueryForestInTreeOrder(f.childNodes, tag);
    QueryForest(f.childNodes, tag)
  }

  /** The first element of a fragment is found when its tag matches. */
  lemma QueryFindsLeadingElement(e: Node, rest: seq<Node>, tag: string)
    requires e.Element? && ToLower(e.tagName) == tag
    ensures QuerySelector(Fragment([e] + rest), tag) == Some(e)
  {
    var ns := [e] + rest;
    assert ns[0] == e;
    assert QueryTree(e, tag) == Some(e);
    assert QueryForest(ns, tag) == Some(e);
  }
}
