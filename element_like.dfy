/**
 * `ElementLike`: the getters that read an element's record and its
 * neighbourhood in the arena (`textContent`, `id`, `className`,
 * `parentElement`, the two element-sibling walks, the first/last child
 * getters) and the setters that change it (`textContent`, `id`,
 * `className`). Element-likeness (`isIElementLike`) is the kind tag
 * `ElementKind`.
 */
module ElementLike {
  import opened Wrappers
  import opened NodeGraph
  import opened Seqs
  import ChildNodeLike

  /** `nodeType`: 1 for an element, and the DOM Standard's code for every other kind. */
  function NodeType(k: NodeKind): (r: nat)
    ensures r == 1 <==> k == ElementKind
  {
    match k
    case ElementKind => 1
    case TextKind => 3
    case ProcessingInstructionKind => 7
    case CommentKind => 8
    case DocumentKind => 9
    case DocumentTypeKind => 10
    case FragmentKind => 11
  }

  /** The `nodeType` code tells the kinds apart. */
  lemma NodeTypeInjective(a: NodeKind, b: NodeKind)
    ensures NodeType(a) == NodeType(b) <==> a == b
  {
  }

  /** `nodeName` of an element: its `tagName`, in the case it was given. */
  function NodeName(rec: NodeRecord): string
  {
    rec.tagName
  }

  /** `nodeValue` of an element: always `null`. */
  function NodeValue(rec: NodeRecord): Option<string>
  {
    None
  }

  // ---------------------------------------------------------------- textContent

  datatype TextError =
    /** A child list holds an id that is not a node: reading `textContent` off it throws. */
    | DanglingChild
    /** The fuel ran out: on an arena whose child lists form a cycle the getter never returns. */
    | TooDeep

  /**
   * `textContent` of a node: an element concatenates the `textContent` of its
   * child nodes in order, text, comment and processing-instruction nodes give
   * their data, and the other kinds give `null`, which the element's reducer
   * counts as ''.
   */
  function TextContent(nodes: Nodes, id: NodeId, fuel: nat): Result<string, TextError>
    decreases fuel, 0, 0
  {
    if id !in nodes then Failure(DanglingChild)
    else
      match nodes[id].kind
      case ElementKind => if fuel == 0 then Failure(TooDeep) else ChildText(nodes, nodes[id].childNodes, fuel - 1)
      case TextKind => Success(nodes[id].data)
      case CommentKind => Success(nodes[id].data)
      case ProcessingInstructionKind => Success(nodes[id].data)
      case DocumentTypeKind => Success("")
      case DocumentKind => Success("")
      case FragmentKind => Success("")
  }

  /** `childNodes.reduce((str, node) => str + (node.textContent || ''), '')`, left to right. */
  function ChildText(nodes: Nodes, kids: seq<NodeId>, fuel: nat): Result<string, TextError>
    decreases fuel, 1, |kids|
  {
    if kids == [] then Success("")
    else
      var init :- ChildText(nodes, kids[..|kids| - 1], fuel);
      var last :- TextContent(nodes, kids[|kids| - 1], fuel);
      Success(init + last)
  }

  /** The text of the child list is the concatenation of the children's texts. */
  lemma {:induction false} ChildTextConcat(nodes: Nodes, a: seq<NodeId>, b: seq<NodeId>, fuel: nat)
    requires ChildText(nodes, a, fuel).Success? && ChildText(nodes, b, fuel).Success?
    ensures ChildText(nodes, a + b, fuel) == Success(ChildText(nodes, a, fuel).value + ChildText(nodes, b, fuel).value)
    decreases |b|
  {
    if b == [] {
      assert a + b == a;
      assert ChildText(nodes, a, fuel).value + "" == ChildText(nodes, a, fuel).value;
    } else {
      var init, x := b[..|b| - 1], b[|b| - 1];
      assert (a + b)[..|a + b| - 1] == a + init;
      assert (a + b)[|a + b| - 1] == x;
      var sa, si, sx := ChildText(nodes, a, fuel).value, ChildText(nodes, init, fuel).value, TextContent(nodes, x, fuel).value;
      ChildTextConcat(nodes, a, init, fuel);
      assert ChildText(nodes, b, fuel).value == si + sx;
      assert ChildText(nodes, a + b, fuel) == Success((sa + si) + sx);
      assert (sa + si) + sx == sa + (si + sx);
    }
  }

  /** A child list whose text is found has every child's text found. */
  lemma {:induction false} ChildTextParts(nodes: Nodes, kids: seq<NodeId>, fuel: nat, k: nat)
    requires k < |kids| && ChildText(nodes, kids, fuel).Success?
    ensures TextContent(nodes, kids[k], fuel).Success?
    decreases |kids|
  {
    if k < |kids| - 1 {
      ChildTextParts(nodes, kids[..|kids| - 1], fuel, k);
    }
  }

  /**
   * More fuel never changes an answer that has been found, so the fuel only
   * stands for the getter's unbounded recursion.
   */
  lemma {:induction false} TextContentFuel(nodes: Nodes, id: NodeId, fuel: nat, more: nat)
    requires fuel <= more && TextContent(nodes, id, fuel).Success?
    ensures TextContent(nodes, id, more) == TextContent(nodes, id, fuel)
    decreases fuel, 0, 0
  {
    if id in nodes && nodes[id].kind == ElementKind {
      ChildTextFuel(nodes, nodes[id].childNodes, fuel - 1, more - 1);
    }
  }

  lemma {:induction false} ChildTextFuel(nodes: Nodes, kids: seq<NodeId>, fuel: nat, more: nat)
    requires fuel <= more && ChildText(nodes, kids, fuel).Success?
    ensures ChildText(nodes, kids, more) == ChildText(nodes, kids, fuel)
    decreases fuel, 1, |kids|
  {
    if kids != [] {
      ChildTextFuel(nodes, kids[..|kids| - 1], fuel, more);
      TextContentFuel(nodes, kids[|kids| - 1], fuel, more);
    }
  }

  /** An element that is its own child (a cycle) never yields a text: the getter would recurse forever. */
  lemma {:induction false} CycleHasNoText(nodes: Nodes, id: NodeId, fuel: nat)
    requires IsElement(nodes, id) && id in nodes[id].childNodes
    ensures TextContent(nodes, id, fuel).Failure?
    decreases fuel
  {
    if fuel > 0 && TextContent(nodes, id, fuel).Success? {
      var kids := nodes[id].childNodes;
      var k :| 0 <= k < |kids| && kids[k] == id;
      ChildTextParts(nodes, kids, fuel - 1, k);
      CycleHasNoText(nodes, id, fuel - 1);
      assert false;
    }
  }

  /** An element whose only child is a text node reads back that node's data. */
  lemma OneTextChild(nodes: Nodes, self: NodeId, t: NodeId, fuel: nat)
    requires IsElement(nodes, self) && nodes[self].childNodes == [t]
    requires t in nodes && nodes[t].kind == TextKind
    requires fuel >= 1
    ensures TextContent(nodes, self, fuel) == Success(nodes[t].data)
  {
    assert [t][..0] == [];
    assert ChildText(nodes, [t], fuel - 1) == Success("" + nodes[t].data);
    assert "" + nodes[t].data == nodes[t].data;
  }

  // ---------------------------------------------------------------- attributes

  /** The `id` and `className` getters: the attribute's value, or '' when it is absent. */
  function AttributeOrEmpty(nodes: Nodes, self: NodeId, name: string): (r: string)
    requires self in nodes
    ensures name in nodes[self].attributes ==> r == nodes[self].attributes[name]
    ensures name !in nodes[self].attributes ==> r == ""
  {
    if name in nodes[self].attributes then nodes[self].attributes[name] else ""
  }

  function Id(nodes: Nodes, self: NodeId): string
    requires self in nodes
  {
    AttributeOrEmpty(nodes, self, "id")
  }

  function ClassName(nodes: Nodes, self: NodeId): string
    requires self in nodes
  {
    AttributeOrEmpty(nodes, self, "class")
  }

  /**
   * The `id` and `className` setters as written: the attribute store is an
   * immutable map, and `set` returns an updated copy that is dropped, so the
   * element is left as it was.
   */
  method SetAttributeAsWritten(g: Graph, self: NodeId, name: string, value: string)
    requires self in g.nodes
    ensures g.nodes == old(g.nodes)
  {
    var updated := g.nodes[self].attributes[name := value];
  }

  /**
   * As written, `el.id = value` on an element without an `id` is followed by
   * `el.id` reading '', so any non-empty value is lost.
   */
  method SetterAsWrittenLosesValue(g: Graph, self: NodeId, value: string)
    requires self in g.nodes && "id" !in g.nodes[self].attributes
    ensures Id(g.nodes, self) == ""
    ensures value != "" ==> Id(g.nodes, self) != value
  {
    SetAttributeAsWritten(g, self, "id", value);
  }

  /** The `id` and `className` setters as intended: the attribute is stored. */
  method SetAttributeCorrected(g: Graph, self: NodeId, name: string, value: string)
    requires g.Valid() && self in g.nodes
    modifies g
    ensures g.Valid() && g.nextId == old(g.nextId)
    ensures g.nodes == old(g.nodes)[self := old(g.nodes)[self].(attributes := old(g.nodes)[self].attributes[name := value])]
    ensures AttributeOrEmpty(g.nodes, self, name) == value
  {
    g.SetAttribute(self, name, value);
  }

  /** Storing an attribute reads back through the getter and leaves the other attributes as they were. */
  lemma AttributeRoundTrip(nodes: Nodes, self: NodeId, name: string, other: string, value: string)
    requires self in nodes && other != name
    ensures var after := nodes[self := nodes[self].(attributes := nodes[self].attributes[name := value])];
      AttributeOrEmpty(after, self, name) == value
      && AttributeOrEmpty(after, self, other) == AttributeOrEmpty(nodes, self, other)
  {
  }

  // ---------------------------------------------------------------- parent and children

  /** `parentElement`: the parent node when it is an element, else `null`. */
  function ParentElement(nodes: Nodes, self: NodeId): (r: Option<NodeId>)
    requires self in nodes
    ensures r.Some? <==> nodes[self].parentNode.Some? && IsElement(nodes, nodes[self].parentNode.value)
    ensures r.Some? ==> r == nodes[self].parentNode
  {
    var p := nodes[self].parentNode;
    if p.Some? && IsElement(nodes, p.value) then p else None
  }

  /** `first()` and `last()` of a list, `undefined` (here `None`) when it is empty. */
  function First(s: seq<NodeId>): (r: Option<NodeId>)
    ensures r.None? <==> s == []
    ensures r.Some? ==> r.value == s[0] && r.value in s
  {
    if s == [] then None else Some(s[0])
  }

  function Last(s: seq<NodeId>): (r: Option<NodeId>)
    ensures r.None? <==> s == []
    ensures r.Some? ==> r.value == s[|s| - 1] && r.value in s
  {
    if s == [] then None else Some(s[|s| - 1])
  }

  function FirstChild(nodes: Nodes, self: NodeId): Option<NodeId>
    requires self in nodes
  {
    First(nodes[self].childNodes)
  }

  function LastChild(nodes: Nodes, self: NodeId): Option<NodeId>
    requires self in nodes
  {
    Last(nodes[self].childNodes)
  }

  function FirstElementChild(nodes: Nodes, self: NodeId): Option<NodeId>
    requires self in nodes
  {
    First(nodes[self].children)
  }

  function LastElementChild(nodes: Nodes, self: NodeId): Option<NodeId>
    requires self in nodes
  {
    Last(nodes[self].children)
  }

  function ChildElementCount(nodes: Nodes, self: NodeId): nat
    requires self in nodes
  {
    |nodes[self].children|
  }

  /**
   * The child getters read the two lists: the first and last child agree
   * exactly when there is at most one child, and an element without element
   * children has no first or last element child and a count of 0.
   */
  lemma ChildGetters(nodes: Nodes, self: NodeId)
    requires self in nodes
    ensures FirstChild(nodes, self).None? <==> LastChild(nodes, self).None?
    ensures |nodes[self].childNodes| == 1 ==> FirstChild(nodes, self) == LastChild(nodes, self)
    ensures ChildElementCount(nodes, self) == 0 <==> FirstElementChild(nodes, self).None?
    ensures ChildElementCount(nodes, self) == 0 <==> LastElementChild(nodes, self).None?
  {
  }

  // ---------------------------------------------------------------- sibling walks

  datatype WalkError =
    /** 'Possible infinite loop detected. A previousSibling property may be misset.' */
    | PossibleInfiniteLoop

  /** The link a walk follows: `nextSibling` forwards, `previousSibling` backwards. */
  function Link(r: NodeRecord, forward: bool): Option<NodeId>
  {
    if forward then r.nextSibling else r.previousSibling
  }

  /**
   * The walk from `node` with `counter` steps taken: it stops with `null` at a
   * missing node, throws once the counter exceeds `length`, and returns the
   * first element it meets.
   */
  function Walk(nodes: Nodes, node: Option<NodeId>, counter: nat, length: nat, forward: bool): Result<Option<NodeId>, WalkError>
    decreases length + 1 - counter
  {
    if node.None? || node.value !in nodes then Success(None)
    else if counter > length then Failure(PossibleInfiniteLoop)
    else if nodes[node.value].kind == ElementKind then Success(node)
    else Walk(nodes, Link(nodes[node.value], forward), counter + 1, length, forward)
  }

  /**
   * `nextElementSibling` (`forward`) and `previousElementSibling`: `null`
   * without a parent, otherwise the walk from this node's sibling, bounded by
   * the length of the parent's child list.
   */
  function ElementSibling(nodes: Nodes, self: NodeId, forward: bool): (r: Result<Option<NodeId>, WalkError>)
    requires self in nodes
    ensures nodes[self].parentNode.None? ==> r == Success(None)
    ensures r.Success? && r.value.Some? ==> IsElement(nodes, r.value.value)
  {
    var p := nodes[self].parentNode;
    if p.None? || p.value !in nodes then Success(None)
    else
      WalkFindsElement(nodes, Link(nodes[self], forward), 0, |nodes[p.value].childNodes|, forward);
      Walk(nodes, Link(nodes[self], forward), 0, |nodes[p.value].childNodes|, forward)
  }

  lemma {:induction false} WalkFindsElement(nodes: Nodes, node: Option<NodeId>, counter: nat, length: nat, forward: bool)
    ensures var r := Walk(nodes, node, counter, length, forward);
      r.Success? && r.value.Some? ==> IsElement(nodes, r.value.value)
    decreases length + 1 - counter
  {
    if node.Some? && node.value in nodes && counter <= length && nodes[node.value].kind != ElementKind {
      WalkFindsElement(nodes, Link(nodes[node.value], forward), counter + 1, length, forward);
    }
  }

  /** The getters' `while` loop. */
  method SiblingElement(g: Graph, self: NodeId, forward: bool) returns (r: Result<Option<NodeId>, WalkError>)
    requires self in g.nodes
    ensures r == ElementSibling(g.nodes, self, forward)
  {
    var parent := g.nodes[self].parentNode;
    if parent.None? || parent.value !in g.nodes {
      return Success(None);
    }
    var node := Link(g.nodes[self], forward);
    var counter := 0;
    var length := |g.nodes[parent.value].childNodes|;
    while node.Some? && node.value in g.nodes
      invariant counter <= length + 1
      invariant Walk(g.nodes, node, counter, length, forward) == ElementSibling(g.nodes, self, forward)
      decreases length + 1 - counter
    {
      if counter > length {
        return Failure(PossibleInfiniteLoop);
      }
      if g.nodes[node.value].kind == ElementKind {
        return Success(node);
      }
      node := Link(g.nodes[node.value], forward);
      counter := counter + 1;
    }
    return Success(None);
  }

  /** The first element of a chain of nodes, if any. */
  function FirstElement(nodes: Nodes, chain: seq<NodeId>): (r: Option<NodeId>)
    ensures r.Some? ==> r.value in chain && IsElement(nodes, r.value)
    ensures r.None? ==> forall k :: 0 <= k < |chain| ==> !IsElement(nodes, chain[k])
  {
    if chain == [] then None
    else if IsElement(nodes, chain[0]) then Some(chain[0])
    else FirstElement(nodes, chain[1..])
  }

  /** `chain` is the run of nodes the links lead through from `node`, ending at a missing link. */
  predicate Linked(nodes: Nodes, node: Option<NodeId>, chain: seq<NodeId>, forward: bool)
    decreases |chain|
  {
    if chain == [] then node.None? || node.value !in nodes
    else node == Some(chain[0]) && chain[0] in nodes && Linked(nodes, Link(nodes[chain[0]], forward), chain[1..], forward)
  }

  /** Along a chain that fits in the counter's budget, the walk returns the chain's first element and never throws. */
  lemma {:induction false} WalkAlongChain(nodes: Nodes, node: Option<NodeId>, chain: seq<NodeId>, counter: nat, length: nat, forward: bool)
    requires Linked(nodes, node, chain, forward)
    requires counter + |chain| <= length + 1
    ensures Walk(nodes, node, counter, length, forward) == Success(FirstElement(nodes, chain))
    decreases |chain|
  {
    if chain != [] && !IsElement(nodes, chain[0]) {
      WalkAlongChain(nodes, Link(nodes[chain[0]], forward), chain[1..], counter + 1, length, forward);
    }
  }

  /**
   * When the `nextSibling` links agree with the parent's child list, the
   * getter returns the first element after this node in that list, or `null`.
   */
  lemma NextElementSiblingInList(nodes: Nodes, self: NodeId, pre: seq<NodeId>, post: seq<NodeId>)
    requires self in nodes && nodes[self].parentNode.Some? && nodes[self].parentNode.value in nodes
    requires nodes[nodes[self].parentNode.value].childNodes == pre + [self] + post
    requires Linked(nodes, nodes[self].nextSibling, post, true)
    ensures ElementSibling(nodes, self, true) == Success(FirstElement(nodes, post))
  {
    WalkAlongChain(nodes, nodes[self].nextSibling, post, 0, |pre + [self] + post|, true);
  }

  /** Backwards likewise, along the `previousSibling` links through the nodes before this one. */
  lemma PreviousElementSiblingInList(nodes: Nodes, self: NodeId, pre: seq<NodeId>, post: seq<NodeId>, back: seq<NodeId>)
    requires self in nodes && nodes[self].parentNode.Some? && nodes[self].parentNode.value in nodes
    requires nodes[nodes[self].parentNode.value].childNodes == pre + [self] + post
    requires |back| == |pre| && Linked(nodes, nodes[self].previousSibling, back, false)
    ensures ElementSibling(nodes, self, false) == Success(FirstElement(nodes, back))
  {
    WalkAlongChain(nodes, nodes[self].previousSibling, back, 0, |pre + [self] + post|, false);
  }

  /** A non-element node whose link points to itself makes the walk throw, whatever the budget. */
  lemma {:induction false} SelfLinkThrows(nodes: Nodes, node: NodeId, counter: nat, length: nat, forward: bool)
    requires node in nodes && nodes[node].kind != ElementKind && Link(nodes[node], forward) == Some(node)
    ensures Walk(nodes, Some(node), counter, length, forward) == Failure(PossibleInfiniteLoop)
    decreases length + 1 - counter
  {
    if counter <= length {
      SelfLinkThrows(nodes, node, counter + 1, length, forward);
    }
  }

  // ---------------------------------------------------------------- the textContent setter

  datatype SetterError =
    /** `this.ownerDocument.createTextNode` on an owner document that is `null` or not a document. */
    | OwnerDocumentTypeError

  /** A list after `Without` of each of `removed`, in order. */
  function RemovedAll(s: seq<NodeId>, removed: seq<NodeId>): seq<NodeId>
    decreases |removed|
  {
    if removed == [] then s
    else Without(RemovedAll(s, removed[..|removed| - 1]), removed[|removed| - 1])
  }

  lemma {:induction false} WithoutMultiset(s: seq<NodeId>, x: NodeId)
    ensures multiset(Without(s, x)) == multiset(s) - multiset{x}
  {
    if s != [] {
      assert s == [s[0]] + s[1..];
      if s[0] != x {
        WithoutMultiset(s[1..], x);
      }
    }
  }

  /** Removing a list's nodes one by one takes out one occurrence of each. */
  lemma {:induction false} RemovedAllMultiset(s: seq<NodeId>, removed: seq<NodeId>)
    ensures multiset(RemovedAll(s, removed)) == multiset(s) - multiset(removed)
    decreases |removed|
  {
    if removed != [] {
      var init, x := removed[..|removed| - 1], removed[|removed| - 1];
      RemovedAllMultiset(s, init);
      WithoutMultiset(RemovedAll(s, init), x);
      SnocSplit(removed);
      assert multiset(removed) == multiset(init) + multiset{x};
      DifferenceOfDifference(multiset(s), multiset(init), multiset{x});
    }
  }

  lemma DifferenceOfDifference(a: multiset<NodeId>, b: multiset<NodeId>, c: multiset<NodeId>)
    ensures a - b - c == a - (b + c)
  {
  }

  /** When the element children are among the child nodes, the setter leaves no element child. */
  lemma RemovedAllEmpties(children: seq<NodeId>, childNodes: seq<NodeId>)
    requires multiset(children) <= multiset(childNodes)
    ensures RemovedAll(children, childNodes) == []
  {
    RemovedAllMultiset(children, childNodes);
    assert multiset(RemovedAll(children, childNodes)) == multiset{};
  }

  /** One `removeChild` of the snapshot's next node. */
  method RemoveNext(g: Graph, self: NodeId, kids: seq<NodeId>, i: nat, children0: seq<NodeId>)
    requires g.Valid() && i < |kids| && self in g.nodes
    requires g.nodes[self].childNodes == kids[i..]
    requires g.nodes[self].children == RemovedAll(children0, kids[..i])
    modifies g
    ensures g.Valid() && g.nextId == old(g.nextId)
    ensures g.nodes == old(g.nodes)[self := old(g.nodes)[self].(childNodes := kids[i + 1..],
                                                                children := RemovedAll(children0, kids[..i + 1]))]
  {
    g.RemoveChild(self, kids[i]);
    assert kids[..i + 1][..i] == kids[..i];
  }

  /**
   * The `textContent` setter: every node of a snapshot of `childNodes` is
   * removed, then a text node of the owner document is made, added to the
   * child list and given this element as its parent.
   */
  method SetTextContent(g: Graph, self: NodeId, content: string) returns (error: Option<SetterError>, textNode: NodeId)
    requires g.Valid() && IsElement(g.nodes, self)
    modifies g
    ensures g.Valid()
    ensures error.Some? <==> !ChildNodeLike.IsDocumentLike(old(g.nodes), old(g.nodes)[self].ownerDocument)
    ensures self in g.nodes
    ensures g.nodes[self] == old(g.nodes)[self].(childNodes := if error.None? then [textNode] else [],
                                                 children := RemovedAll(old(g.nodes)[self].children, old(g.nodes)[self].childNodes))
    ensures error.Some? ==> g.nodes == old(g.nodes)[self := g.nodes[self]] && g.nextId == old(g.nextId)
    ensures error.None? ==> textNode == old(g.nextId) && g.nextId == textNode + 1
    ensures error.None? ==> g.nodes == old(g.nodes)[self := g.nodes[self]]
                                          [textNode := TextRecord(old(g.nodes)[self].ownerDocument.value, content).(parentNode := Some(self))]
    ensures error.None? ==> forall fuel :: fuel >= 1 ==> TextContent(g.nodes, self, fuel) == Success(content)
  {
    ghost var nodes0 := g.nodes;
    var kids := g.nodes[self].childNodes;
    var children0 := g.nodes[self].children;
    var i := 0;
    while i < |kids|
      invariant i <= |kids| && g.Valid() && g.nextId == old(g.nextId)
      invariant self in g.nodes
      invariant g.nodes == nodes0[self := nodes0[self].(childNodes := kids[i..], children := RemovedAll(children0, kids[..i]))]
    {
      RemoveNext(g, self, kids, i, children0);
      i := i + 1;
    }
    assert kids[..i] == kids;
    var doc := g.nodes[self].ownerDocument;
    if !ChildNodeLike.IsDocumentLike(g.nodes, doc) {
      return Some(OwnerDocumentTypeError), 0;
    }
    textNode := g.CreateTextNode(doc.value, content);
    g.AddChildNode(self, textNode);
    g.SetParentNode(textNode, self);
    error := None;
    forall fuel: nat | fuel >= 1
      ensures TextContent(g.nodes, self, fuel) == Success(content)
    {
      OneTextChild(g.nodes, self, textNode, fuel);
    }
  }
}
