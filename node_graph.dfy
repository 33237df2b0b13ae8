/**
 * The node objects of the NodeLike object model as an arena: every node is a
 * record reached by its id, and the links between nodes (parent, siblings,
 * child lists, owner document) are ids, stored the way the objects store them,
 * so that a mis-set sibling link can be represented. A link to an id outside
 * the arena reads as `null`.
 *
 * The parent-node and document operations the mixins call (`insertBefore`,
 * `removeChild`, `createTextNode`, `setAttribute`) are given here the meaning
 * section 4.2.3 and section 4.9 of the WHATWG DOM Standard give them, reduced
 * to the parent's child lists and the attribute map.
 */
module NodeGraph {
  import opened Wrappers
  import opened Seqs

  type NodeId = nat

  /** The node kind, standing for the `nodeType` code and the type guards built on it. */
  datatype NodeKind =
    | ElementKind
    | TextKind
    | CommentKind
    | ProcessingInstructionKind
    | DocumentTypeKind
    | DocumentKind
    | FragmentKind

  /**
   * One node object: `data` is the character data of text-like nodes,
   * `childNodes` and `children` the two lists an element keeps (all children,
   * element children).
   */
  datatype NodeRecord = NodeRecord(
    kind: NodeKind,
    tagName: string,
    attributes: map<string, string>,
    data: string,
    childNodes: seq<NodeId>,
    children: seq<NodeId>,
    parentNode: Option<NodeId>,
    previousSibling: Option<NodeId>,
    nextSibling: Option<NodeId>,
    ownerDocument: Option<NodeId>)

  type Nodes = map<NodeId, NodeRecord>

  predicate IsElement(nodes: Nodes, id: NodeId)
  {
    id in nodes && nodes[id].kind == ElementKind
  }

  /** A node `createTextNode(data)` makes: detached, owned by `document`. */
  function TextRecord(document: NodeId, data: string): NodeRecord
  {
    NodeRecord(TextKind, "#text", map[], data, [], [], None, None, None, Some(document))
  }

  /** `s` without the first occurrence of `x`. */
  function Without(s: seq<NodeId>, x: NodeId): (r: seq<NodeId>)
    ensures x !in s ==> r == s
    ensures x in s ==> |r| == |s| - 1
    ensures forall y :: y in r ==> y in s
  {
    if s == [] then []
    else if s[0] == x then s[1..]
    else [s[0]] + Without(s[1..], x)
  }

  /** The index of the first occurrence of `x`. */
  function IndexOf(s: seq<NodeId>, x: NodeId): (r: nat)
    requires x in s
    ensures r < |s| && s[r] == x && x !in s[..r]
  {
    if s[0] == x then 0
    else
      assert x in s[1..];
      var k := IndexOf(s[1..], x);
      assert s[..k + 1] == [s[0]] + s[1..][..k];
      k + 1
  }

  /** The item after the first occurrence of `x`: `x`'s next sibling, `None` when `x` is last or absent. */
  function NextItem(s: seq<NodeId>, x: NodeId): (r: Option<NodeId>)
    ensures r.Some? ==> x in s && IndexOf(s, x) + 1 < |s| && r.value == s[IndexOf(s, x) + 1]
  {
    if x in s && IndexOf(s, x) + 1 < |s| then Some(s[IndexOf(s, x) + 1]) else None
  }

  /**
   * `parent.insertBefore(node, ref)` on the child list: a reference that is
   * `node` itself becomes `node`'s next sibling; `node` then leaves the list
   * and goes in front of the reference, or at the end when there is none.
   */
  function Inserted(s: seq<NodeId>, node: NodeId, ref: Option<NodeId>): (r: seq<NodeId>)
    ensures node !in s ==> |r| == |s| + 1
    ensures node in r
  {
    var before := if ref == Some(node) then NextItem(s, node) else ref;
    var w := Without(s, node);
    if before.Some? && before.value in w then w[..IndexOf(w, before.value)] + [node] + w[IndexOf(w, before.value)..]
    else w + [node]
  }

  /** The element children among `ids`, in order: what `children` shows of a child list. */
  function ElementsAmong(nodes: Nodes, ids: seq<NodeId>): (r: seq<NodeId>)
    ensures forall i :: 0 <= i < |r| ==> IsElement(nodes, r[i])
    ensures forall x :: x in ids && IsElement(nodes, x) <==> x in r
  {
    if ids == [] then []
    else if IsElement(nodes, ids[0]) then [ids[0]] + ElementsAmong(nodes, ids[1..])
    else ElementsAmong(nodes, ids[1..])
  }

  /** `OrderedSet.add`: the list with `x` appended, unless it is already there. */
  function AddedToSet(s: seq<NodeId>, x: NodeId): (r: seq<NodeId>)
    ensures x in r && forall y :: y in s ==> y in r
    ensures x !in s ==> r == s + [x]
    ensures x in s ==> r == s
  {
    if x in s then s else s + [x]
  }

  /** The calls the child-node mixin makes on its parent and its owner document. */
  datatype Call =
    /** `document.createTextNode(data)`, which returned the node `result`. */
    | CreateTextNode(document: NodeId, data: string, result: NodeId)
    | InsertBefore(parent: NodeId, node: NodeId, reference: Option<NodeId>)
    | RemoveChild(parent: NodeId, child: NodeId)

  /** The effect of one call on the arena. */
  function Apply(nodes: Nodes, c: Call): Nodes
  {
    match c
    case CreateTextNode(doc, data, id) => nodes[id := TextRecord(doc, data)]
    case InsertBefore(p, node, ref) =>
      if p in nodes then
        var kids := Inserted(nodes[p].childNodes, node, ref);
        nodes[p := nodes[p].(childNodes := kids, children := ElementsAmong(nodes, kids))]
      else nodes
    case RemoveChild(p, child) =>
      if p in nodes
      then nodes[p := nodes[p].(childNodes := Without(nodes[p].childNodes, child),
                                children := Without(nodes[p].children, child))]
      else nodes
  }

  /** The arena after a sequence of calls, in order. */
  function Performed(nodes: Nodes, calls: seq<Call>): Nodes
    decreases |calls|
  {
    if calls == [] then nodes
    else Apply(Performed(nodes, calls[..|calls| - 1]), calls[|calls| - 1])
  }

  /** The effect of one call on the child list of `parent`. */
  function ApplyToList(kids: seq<NodeId>, parent: NodeId, c: Call): seq<NodeId>
  {
    match c
    case CreateTextNode(_, _, _) => kids
    case InsertBefore(p, node, ref) => if p == parent then Inserted(kids, node, ref) else kids
    case RemoveChild(p, child) => if p == parent then Without(kids, child) else kids
  }

  /** The child list of `parent` after a sequence of calls. */
  function ListAfter(kids: seq<NodeId>, parent: NodeId, calls: seq<Call>): seq<NodeId>
    decreases |calls|
  {
    if calls == [] then kids
    else ApplyToList(ListAfter(kids, parent, calls[..|calls| - 1]), parent, calls[|calls| - 1])
  }

  /** The arena, with the allocation counter `createTextNode` draws fresh ids from. */
  class Graph {
    var nodes: Nodes
    var nextId: NodeId

    /** Every node has an id below the counter, so the counter's id is fresh. */
    predicate Valid()
      reads this
    {
      forall id :: id in nodes ==> id < nextId
    }

    constructor(nodes0: Nodes, nextId0: NodeId)
      requires forall id :: id in nodes0 ==> id < nextId0
      ensures Valid()
      ensures nodes == nodes0 && nextId == nextId0
    {
      nodes := nodes0;
      nextId := nextId0;
    }

    method CreateTextNode(document: NodeId, data: string) returns (id: NodeId)
      requires Valid()
      modifies this
      ensures Valid()
      ensures id == old(nextId) && id !in old(nodes) && nextId == id + 1
      ensures nodes == Apply(old(nodes), Call.CreateTextNode(document, data, id))
    {
      id := nextId;
      nodes := nodes[id := TextRecord(document, data)];
      nextId := nextId + 1;
    }

    method InsertBefore(parent: NodeId, node: NodeId, ref: Option<NodeId>)
      requires Valid()
      modifies this
      ensures Valid() && nextId == old(nextId)
      ensures nodes == Apply(old(nodes), Call.InsertBefore(parent, node, ref))
    {
      if parent in nodes {
        var kids := Inserted(nodes[parent].childNodes, node, ref);
        nodes := nodes[parent := nodes[parent].(childNodes := kids, children := ElementsAmong(nodes, kids))];
      }
    }

    method RemoveChild(parent: NodeId, child: NodeId)
      requires Valid()
      modifies this
      ensures Valid() && nextId == old(nextId)
      ensures nodes == Apply(old(nodes), Call.RemoveChild(parent, child))
    {
      if parent in nodes {
        nodes := nodes[parent := nodes[parent].(childNodes := Without(nodes[parent].childNodes, child),
                                                children := Without(nodes[parent].children, child))];
      }
    }

    /** `parent.__childNodes = parent.__childNodes.add(node)`: an ordered set, so a node already there stays put. */
    method AddChildNode(parent: NodeId, node: NodeId)
      requires Valid()
      modifies this
      ensures Valid() && nextId == old(nextId)
      ensures parent in old(nodes) ==>
        nodes == old(nodes)[parent := old(nodes)[parent].(childNodes := AddedToSet(old(nodes)[parent].childNodes, node))]
      ensures parent !in old(nodes) ==> nodes == old(nodes)
    {
      if parent in nodes {
        nodes := nodes[parent := nodes[parent].(childNodes := AddedToSet(nodes[parent].childNodes, node))];
      }
    }

    /** `node.__setParentNode(parent)`. */
    method SetParentNode(node: NodeId, parent: NodeId)
      requires Valid()
      modifies this
      ensures Valid() && nextId == old(nextId)
      ensures node in old(nodes) ==> nodes == old(nodes)[node := old(nodes)[node].(parentNode := Some(parent))]
      ensures node !in old(nodes) ==> nodes == old(nodes)
    {
      if node in nodes {
        nodes := nodes[node := nodes[node].(parentNode := Some(parent))];
      }
    }

    /** `element.setAttribute(name, value)`. */
    method SetAttribute(element: NodeId, name: string, value: string)
      requires Valid()
      modifies this
      ensures Valid() && nextId == old(nextId)
      ensures element in old(nodes) ==>
        nodes == old(nodes)[element := old(nodes)[element].(attributes := old(nodes)[element].attributes[name := value])]
      ensures element !in old(nodes) ==> nodes == old(nodes)
    {
      if element in nodes {
        nodes := nodes[element := nodes[element].(attributes := nodes[element].attributes[name := value])];
      }
    }
  }

  /**
   * After `insertBefore` the parent's `children` are exactly the elements of
   * its new child list, in order; an inserted element is among them.
   */
  lemma InsertedElementIsChild(nodes: Nodes, p: NodeId, node: NodeId, ref: Option<NodeId>)
    requires p in nodes && IsElement(nodes, node)
    ensures node in Apply(nodes, InsertBefore(p, node, ref))[p].childNodes
    ensures node in Apply(nodes, InsertBefore(p, node, ref))[p].children
  {
  }

  /** Calls add to the arena: nothing is ever deleted. */
  lemma {:induction false} PerformedKeepsNodes(nodes: Nodes, calls: seq<Call>)
    ensures nodes.Keys <= Performed(nodes, calls).Keys
    decreases |calls|
  {
    if calls != [] {
      PerformedKeepsNodes(nodes, calls[..|calls| - 1]);
    }
  }

  /** Performing two call sequences one after the other. */
  lemma {:induction false} PerformedConcat(nodes: Nodes, a: seq<Call>, b: seq<Call>)
    ensures Performed(nodes, a + b) == Performed(Performed(nodes, a), b)
    decreases |b|
  {
    if b == [] {
      assert a + b == a;
    } else {
      assert (a + b)[..|a + b| - 1] == a + b[..|b| - 1];
      PerformedConcat(nodes, a, b[..|b| - 1]);
    }
  }

  /** One more call on the child list. */
  lemma ListAfterSnoc(kids: seq<NodeId>, parent: NodeId, calls: seq<Call>, c: Call)
    ensures ListAfter(kids, parent, calls + [c]) == ApplyToList(ListAfter(kids, parent, calls), parent, c)
  {
    assert (calls + [c])[..|calls|] == calls;
  }

  /**
   * What the calls do to one parent's child list, read off the arena: as long
   * as no call creates a node under the parent's id, the parent's list after
   * the calls is `ListAfter` of its list before them.
   */
  lemma {:induction false} PerformedChildList(nodes: Nodes, parent: NodeId, calls: seq<Call>)
    requires parent in nodes
    requires forall k :: 0 <= k < |calls| && calls[k].CreateTextNode? ==> calls[k].result != parent
    ensures parent in Performed(nodes, calls)
    ensures Performed(nodes, calls)[parent].childNodes == ListAfter(nodes[parent].childNodes, parent, calls)
    decreases |calls|
  {
    if calls != [] {
      var init := calls[..|calls| - 1];
      assert forall k :: 0 <= k < |init| ==> init[k] == calls[k];
      PerformedChildList(nodes, parent, init);
    }
  }

  /** The first occurrence, found where it is. */
  lemma {:induction false} IndexOfAt(s: seq<NodeId>, x: NodeId, j: nat)
    requires j < |s| && s[j] == x && x !in s[..j]
    ensures IndexOf(s, x) == j
  {
    if j > 0 {
      assert s[0] == s[..j][0];
      assert s[1..][..j - 1] == s[..j][1..];
      IndexOfAt(s[1..], x, j - 1);
    }
  }

  /** A node not yet in the list goes right in front of the reference node, the first of `post`. */
  lemma InsertedFresh(pre: seq<NodeId>, post: seq<NodeId>, node: NodeId)
    requires post != [] && post[0] !in pre && node !in pre + post
    ensures Inserted(pre + post, node, Some(post[0])) == pre + [node] + post
  {
    var s := pre + post;
    assert s[..|pre|] == pre;
    IndexOfAt(s, post[0], |pre|);
    assert s[|pre|..] == post;
  }
}
