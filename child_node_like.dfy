/**
 * The `MChildNodeLike` mixin: `before`, `after`, `replaceWith` and `remove`
 * on a child node, each a guard chain followed by calls on the parent node
 * (`insertBefore`, `removeChild`) and on the owner document
 * (`createTextNode`). The methods return those calls in the order they are
 * made and leave the arena as those calls leave it; the lemmas read off where
 * the contents end up in the parent's child list.
 */
module ChildNodeLike {
  import opened Wrappers
  import opened NodeGraph
  import opened Seqs

  /** An argument of `before`, `after` or `replaceWith`: a node, or a string to wrap in a text node. */
  datatype Content = NodeContent(node: NodeId) | StringContent(text: string)

  datatype MixinError =
    /** 'The object implementing the MChildNodeLike mixin does not pass the isIChildNodeLike type guard.' */
    | ThisInvalid
    /** '... does not have an ownerDocument property which meets the isIDocumentLike type guard.' */
    | OwnerDocumentInvalid
    /** '... does not have a parentNode property which meets the isIParentNodeLike type guard.' */
    | ParentNodeInvalid

  predicate IsChildLike(nodes: Nodes, self: NodeId)
  {
    self in nodes && nodes[self].kind in {ElementKind, TextKind, CommentKind, ProcessingInstructionKind, DocumentTypeKind}
  }

  predicate IsDocumentLike(nodes: Nodes, d: Option<NodeId>)
  {
    d.Some? && d.value in nodes && nodes[d.value].kind == DocumentKind
  }

  predicate IsParentLike(nodes: Nodes, p: Option<NodeId>)
  {
    p.Some? && p.value in nodes && nodes[p.value].kind in {ElementKind, DocumentKind, FragmentKind}
  }

  /**
   * The checks at the top of each method, in their order: `this`, then the
   * owner document (not checked by `remove`), then the parent node.
   */
  function Guard(nodes: Nodes, self: NodeId, checkDocument: bool): (r: Option<MixinError>)
    ensures r.None? <==>
      IsChildLike(nodes, self) && IsParentLike(nodes, nodes[self].parentNode)
      && (checkDocument ==> IsDocumentLike(nodes, nodes[self].ownerDocument))
    ensures r == Some(ParentNodeInvalid) ==>
      IsChildLike(nodes, self) && (checkDocument ==> IsDocumentLike(nodes, nodes[self].ownerDocument))
  {
    if !IsChildLike(nodes, self) then Some(ThisInvalid)
    else if checkDocument && !IsDocumentLike(nodes, nodes[self].ownerDocument) then Some(OwnerDocumentInvalid)
    else if !IsParentLike(nodes, nodes[self].parentNode) then Some(ParentNodeInvalid)
    else None
  }

  /** `this.parentNode`, or 0 where the guard has refused. */
  function ParentOf(nodes: Nodes, self: NodeId): NodeId
  {
    if self in nodes && nodes[self].parentNode.Some? then nodes[self].parentNode.value else 0
  }

  /** `this.ownerDocument`, or 0 where the guard has refused. */
  function OwnerOf(nodes: Nodes, self: NodeId): NodeId
  {
    if self in nodes && nodes[self].ownerDocument.Some? then nodes[self].ownerDocument.value else 0
  }

  /** `this.nextSibling`, read once before any content is inserted. */
  function NextSiblingOf(nodes: Nodes, self: NodeId): Option<NodeId>
  {
    if self in nodes then nodes[self].nextSibling else None
  }

  function StringCount(cs: seq<Content>): nat
    decreases |cs|
  {
    if cs == [] then 0
    else StringCount(cs[..|cs| - 1]) + (if cs[|cs| - 1].StringContent? then 1 else 0)
  }

  /** The texts of the string contents, in order: what `createTextNode` receives. */
  function Strings(cs: seq<Content>): seq<string>
    decreases |cs|
  {
    if cs == [] then []
    else
      var last := cs[|cs| - 1];
      Strings(cs[..|cs| - 1]) + (if last.StringContent? then [last.text] else [])
  }

  /**
   * The node each content becomes: its own node, or the text node the next
   * `createTextNode` call makes, drawn in order from the ids at `next`.
   */
  function Ids(cs: seq<Content>, next: NodeId): (r: seq<NodeId>)
    ensures |r| == |cs|
    decreases |cs|
  {
    if cs == [] then []
    else
      var init := cs[..|cs| - 1];
      var last := cs[|cs| - 1];
      Ids(init, next) + [if last.NodeContent? then last.node else next + StringCount(init)]
  }

  /** The calls for one content: a text node when it is a string, then `insertBefore(newNode, ref)`. */
  function Step(c: Content, doc: NodeId, parent: NodeId, ref: Option<NodeId>, id: NodeId): seq<Call>
  {
    match c
    case NodeContent(n) => [InsertBefore(parent, n, ref)]
    case StringContent(s) => [CreateTextNode(doc, s, id), InsertBefore(parent, id, ref)]
  }

  /** The calls of `contents.forEach(...)`, in order, with fresh ids drawn from `next`. */
  function Plan(cs: seq<Content>, doc: NodeId, parent: NodeId, ref: Option<NodeId>, next: NodeId): seq<Call>
    decreases |cs|
  {
    if cs == [] then []
    else
      var init := cs[..|cs| - 1];
      var id := next + StringCount(init);
      Plan(init, doc, parent, ref, next) + Step(cs[|cs| - 1], doc, parent, ref, id)
  }

  /** The body of the `forEach` loop for one content: a text node for a string, then `insertBefore`. */
  method InsertOne(g: Graph, doc: NodeId, parent: NodeId, ref: Option<NodeId>, c: Content)
    returns (calls: seq<Call>)
    requires g.Valid()
    modifies g
    ensures g.Valid()
    ensures calls == Step(c, doc, parent, ref, old(g.nextId))
    ensures g.nodes == Performed(old(g.nodes), calls)
    ensures g.nextId == old(g.nextId) + (if c.StringContent? then 1 else 0)
  {
    ghost var nodes0 := g.nodes;
    var node: NodeId;
    match c {
      case NodeContent(n) =>
        node := n;
        calls := [];
      case StringContent(s) =>
        node := g.CreateTextNode(doc, s);
        calls := [CreateTextNode(doc, s, node)];
        assert g.nodes == Performed(nodes0, calls);
    }
    g.InsertBefore(parent, node, ref);
    assert (calls + [InsertBefore(parent, node, ref)])[..|calls|] == calls;
    calls := calls + [InsertBefore(parent, node, ref)];
  }

  /** The `forEach` loop the first three methods share: every content goes in front of `ref`. */
  method InsertEach(g: Graph, doc: NodeId, parent: NodeId, ref: Option<NodeId>, contents: seq<Content>)
    returns (calls: seq<Call>)
    requires g.Valid()
    modifies g
    ensures g.Valid()
    ensures calls == Plan(contents, doc, parent, ref, old(g.nextId))
    ensures g.nodes == Performed(old(g.nodes), calls)
    ensures g.nextId == old(g.nextId) + StringCount(contents)
  {
    ghost var nodes0 := g.nodes;
    var next0 := g.nextId;
    calls := [];
    var i := 0;
    while i < |contents|
      invariant 0 <= i <= |contents|
      invariant g.Valid()
      invariant calls == Plan(contents[..i], doc, parent, ref, next0)
      invariant g.nodes == Performed(nodes0, calls)
      invariant g.nextId == next0 + StringCount(contents[..i])
    {
      ghost var mid := g.nodes;
      var step := InsertOne(g, doc, parent, ref, contents[i]);
      LoopStep(nodes0, mid, g.nodes, contents, i, calls, step, doc, parent, ref, next0);
      calls := calls + step;
      i := i + 1;
    }
    assert contents[..i] == contents;
  }

  /** One turn of the loop keeps the calls and the arena in step with the plan. */
  lemma LoopStep(nodes0: Nodes, mid: Nodes, after: Nodes, cs: seq<Content>, i: nat, calls: seq<Call>, step: seq<Call>,
                 doc: NodeId, parent: NodeId, ref: Option<NodeId>, next: NodeId)
    requires i < |cs|
    requires calls == Plan(cs[..i], doc, parent, ref, next) && mid == Performed(nodes0, calls)
    requires step == Step(cs[i], doc, parent, ref, next + StringCount(cs[..i])) && after == Performed(mid, step)
    ensures calls + step == Plan(cs[..i + 1], doc, parent, ref, next)
    ensures after == Performed(nodes0, calls + step)
    ensures StringCount(cs[..i + 1]) == StringCount(cs[..i]) + (if cs[i].StringContent? then 1 else 0)
  {
    PerformedConcat(nodes0, calls, step);
    PlanPrefix(cs, i, doc, parent, ref, next);
  }

  /** One more content of the loop: its calls follow those of the contents before it. */
  lemma PlanPrefix(cs: seq<Content>, i: nat, doc: NodeId, parent: NodeId, ref: Option<NodeId>, next: NodeId)
    requires i < |cs|
    ensures Plan(cs[..i + 1], doc, parent, ref, next)
            == Plan(cs[..i], doc, parent, ref, next) + Step(cs[i], doc, parent, ref, next + StringCount(cs[..i]))
    ensures StringCount(cs[..i + 1]) == StringCount(cs[..i]) + (if cs[i].StringContent? then 1 else 0)
  {
    assert cs[..i + 1][..i] == cs[..i];
  }

  /** `before(...contents)`: each content is inserted in front of `this`. */
  method Before(g: Graph, self: NodeId, contents: seq<Content>) returns (error: Option<MixinError>, calls: seq<Call>)
    requires g.Valid()
    modifies g
    ensures g.Valid()
    ensures error == Guard(old(g.nodes), self, true)
    ensures error.Some? ==> calls == [] && g.nextId == old(g.nextId)
    ensures error.None? ==>
      calls == Plan(contents, OwnerOf(old(g.nodes), self), ParentOf(old(g.nodes), self), Some(self), old(g.nextId))
    ensures g.nodes == Performed(old(g.nodes), calls)
  {
    error := Guard(g.nodes, self, true);
    if error.Some? {
      return error, [];
    }
    calls := InsertEach(g, OwnerOf(g.nodes, self), ParentOf(g.nodes, self), Some(self), contents);
  }

  /** `after(...contents)`: `nextSibling` is read once, and each content is inserted in front of it. */
  method After(g: Graph, self: NodeId, contents: seq<Content>) returns (error: Option<MixinError>, calls: seq<Call>)
    requires g.Valid()
    modifies g
    ensures g.Valid()
    ensures error == Guard(old(g.nodes), self, true)
    ensures error.Some? ==> calls == [] && g.nextId == old(g.nextId)
    ensures error.None? ==>
      calls == Plan(contents, OwnerOf(old(g.nodes), self), ParentOf(old(g.nodes), self),
                    NextSiblingOf(old(g.nodes), self), old(g.nextId))
    ensures g.nodes == Performed(old(g.nodes), calls)
  {
    error := Guard(g.nodes, self, true);
    if error.Some? {
      return error, [];
    }
    var referenceNode := NextSiblingOf(g.nodes, self);
    calls := InsertEach(g, OwnerOf(g.nodes, self), ParentOf(g.nodes, self), referenceNode, contents);
  }

  /**
   * `replaceWith(...contents)`: `nextSibling` is read, `this` is removed, and
   * each content is inserted in front of the node that followed it.
   */
  method ReplaceWith(g: Graph, self: NodeId, contents: seq<Content>) returns (error: Option<MixinError>, calls: seq<Call>)
    requires g.Valid()
    modifies g
    ensures g.Valid()
    ensures error == Guard(old(g.nodes), self, true)
    ensures error.Some? ==> calls == [] && g.nextId == old(g.nextId)
    ensures error.None? ==>
      calls == [RemoveChild(ParentOf(old(g.nodes), self), self)]
               + Plan(contents, OwnerOf(old(g.nodes), self), ParentOf(old(g.nodes), self),
                      NextSiblingOf(old(g.nodes), self), old(g.nextId))
    ensures g.nodes == Performed(old(g.nodes), calls)
  {
    error := Guard(g.nodes, self, true);
    if error.Some? {
      return error, [];
    }
    var parent := ParentOf(g.nodes, self);
    var doc := OwnerOf(g.nodes, self);
    var referenceNode := NextSiblingOf(g.nodes, self);
    ghost var nodes0 := g.nodes;
    g.RemoveChild(parent, self);
    assert g.nodes == Performed(nodes0, [RemoveChild(parent, self)]);
    var inserted := InsertEach(g, doc, parent, referenceNode, contents);
    calls := [RemoveChild(parent, self)] + inserted;
    PerformedConcat(nodes0, [RemoveChild(parent, self)], inserted);
  }

  /** `remove()`: one `removeChild(this)` on the parent; the owner document is not checked. */
  method Remove(g: Graph, self: NodeId) returns (error: Option<MixinError>, calls: seq<Call>)
    requires g.Valid()
    modifies g
    ensures g.Valid()
    ensures error == Guard(old(g.nodes), self, false)
    ensures error.Some? ==> calls == []
    ensures error.None? ==> calls == [RemoveChild(ParentOf(old(g.nodes), self), self)]
    ensures g.nodes == Performed(old(g.nodes), calls)
  {
    error := Guard(g.nodes, self, false);
    if error.Some? {
      return error, [];
    }
    ghost var nodes0 := g.nodes;
    var parent := ParentOf(g.nodes, self);
    g.RemoveChild(parent, self);
    calls := [RemoveChild(parent, self)];
    assert g.nodes == Performed(nodes0, calls);
  }


  /** The nodes the `insertBefore` calls of a call sequence insert, in order. */
  function InsertedNodes(calls: seq<Call>): seq<NodeId>
    decreases |calls|
  {
    if calls == [] then []
    else
      var last := calls[|calls| - 1];
      InsertedNodes(calls[..|calls| - 1]) + (if last.InsertBefore? then [last.node] else [])
  }

  /** The texts the `createTextNode` calls of a call sequence receive, in order. */
  function CreatedTexts(calls: seq<Call>): seq<string>
    decreases |calls|
  {
    if calls == [] then []
    else
      var last := calls[|calls| - 1];
      CreatedTexts(calls[..|calls| - 1]) + (if last.CreateTextNode? then [last.data] else [])
  }

  /** Appending one call to a call sequence. */
  lemma SnocCalls(q: seq<Call>, c: Call)
    ensures InsertedNodes(q + [c]) == InsertedNodes(q) + (if c.InsertBefore? then [c.node] else [])
    ensures CreatedTexts(q + [c]) == CreatedTexts(q) + (if c.CreateTextNode? then [c.data] else [])
  {
    assert (q + [c])[..|q|] == q;
  }

  /** Appending the calls for one content. */
  lemma SnocStep(q: seq<Call>, c: Content, doc: NodeId, parent: NodeId, ref: Option<NodeId>, id: NodeId)
    ensures InsertedNodes(q + Step(c, doc, parent, ref, id)) ==
      InsertedNodes(q) + [if c.NodeContent? then c.node else id]
    ensures CreatedTexts(q + Step(c, doc, parent, ref, id)) ==
      CreatedTexts(q) + (if c.StringContent? then [c.text] else [])
  {
    match c {
      case NodeContent(n) =>
        SnocCalls(q, InsertBefore(parent, n, ref));
      case StringContent(t) =>
        var q' := q + [CreateTextNode(doc, t, id)];
        SnocCalls(q, CreateTextNode(doc, t, id));
        SnocCalls(q', InsertBefore(parent, id, ref));
        assert q + Step(c, doc, parent, ref, id) == q' + [InsertBefore(parent, id, ref)];
    }
  }

  /**
   * The calls of the loop, as its tests observe them: `insertBefore` receives
   * every content's node in argument order, and `createTextNode` receives the
   * strings in argument order.
   */
  lemma {:induction false} PlanCalls(cs: seq<Content>, doc: NodeId, parent: NodeId, ref: Option<NodeId>, next: NodeId)
    ensures InsertedNodes(Plan(cs, doc, parent, ref, next)) == Ids(cs, next)
    ensures CreatedTexts(Plan(cs, doc, parent, ref, next)) == Strings(cs)
    decreases |cs|
  {
    if cs != [] {
      var init := cs[..|cs| - 1];
      var last, id := cs[|cs| - 1], next + StringCount(init);
      var p := Plan(init, doc, parent, ref, next);
      PlanCalls(init, doc, parent, ref, next);
      SnocStep(p, last, doc, parent, ref, id);
      assert Plan(cs, doc, parent, ref, next) == p + Step(last, doc, parent, ref, id);
      assert Ids(cs, next) == Ids(init, next) + [if last.NodeContent? then last.node else id];
    }
  }

  /** A call the loop makes: on the parent with the one reference node, or a new text node of the owner document. */
  predicate LoopCall(c: Call, doc: NodeId, parent: NodeId, ref: Option<NodeId>, next: NodeId)
  {
    match c
    case InsertBefore(p, _, r) => p == parent && r == ref
    case CreateTextNode(d, _, id) => d == doc && id >= next
    case RemoveChild(_, _) => false
  }

  /** Every call of the loop goes to the parent with the same reference node, and every text node is new. */
  lemma {:induction false} PlanShape(cs: seq<Content>, doc: NodeId, parent: NodeId, ref: Option<NodeId>, next: NodeId)
    ensures forall k :: 0 <= k < |Plan(cs, doc, parent, ref, next)| ==>
      LoopCall(Plan(cs, doc, parent, ref, next)[k], doc, parent, ref, next)
    decreases |cs|
  {
    if cs != [] {
      var init := cs[..|cs| - 1];
      var p := Plan(init, doc, parent, ref, next);
      var step := Step(cs[|cs| - 1], doc, parent, ref, next + StringCount(init));
      PlanShape(init, doc, parent, ref, next);
      assert forall k :: 0 <= k < |step| ==> LoopCall(step[k], doc, parent, ref, next);
      assert forall k :: 0 <= k < |p| + |step| ==> (p + step)[k] == if k < |p| then p[k] else step[k - |p|];
    }
  }

  /** `insertBefore` of each of `ids`, in order, on one list. */
  function InsertAll(kids: seq<NodeId>, ids: seq<NodeId>, ref: Option<NodeId>): seq<NodeId>
    decreases |ids|
  {
    if ids == [] then kids
    else Inserted(InsertAll(kids, ids[..|ids| - 1], ref), ids[|ids| - 1], ref)
  }

  /** On the parent's list, the loop's calls are the insertion of every content's node. */
  lemma {:induction false} ListAfterPlan(kids: seq<NodeId>, cs: seq<Content>, doc: NodeId, parent: NodeId,
                                         ref: Option<NodeId>, next: NodeId)
    ensures ListAfter(kids, parent, Plan(cs, doc, parent, ref, next)) == InsertAll(kids, Ids(cs, next), ref)
    decreases |cs|
  {
    if cs != [] {
      var init := cs[..|cs| - 1];
      var last := cs[|cs| - 1];
      var id := next + StringCount(init);
      var p := Plan(init, doc, parent, ref, next);
      ListAfterPlan(kids, init, doc, parent, ref, next);
      ListAfterStep(kids, parent, p, last, doc, ref, id);
      assert Plan(cs, doc, parent, ref, next) == p + Step(last, doc, parent, ref, id);
      var ids := Ids(cs, next);
      assert ids == Ids(init, next) + [if last.NodeContent? then last.node else id];
      assert ids[..|ids| - 1] == Ids(init, next);
    }
  }

  /** On the parent's list, one content's calls are the insertion of its node. */
  lemma ListAfterStep(kids: seq<NodeId>, parent: NodeId, p: seq<Call>, c: Content, doc: NodeId,
                      ref: Option<NodeId>, id: NodeId)
    ensures ListAfter(kids, parent, p + Step(c, doc, parent, ref, id))
            == Inserted(ListAfter(kids, parent, p), if c.NodeContent? then c.node else id, ref)
  {
    match c {
      case NodeContent(n) =>
        ListAfterSnoc(kids, parent, p, InsertBefore(parent, n, ref));
      case StringContent(t) =>
        var q := p + [CreateTextNode(doc, t, id)];
        ListAfterSnoc(kids, parent, p, CreateTextNode(doc, t, id));
        ListAfterSnoc(kids, parent, q, InsertBefore(parent, id, ref));
        assert p + Step(c, doc, parent, ref, id) == q + [InsertBefore(parent, id, ref)];
    }
  }

  predicate Distinct(s: seq<NodeId>)
  {
    forall i, j :: 0 <= i < j < |s| ==> s[i] != s[j]
  }

  /** Nodes new to the list and to each other: what the placement lemmas ask of the contents. */
  predicate FreshFor(ids: seq<NodeId>, kids: seq<NodeId>)
  {
    Distinct(ids) && forall x :: x in ids ==> x !in kids
  }

  lemma FreshForInit(ids: seq<NodeId>, kids: seq<NodeId>)
    requires ids != [] && FreshFor(ids, kids)
    ensures FreshFor(ids[..|ids| - 1], kids)
    ensures ids[|ids| - 1] !in ids[..|ids| - 1] && ids[|ids| - 1] !in kids
  {
    var init := ids[..|ids| - 1];
    assert forall y :: y in init ==> y in ids;
    forall k | 0 <= k < |init|
      ensures init[k] != ids[|ids| - 1]
    {
      assert init[k] == ids[k];
    }
  }

  /** Nodes new to the list and to each other go in front of the first node of `post`, in order. */
  lemma {:induction false} InsertAllBefore(pre: seq<NodeId>, post: seq<NodeId>, ids: seq<NodeId>)
    requires post != [] && post[0] !in pre && FreshFor(ids, pre + post)
    ensures InsertAll(pre + post, ids, Some(post[0])) == pre + ids + post
    decreases |ids|
  {
    if ids != [] {
      var init := ids[..|ids| - 1];
      var x := ids[|ids| - 1];
      assert FreshFor(init, pre + post) && x !in init && x !in pre + post && post[0] !in init by {
        FreshForInit(ids, pre + post);
        assert post[0] in pre + post;
      }
      InsertAllBefore(pre, post, init);
      InsertOneMoreBefore(pre, post, ids);
    }
  }

  /** The induction step: the last new node goes after the ones already in front of the reference node. */
  lemma InsertOneMoreBefore(pre: seq<NodeId>, post: seq<NodeId>, ids: seq<NodeId>)
    requires ids != [] && post != [] && post[0] !in pre && post[0] !in ids[..|ids| - 1]
    requires ids[|ids| - 1] !in ids[..|ids| - 1] && ids[|ids| - 1] !in pre + post
    requires InsertAll(pre + post, ids[..|ids| - 1], Some(post[0])) == pre + ids[..|ids| - 1] + post
    ensures InsertAll(pre + post, ids, Some(post[0])) == pre + ids + post
  {
    var init, x := ids[..|ids| - 1], ids[|ids| - 1];
    SnocSplit(ids);
    InsertedFresh(pre + init, post, x);
    AppendAssoc(pre, init, [x]);
  }

  /** With no reference node, new nodes go at the end, in order. */
  lemma {:induction false} InsertAllAtEnd(kids: seq<NodeId>, ids: seq<NodeId>)
    requires FreshFor(ids, kids)
    ensures InsertAll(kids, ids, None) == kids + ids
    decreases |ids|
  {
    if ids != [] {
      var init := ids[..|ids| - 1];
      var x := ids[|ids| - 1];
      FreshForInit(ids, kids);
      InsertAllAtEnd(kids, init);
      assert kids + init + [x] == kids + ids;
    }
  }

  /** The loop's effect on the parent's list, read off the arena: the new text nodes never take the parent's id. */
  lemma PlanKeepsParent(nodes: Nodes, cs: seq<Content>, doc: NodeId, parent: NodeId, ref: Option<NodeId>, next: NodeId)
    requires parent in nodes && forall id :: id in nodes ==> id < next
    ensures parent in Performed(nodes, Plan(cs, doc, parent, ref, next))
    ensures Performed(nodes, Plan(cs, doc, parent, ref, next))[parent].childNodes
            == InsertAll(nodes[parent].childNodes, Ids(cs, next), ref)
  {
    var plan := Plan(cs, doc, parent, ref, next);
    PlanShape(cs, doc, parent, ref, next);
    assert forall k :: 0 <= k < |plan| && plan[k].CreateTextNode? ==> plan[k].result != parent by {
      forall k | 0 <= k < |plan| && plan[k].CreateTextNode?
        ensures plan[k].result != parent
      {
        assert LoopCall(plan[k], doc, parent, ref, next);
      }
    }
    PerformedChildList(nodes, parent, plan);
    ListAfterPlan(nodes[parent].childNodes, cs, doc, parent, ref, next);
  }

  /** The loop with a reference node, the first of `post`: the contents end up right in front of it. */
  lemma PlacesBefore(nodes: Nodes, doc: NodeId, parent: NodeId, cs: seq<Content>, next: NodeId,
                     pre: seq<NodeId>, post: seq<NodeId>)
    requires parent in nodes && forall id :: id in nodes ==> id < next
    requires nodes[parent].childNodes == pre + post && post != [] && post[0] !in pre
    requires FreshFor(Ids(cs, next), pre + post)
    ensures parent in Performed(nodes, Plan(cs, doc, parent, Some(post[0]), next))
    ensures Performed(nodes, Plan(cs, doc, parent, Some(post[0]), next))[parent].childNodes == pre + Ids(cs, next) + post
  {
    PlanKeepsParent(nodes, cs, doc, parent, Some(post[0]), next);
    InsertAllBefore(pre, post, Ids(cs, next));
  }

  /** The loop with no reference node: the contents end up at the end of the list. */
  lemma PlacesAtEnd(nodes: Nodes, doc: NodeId, parent: NodeId, cs: seq<Content>, next: NodeId)
    requires parent in nodes && forall id :: id in nodes ==> id < next
    requires FreshFor(Ids(cs, next), nodes[parent].childNodes)
    ensures parent in Performed(nodes, Plan(cs, doc, parent, None, next))
    ensures Performed(nodes, Plan(cs, doc, parent, None, next))[parent].childNodes
            == nodes[parent].childNodes + Ids(cs, next)
  {
    PlanKeepsParent(nodes, cs, doc, parent, None, next);
    InsertAllAtEnd(nodes[parent].childNodes, Ids(cs, next));
  }

  /**
   * `before`: when `this` sits in its parent's list between `pre` and `post`
   * and the contents become nodes new to the list and to each other, they end
   * up right in front of `this`, in argument order.
   */
  lemma BeforePlacesContents(nodes: Nodes, self: NodeId, cs: seq<Content>, next: NodeId,
                             pre: seq<NodeId>, post: seq<NodeId>)
    requires Guard(nodes, self, true).None? && forall id :: id in nodes ==> id < next
    requires nodes[ParentOf(nodes, self)].childNodes == pre + [self] + post && self !in pre
    requires FreshFor(Ids(cs, next), pre + [self] + post)
    ensures ParentOf(nodes, self) in Performed(nodes, Plan(cs, OwnerOf(nodes, self), ParentOf(nodes, self), Some(self), next))
    ensures Performed(nodes, Plan(cs, OwnerOf(nodes, self), ParentOf(nodes, self), Some(self), next))
              [ParentOf(nodes, self)].childNodes == pre + Ids(cs, next) + [self] + post
  {
    assert pre + [self] + post == pre + ([self] + post);
    PlacesBefore(nodes, OwnerOf(nodes, self), ParentOf(nodes, self), cs, next, pre, [self] + post);
    assert pre + Ids(cs, next) + ([self] + post) == pre + Ids(cs, next) + [self] + post;
  }

  /**
   * `after`: when `nextSibling` is the node that follows `this` in the list
   * (`null` at the end), the contents end up right after `this`, in order.
   */
  lemma AfterPlacesContents(nodes: Nodes, self: NodeId, cs: seq<Content>, next: NodeId,
                            pre: seq<NodeId>, post: seq<NodeId>)
    requires Guard(nodes, self, true).None? && forall id :: id in nodes ==> id < next
    requires nodes[ParentOf(nodes, self)].childNodes == pre + [self] + post
    requires post != [] ==> post[0] !in pre + [self]
    requires NextSiblingOf(nodes, self) == if post == [] then None else Some(post[0])
    requires FreshFor(Ids(cs, next), pre + [self] + post)
    ensures ParentOf(nodes, self) in
      Performed(nodes, Plan(cs, OwnerOf(nodes, self), ParentOf(nodes, self), NextSiblingOf(nodes, self), next))
    ensures Performed(nodes, Plan(cs, OwnerOf(nodes, self), ParentOf(nodes, self), NextSiblingOf(nodes, self), next))
              [ParentOf(nodes, self)].childNodes == pre + [self] + Ids(cs, next) + post
  {
    assert pre + [self] + post == (pre + [self]) + post;
    ReplacedList(nodes, OwnerOf(nodes, self), ParentOf(nodes, self), cs, next, pre + [self], post, NextSiblingOf(nodes, self));
    assert (pre + [self]) + Ids(cs, next) + post == pre + [self] + Ids(cs, next) + post;
  }

  /** `remove`: `this` leaves its parent's list, which keeps the others in order. */
  lemma RemoveTakesOut(nodes: Nodes, self: NodeId, pre: seq<NodeId>, post: seq<NodeId>)
    requires Guard(nodes, self, false).None?
    requires nodes[ParentOf(nodes, self)].childNodes == pre + [self] + post && self !in pre
    ensures Performed(nodes, [RemoveChild(ParentOf(nodes, self), self)]).Keys == nodes.Keys
    ensures Performed(nodes, [RemoveChild(ParentOf(nodes, self), self)])[ParentOf(nodes, self)].childNodes == pre + post
  {
    WithoutAfter(pre, self, post);
  }

  /**
   * `replaceWith`: `this` leaves the list and the contents take its place, in
   * order, in front of the node that followed it.
   */
  lemma ReplaceWithTakesPlace(nodes: Nodes, self: NodeId, cs: seq<Content>, next: NodeId,
                              pre: seq<NodeId>, post: seq<NodeId>)
    requires Guard(nodes, self, true).None? && forall id :: id in nodes ==> id < next
    requires nodes[ParentOf(nodes, self)].childNodes == pre + [self] + post && self !in pre
    requires post != [] ==> post[0] !in pre
    requires NextSiblingOf(nodes, self) == if post == [] then None else Some(post[0])
    requires FreshFor(Ids(cs, next), pre + [self] + post)
    ensures ParentOf(nodes, self) in
      Performed(nodes, [RemoveChild(ParentOf(nodes, self), self)]
                       + Plan(cs, OwnerOf(nodes, self), ParentOf(nodes, self), NextSiblingOf(nodes, self), next))
    ensures Performed(nodes, [RemoveChild(ParentOf(nodes, self), self)]
                             + Plan(cs, OwnerOf(nodes, self), ParentOf(nodes, self), NextSiblingOf(nodes, self), next))
              [ParentOf(nodes, self)].childNodes == pre + Ids(cs, next) + post
  {
    var parent := ParentOf(nodes, self);
    var doc := OwnerOf(nodes, self);
    var ref := NextSiblingOf(nodes, self);
    var removed := Performed(nodes, [RemoveChild(parent, self)]);
    RemoveTakesOut(nodes, self, pre, post);
    PerformedConcat(nodes, [RemoveChild(parent, self)], Plan(cs, doc, parent, ref, next));
    forall x | x in Ids(cs, next)
      ensures x !in pre + post
    {
      assert x !in pre + [self] + post;
    }
    ReplacedList(removed, doc, parent, cs, next, pre, post, ref);
  }

  /** The second half of `replaceWith`, on the list `this` has already left. */
  lemma ReplacedList(removed: Nodes, doc: NodeId, parent: NodeId, cs: seq<Content>, next: NodeId,
                     pre: seq<NodeId>, post: seq<NodeId>, ref: Option<NodeId>)
    requires parent in removed && forall id :: id in removed ==> id < next
    requires removed[parent].childNodes == pre + post
    requires post != [] ==> post[0] !in pre
    requires ref == if post == [] then None else Some(post[0])
    requires FreshFor(Ids(cs, next), pre + post)
    ensures parent in Performed(removed, Plan(cs, doc, parent, ref, next))
    ensures Performed(removed, Plan(cs, doc, parent, ref, next))[parent].childNodes == pre + Ids(cs, next) + post
  {
    if post == [] {
      assert pre + post == pre;
      PlacesAtEnd(removed, doc, parent, cs, next);
      assert pre + Ids(cs, next) + post == pre + Ids(cs, next);
    } else {
      PlacesBefore(removed, doc, parent, cs, next, pre, post);
    }
  }

  /** Removing the first occurrence of `x` when it follows `pre`. */
  lemma {:induction false} WithoutAfter(pre: seq<NodeId>, x: NodeId, post: seq<NodeId>)
    requires x !in pre
    ensures Without(pre + [x] + post, x) == pre + post
    decreases |pre|
  {
    var s := pre + [x] + post;
    if pre == [] {
      assert s == [x] + post && s[1..] == post;
    } else {
      assert pre == [pre[0]] + pre[1..];
      assert s[0] == pre[0] && pre[0] != x && x !in pre[1..];
      assert s[1..] == pre[1..] + [x] + post;
      WithoutAfter(pre[1..], x, post);
      assert Without(s, x) == [pre[0]] + Without(s[1..], x);
      assert [pre[0]] + (pre[1..] + post) == pre + post;
    }
  }

  /** `IndexOf` finds `x` at `k` when `k` holds the first `x`. */
  lemma {:induction false} IndexOfIs(s: seq<NodeId>, x: NodeId, k: nat)
    requires k < |s| && s[k] == x && x !in s[..k]
    ensures IndexOf(s, x) == k
  {
    if k > 0 {
      assert s[..k][0] == s[0];
      assert s[1..][..k - 1] == s[..k][1..];
      IndexOfIs(s[1..], x, k - 1);
    }
  }

  /**
   * `insertBefore(node, node)` leaves the list as it is: the reference
   * becomes the node's next sibling, in front of which it already stands.
   */
  lemma InsertBeforeItselfStays(pre: seq<NodeId>, node: NodeId, post: seq<NodeId>)
    requires node !in pre && node !in post
    requires post != [] ==> post[0] !in pre
    ensures Inserted(pre + [node] + post, node, Some(node)) == pre + [node] + post
  {
    var s := pre + [node] + post;
    assert s[..|pre|] == pre;
    IndexOfIs(s, node, |pre|);
    WithoutAfter(pre, node, post);
    var w := pre + post;
    if post != [] {
      assert NextItem(s, node) == Some(post[0]);
      assert w[..|pre|] == pre;
      IndexOfIs(w, post[0], |pre|);
      assert w[|pre|..] == post;
    } else {
      assert NextItem(s, node) == None;
    }
  }

  /**
   * `a.after(b)` on `[a, b, c]` calls `insertBefore(b, b)` (b is a's next
   * sibling) and `a.replaceWith(b)` calls it on `[b, c]`: both lists stay.
   */
  lemma MovingOntoItselfStays(a: NodeId, b: NodeId, c: NodeId)
    requires a != b && b != c && a != c
    ensures InsertAll([a, b, c], [b], Some(b)) == [a, b, c]
    ensures InsertAll([b, c], [b], Some(b)) == [b, c]
  {
    InsertBeforeItselfStays([a], b, [c]);
    InsertBeforeItselfStays([], b, [c]);
    assert [a] + [b] + [c] == [a, b, c];
    assert [] + [b] + [c] == [b, c];
    assert [b][..0] == [];
  }
}
