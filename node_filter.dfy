/**
 * `Linter.filterChildNodes`: the children of the story-data element (or the
 * items of a list) that survive the ignore rules, in their original order.
 */
module NodeFilter {
  import opened Wrappers
  import opened Text
  import opened Dom
  import opened JsValues
  import opened Constants
  import opened TypeGuards
  import opened Externals
  import opened MergeOptions

  datatype FilterError =
    | StoryDataInvalid
    | MergeFailed(error: MergeError)
    /** Reading `nodeType` of a `null` or `undefined` item. */
    | NodeTypeError

  /** The four ignore lists of a merged `ignores` value. */
  datatype IgnoreLists = IgnoreLists(nodeTypes: seq<JsValue>, elementTags: seq<JsValue>,
                                     passageNames: seq<JsValue>, passageTags: seq<JsValue>)

  function ListsOf(ignores: JsValue): IgnoreLists
  {
    IgnoreLists(Present(Get(ignores, "nodeTypes")), Present(Get(ignores, "elementTags")),
                Present(Get(ignores, "passageNames")), Present(Get(ignores, "passageTags")))
  }

  /** The lower-cased `name` attribute, '' when missing. */
  function PassageNameOf(n: Node): string
  {
    ToLower(GetAttribute(n, "name").GetOr(""))
  }

  /** The `tags` attribute split on ' ' with the empty pieces dropped. */
  function PassageTagsOf(n: Node): seq<string>
  {
    Tokens(GetAttribute(n, "tags").GetOr(""))
  }

  predicate IsPassageData(v: JsValue)
  {
    IsElementLike(v) && ToLower(v.node.tagName) == "tw-passagedata"
  }

  /** Some tag of the passage is listed in `passageTags` (compared case-sensitively). */
  predicate HasIgnoredTag(tags: seq<string>, passageTags: seq<JsValue>)
  {
    exists i :: 0 <= i < |tags| && Str(tags[i]) in passageTags
  }

  /** The filter callback: whether a child node is kept. */
  predicate Keep(item: JsValue, ig: IgnoreLists)
  {
    if Get(item, "nodeType") in ig.nodeTypes then false
    else if IsElementLike(item) then
      var tag := ToLower(item.node.tagName);
      if Str(tag) in ig.elementTags then false
      else if tag != "tw-passagedata" then true
      else if Str(PassageNameOf(item.node)) in ig.passageNames then false
      else !HasIgnoredTag(PassageTagsOf(item.node), ig.passageTags)
    else true
  }

  /** `Array.prototype.filter` with `Keep`. */
  function FilterNodes(items: seq<JsValue>, ig: IgnoreLists): seq<JsValue>
  {
    if items == [] then []
    else if Keep(items[0], ig) then [items[0]] + FilterNodes(items[1..], ig)
    else FilterNodes(items[1..], ig)
  }

  function DomNodes(ns: seq<Node>): (r: seq<JsValue>)
    ensures |r| == |ns|
    ensures forall i :: 0 <= i < |ns| ==> r[i] == DomNode(ns[i])
  {
    if ns == [] then [] else [DomNode(ns[0])] + DomNodes(ns[1..])
  }

  /** The list to filter: a value with a length >= 0 itself, else an element's child nodes. */
  function ChildNodesOf(storyData: JsValue): Option<seq<JsValue>>
  {
    if !Truthy(storyData) then None
    else if NonNegative(Get(storyData, "length")) then Some(ArrayFrom(storyData))
    else if IsElementLike(storyData) then Some(DomNodes(storyData.node.childNodes))
    else None
  }

  predicate HasNullish(items: seq<JsValue>)
  {
    exists i :: 0 <= i < |items| && Nullish(items[i])
  }

  /** `filterChildNodes` once its options are merged: `merged` is the merge's outcome. */
  function FilterWith(storyData: JsValue, merged: Result<Options, MergeError>): Result<seq<JsValue>, FilterError>
  {
    match ChildNodesOf(storyData)
    case None => Failure(StoryDataInvalid)
    case Some(items) =>
      match merged
      case Failure(e) => Failure(MergeFailed(e))
      case Success(opts) =>
        if HasNullish(items) then Failure(NodeTypeError)
        else Success(FilterNodes(items, ListsOf(Get(Object(opts), "ignores"))))
  }

  /** `filterChildNodes(storyData, options)` over the stored options `baseline`. */
  function Filtered(storyData: JsValue, options: JsValue, baseline: Options, env: Env): Result<seq<JsValue>, FilterError>
  {
    FilterWith(storyData, Merge(baseline, options, env))
  }

  /** The tag loop with its `found` flag and `break`. */
  method FindIgnoredTag(tags: seq<string>, passageTags: seq<JsValue>) returns (found: bool)
    ensures found <==> HasIgnoredTag(tags, passageTags)
  {
    found := false;
    var ii := 0;
    while ii < |tags|
      invariant 0 <= ii <= |tags|
      invariant !found
      invariant forall k :: 0 <= k < ii ==> Str(tags[k]) !in passageTags
    {
      var tag := tags[ii];
      if IndexOf(passageTags, Str(tag)) != -1 {
        found := true;
        break;
      }
      ii := ii + 1;
    }
  }

  /** The filter callback, as written. */
  method KeepNode(childNode: JsValue, ig: IgnoreLists) returns (keep: bool)
    ensures keep == Keep(childNode, ig)
  {
    if IndexOf(ig.nodeTypes, Get(childNode, "nodeType")) != -1 {
      return false;
    }
    if IsElementLike(childNode) {
      var tagName := ToLower(childNode.node.tagName);
      if IndexOf(ig.elementTags, Str(tagName)) != -1 {
        return false;
      } else if tagName != "tw-passagedata" {
        return true;
      }
      var passageName := PassageNameOf(childNode.node);
      if IndexOf(ig.passageNames, Str(passageName)) != -1 {
        return false;
      }
      var found := FindIgnoredTag(PassageTagsOf(childNode.node), ig.passageTags);
      if found {
        return false;
      }
    }
    return true;
  }

  /** The `Array.from(childNodes).filter(...)` call. */
  method FilterItems(items: seq<JsValue>, ig: IgnoreLists) returns (r: Result<seq<JsValue>, FilterError>)
    ensures r == if HasNullish(items) then Failure(NodeTypeError) else Success(FilterNodes(items, ig))
  {
    var kept: seq<JsValue> := [];
    var i := 0;
    while i < |items|
      invariant 0 <= i <= |items|
      invariant !HasNullish(items[..i])
      invariant FilterNodes(items, ig) == kept + FilterNodes(items[i..], ig)
    {
      if Nullish(items[i]) {
        return Failure(NodeTypeError);
      }
      assert items[..i + 1] == items[..i] + [items[i]];
      assert items[i..][1..] == items[i + 1..];
      var keep := KeepNode(items[i], ig);
      if keep {
        kept := kept + [items[i]];
      }
      i := i + 1;
    }
    assert items[..i] == items;
    assert FilterNodes(items[i..], ig) == [];
    assert !HasNullish(items);
    assert kept == FilterNodes(items, ig);
    return Success(kept);
  }

  method FilterChildNodes(storyData: JsValue, options: JsValue, baseline: Options, env: Env)
    returns (r: Result<seq<JsValue>, FilterError>)
    ensures r == Filtered(storyData, options, baseline, env)
  {
    var childNodes := ChildNodesOf(storyData);
    if childNodes.None? {
      return Failure(StoryDataInvalid);
    }
    var merged := Merge(baseline, options, env);
    r := FilterMerged(childNodes.value, merged);
  }

  /** `filterChildNodes` with the outcome of its merge already at hand. */
  method FilterChildNodesWith(storyData: JsValue, merged: Result<Options, MergeError>)
    returns (r: Result<seq<JsValue>, FilterError>)
    ensures r == FilterWith(storyData, merged)
  {
    var childNodes := ChildNodesOf(storyData);
    if childNodes.None? {
      return Failure(StoryDataInvalid);
    }
    r := FilterMerged(childNodes.value, merged);
  }

  /** The filter once the child nodes are read: the merge's error, or the `forEach` over the items. */
  method FilterMerged(items: seq<JsValue>, merged: Result<Options, MergeError>)
    returns (r: Result<seq<JsValue>, FilterError>)
    ensures merged.Failure? ==> r == Failure(MergeFailed(merged.error))
    ensures merged.Success? ==> r == if HasNullish(items) then Failure(NodeTypeError)
                                     else Success(FilterNodes(items, ListsOf(Get(Object(merged.value), "ignores"))))
  {
    if merged.Failure? {
      return Failure(MergeFailed(merged.error));
    }
    r := FilterItems(items, ListsOf(Get(Object(merged.value), "ignores")));
  }

  /** `xs` is `ys` with some items left out, the rest in the same order. */
  predicate Subsequence(xs: seq<JsValue>, ys: seq<JsValue>)
    decreases |ys|
  {
    if xs == [] then true
    else if ys == [] then false
    else (xs[0] == ys[0] && Subsequence(xs[1..], ys[1..])) || Subsequence(xs, ys[1..])
  }

  /** The filter keeps an order-preserving subsequence of its input. */
  lemma {:induction false} FilterIsSubsequence(items: seq<JsValue>, ig: IgnoreLists)
    ensures Subsequence(FilterNodes(items, ig), items)
  {
    if items != [] {
      FilterIsSubsequence(items[1..], ig);
      var rest := FilterNodes(items[1..], ig);
      if Keep(items[0], ig) {
        assert ([items[0]] + rest)[1..] == rest;
      }
    }
  }

  /** An item is in the output iff it is in the input and the callback keeps it. */
  lemma {:induction false} FilterMembership(items: seq<JsValue>, ig: IgnoreLists, x: JsValue)
    ensures x in FilterNodes(items, ig) <==> x in items && Keep(x, ig)
  {
    if items != [] {
      FilterMembership(items[1..], ig, x);
      assert items == [items[0]] + items[1..];
    }
  }

  /** With all four ignore lists empty, every node is kept. */
  lemma {:induction false} EmptyIgnoresKeepEverything(items: seq<JsValue>)
    ensures FilterNodes(items, IgnoreLists([], [], [], [])) == items
  {
    if items != [] {
      EmptyIgnoresKeepEverything(items[1..]);
      assert [items[0]] + items[1..] == items;
    }
  }

  /**
   * A node is dropped iff its `nodeType` is listed, or it is an element whose
   * lower-cased tag is listed, or it is a `tw-passagedata` whose lower-cased
   * name is listed or one of whose tags is listed.
   */
  lemma DroppedIff(item: JsValue, ig: IgnoreLists)
    ensures !Keep(item, ig) <==>
      Get(item, "nodeType") in ig.nodeTypes
      || (IsElementLike(item) && Str(ToLower(item.node.tagName)) in ig.elementTags)
      || (IsPassageData(item) && Str(PassageNameOf(item.node)) in ig.passageNames)
      || (IsPassageData(item) && HasIgnoredTag(PassageTagsOf(item.node), ig.passageTags))
  {
  }

  /**
   * Under ignore rules that pass `isIIgnores`, a passage with a non-empty
   * name is dropped only for its `nodeType`: the name, tag and element-tag
   * lists can hold no non-empty string.
   */
  lemma GuardedIgnoresOnlyFilterByNodeType(item: JsValue, ignores: JsValue)
    requires IsIIgnores(ignores) == Some(true)
    requires IsPassageData(item) && PassageNameOf(item.node) != ""
    ensures Keep(item, ListsOf(ignores)) <==> Get(item, "nodeType") !in ListsOf(ignores).nodeTypes
  {
    var ig := ListsOf(ignores);
    var name := PassageNameOf(item.node);
    if Str(name) in ig.passageNames {
      var i :| 0 <= i < |ig.passageNames| && ig.passageNames[i] == Str(name);
      AcceptedIgnoresHoldNoNames(ignores, "passageNames", i);
    }
    var tag := ToLower(item.node.tagName);
    if Str(tag) in ig.elementTags {
      var i :| 0 <= i < |ig.elementTags| && ig.elementTags[i] == Str(tag);
      AcceptedIgnoresHoldNoNames(ignores, "elementTags", i);
    }
    var tags := PassageTagsOf(item.node);
    TokensAreTokens(GetAttribute(item.node, "tags").GetOr(""));
    forall k | 0 <= k < |tags|
      ensures Str(tags[k]) !in ig.passageTags
    {
      if Str(tags[k]) in ig.passageTags {
        var i :| 0 <= i < |ig.passageTags| && ig.passageTags[i] == Str(tags[k]);
        AcceptedIgnoresHoldNoNames(ignores, "passageTags", i);
      }
    }
  }

  /** The lists of the default `ignores`. */
  lemma DefaultLists()
    ensures ListsOf(DefaultIgnores()) == IgnoreLists([], Strings(IgnoredElementTags),
      Strings(IgnoredPassageNames), Strings(IgnoredPassageTags))
  {
    var d := DefaultIgnores();
    assert Present(Get(d, "nodeTypes")) == [];
    assert Present(Get(d, "elementTags")) == Strings(IgnoredElementTags);
    assert Present(Get(d, "passageNames")) == Strings(IgnoredPassageNames);
    assert Present(Get(d, "passageTags")) == Strings(IgnoredPassageTags);
  }

  /** The default rules drop every `script` or `style` element, whatever its case. */
  lemma DefaultIgnoresDropScripts(item: JsValue)
    requires IsElementLike(item) && ToLower(item.node.tagName) in IgnoredElementTags
    ensures !Keep(item, ListsOf(DefaultIgnores()))
  {
    var tag := ToLower(item.node.tagName);
    var i :| 0 <= i < |IgnoredElementTags| && IgnoredElementTags[i] == tag;
    DefaultLists();
    assert ListsOf(DefaultIgnores()).elementTags[i] == Str(tag);
  }

  /** The default rules drop every passage named like the linter, whatever its case. */
  lemma DefaultIgnoresDropLinterPassages(item: JsValue)
    requires IsPassageData(item) && PassageNameOf(item.node) in IgnoredPassageNames
    ensures !Keep(item, ListsOf(DefaultIgnores()))
  {
    var name := PassageNameOf(item.node);
    var i :| 0 <= i < |IgnoredPassageNames| && IgnoredPassageNames[i] == name;
    DefaultLists();
    assert ListsOf(DefaultIgnores()).passageNames[i] == Str(name);
  }
}
