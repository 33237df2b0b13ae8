/**
 * `ClassListLike`: an element's class attribute held as an immutable list of
 * class names, replaced wholesale by each operation. The list is read from
 * the element's `className` when the object is made, and written back with
 * `setAttribute('class', value)` by the operations that report an update.
 * Lists are Immutable.js lists: `indexOf` finds the first occurrence or -1,
 * and a negative index counts back from the end.
 */
module ClassListLike {
  import opened Wrappers
  import opened Text
  import opened NodeGraph
  import opened Seqs
  import ElementLike

  /** `list.indexOf(x)`: the first index of `x`, or -1. */
  function IndexOfClass(xs: seq<string>, x: string): (r: int)
    ensures r == -1 <==> x !in xs
    ensures r != -1 ==> 0 <= r < |xs| && xs[r] == x && x !in xs[..r]
  {
    if xs == [] then -1
    else if xs[0] == x then 0
    else
      var k := IndexOfClass(xs[1..], x);
      if k == -1 then -1
      else
        assert xs[..k + 1] == [xs[0]] + xs[1..][..k];
        k + 1
  }

  /** `list.delete(index)` of the first occurrence, or the list itself when `x` is absent. */
  function RemoveFirst(xs: seq<string>, x: string): seq<string>
  {
    var i := IndexOfClass(xs, x);
    if i == -1 then xs else xs[..i] + xs[i + 1..]
  }

  /** `list.delete(-1)`: the last element goes, and an empty list stays empty. */
  function DeleteLast(xs: seq<string>): seq<string>
  {
    if xs == [] then [] else xs[..|xs| - 1]
  }

  /** The classes after `remove(...args)`: each argument in turn loses its first occurrence. */
  function RemovedClasses(xs: seq<string>, args: seq<string>): seq<string>
    decreases |args|
  {
    if args == [] then xs
    else RemoveFirst(RemovedClasses(xs, args[..|args| - 1]), args[|args| - 1])
  }

  /** One `toggle` step as written: an absent class deletes the last element, a present one is pushed again. */
  function ToggleOne(xs: seq<string>, cls: string): seq<string>
  {
    if IndexOfClass(xs, cls) == -1 then DeleteLast(xs) else xs + [cls]
  }

  /** The classes after `toggle(...args)`. */
  function Toggled(xs: seq<string>, args: seq<string>): seq<string>
    decreases |args|
  {
    if args == [] then xs
    else ToggleOne(Toggled(xs, args[..|args| - 1]), args[|args| - 1])
  }

  /** The classes after `replace(oldClass, newClass)`: the first occurrence is overwritten. */
  function Replaced(xs: seq<string>, oldClass: string, newClass: string): seq<string>
  {
    var i := IndexOfClass(xs, oldClass);
    if i == -1 then xs else xs[i := newClass]
  }

  /** The arena after `__pushToParent`: the element's class attribute holds the joined list. */
  function Pushed(nodes: Nodes, element: NodeId, classes: seq<string>): Nodes
    requires element in nodes
  {
    nodes[element := nodes[element].(attributes := nodes[element].attributes["class" := Join(classes)])]
  }

  class ClassList {
    const graph: Graph
    const element: NodeId
    var classes: seq<string>

    predicate Valid()
      reads this, graph
    {
      graph.Valid() && element in graph.nodes
    }

    /** `new ClassListLike(element)`, which pulls the classes from `className`. */
    constructor(g: Graph, el: NodeId)
      requires g.Valid() && el in g.nodes
      ensures Valid() && graph == g && element == el
      ensures classes == Tokens(ElementLike.ClassName(g.nodes, el))
    {
      graph := g;
      element := el;
      classes := Tokens(ElementLike.ClassName(g.nodes, el));
    }

    /** `length`: the number of classes. */
    function Length(): (r: nat)
      reads this
      ensures r == |classes|
    {
      |classes|
    }

    /** `value`: the classes joined by single spaces. */
    function Value(): string
      reads this
    {
      Join(classes)
    }

    /** `item(index)`: the class at `index`, counting back from the end when negative, or ''. */
    function Item(index: int): (r: string)
      reads this
      ensures 0 <= index < |classes| ==> r == classes[index]
      ensures -|classes| <= index < 0 ==> r == classes[|classes| + index]
      ensures !(-|classes| <= index < |classes|) ==> r == ""
    {
      if 0 <= index < |classes| then classes[index]
      else if -|classes| <= index < 0 then classes[|classes| + index]
      else ""
    }

    /** `contains(cls)`. */
    function Contains(cls: string): (r: bool)
      reads this
      ensures r <==> exists i :: 0 <= i < |classes| && classes[i] == cls
    {
      IndexOfClass(classes, cls) != -1
    }

    /** `__pushToParent`: `setAttribute('class', value)` on the element. */
    method PushToParent()
      requires Valid()
      modifies graph
      ensures Valid() && graph.nextId == old(graph.nextId)
      ensures graph.nodes == Pushed(old(graph.nodes), element, classes)
    {
      graph.SetAttribute(element, "class", Join(classes));
    }

    /**
     * `add(...args)` as written: each argument is looked up in the argument
     * list itself, where it is always found. The branch that would push the
     * class and mark the list updated, and with it the write-back, is never
     * taken.
     */
    method Add(args: seq<string>)
      requires Valid()
      modifies this, graph
      ensures Valid()
      ensures classes == old(classes)
      ensures graph.nodes == old(graph.nodes) && graph.nextId == old(graph.nextId)
    {
      var i := 0;
      while i < |args|
        invariant i <= |args|
      {
        if IndexOfClass(args, args[i]) == -1 {
          assert false;
        }
        i := i + 1;
      }
    }

    /** `remove(...args)`: first occurrences go one by one; the element is written iff one went. */
    method Remove(args: seq<string>)
      requires Valid()
      modifies this, graph
      ensures Valid()
      ensures classes == RemovedClasses(old(classes), args)
      ensures |classes| < |old(classes)| ==> graph.nodes == Pushed(old(graph.nodes), element, classes)
      ensures |classes| == |old(classes)| ==> graph.nodes == old(graph.nodes)
      ensures graph.nextId == old(graph.nextId)
    {
      ghost var start := classes;
      var updated := false;
      var i := 0;
      while i < |args|
        modifies this
        invariant i <= |args|
        invariant classes == RemovedClasses(start, args[..i])
        invariant |classes| <= |start|
        invariant updated <==> |classes| < |start|
      {
        var index := IndexOfClass(classes, args[i]);
        RemovedClassesSnoc(start, args, i);
        RemoveFirstAt(classes, args[i], index);
        if index != -1 {
          ghost var before := classes;
          classes := classes[..index] + classes[index + 1..];
          assert |classes| == |before| - 1;
          updated := true;
        }
        i := i + 1;
      }
      assert args[..i] == args;
      if updated {
        PushToParent();
      }
    }

    /** `toggle(...args)` as written, followed by an unconditional write-back. */
    method Toggle(args: seq<string>)
      requires Valid()
      modifies this, graph
      ensures Valid()
      ensures classes == Toggled(old(classes), args)
      ensures graph.nodes == Pushed(old(graph.nodes), element, classes) && graph.nextId == old(graph.nextId)
    {
      var i := 0;
      while i < |args|
        modifies this
        invariant i <= |args|
        invariant classes == Toggled(old(classes), args[..i])
      {
        ToggledStep(old(classes), args, i, classes);
        var index := IndexOfClass(classes, args[i]);
        if index == -1 {
          classes := DeleteLast(classes);
        } else {
          classes := classes + [args[i]];
        }
        i := i + 1;
      }
      assert args[..i] == args;
      PushToParent();
    }

    /** `replace(oldClass, newClass)`: only a present `oldClass` is overwritten and written back. */
    method Replace(oldClass: string, newClass: string)
      requires Valid()
      modifies this, graph
      ensures Valid()
      ensures classes == Replaced(old(classes), oldClass, newClass)
      ensures oldClass in old(classes) ==> graph.nodes == Pushed(old(graph.nodes), element, classes)
      ensures oldClass !in old(classes) ==> graph.nodes == old(graph.nodes)
      ensures graph.nextId == old(graph.nextId)
    {
      var index := IndexOfClass(classes, oldClass);
      if index != -1 {
        classes := classes[index := newClass];
        PushToParent();
      }
    }
  }

  /**
   * Pulling after a push gives the pushed list back when every class is a
   * token (non-empty, no space): the list and the attribute stay in step.
   */
  lemma PullAfterPush(nodes: Nodes, element: NodeId, classes: seq<string>)
    requires element in nodes
    requires forall i :: 0 <= i < |classes| ==> IsToken(classes[i])
    ensures Tokens(ElementLike.ClassName(Pushed(nodes, element, classes), element)) == classes
  {
    TokensOfJoin(classes);
  }

  /** A freshly pulled list holds tokens only, so its `value` reads back as the same list. */
  lemma PulledListRoundTrip(nodes: Nodes, element: NodeId)
    requires element in nodes
    ensures var xs := Tokens(ElementLike.ClassName(nodes, element));
      (forall i :: 0 <= i < |xs| ==> IsToken(xs[i])) && Tokens(Join(xs)) == xs
  {
    TokensIdempotent(ElementLike.ClassName(nodes, element));
    TokensAreTokens(ElementLike.ClassName(nodes, element));
  }

  /** The classes after one more argument of `toggle`. */
  lemma ToggledStep(xs: seq<string>, args: seq<string>, i: nat, classes: seq<string>)
    requires i < |args| && classes == Toggled(xs, args[..i])
    ensures Toggled(xs, args[..i + 1]) == ToggleOne(classes, args[i])
  {
    assert args[..i + 1][..i] == args[..i];
  }

  /** `remove` of one class cuts out the occurrence at the index the lookup returned, if any. */
  lemma RemoveFirstAt(classes: seq<string>, x: string, index: int)
    requires index == IndexOfClass(classes, x)
    ensures index == -1 ==> RemoveFirst(classes, x) == classes
    ensures index != -1 ==> 0 <= index < |classes| && RemoveFirst(classes, x) == classes[..index] + classes[index + 1..]
  {
  }

  /** The classes after one more argument of `remove`. */
  lemma RemovedClassesSnoc(xs: seq<string>, args: seq<string>, i: nat)
    requires i < |args|
    ensures RemovedClasses(xs, args[..i + 1]) == RemoveFirst(RemovedClasses(xs, args[..i]), args[i])
  {
    assert args[..i + 1][..i] == args[..i];
  }

  lemma RemoveFirstMultiset(xs: seq<string>, x: string)
    ensures multiset(RemoveFirst(xs, x)) == multiset(xs) - multiset{x}
  {
    var i := IndexOfClass(xs, x);
    if i != -1 {
      assert xs == xs[..i] + [x] + xs[i + 1..];
    }
  }

  lemma MultisetMinusTwice(m: multiset<string>, n: multiset<string>, x: string)
    ensures (m - n) - multiset{x} == m - (n + multiset{x})
  {
    forall y ensures ((m - n) - multiset{x})[y] == (m - (n + multiset{x}))[y] {
    }
  }

  /** `remove` takes out one occurrence per argument occurrence, as far as there are any. */
  lemma {:induction false} RemovedClassesMultiset(xs: seq<string>, args: seq<string>)
    ensures multiset(RemovedClasses(xs, args)) == multiset(xs) - multiset(args)
    decreases |args|
  {
    if args != [] {
      var init, x := args[..|args| - 1], args[|args| - 1];
      var before := RemovedClasses(xs, init);
      RemovedClassesMultiset(xs, init);
      RemoveFirstMultiset(before, x);
      SnocSplit(args);
      assert multiset(args) == multiset(init) + multiset{x};
      MultisetMinusTwice(multiset(xs), multiset(init), x);
    }
  }

  /** On a list without repeats, a class survives `remove` iff it was there and was not named. */
  lemma RemoveOfDistinct(xs: seq<string>, args: seq<string>, c: string)
    requires multiset(xs)[c] <= 1
    ensures c in RemovedClasses(xs, args) <==> c in xs && c !in args
  {
    RemovedClassesMultiset(xs, args);
    assert c in RemovedClasses(xs, args) <==> c in multiset(RemovedClasses(xs, args));
  }

  /** `remove` never adds a class. */
  lemma RemovedClassesShrink(xs: seq<string>, args: seq<string>, c: string)
    requires c in RemovedClasses(xs, args)
    ensures c in xs
  {
    RemovedClassesMultiset(xs, args);
    assert c in multiset(RemovedClasses(xs, args));
  }

  /** As written, toggling an absent class drops the last class instead of adding it. */
  lemma ToggleAbsentDropsLast(xs: seq<string>, cls: string)
    requires cls !in xs && xs != []
    ensures Toggled(xs, [cls]) == xs[..|xs| - 1]
    ensures cls !in Toggled(xs, [cls])
  {
    assert [cls][..0] == [];
  }

  /** As written, toggling a present class pushes a duplicate, and toggling it twice pushes two. */
  lemma TogglePresentDuplicates(xs: seq<string>, cls: string)
    requires cls in xs
    ensures Toggled(xs, [cls]) == xs + [cls]
    ensures Toggled(xs, [cls, cls]) == xs + [cls, cls]
  {
    assert [cls][..0] == [];
    assert [cls, cls][..1] == [cls];
    assert (xs + [cls]) + [cls] == xs + [cls, cls];
  }

  /** `replace` puts `newClass` where the first `oldClass` was and leaves every other position alone. */
  lemma ReplacedAtFirst(xs: seq<string>, oldClass: string, newClass: string)
    requires oldClass in xs
    ensures |Replaced(xs, oldClass, newClass)| == |xs|
    ensures var i := IndexOfClass(xs, oldClass);
      Replaced(xs, oldClass, newClass)[i] == newClass
      && forall j :: 0 <= j < |xs| && j != i ==> Replaced(xs, oldClass, newClass)[j] == xs[j]
    ensures newClass in Replaced(xs, oldClass, newClass)
  {
  }

  /** One `add` step as evidently intended: a class not yet in the list is pushed. */
  function AddOne(xs: seq<string>, cls: string): (r: seq<string>)
    ensures cls in r && |r| <= |xs| + 1
  {
    if IndexOfClass(xs, cls) == -1 then xs + [cls] else xs
  }

  /** The classes after `add(...args)` as evidently intended. */
  function AddedCorrected(xs: seq<string>, args: seq<string>): (r: seq<string>)
    ensures |xs| <= |r| && r[..|xs|] == xs
    ensures forall c :: c in args ==> c in r
    decreases |args|
  {
    if args == [] then xs
    else
      var r := AddOne(AddedCorrected(xs, args[..|args| - 1]), args[|args| - 1]);
      assert forall c :: c in args ==> c in args[..|args| - 1] || c == args[|args| - 1];
      r
  }

  /** Adding as intended keeps a list free of duplicates and adds exactly the classes it lacked. */
  lemma {:induction false} AddedCorrectedDistinct(xs: seq<string>, args: seq<string>)
    requires forall i, j :: 0 <= i < j < |xs| ==> xs[i] != xs[j]
    ensures var r := AddedCorrected(xs, args);
      (forall i, j :: 0 <= i < j < |r| ==> r[i] != r[j])
      && forall c :: c in r <==> c in xs || c in args
    decreases |args|
  {
    if args != [] {
      var init := args[..|args| - 1];
      AddedCorrectedDistinct(xs, init);
      assert forall c :: c in args <==> c in init || c == args[|args| - 1];
    }
  }

  /** One `toggle` step as evidently intended: an absent class is pushed, a present one removed. */
  function ToggleOneCorrected(xs: seq<string>, cls: string): seq<string>
  {
    if IndexOfClass(xs, cls) == -1 then xs + [cls] else RemoveFirst(xs, cls)
  }

  /**
   * On a list holding `cls` at most once, the intended toggle flips its
   * membership, and toggling twice gives the list back when it was absent.
   */
  lemma ToggleCorrectedFlips(xs: seq<string>, cls: string)
    requires multiset(xs)[cls] <= 1
    ensures cls in ToggleOneCorrected(xs, cls) <==> cls !in xs
    ensures cls !in xs ==> ToggleOneCorrected(ToggleOneCorrected(xs, cls), cls) == xs
  {
    if cls in xs {
      RemoveFirstMultiset(xs, cls);
      assert multiset(RemoveFirst(xs, cls))[cls] == 0;
    } else {
      var ys := xs + [cls];
      assert IndexOfClass(ys, cls) == |xs| by {
        assert ys[|xs|] == cls && cls !in ys[..|xs|];
      }
    }
  }
}
