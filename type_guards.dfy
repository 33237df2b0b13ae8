/** The structural guards `isArrayLikeObject` and `isIIgnores`. */
module TypeGuards {
  import opened Wrappers
  import opened JsValues
  import opened Constants

  predicate HasArrayMethods(v: JsValue)
  {
    IsFunction(Get(v, "filter")) && IsFunction(Get(v, "forEach"))
      && IsFunction(Get(v, "map")) && IsFunction(Get(v, "reduce"))
  }

  /** What an array-like object is: an object with an integer length >= 0 and the four methods. */
  predicate ArrayLike(v: JsValue)
  {
    Truthy(v) && IsObject(v) && NonNegative(Get(v, "length")) && Integral(Get(v, "length"))
      && HasArrayMethods(v)
  }

  /** `isArrayLikeObject`, which holds for every value that is NOT array-like. */
  function IsArrayLikeObject(v: JsValue): (r: bool)
    ensures !Truthy(v) ==> r
    ensures !IsObject(v) ==> r
    ensures !NonNegative(Get(v, "length")) || !Integral(Get(v, "length")) ==> r
    ensures !HasArrayMethods(v) ==> r
  {
    !Truthy(v) || !IsObject(v) || !NonNegative(Get(v, "length")) || !Integral(Get(v, "length"))
      || !IsFunction(Get(v, "filter")) || !IsFunction(Get(v, "forEach"))
      || !IsFunction(Get(v, "map")) || !IsFunction(Get(v, "reduce"))
  }

  /** The guard is the negation of array-likeness, for every value. */
  lemma ArrayLikeGuardIsNegated(v: JsValue)
    ensures IsArrayLikeObject(v) <==> !ArrayLike(v)
  {
  }

  /** Every genuine array fails the guard. */
  lemma ArraysFailArrayLikeGuard(xs: seq<JsValue>)
    ensures !IsArrayLikeObject(Array(xs))
  {
    assert Get(Array(xs), "length") == Num(|xs| as real);
    assert (|xs| as real).Floor == |xs|;
  }

  /**
   * The guard as evidently intended is `ArrayLike` itself: every genuine
   * array passes it, and a falsy value or a non-object does not.
   */
  lemma ArraysAreArrayLike(xs: seq<JsValue>)
    ensures ArrayLike(Array(xs))
    ensures !ArrayLike(Null) && !ArrayLike(Undefined) && !ArrayLike(Str("ab"))
  {
    ArraysFailArrayLikeGuard(xs);
    ArrayLikeGuardIsNegated(Array(xs));
  }

  /** A plain object with the given `length` and its own four list methods. */
  function ListLike(length: JsValue): (r: JsValue)
    ensures HasArrayMethods(r)
  {
    Object(map["length" := length, "filter" := Function("filter"), "forEach" := Function("forEach"),
               "map" := Function("map"), "reduce" := Function("reduce")])
  }

  lemma ListLikeLength(length: JsValue)
    ensures Get(ListLike(length), "length") == length
    ensures Truthy(ListLike(length)) && IsObject(ListLike(length))
  {
  }

  /**
   * `length` is compared after `Number()`: a numeric string and the empty
   * array pass, a list of two items and `Infinity` do not.
   */
  lemma CoercedLengthsAreArrayLike()
    ensures ArrayLike(ListLike(Str("1"))) && !IsArrayLikeObject(ListLike(Str("1")))
    ensures ArrayLike(ListLike(Array([])))
    ensures !ArrayLike(ListLike(Str("1,2")))
    ensures !ArrayLike(ListLike(Str("Infinity")))
  {
    NumericStringsCompare();
    ListLikeLength(Str("1"));
    ListLikeLength(Array([]));
    ListLikeLength(Str("1,2"));
    ListLikeLength(Str("Infinity"));
  }

  /** The item rule for `nodeTypes`: every entry is a value of `NodeTypes`. */
  predicate NodeTypesOk(l: JsValue)
  {
    NonNegative(Get(l, "length")) && Integral(Get(l, "length")) && HasArrayMethods(l)
      && AllNodeTypeValues(Present(l))
  }

  predicate AllNodeTypeValues(xs: seq<JsValue>)
  {
    xs == [] || (xs[0] in NodeTypeValues && AllNodeTypeValues(xs[1..]))
  }

  /** No item is a non-empty string. */
  predicate NoNonEmptyString(xs: seq<JsValue>)
  {
    xs == [] || (!(Truthy(xs[0]) && xs[0].Str?) && NoNonEmptyString(xs[1..]))
  }

  /**
   * The item rule for `elementTags`, `passageNames` and `passageTags`: no
   * length >= 0 test, and the items counted are those that ARE non-empty
   * strings, which must number zero.
   */
  predicate StringListOk(l: JsValue)
  {
    Truthy(l) && IsObject(l) && Integral(Get(l, "length")) && HasArrayMethods(l)
      && NoNonEmptyString(Present(l))
  }

  /**
   * `isIIgnores`. `None` stands for the `TypeError` the guard itself throws
   * when `nodeTypes` is `null` (its `length` is read after `typeof` says "object").
   */
  function IsIIgnores(v: JsValue): (r: Option<bool>)
    ensures !Truthy(v) || !IsObject(v) ==> r == Some(false)
    ensures r.None? <==> Truthy(v) && IsObject(v) && Get(v, "nodeTypes").Null?
  {
    if !Truthy(v) || !IsObject(v) then Some(false)
    else
      var nt := Get(v, "nodeTypes");
      if !IsObject(nt) then Some(false)
      else if nt.Null? then None
      else Some(NodeTypesOk(nt) && StringListOk(Get(v, "elementTags"))
        && StringListOk(Get(v, "passageNames")) && StringListOk(Get(v, "passageTags")))
  }

  /** An accepted ignores value holds no non-empty string in its three string lists. */
  lemma AcceptedIgnoresHoldNoNames(v: JsValue, key: string, i: int)
    requires IsIIgnores(v) == Some(true)
    requires key in ["elementTags", "passageNames", "passageTags"]
    requires 0 <= i < |Present(Get(v, key))|
    ensures Present(Get(v, key))[i].Str? ==> Present(Get(v, key))[i].s == ""
  {
    assert StringListOk(Get(v, key));
    NoNonEmptyStringAt(Present(Get(v, key)), i);
  }

  lemma {:induction false} NoNonEmptyStringAt(xs: seq<JsValue>, i: int)
    requires NoNonEmptyString(xs)
    requires 0 <= i < |xs|
    ensures !(Truthy(xs[i]) && xs[i].Str?)
  {
    if i > 0 {
      NoNonEmptyStringAt(xs[1..], i - 1);
    }
  }

  /** The default ignore rules fail the guard, because `elementTags` holds "script". */
  lemma DefaultIgnoresFailGuard()
    ensures IsIIgnores(DefaultIgnores()) == Some(false)
  {
    DefaultElementTagsFail();
  }

  /** The default `elementTags` list starts with the non-empty string "script". */
  lemma DefaultElementTagsFail()
    ensures !StringListOk(Array(Strings(IgnoredElementTags)))
  {
    var xs := Present(Array(Strings(IgnoredElementTags)));
    assert xs[0] == Str("script");
    assert !NoNonEmptyString(xs);
  }

  /** Four empty lists pass the guard. */
  lemma EmptyIgnoresPassGuard()
    ensures IsIIgnores(Object(map["nodeTypes" := Array([]), "elementTags" := Array([]),
      "passageNames" := Array([]), "passageTags" := Array([])])) == Some(true)
  {
    assert (0 as real).Floor == 0;
  }

  /** Every item is a string with content, as the guard's comments describe. */
  predicate AllNonEmptyStrings(xs: seq<JsValue>)
  {
    xs == [] || (xs[0].Str? && xs[0].s != "" && AllNonEmptyStrings(xs[1..]))
  }

  /**
   * The rule for a string list as evidently intended: a list whose length is
   * an integer >= 0 and whose items are all strings with content.
   */
  predicate StringListCorrected(l: JsValue)
  {
    Truthy(l) && IsObject(l) && NonNegative(Get(l, "length")) && Integral(Get(l, "length"))
      && HasArrayMethods(l) && AllNonEmptyStrings(Present(l))
  }

  /** `isIIgnores` with the intended string-list rule; the `null` throw is kept. */
  function IsIIgnoresCorrected(v: JsValue): (r: Option<bool>)
    ensures !Truthy(v) || !IsObject(v) ==> r == Some(false)
    ensures r.None? <==> Truthy(v) && IsObject(v) && Get(v, "nodeTypes").Null?
    ensures r == Some(true) ==>
      && StringListCorrected(Get(v, "elementTags"))
      && StringListCorrected(Get(v, "passageNames"))
      && StringListCorrected(Get(v, "passageTags"))
  {
    if !Truthy(v) || !IsObject(v) then Some(false)
    else
      var nt := Get(v, "nodeTypes");
      if !IsObject(nt) then Some(false)
      else if nt.Null? then None
      else Some(NodeTypesOk(nt) && StringListCorrected(Get(v, "elementTags"))
        && StringListCorrected(Get(v, "passageNames")) && StringListCorrected(Get(v, "passageTags")))
  }

  lemma {:induction false} NamesAreNonEmptyStrings(names: seq<string>)
    requires forall i :: 0 <= i < |names| ==> names[i] != ""
    ensures AllNonEmptyStrings(Strings(names))
  {
    if names != [] {
      assert Strings(names)[1..] == Strings(names[1..]);
      NamesAreNonEmptyStrings(names[1..]);
    }
  }

  /** A list of names with content, given as an array, passes the intended rule. */
  lemma NameArrayPassesCorrected(names: seq<string>)
    requires forall i :: 0 <= i < |names| ==> names[i] != ""
    ensures StringListCorrected(Array(Strings(names)))
  {
    NamesAreNonEmptyStrings(names);
    ArraysAreArrayLike(Strings(names));
    assert Present(Array(Strings(names))) == Strings(names);
  }

  /** The default ignore rules pass the intended guard, while they fail the guard as written. */
  lemma DefaultIgnoresPassCorrectedGuard()
    ensures IsIIgnoresCorrected(DefaultIgnores()) == Some(true)
    ensures IsIIgnores(DefaultIgnores()) == Some(false)
  {
    DefaultIgnoresFailGuard();
    DefaultIgnoresPassCorrected();
  }

  lemma DefaultIgnoresPassCorrected()
    ensures IsIIgnoresCorrected(DefaultIgnores()) == Some(true)
  {
    var d := DefaultIgnores();
    DefaultListsPassCorrected();
    EmptyNodeTypesOk();
    var nt := Get(d, "nodeTypes");
    assert nt == Array([]) && IsObject(nt) && !nt.Null? && NodeTypesOk(nt);
    assert Truthy(d) && IsObject(d);
  }

  /** The three default string lists hold only names with content. */
  lemma DefaultListsPassCorrected()
    ensures StringListCorrected(Get(DefaultIgnores(), "elementTags"))
    ensures StringListCorrected(Get(DefaultIgnores(), "passageNames"))
    ensures StringListCorrected(Get(DefaultIgnores(), "passageTags"))
  {
    NameArrayPassesCorrected(IgnoredElementTags);
    NameArrayPassesCorrected(IgnoredPassageNames);
    NameArrayPassesCorrected(IgnoredPassageTags);
  }

  /** The empty node-type list of the defaults passes its check. */
  lemma EmptyNodeTypesOk()
    ensures NodeTypesOk(Array([]))
  {
    assert (0 as real).Floor == 0;
  }
}
