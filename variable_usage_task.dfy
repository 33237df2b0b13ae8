/**
 * `VariableUsageTask.executeMicrotask`: for each visited node, a Harlowe
 * `(set:)` invocation records where a variable is defined, and a
 * `tw-variable` records where one is used, in an accumulator keyed by passage
 * name. The accumulator and its records are plain JavaScript objects, so the
 * `in` tests also see the keys every object inherits from `Object.prototype`;
 * reading a record through such an inherited key throws a TypeError.
 */
module VariableUsageTask {
  import opened Wrappers
  import opened Text
  import opened NodeGraph
  import ElementLike

  /** Where a definition or a use sits: the `data-line-number` and `data-column-number` attributes. */
  datatype Location = Location(lineNumber: Option<string>, columnNumber: Option<string>)

  /** One passage's record: variable name to the list of locations. */
  datatype PassageRecord = PassageRecord(defines: map<string, seq<Location>>, usages: map<string, seq<Location>>)

  type Accumulator = map<string, PassageRecord>

  datatype TaskError =
    /** `(node.firstElementChild || {}).getAttribute(...)` when there is no element child to ask. */
    | NoElementChild
    /** 'A variable was detected without a data-name attribute.' */
    | SetWithoutName
    /** 'The data-name attribute in the tw-variable was missing.' */
    | VariableWithoutName
    /** The `nextElementSibling` getter's 'Possible infinite loop detected.' */
    | SiblingLoop
    /** The `textContent` getter of the next element sibling failed. */
    | SiblingText(cause: ElementLike.TextError)
    /** A record, or one of its lists, reached through a key inherited from `Object.prototype`. */
    | InheritedKey

  /** What a node contributes: a definition or a use of a variable, at a location. */
  datatype Event = Define(name: string, at: Location) | Use(name: string, at: Location)

  /** The keys every plain object inherits from `Object.prototype`. */
  const ObjectPrototypeKeys: set<string> := {
    "constructor", "__defineGetter__", "__defineSetter__", "hasOwnProperty", "__lookupGetter__",
    "__lookupSetter__", "isPrototypeOf", "propertyIsEnumerable", "toString", "valueOf", "__proto__",
    "toLocaleString"}

  /** `key in obj` on a plain object whose own keys are `own`. */
  predicate InObject(key: string, own: set<string>)
  {
    key in own || key in ObjectPrototypeKeys
  }

  /** The own keys of a passage record object. */
  const RecordOwnKeys: set<string> := {"defines", "usages"}

  /** The property key a passage name becomes: `null` is stringified. */
  function Key(passageName: Option<string>): string
  {
    if passageName.Some? then passageName.value else "null"
  }

  /** `element.getAttribute(name)`: the value, or `null`. */
  function AttributeOf(nodes: Nodes, id: NodeId, name: string): (r: Option<string>)
    requires id in nodes
    ensures r.Some? <==> name in nodes[id].attributes
    ensures r.Some? ==> r.value == nodes[id].attributes[name]
  {
    if name in nodes[id].attributes then Some(nodes[id].attributes[name]) else None
  }

  function LocationOf(nodes: Nodes, id: NodeId): Location
    requires id in nodes
  {
    Location(AttributeOf(nodes, id, "data-line-number"), AttributeOf(nodes, id, "data-column-number"))
  }

  /** `!value` on an attribute: `null` or ''. */
  predicate Falsy(value: Option<string>)
  {
    value.None? || value.value == ""
  }

  /** The variable a `(set:)` names: the `data-name` of its first element child. */
  function SetVariableName(nodes: Nodes, node: NodeId): (r: Result<string, TaskError>)
    requires node in nodes
    ensures r.Success? ==> r.value != ""
  {
    var elem := ElementLike.FirstElementChild(nodes, node);
    if elem.None? || !IsElement(nodes, elem.value) then Failure(NoElementChild)
    else
      var name := AttributeOf(nodes, elem.value, "data-name");
      if Falsy(name) then Failure(SetWithoutName) else Success(name.value)
  }

  /**
   * The skip test for a `tw-variable`: its parent element is a
   * `tw-invocation` and its next element sibling is a `tw-string` whose text
   * is 'to' or '=', that is, the variable is the target of a `(set:)`.
   */
  function IsSetTarget(nodes: Nodes, node: NodeId, fuel: nat): (r: Result<bool, TaskError>)
    requires node in nodes
    ensures r == Success(true) <==>
      var parent := ElementLike.ParentElement(nodes, node);
      var sibling := ElementLike.ElementSibling(nodes, node, true);
      && parent.Some? && ToLower(nodes[parent.value].tagName) == "tw-invocation"
      && sibling.Success? && sibling.value.Some? && ToLower(nodes[sibling.value.value].tagName) == "tw-string"
      && ElementLike.TextContent(nodes, sibling.value.value, fuel) in {Success("to"), Success("=")}
    ensures r.Failure? ==>
      var parent := ElementLike.ParentElement(nodes, node);
      parent.Some? && ToLower(nodes[parent.value].tagName) == "tw-invocation"
  {
    var parent := ElementLike.ParentElement(nodes, node);
    if parent.None? || ToLower(nodes[parent.value].tagName) != "tw-invocation" then Success(false)
    else
      match ElementLike.ElementSibling(nodes, node, true)
      case Failure(_) => Failure(SiblingLoop)
      case Success(sibling) =>
        if sibling.None? || ToLower(nodes[sibling.value].tagName) != "tw-string" then Success(false)
        else
          match ElementLike.TextContent(nodes, sibling.value, fuel)
          case Failure(e) => Failure(SiblingText(e))
          case Success(text) => Success(text == "to" || text == "=")
  }

  /** What the node contributes, read off the node with the getters; `None` when it is not a set or a variable. */
  function Classify(nodes: Nodes, node: NodeId, fuel: nat): (r: Result<Option<Event>, TaskError>)
    ensures r.Success? && r.value.Some? ==> IsElement(nodes, node) && r.value.value.at == LocationOf(nodes, node)
    ensures r.Success? && r.value.Some? ==> r.value.value.name != ""
  {
    if !IsElement(nodes, node) then Success(None)
    else
      var tagName := ToLower(nodes[node].tagName);
      var loc := LocationOf(nodes, node);
      if tagName == "tw-invocation" && AttributeOf(nodes, node, "data-name") == Some("set") then
        var name :- SetVariableName(nodes, node);
        Success(Some(Define(name, loc)))
      else if tagName == "tw-variable" then
        var name := AttributeOf(nodes, node, "data-name");
        if Falsy(name) then Failure(VariableWithoutName)
        else
          var skip :- IsSetTarget(nodes, node, fuel);
          if skip then Success(None) else Success(Some(Use(name.value, loc)))
      else Success(None)
  }

  /** A location list with one more entry, as `push` leaves it. */
  function Pushed(locations: seq<Location>, loc: Location): (r: seq<Location>)
    ensures |r| == |locations| + 1 && r[..|locations|] == locations && r[|locations|] == loc
  {
    locations + [loc]
  }

  /** The accumulator after recording one event for the passage `key`, or the TypeError it throws. */
  function Record(acc: Accumulator, key: string, e: Event): Result<Accumulator, TaskError>
  {
    if !InObject(key, acc.Keys) then
      match e
      case Define(v, loc) => Success(acc[key := PassageRecord(map[v := [loc]], map[])])
      case Use(v, loc) => Success(acc[key := PassageRecord(map[], map[v := [loc]])])
    else if key !in acc then Failure(InheritedKey)
    else
      var rec := acc[key];
      match e
      case Define(v, loc) =>
        if InObject(v, RecordOwnKeys) then
          if v in rec.defines then Success(acc[key := rec.(defines := rec.defines[v := Pushed(rec.defines[v], loc)])])
          else Failure(InheritedKey)
        else Success(acc[key := rec.(defines := rec.defines[v := [loc]])])
      case Use(v, loc) =>
        if InObject(v, rec.usages.Keys) then
          if v in rec.usages then Success(acc[key := rec.(usages := rec.usages[v := Pushed(rec.usages[v], loc)])])
          else Failure(InheritedKey)
        else Success(acc[key := rec.(usages := rec.usages[v := [loc]])])
  }

  /** One `executeMicrotask(node, passageName, ...)` call on the accumulator. */
  function Execute(acc: Accumulator, nodes: Nodes, node: NodeId, passageName: Option<string>, fuel: nat): Result<Accumulator, TaskError>
  {
    match Classify(nodes, node, fuel)
    case Failure(e) => Failure(e)
    case Success(None) => Success(acc)
    case Success(Some(e)) => Record(acc, Key(passageName), e)
  }

  class VariableUsageTask {
    var accumulator: Accumulator

    constructor(acc0: Accumulator)
      ensures accumulator == acc0
    {
      accumulator := acc0;
    }

    /**
     * `executeMicrotask`: the node is read with the getters, then the
     * accumulator's record for the passage is created or updated in place.
     * Every throw comes before the first write. `fuel` bounds the recursion
     * of the `textContent` getter.
     */
    method ExecuteMicrotask(nodes: Nodes, node: NodeId, passageName: Option<string>, fuel: nat)
      returns (error: Option<TaskError>)
      modifies this
      ensures Execute(old(accumulator), nodes, node, passageName, fuel).Success? ==>
        error.None? && accumulator == Execute(old(accumulator), nodes, node, passageName, fuel).value
      ensures Execute(old(accumulator), nodes, node, passageName, fuel).Failure? ==>
        error == Some(Execute(old(accumulator), nodes, node, passageName, fuel).error)
        && accumulator == old(accumulator)
    {
      var event := Classify(nodes, node, fuel);
      if event.Failure? {
        return Some(event.error);
      }
      if event.value.None? {
        return None;
      }
      var key := Key(passageName);
      match event.value.value {
        case Define(v, loc) =>
          if InObject(key, accumulator.Keys) {
            if key !in accumulator {
              return Some(InheritedKey);
            }
            var rec := accumulator[key];
            if InObject(v, RecordOwnKeys) {
              if v !in rec.defines {
                return Some(InheritedKey);
              }
              accumulator := accumulator[key := rec.(defines := rec.defines[v := rec.defines[v] + [loc]])];
            } else {
              accumulator := accumulator[key := rec.(defines := rec.defines[v := [loc]])];
            }
          } else {
            accumulator := accumulator[key := PassageRecord(map[v := [loc]], map[])];
          }
        case Use(v, loc) =>
          if InObject(key, accumulator.Keys) {
            if key !in accumulator {
              return Some(InheritedKey);
            }
            var rec := accumulator[key];
            if InObject(v, rec.usages.Keys) {
              if v !in rec.usages {
                return Some(InheritedKey);
              }
              accumulator := accumulator[key := rec.(usages := rec.usages[v := rec.usages[v] + [loc]])];
            } else {
              accumulator := accumulator[key := rec.(usages := rec.usages[v := [loc]])];
            }
          } else {
            accumulator := accumulator[key := PassageRecord(map[], map[v := [loc]])];
          }
      }
      return None;
    }
  }

  // ---------------------------------------------------------------- properties

  /** Nodes that are not elements, and elements that are neither a `(set:)` nor a `tw-variable`, change nothing. */
  lemma OtherNodesIgnored(acc: Accumulator, nodes: Nodes, node: NodeId, passageName: Option<string>, fuel: nat)
    requires !IsElement(nodes, node)
      || (ToLower(nodes[node].tagName) != "tw-variable"
          && !(ToLower(nodes[node].tagName) == "tw-invocation" && AttributeOf(nodes, node, "data-name") == Some("set")))
    ensures Execute(acc, nodes, node, passageName, fuel) == Success(acc)
  {
  }

  /** A `(set:)` takes its variable from the first element child's `data-name`, and throws without one. */
  lemma SetNamesFirstElementChild(nodes: Nodes, node: NodeId, fuel: nat)
    requires IsElement(nodes, node) && ToLower(nodes[node].tagName) == "tw-invocation"
    requires AttributeOf(nodes, node, "data-name") == Some("set")
    ensures SetVariableName(nodes, node).Success? ==>
      Classify(nodes, node, fuel) == Success(Some(Define(SetVariableName(nodes, node).value, LocationOf(nodes, node))))
    ensures SetVariableName(nodes, node).Success? <==>
      nodes[node].children != [] && IsElement(nodes, nodes[node].children[0])
      && !Falsy(AttributeOf(nodes, nodes[node].children[0], "data-name"))
    ensures SetVariableName(nodes, node).Failure? ==> Classify(nodes, node, fuel) == Failure(SetVariableName(nodes, node).error)
  {
  }

  /** A `tw-variable` without a `data-name` throws, before the skip test is looked at. */
  lemma VariableWithoutNameThrows(acc: Accumulator, nodes: Nodes, node: NodeId, passageName: Option<string>, fuel: nat)
    requires IsElement(nodes, node) && ToLower(nodes[node].tagName) == "tw-variable"
    requires Falsy(AttributeOf(nodes, node, "data-name"))
    ensures Execute(acc, nodes, node, passageName, fuel) == Failure(VariableWithoutName)
  {
    assert ToLower(nodes[node].tagName) != "tw-invocation";
  }

  /** The target of a `(set: $x to ...)` is not a use: the accumulator is left alone. */
  lemma SetTargetSkipped(acc: Accumulator, nodes: Nodes, node: NodeId, passageName: Option<string>, fuel: nat)
    requires IsElement(nodes, node) && ToLower(nodes[node].tagName) == "tw-variable"
    requires !Falsy(AttributeOf(nodes, node, "data-name"))
    requires IsSetTarget(nodes, node, fuel) == Success(true)
    ensures Execute(acc, nodes, node, passageName, fuel) == Success(acc)
  {
    assert ToLower(nodes[node].tagName) != "tw-invocation";
  }

  /** A `tw-variable` that is not a set target is a use of its `data-name`. */
  lemma VariableIsUse(nodes: Nodes, node: NodeId, fuel: nat)
    requires IsElement(nodes, node) && ToLower(nodes[node].tagName) == "tw-variable"
    requires !Falsy(AttributeOf(nodes, node, "data-name"))
    requires IsSetTarget(nodes, node, fuel) == Success(false)
    ensures Classify(nodes, node, fuel) ==
      Success(Some(Use(nodes[node].attributes["data-name"], LocationOf(nodes, node))))
  {
    assert ToLower(nodes[node].tagName) != "tw-invocation";
  }

  /** The first event for a passage creates its record with one list of one location. */
  lemma NewPassageRecord(acc: Accumulator, key: string, e: Event)
    requires key !in acc && key !in ObjectPrototypeKeys
    ensures key in Record(acc, key, e).value
    ensures Record(acc, key, e).value[key] ==
      if e.Define? then PassageRecord(map[e.name := [e.at]], map[]) else PassageRecord(map[], map[e.name := [e.at]])
    ensures forall k :: k in acc ==> k in Record(acc, key, e).value && Record(acc, key, e).value[k] == acc[k]
  {
  }

  /**
   * As written, a definition in a passage already recorded tests the record
   * object rather than its `defines`: for an ordinary name the list is
   * replaced by a fresh one-entry list, and earlier definitions are lost.
   */
  lemma RedefinitionReplaces(acc: Accumulator, key: string, v: string, loc: Location)
    requires key in acc && !InObject(v, RecordOwnKeys)
    ensures key in Record(acc, key, Define(v, loc)).value
    ensures Record(acc, key, Define(v, loc)).value[key].defines == acc[key].defines[v := [loc]]
    ensures v in acc[key].defines && acc[key].defines[v] != [] ==>
      Record(acc, key, Define(v, loc)).value[key].defines[v] != Pushed(acc[key].defines[v], loc)
  {
  }

  /**
   * As written, a second `(set: $x to ...)` in the same passage keeps only
   * its own location: the first definition's location is gone.
   */
  lemma SecondDefinitionForgetsFirst(first: Location, second: Location)
    requires first != second
    ensures var acc := map["Start" := PassageRecord(map["x" := [first]], map[])];
      Record(acc, "Start", Define("x", second)).Success?
      && Record(acc, "Start", Define("x", second)).value["Start"].defines["x"] == [second]
      && RecordCorrected(acc, "Start", Define("x", second)).value["Start"].defines["x"] == [first, second]
  {
    var acc := map["Start" := PassageRecord(map["x" := [first]], map[])];
    assert "x" !in ObjectPrototypeKeys && "x" !in RecordOwnKeys;
    assert "Start" !in ObjectPrototypeKeys;
  }

  /**
   * The recording step with the definition branch testing the record's
   * `defines`, as the use branch tests its `usages`.
   */
  function RecordCorrected(acc: Accumulator, key: string, e: Event): Result<Accumulator, TaskError>
  {
    if !InObject(key, acc.Keys) then Record(acc, key, e)
    else if key !in acc then Failure(InheritedKey)
    else
      var rec := acc[key];
      match e
      case Define(v, loc) =>
        if InObject(v, rec.defines.Keys) then
          if v in rec.defines then Success(acc[key := rec.(defines := rec.defines[v := Pushed(rec.defines[v], loc)])])
          else Failure(InheritedKey)
        else Success(acc[key := rec.(defines := rec.defines[v := [loc]])])
      case Use(v, loc) => Record(acc, key, e)
  }

  /**
   * With the correction, every event in a recorded passage appends to its
   * variable's list (or starts one), leaving the other list and every other
   * passage alone; uses are recorded exactly as before.
   */
  lemma CorrectedRecordAppends(acc: Accumulator, key: string, e: Event)
    requires key in acc
    requires e.name in (if e.Define? then acc[key].defines else acc[key].usages) || e.name !in ObjectPrototypeKeys
    ensures RecordCorrected(acc, key, e).Success?
    ensures var rec := RecordCorrected(acc, key, e).value[key];
      var old_ := if e.Define? then acc[key].defines else acc[key].usages;
      (if e.Define? then rec.defines[e.name] else rec.usages[e.name])
        == (if e.name in old_ then old_[e.name] + [e.at] else [e.at])
    ensures e.Define? ==> RecordCorrected(acc, key, e).value[key].usages == acc[key].usages
    ensures e.Use? ==> RecordCorrected(acc, key, e) == Record(acc, key, e)
    ensures RecordCorrected(acc, key, e).value.Keys == acc.Keys
    ensures forall k :: k in acc && k != key ==> RecordCorrected(acc, key, e).value[k] == acc[k]
  {
  }

  /** A use in a recorded passage appends to the variable's list, or starts one. */
  lemma UseAppends(acc: Accumulator, key: string, v: string, loc: Location)
    requires key in acc
    requires v in acc[key].usages || v !in ObjectPrototypeKeys
    ensures key in Record(acc, key, Use(v, loc)).value
    ensures Record(acc, key, Use(v, loc)).value[key].usages[v] ==
      if v in acc[key].usages then acc[key].usages[v] + [loc] else [loc]
    ensures Record(acc, key, Use(v, loc)).value[key].defines == acc[key].defines
  {
  }

  /** A passage named after an inherited key and not yet recorded makes every event throw. */
  lemma InheritedPassageThrows(acc: Accumulator, key: string, e: Event)
    requires key !in acc && key in ObjectPrototypeKeys
    ensures Record(acc, key, e) == Failure(InheritedKey)
  {
  }

  /** Recording touches only the passage's own record, and only the list of the event's variable. */
  lemma RecordIsLocal(acc: Accumulator, key: string, e: Event)
    requires Record(acc, key, e).Success?
    ensures Record(acc, key, e).value.Keys == acc.Keys + {key}
    ensures forall k :: k in acc && k != key ==> Record(acc, key, e).value[k] == acc[k]
    ensures key in acc ==>
      var rec := Record(acc, key, e).value[key];
      (forall w :: w in acc[key].defines && w != e.name ==> w in rec.defines && rec.defines[w] == acc[key].defines[w])
      && (forall w :: w in acc[key].usages && w != e.name ==> w in rec.usages && rec.usages[w] == acc[key].usages[w])
  {
  }

  /** Every list in the accumulator has at least one location. */
  predicate WellFormed(acc: Accumulator)
  {
    forall k :: k in acc ==> RecordWellFormed(acc[k])
  }

  /** A passage record whose lists are all non-empty. */
  predicate RecordWellFormed(rec: PassageRecord)
  {
    (forall v :: v in rec.defines ==> rec.defines[v] != [])
    && (forall v :: v in rec.usages ==> rec.usages[v] != [])
  }

  /** Recording keeps every list non-empty: lists are only created with one entry or pushed onto. */
  lemma RecordKeepsWellFormed(acc: Accumulator, key: string, e: Event)
    requires WellFormed(acc) && Record(acc, key, e).Success?
    ensures WellFormed(Record(acc, key, e).value)
  {
    var after := Record(acc, key, e).value;
    RecordIsLocal(acc, key, e);
    assert RecordWellFormed(after[key]);
    forall k | k in after
      ensures RecordWellFormed(after[k])
    {
      if k != key {
        assert after[k] == acc[k];
      }
    }
  }

  /** The task keeps every list non-empty. */
  lemma ExecuteKeepsWellFormed(acc: Accumulator, nodes: Nodes, node: NodeId, passageName: Option<string>, fuel: nat)
    requires WellFormed(acc)
    requires Execute(acc, nodes, node, passageName, fuel).Success?
    ensures WellFormed(Execute(acc, nodes, node, passageName, fuel).value)
  {
    var c := Classify(nodes, node, fuel);
    if c.value.Some? {
      RecordKeepsWellFormed(acc, Key(passageName), c.value.value);
    }
  }
}
