/** The linter's enumerations and its default ignore rules. */
module Constants {
  import opened Text
  import opened JsValues

  const DetectionModes: seq<string> := ["auto", "manual"]

  const Formats: seq<string> := ["gately", "harlowe", "sugarcane", "sugarcube", "unknown"]

  const IgnoredElementTags: seq<string> := ["script", "style"]

  /** The numeric `NodeTypes` enum, in declaration order. */
  const NodeTypeNames: seq<string> := ["Element", "Text", "Comment", "Document", "DocumentType", "DocumentFragment"]
  const NodeTypeCodes: seq<nat> := [1, 3, 8, 9, 10, 11]

  const IgnoredPassageNames: seq<string> := ["lint", "linter", "twinelint", "twinelinter", "wreath"]

  const IgnoredPassageTags: seq<string> := ["lint", "linter", "twinelint", "twinelinter", "wreath"]

  /** `Versions['^1']` and `Versions['^2']`. */
  const VersionOne: string := "1.0.0"
  const VersionTwo: string := "2.0.0"

  /**
   * `Object.values(NodeTypes)`: a numeric enum is compiled to a two-way
   * object, so its values are the member names (under the integer keys,
   * which come first) followed by the codes.
   */
  const NodeTypeValues: seq<JsValue> :=
    [Str("Element"), Str("Text"), Str("Comment"), Str("Document"), Str("DocumentType"), Str("DocumentFragment"),
     Num(1.0), Num(3.0), Num(8.0), Num(9.0), Num(10.0), Num(11.0)]

  /** The enum's values are its member names, then its codes, in declaration order. */
  lemma NodeTypeValuesAreNamesThenCodes()
    ensures |NodeTypeValues| == |NodeTypeNames| + |NodeTypeCodes|
    ensures forall i :: 0 <= i < |NodeTypeNames| ==> NodeTypeValues[i] == Str(NodeTypeNames[i])
    ensures forall i :: 0 <= i < |NodeTypeCodes| ==> NodeTypeValues[|NodeTypeNames| + i] == Num(NodeTypeCodes[i] as real)
  {
  }

  /** `constants.ignores`. */
  function DefaultIgnores(): (r: JsValue)
    ensures r.Object?
    ensures Get(r, "elementTags") == Array(Strings(IgnoredElementTags))
    ensures Get(r, "nodeTypes") == Array([])
    ensures Get(r, "passageNames") == Array(Strings(IgnoredPassageNames))
    ensures Get(r, "passageTags") == Array(Strings(IgnoredPassageTags))
  {
    Object(map[
      "elementTags" := Array(Strings(IgnoredElementTags)),
      "nodeTypes" := Array([]),
      "passageNames" := Array(Strings(IgnoredPassageNames)),
      "passageTags" := Array(Strings(IgnoredPassageTags))])
  }

  /** Every string enum value is lower-case, so a lower-cased input can match it. */
  lemma EnumValuesAreLowerCase()
    ensures forall m :: m in DetectionModes ==> ToLower(m) == m
    ensures forall f :: f in Formats ==> ToLower(f) == f
    ensures forall t :: t in IgnoredElementTags ==> ToLower(t) == t
    ensures forall n :: n in IgnoredPassageNames ==> ToLower(n) == n
    ensures forall t :: t in IgnoredPassageTags ==> ToLower(t) == t
  {
    forall s | s in DetectionModes + Formats + IgnoredElementTags + IgnoredPassageNames
      ensures ToLower(s) == s
    {
      LowerOfLower(s);
    }
  }

  /** No member name of `NodeTypes` is the decimal rendering of a number. */
  lemma NodeTypeValuesHoldNoDecimalString(n: nat)
    ensures Str(NatToString(n)) !in NodeTypeValues
  {
    var d := NatToString(n);
    assert IsDigit(d[0]);
    forall i | 0 <= i < 6
      ensures NodeTypeValues[i] != Str(d)
    {
      assert !IsDigit(NodeTypeValues[i].s[0]);
    }
  }
}
