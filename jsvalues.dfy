/**
 * The JavaScript values the linter inspects with `typeof`, truthiness,
 * property reads and `Array.from`, and the coercions its guards rely on.
 */
module JsValues {
  import opened Wrappers
  import opened Text
  import opened Dom
  import opened NumericStrings

  /**
   * A function is known by an identity string; what a caller-supplied
   * function does when called is a parameter of whichever operation calls it.
   */
  datatype JsValue =
    | Undefined
    | Null
    | Bool(b: bool)
    | Num(n: real)
    | Str(s: string)
    | Function(id: string)
    | Object(props: map<string, JsValue>)
    | Array(items: seq<JsValue>)
    | DomNode(node: Node)
    | Document(docId: nat)

  predicate Truthy(v: JsValue)
  {
    match v
    case Undefined => false
    case Null => false
    case Bool(b) => b
    case Num(n) => n != 0.0
    case Str(s) => s != ""
    case _ => true
  }

  function TypeOf(v: JsValue): (r: string)
    ensures r == "string" <==> v.Str?
    ensures r == "function" <==> v.Function?
    ensures r == "boolean" <==> v.Bool?
  {
    match v
    case Undefined => "undefined"
    case Null => "object"
    case Bool(_) => "boolean"
    case Num(_) => "number"
    case Str(_) => "string"
    case Function(_) => "function"
    case _ => "object"
  }

  predicate IsObject(v: JsValue)
  {
    TypeOf(v) == "object"
  }

  predicate Nullish(v: JsValue)
  {
    v.Undefined? || v.Null?
  }

  /** The methods every array inherits that the guards look for. */
  const ArrayMethods: seq<string> := ["filter", "forEach", "indexOf", "map", "reduce"]

  /** A property read `v[key]` on a value that is neither `null` nor `undefined`. */
  function Get(v: JsValue, key: string): JsValue
  {
    match v
    case Object(props) => if key in props then props[key] else Undefined
    case Array(items) =>
      if key == "length" then Num(|items| as real)
      else if key in ArrayMethods then Function("Array.prototype." + key)
      else Undefined
    case Str(s) => if key == "length" then Num(|s| as real) else Undefined
    case DomNode(n) =>
      if key == "nodeType" then Num(NodeTypeCode(n) as real)
      else if key == "tagName" && n.Element? then Str(n.tagName)
      else Undefined
    case _ => Undefined
  }

  /**
   * A read of a key that only plain objects can hold as their own property:
   * for every other key than `length`, `nodeType`, `tagName` and the array
   * methods it is `Get` (see `OwnPropertyIsGet`).
   */
  function OwnProperty(v: JsValue, key: string): JsValue
  {
    if v.Object? && key in v.props then v.props[key] else Undefined
  }

  lemma OwnPropertyIsGet(v: JsValue, key: string)
    requires key != "length" && key != "nodeType" && key != "tagName" && key !in ArrayMethods
    ensures OwnProperty(v, key) == Get(v, key)
  {
  }

  /** The `in` operator on a plain object, counting its own keys. */
  predicate HasKey(v: JsValue, key: string)
  {
    v.Object? && key in v.props
  }

  /**
   * `Number(v)`. An array converts through its `join(',')`: the empty array
   * is 0, two or more items hold a comma and are NaN (`CommaIsNaN`), and one
   * item converts as the text it joins to. A plain object, a function, a
   * node and a document convert through their default `toString`, whose
   * text is never numeric.
   */
  function ToNumber(v: JsValue): Numeric
  {
    match v
    case Undefined => NaN
    case Null => Finite(0.0)
    case Bool(b) => Finite(if b then 1.0 else 0.0)
    case Num(n) => Finite(n)
    case Str(s) => StringToNumber(s)
    case Array(items) =>
      if items == [] then Finite(0.0)
      else if |items| > 1 then NaN
      else
        (match items[0]
         case Undefined => Finite(0.0)
         case Null => Finite(0.0)
         case Num(n) => Finite(n)
         case Str(s) => StringToNumber(s)
         case Array(_) => ToNumber(items[0])
         case _ => NaN)
    case _ => NaN
  }

  /** `v >= 0`. */
  predicate NonNegative(v: JsValue)
  {
    match ToNumber(v)
    case Finite(x) => x >= 0.0
    case Infinity(negative) => !negative
    case NaN => false
  }

  /** `v % 1 === 0`: NaN and the infinities leave a NaN remainder. */
  predicate Integral(v: JsValue)
  {
    ToNumber(v).Finite? && ToNumber(v).x == ToNumber(v).x.Floor as real
  }

  /** An array of one string, number or nested array reads as that item does. */
  lemma {:induction false} SingletonReadsAsItem(x: JsValue)
    requires x.Str? || x.Num? || x.Null? || x.Array?
    ensures ToNumber(Array([x])) == ToNumber(x)
  {
    assert [x][0] == x;
  }

  /** `"1" >= 0` and `"1" % 1 === 0`; `[] >= 0` too; `"1,2"` is neither. */
  lemma NumericStringsCompare()
    ensures NonNegative(Str("1")) && Integral(Str("1"))
    ensures NonNegative(Array([])) && Integral(Array([]))
    ensures !NonNegative(Str("1,2")) && !Integral(Str("1,2"))
    ensures NonNegative(Str("Infinity")) && !Integral(Str("Infinity"))
  {
    DecimalReadings();
    assert TrimStart("Infinity") == "Infinity" && TrimEnd("Infinity") == "Infinity";
    assert RadixPrefix("Infinity") == 0;
  }

  predicate IsFunction(v: JsValue)
  {
    v.Function?
  }

  predicate IsElementLike(v: JsValue)
  {
    v.DomNode? && v.node.Element?
  }

  predicate IsDocumentLike(v: JsValue)
  {
    v.Document?
  }

  /** `xs.indexOf(v)` with strict equality. */
  function IndexOf(xs: seq<JsValue>, v: JsValue): (r: int)
    ensures -1 <= r < |xs|
    ensures r == -1 <==> v !in xs
    ensures r >= 0 ==> xs[r] == v && v !in xs[..r]
  {
    if xs == [] then -1
    else if xs[0] == v then 0
    else
      var k := IndexOf(xs[1..], v);
      assert xs[1..][..if k < 0 then 0 else k] == xs[1..if k < 0 then 1 else k + 1];
      if k == -1 then -1 else k + 1
  }

  /**
   * `Array.from(v)`: the values under the indexes 0 .. `length - 1`, a
   * missing index read as `undefined`.
   */
  function ArrayFrom(v: JsValue): (r: seq<JsValue>)
    ensures v.Array? ==> r == v.items
    ensures v.Str? ==> |r| == |v.s|
    ensures v.Object? ==> |r| == ToLength(ToNumber(Get(v, "length")))
  {
    match v
    case Array(items) => items
    case Str(s) => Characters(s)
    case Object(props) => Indexed(props, ToLength(ToNumber(Get(v, "length"))))
    case _ => []
  }

  /**
   * The values `forEach`, `filter` and `indexOf` visit, when an array-like
   * object's own methods behave like `Array.prototype`'s: the indexes 0 ..
   * `length - 1` in order, skipping every index that is not a property.
   */
  function Present(v: JsValue): (r: seq<JsValue>)
    ensures v.Array? ==> r == v.items
    ensures !v.Object? ==> r == ArrayFrom(v)
    ensures v.Object? ==> |r| <= |ArrayFrom(v)|
  {
    match v
    case Object(props) => PresentIndexed(props, ToLength(ToNumber(Get(v, "length"))))
    case _ => ArrayFrom(v)
  }

  /** The values under those of the keys "0" .. "n-1" that are present, in index order. */
  function PresentIndexed(props: map<string, JsValue>, n: nat): (r: seq<JsValue>)
    ensures |r| <= n
  {
    if n == 0 then []
    else
      var key := NatToString(n - 1);
      PresentIndexed(props, n - 1) + (if key in props then [props[key]] else [])
  }

  /** Every visited value is the value of an own property. */
  lemma {:induction false} PresentAreOwnValues(props: map<string, JsValue>, n: nat)
    ensures forall x :: x in PresentIndexed(props, n) ==> x in props.Values
  {
    if n > 0 {
      PresentAreOwnValues(props, n - 1);
    }
  }

  /** Without holes, the visited values are exactly `Array.from`'s. */
  lemma {:induction false} PresentWithoutHoles(props: map<string, JsValue>, n: nat)
    requires forall k :: 0 <= k < n ==> NatToString(k) in props
    ensures PresentIndexed(props, n) == Indexed(props, n)
  {
    if n > 0 {
      PresentWithoutHoles(props, n - 1);
    }
  }

  /** A hole is skipped where `Array.from` reads `undefined`. */
  lemma {:induction false} HoleSkipped(props: map<string, JsValue>, n: nat)
    requires n > 0 && NatToString(n - 1) !in props
    ensures PresentIndexed(props, n) == PresentIndexed(props, n - 1)
    ensures Indexed(props, n) == Indexed(props, n - 1) + [Undefined]
  {
    assert PresentIndexed(props, n - 1) + [] == PresentIndexed(props, n - 1);
  }

  /** The largest array-like length, 2^53 - 1. */
  const MaxLength: nat := 0x1F_FFFF_FFFF_FFFF

  /**
   * ToLength: NaN and everything below 1 are 0, a fraction is cut off, and
   * +Infinity and everything above 2^53 - 1 are 2^53 - 1.
   */
  function ToLength(n: Numeric): (r: nat)
    ensures r <= MaxLength
    ensures n.Finite? && 0.0 <= n.x <= MaxLength as real ==> r as real <= n.x < r as real + 1.0
    ensures n == Infinity(false) ==> r == MaxLength
    ensures n.NaN? || n == Infinity(true) || (n.Finite? && n.x < 1.0) ==> r == 0
  {
    match n
    case NaN => 0
    case Infinity(negative) => if negative then 0 else MaxLength
    case Finite(x) => if x < 1.0 then 0 else if x >= MaxLength as real then MaxLength else x.Floor
  }

  /** The one-character strings of `s`, as `Array.from` yields them. */
  function Characters(s: string): (r: seq<JsValue>)
    ensures |r| == |s|
  {
    if s == [] then [] else [Str([s[0]])] + Characters(s[1..])
  }

  /** The values under the keys "0" .. "n-1", missing ones read as `undefined`. */
  function Indexed(props: map<string, JsValue>, n: nat): (r: seq<JsValue>)
    ensures |r| == n
  {
    if n == 0 then []
    else
      var key := NatToString(n - 1);
      Indexed(props, n - 1) + [if key in props then props[key] else Undefined]
  }

  function Strings(xs: seq<string>): (r: seq<JsValue>)
    ensures |r| == |xs|
    ensures forall i :: 0 <= i < |xs| ==> r[i] == Str(xs[i])
  {
    if xs == [] then [] else [Str(xs[0])] + Strings(xs[1..])
  }
}
