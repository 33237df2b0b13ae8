/**
 * `Number(s)` for a string, read the way section 7.1.4.1.1 (StringToNumber)
 * of the ECMAScript Language Specification reads it: white space and line
 * terminators around the literal are dropped, the empty string is 0, a
 * binary, octal or hexadecimal integer literal, an optionally signed decimal
 * literal or `Infinity` gives its value, and anything else is NaN.
 */
module NumericStrings {
  import opened Wrappers
  import opened Text

  /** A JavaScript number: NaN, a finite value, or an infinity. */
  datatype Numeric = NaN | Finite(x: real) | Infinity(negative: bool)

  /** Unary minus. */
  function Negated(n: Numeric): (r: Numeric)
    ensures r.NaN? <==> n.NaN?
    ensures n.Finite? ==> r == Finite(-n.x)
    ensures n.Infinity? ==> r == Infinity(!n.negative)
  {
    match n
    case NaN => NaN
    case Finite(x) => Finite(-x)
    case Infinity(neg) => Infinity(!neg)
  }

  /** The WhiteSpace and LineTerminator code points of sections 12.2 and 12.3. */
  predicate IsJsSpace(c: char)
  {
    var k := c as int;
    (9 <= k <= 13) || k == 0x20 || k == 0xA0 || k == 0x1680 || (0x2000 <= k <= 0x200A)
    || k == 0x2028 || k == 0x2029 || k == 0x202F || k == 0x205F || k == 0x3000 || k == 0xFEFF
  }

  function TrimStart(s: string): string
  {
    if s != [] && IsJsSpace(s[0]) then TrimStart(s[1..]) else s
  }

  function TrimEnd(s: string): string
  {
    if s != [] && IsJsSpace(s[|s| - 1]) then TrimEnd(s[..|s| - 1]) else s
  }

  /** `String.prototype.trim`. */
  function Trim(s: string): string
  {
    TrimEnd(TrimStart(s))
  }

  /** The value of a binary, octal, decimal or hexadecimal digit; -1 for any other character. */
  function DigitValue(c: char): (r: int)
    ensures -1 <= r < 16
    ensures 0 <= r < 10 <==> IsDigit(c)
  {
    if '0' <= c <= '9' then c as int - '0' as int
    else if 'a' <= c <= 'f' then c as int - 'a' as int + 10
    else if 'A' <= c <= 'F' then c as int - 'A' as int + 10
    else -1
  }

  predicate AllDigits(ds: string, radix: nat)
  {
    forall i :: 0 <= i < |ds| ==> 0 <= DigitValue(ds[i]) < radix
  }

  /** The number the digits `ds` write in base `radix`, most significant first. */
  function DigitsValue(ds: string, radix: nat): nat
    requires AllDigits(ds, radix)
  {
    if ds == [] then 0
    else DigitsValue(ds[..|ds| - 1], radix) * radix + DigitValue(ds[|ds| - 1])
  }

  /** How many decimal digits `s` starts with. */
  function LeadingDigits(s: string): (r: nat)
    ensures r <= |s|
    ensures AllDigits(s[..r], 10)
  {
    if s != [] && IsDigit(s[0]) then
      var k := LeadingDigits(s[1..]);
      assert s[..k + 1] == [s[0]] + s[1..][..k];
      k + 1
    else 0
  }

  function Pow10(k: nat): (r: nat)
    ensures r >= 1
  {
    if k == 0 then 1 else 10 * Pow10(k - 1)
  }

  /** `m` times ten to the power `e`, exactly. */
  function Scaled(m: nat, e: int): real
  {
    if e >= 0 then (m * Pow10(e)) as real else m as real / Pow10(-e) as real
  }

  /** The ExponentPart after a decimal literal's digits: `""` is 0, else `e`/`E`, a sign, digits. */
  function Exponent(s: string): Option<int>
  {
    if s == [] then Some(0)
    else if s[0] != 'e' && s[0] != 'E' then None
    else
      var t := s[1..];
      var ds := if t != [] && (t[0] == '+' || t[0] == '-') then t[1..] else t;
      if ds != [] && AllDigits(ds, 10) then
        var v: int := DigitsValue(ds, 10);
        Some(if t[0] == '-' then -v else v)
      else None
  }

  /**
   * StrUnsignedDecimalLiteral: `Infinity`, or digits with an optional
   * fraction and an optional exponent.
   */
  function UnsignedDecimal(u: string): Numeric
  {
    if u == "Infinity" then Infinity(false)
    else Fraction(u[..LeadingDigits(u)], u[LeadingDigits(u)..])
  }

  /** What follows the whole digits `whole`: an optional `.` and fraction digits, then the rest. */
  function Fraction(whole: string, rest: string): Numeric
    requires AllDigits(whole, 10)
  {
    if rest != [] && rest[0] == '.' then
      var j := LeadingDigits(rest[1..]);
      Mantissa(whole, rest[1..][..j], rest[1..][j..])
    else Mantissa(whole, [], rest)
  }

  /** At least one digit on either side of the point, then an exponent or nothing. */
  function Mantissa(whole: string, frac: string, tail: string): Numeric
    requires AllDigits(whole, 10) && AllDigits(frac, 10)
  {
    if whole == [] && frac == [] then NaN
    else
      match Exponent(tail)
      case None => NaN
      case Some(e) => Finite(Scaled(DigitsValue(whole, 10) * Pow10(|frac|) + DigitsValue(frac, 10), e - |frac|))
  }

  /** A NonDecimalIntegerLiteral's digits after its `0x`, `0o` or `0b`. */
  function IntegerLiteral(ds: string, radix: nat): (r: Numeric)
    ensures r.Finite? <==> ds != [] && AllDigits(ds, radix)
    ensures r.Finite? ==> r.x == DigitsValue(ds, radix) as real
    ensures !r.Infinity?
  {
    if ds != [] && AllDigits(ds, radix) then Finite(DigitsValue(ds, radix) as real) else NaN
  }

  /** The radix a `0x`/`0o`/`0b` prefix (either case) announces, or 0 for none. */
  function RadixPrefix(t: string): (r: nat)
    ensures r in {0, 2, 8, 16}
    ensures r != 0 ==> |t| >= 2 && t[0] == '0'
  {
    if |t| < 2 || t[0] != '0' then 0
    else if t[1] == 'x' || t[1] == 'X' then 16
    else if t[1] == 'o' || t[1] == 'O' then 8
    else if t[1] == 'b' || t[1] == 'B' then 2
    else 0
  }

  /** `Number(s)`. */
  function StringToNumber(s: string): Numeric
  {
    var t := Trim(s);
    if t == [] then Finite(0.0)
    else if RadixPrefix(t) != 0 then IntegerLiteral(t[2..], RadixPrefix(t))
    else if t[0] == '+' then UnsignedDecimal(t[1..])
    else if t[0] == '-' then Negated(UnsignedDecimal(t[1..]))
    else UnsignedDecimal(t)
  }

  // Properties of the reading

  lemma {:induction false} DigitsOfNatToString(n: nat)
    ensures AllDigits(NatToString(n), 10)
    ensures DigitsValue(NatToString(n), 10) == n
  {
    var s := NatToString(n);
    if n >= 10 {
      DigitsOfNatToString(n / 10);
      assert s[..|s| - 1] == NatToString(n / 10);
    }
  }

  lemma {:induction false} LeadingDigitsOfDigits(s: string)
    requires AllDigits(s, 10)
    ensures LeadingDigits(s) == |s|
  {
    if s != [] {
      assert IsDigit(s[0]) by { assert 0 <= DigitValue(s[0]) < 10; }
      LeadingDigitsOfDigits(s[1..]);
    }
  }

  /** A non-empty run of decimal digits reads as the number it writes. */
  lemma DigitsRead(s: string)
    requires s != [] && AllDigits(s, 10)
    ensures StringToNumber(s) == Finite(DigitsValue(s, 10) as real)
  {
    assert IsDigit(s[0]) by { assert 0 <= DigitValue(s[0]) < 10; }
    assert IsDigit(s[|s| - 1]) by { assert 0 <= DigitValue(s[|s| - 1]) < 10; }
    assert TrimStart(s) == s;
    assert TrimEnd(s) == s;
    assert RadixPrefix(s) == 0 by {
      if |s| >= 2 { assert 0 <= DigitValue(s[1]) < 10; }
    }
    assert s != "Infinity" by { assert "Infinity"[0] == 'I'; }
    LeadingDigitsOfDigits(s);
    assert s[..|s|] == s && s[|s|..] == [];
    assert UnsignedDecimal(s) == Fraction(s, []);
    assert Fraction(s, []) == Mantissa(s, [], []);
    assert Exponent([]) == Some(0);
  }

  /** The decimal rendering of a whole number reads back as that number. */
  lemma NatToStringReadsBack(n: nat)
    ensures StringToNumber(NatToString(n)) == Finite(n as real)
  {
    DigitsOfNatToString(n);
    DigitsRead(NatToString(n));
  }

  /** A white-space character before the literal does not change its reading. */
  lemma LeadingSpaceIgnored(c: char, s: string)
    requires IsJsSpace(c)
    ensures StringToNumber([c] + s) == StringToNumber(s)
  {
    assert ([c] + s)[1..] == s;
    assert TrimStart([c] + s) == TrimStart(s);
  }

  lemma {:induction false} TrimStartAppend(s: string, c: char)
    requires IsJsSpace(c)
    ensures TrimStart(s + [c]) == if TrimStart(s) == [] then [] else TrimStart(s) + [c]
  {
    if s == [] {
      assert TrimStart([c]) == TrimStart([c][1..]);
    } else if IsJsSpace(s[0]) {
      assert (s + [c])[1..] == s[1..] + [c];
      TrimStartAppend(s[1..], c);
    } else {
      assert TrimStart(s) == s;
    }
  }

  /** A white-space character after the literal does not change its reading. */
  lemma TrailingSpaceIgnored(s: string, c: char)
    requires IsJsSpace(c)
    ensures StringToNumber(s + [c]) == StringToNumber(s)
  {
    TrimStartAppend(s, c);
    var t := TrimStart(s);
    if t != [] {
      assert (t + [c])[..|t + [c]| - 1] == t;
      assert TrimEnd(t + [c]) == TrimEnd(t);
    }
    assert Trim(s + [c]) == Trim(s);
  }

  lemma {:induction false} TrimStartKeeps(s: string, k: int)
    requires 0 <= k < |s| && !IsJsSpace(s[k])
    ensures s[k] in TrimStart(s)
  {
    if IsJsSpace(s[0]) {
      TrimStartKeeps(s[1..], k - 1);
    }
  }

  lemma {:induction false} TrimEndKeeps(s: string, k: int)
    requires 0 <= k < |s| && !IsJsSpace(s[k])
    ensures s[k] in TrimEnd(s)
  {
    if IsJsSpace(s[|s| - 1]) {
      TrimEndKeeps(s[..|s| - 1], k);
    }
  }

  /** No digit string holds a comma. */
  lemma CommaIsNoDigit(ds: string, radix: nat)
    requires ',' in ds
    ensures !AllDigits(ds, radix)
  {
    var k :| 0 <= k < |ds| && ds[k] == ',';
    assert DigitValue(ds[k]) == -1;
  }

  /** A comma lies past any run of leading digits. */
  lemma CommaPastDigits(s: string, r: nat, k: int)
    requires r <= |s| && AllDigits(s[..r], 10) && 0 <= k < |s| && s[k] == ','
    ensures r <= k
  {
    forall i | 0 <= i < r
      ensures s[i] != ','
    {
      assert s[..r][i] == s[i];
    }
  }

  lemma ExponentRefusesComma(s: string)
    requires ',' in s
    ensures Exponent(s).None?
  {
    if s != [] && (s[0] == 'e' || s[0] == 'E') {
      var t := s[1..];
      var ds := if t != [] && (t[0] == '+' || t[0] == '-') then t[1..] else t;
      var k :| 0 <= k < |s| && s[k] == ',';
      if t != [] && (t[0] == '+' || t[0] == '-') {
        assert ds[k - 2] == ',';
      } else {
        assert ds[k - 1] == ',';
      }
      CommaIsNoDigit(ds, 10);
    }
  }

  lemma UnsignedDecimalRefusesComma(u: string)
    requires ',' in u
    ensures UnsignedDecimal(u) == NaN
  {
    var k :| 0 <= k < |u| && u[k] == ',';
    assert u != "Infinity" by { assert ',' !in "Infinity"; }
    var i := LeadingDigits(u);
    CommaPastDigits(u, i, k);
    var rest := u[i..];
    assert rest[k - i] == ',';
    if rest != [] && rest[0] == '.' {
      var afterDot := rest[1..];
      assert afterDot[k - i - 1] == ',';
      var j := LeadingDigits(afterDot);
      CommaPastDigits(afterDot, j, k - i - 1);
      assert afterDot[j..][k - i - 1 - j] == ',';
      ExponentRefusesComma(afterDot[j..]);
    } else {
      ExponentRefusesComma(rest);
    }
  }

  /** Trimming keeps every comma. */
  lemma TrimKeepsComma(s: string)
    requires ',' in s
    ensures ',' in Trim(s)
  {
    var k :| 0 <= k < |s| && s[k] == ',';
    TrimStartKeeps(s, k);
    var a := TrimStart(s);
    var ka :| 0 <= ka < |a| && a[ka] == ',';
    TrimEndKeeps(a, ka);
  }

  /**
   * A string holding a comma is NaN: this is why an array of two or more
   * items, whose `join(',')` holds one, converts to NaN.
   */
  lemma CommaIsNaN(s: string)
    requires ',' in s
    ensures StringToNumber(s) == NaN
  {
    TrimKeepsComma(s);
    var t := Trim(s);
    var kt :| 0 <= kt < |t| && t[kt] == ',';
    if RadixPrefix(t) != 0 {
      assert t[2..][kt - 2] == ',';
      CommaIsNoDigit(t[2..], RadixPrefix(t));
    } else if t[0] == '+' || t[0] == '-' {
      assert t[1..][kt - 1] == ',';
      UnsignedDecimalRefusesComma(t[1..]);
    } else {
      UnsignedDecimalRefusesComma(t);
    }
  }

  /** `"1"` and `" 2\n"` are numbers; `"1,2"` is not. */
  lemma DecimalReadings()
    ensures StringToNumber("1") == Finite(1.0)
    ensures StringToNumber(" 2\n") == Finite(2.0)
    ensures StringToNumber("1,2") == NaN
  {
    DigitsRead("1");
    DigitsRead("2");
    assert " 2\n" == [' '] + ("2" + ['\n']);
    LeadingSpaceIgnored(' ', "2" + ['\n']);
    TrailingSpaceIgnored("2", '\n');
    CommaIsNaN("1,2");
  }

  /** A hexadecimal literal reads in base 16. */
  lemma HexReading()
    ensures StringToNumber("0x1F") == Finite(31.0)
  {
    assert TrimStart("0x1F") == "0x1F";
    assert TrimEnd("0x1F") == "0x1F";
    assert RadixPrefix("0x1F") == 16;
    assert "0x1F"[2..] == "1F";
    assert "1F"[..1] == "1";
    assert "1"[..0] == [];
    assert AllDigits("1F", 16);
    assert DigitsValue("1F", 16) == 31;
  }

  /** A decimal fraction reads exactly. */
  lemma FractionReading()
    ensures StringToNumber("1.5") == Finite(1.5)
  {
    assert TrimStart("1.5") == "1.5";
    assert TrimEnd("1.5") == "1.5";
    assert RadixPrefix("1.5") == 0;
    assert LeadingDigits("1.5"[1..]) == 0;
    assert LeadingDigits("1.5") == 1;
    assert "1.5"[..1] == "1" && "1.5"[1..] == ".5";
    assert ".5"[1..] == "5";
    assert LeadingDigits("5"[1..]) == 0;
    assert LeadingDigits("5") == 1;
    assert "5"[..1] == "5" && "5"[1..] == [];
    assert "1"[..0] == [] && "5"[..0] == [];
    assert Mantissa("1", "5", []) == Finite(1.5);
  }

  /** A signed `Infinity` is an infinity of that sign. */
  lemma InfinityReading()
    ensures StringToNumber("-Infinity") == Infinity(true)
  {
    assert TrimStart("-Infinity") == "-Infinity";
    assert TrimEnd("-Infinity") == "-Infinity";
    assert RadixPrefix("-Infinity") == 0;
    assert "-Infinity"[1..] == "Infinity";
  }
}
