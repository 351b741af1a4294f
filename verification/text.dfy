/**
 * JavaScript strings as sequences of UTF-16 code units: `length`, `charCodeAt`,
 * `substring` and `trim` all work on code units, so the model does too.
 * Also the decimal rendering that `Number.prototype.toString` and template
 * literals apply to integers.
 */
module JsText {

  import opened Wrappers

  /** One UTF-16 code unit, the value `charCodeAt` returns. */
  newtype CodeUnit = x: int | 0 <= x < 0x1_0000

  /** A JavaScript string value. */
  type Text = seq<CodeUnit>

  /** The code unit of a character of a Dafny literal (every literal in this model is ASCII). */
  function Unit(c: char): CodeUnit
  {
    if c as int < 0x1_0000 then c as int as CodeUnit else 0xFFFD
  }

  /** Lifts a Dafny string literal to the code units JavaScript would hold for it. */
  function Lit(s: string): (t: Text)
    ensures |t| == |s|
    ensures forall i :: 0 <= i < |s| ==> t[i] == Unit(s[i])
  {
    seq(|s|, i requires 0 <= i < |s| => Unit(s[i]))
  }

  /** Lifting commutes with taking a prefix. */
  lemma LitPrefix(s: string, k: nat)
    requires k <= |s|
    ensures Lit(s)[..k] == Lit(s[..k])
  {
  }

  /** JavaScript truthiness of an optional string: present and not empty. */
  predicate Truthy(o: Option<Text>)
  {
    o.Some? && o.value != []
  }

  /** `o || fallback` on an optional string. */
  function OrElse(o: Option<Text>, fallback: Text): (t: Text)
    ensures Truthy(o) ==> t == o.value
    ensures !Truthy(o) ==> t == fallback
  {
    if Truthy(o) then o.value else fallback
  }

  /** `t.startsWith(p)`. */
  predicate StartsWith(t: Text, p: Text)
  {
    |p| <= |t| && t[..|p|] == p
  }

  // ---------------------------------------------------------------- digits

  predicate IsDigit(u: CodeUnit)
  {
    '0' as int <= u as int <= '9' as int
  }

  function DigitUnit(d: nat): (u: CodeUnit)
    requires d < 10
    ensures IsDigit(u)
  {
    (48 + d) as CodeUnit
  }

  /** The decimal digits `toString` produces for a non-negative integer below 10^21. */
  function Decimal(n: nat): (t: Text)
    ensures 1 <= |t|
    ensures forall i :: 0 <= i < |t| ==> IsDigit(t[i])
    decreases n
  {
    if n < 10 then [DigitUnit(n)] else Decimal(n / 10) + [DigitUnit(n % 10)]
  }

  /** The value of a string of decimal digits (the inverse of Decimal). */
  function DigitsValue(t: Text): nat
  {
    if t == [] then 0
    else
      var d := t[|t| - 1] as int - 48;
      DigitsValue(t[..|t| - 1]) * 10 + (if 0 <= d then d else 0)
  }

  /** Reading back the digits gives the number: Decimal loses nothing. */
  lemma {:induction false} DecimalRoundTrip(n: nat)
    ensures DigitsValue(Decimal(n)) == n
    decreases n
  {
    var t := Decimal(n);
    if n >= 10 {
      DecimalRoundTrip(n / 10);
      assert t[..|t| - 1] == Decimal(n / 10);
    }
  }

  /** Distinct numbers have distinct decimal renderings. */
  lemma DecimalInjective(m: nat, n: nat)
    requires Decimal(m) == Decimal(n)
    ensures m == n
  {
    DecimalRoundTrip(m);
    DecimalRoundTrip(n);
  }

  /** `String(x)` for any integer below 10^21 in magnitude: a minus sign, then the digits. */
  function SignedDecimal(x: int): (t: Text)
    ensures x >= 0 ==> t == Decimal(x)
    ensures x < 0 ==> t == Lit("-") + Decimal(-x)
  {
    if x < 0 then Lit("-") + Decimal(-x) else Decimal(x)
  }

  /** The first code unit of `String(x)` is a minus sign exactly for negative x. */
  lemma SignedDecimalSign(x: int)
    ensures SignedDecimal(x)[0] == Unit('-') <==> x < 0
  {
    if x >= 0 {
      assert IsDigit(Decimal(x)[0]);
    }
  }

  lemma SignedDecimalInjective(x: int, y: int)
    requires SignedDecimal(x) == SignedDecimal(y)
    ensures x == y
  {
    SignedDecimalSign(x);
    SignedDecimalSign(y);
    if x < 0 {
      assert Decimal(-x) == SignedDecimal(x)[1..] == SignedDecimal(y)[1..] == Decimal(-y);
      DecimalInjective(-x, -y);
    } else {
      DecimalInjective(x, y);
    }
  }

  // ---------------------------------------------------------------- trim

  /**
   * The code units `String.prototype.trim` removes: WhiteSpace (TAB, VT, FF,
   * ZWNBSP and the Space_Separator category) and LineTerminator (LF, CR, LS, PS),
   * as listed in sections 12.2 and 12.3 of ECMA-262.
   */
  const JS_SPACES: set<CodeUnit> := {
    0x09, 0x0A, 0x0B, 0x0C, 0x0D, 0x20, 0xA0, 0x1680,
    0x2000, 0x2001, 0x2002, 0x2003, 0x2004, 0x2005, 0x2006, 0x2007, 0x2008, 0x2009, 0x200A,
    0x2028, 0x2029, 0x202F, 0x205F, 0x3000, 0xFEFF
  }

  predicate IsJsSpace(u: CodeUnit)
  {
    u in JS_SPACES
  }

  /** The number of white-space code units `t` starts with. */
  function LeadingSpaces(t: Text): (n: nat)
    ensures n <= |t| && (n == |t| || !IsJsSpace(t[n]))
    ensures forall i :: 0 <= i < n ==> IsJsSpace(t[i])
  {
    if t == [] || !IsJsSpace(t[0]) then 0
    else
      var n := LeadingSpaces(t[1..]);
      assert forall i :: 1 <= i < n + 1 ==> t[i] == t[1..][i - 1];
      n + 1
  }

  /** The length of `t` without its trailing white space. */
  function TrailingStart(t: Text): (n: nat)
    ensures n <= |t| && (n == 0 || !IsJsSpace(t[n - 1]))
    ensures forall i :: n <= i < |t| ==> IsJsSpace(t[i])
  {
    if t == [] || !IsJsSpace(t[|t| - 1]) then |t|
    else TrailingStart(t[..|t| - 1])
  }

  /** `t.trimStart()`. */
  function TrimStart(t: Text): (r: Text)
    ensures |r| <= |t| && r == t[|t| - |r|..]
    ensures r == [] || !IsJsSpace(r[0])
    ensures forall i :: 0 <= i < |t| - |r| ==> IsJsSpace(t[i])
  {
    t[LeadingSpaces(t)..]
  }

  /** `t.trimEnd()`. */
  function TrimEnd(t: Text): (r: Text)
    ensures |r| <= |t| && r == t[..|r|]
    ensures r == [] || !IsJsSpace(r[|r| - 1])
    ensures forall i :: |r| <= i < |t| ==> IsJsSpace(t[i])
  {
    t[..TrailingStart(t)]
  }

  /** `t.trim()`. */
  function Trim(t: Text): (r: Text)
    ensures |r| <= |t|
    ensures r != [] ==> !IsJsSpace(r[0]) && !IsJsSpace(r[|r| - 1])
  {
    TrimEnd(TrimStart(t))
  }

  /**
   * What trim promises: the result is the piece of the input that starts after
   * the leading white space, has no white space at either end, and only white
   * space was cut off behind it.
   */
  lemma TrimSpec(t: Text)
    ensures var lo, r := |t| - |TrimStart(t)|, Trim(t);
      && lo + |r| <= |t| && r == t[lo..lo + |r|]
      && (forall i :: 0 <= i < lo ==> IsJsSpace(t[i]))
      && (forall i :: lo + |r| <= i < |t| ==> IsJsSpace(t[i]))
      && (r == [] || (!IsJsSpace(r[0]) && !IsJsSpace(r[|r| - 1])))
  {
    TrimSlice(t);
    TrimTail(t);
    TrimEdges(t);
  }

  lemma TrimSlice(t: Text)
    ensures |t| - |TrimStart(t)| + |Trim(t)| <= |t|
    ensures Trim(t) == t[|t| - |TrimStart(t)|..|t| - |TrimStart(t)| + |Trim(t)|]
  {
    var s := TrimStart(t);
    SliceOfSuffix(t, s, TrimEnd(s), |t| - |s|);
  }

  /** A prefix of a suffix is a middle slice. */
  lemma SliceOfSuffix(t: Text, s: Text, r: Text, lo: nat)
    requires lo <= |t| && s == t[lo..] && |r| <= |s| && r == s[..|r|]
    ensures lo + |r| <= |t| && r == t[lo..lo + |r|]
  {
  }

  lemma TrimTail(t: Text)
    ensures forall i :: |t| - |TrimStart(t)| + |Trim(t)| <= i < |t| ==> IsJsSpace(t[i])
  {
    var s := TrimStart(t);
    var lo := |t| - |s|;
    forall i | lo + |Trim(t)| <= i < |t| ensures IsJsSpace(t[i]) {
      assert t[i] == s[i - lo];
    }
  }

  lemma TrimEdges(t: Text)
    ensures Trim(t) == [] || (!IsJsSpace(Trim(t)[0]) && !IsJsSpace(Trim(t)[|Trim(t)| - 1]))
  {
    var s := TrimStart(t);
    if Trim(t) != [] {
      assert Trim(t)[0] == s[0];
    }
  }

  /** A string trims to nothing exactly when it is all white space. */
  lemma TrimEmptyIff(t: Text)
    ensures Trim(t) == [] <==> forall i :: 0 <= i < |t| ==> IsJsSpace(t[i])
  {
    var s := TrimStart(t);
    if Trim(t) == [] {
      assert |s| == 0;
    } else {
      var r := Trim(t);
      assert r[0] == s[0] == t[|t| - |s|];
    }
  }

  /** Trimming twice changes nothing more. */
  lemma TrimIdempotent(t: Text)
    ensures Trim(Trim(t)) == Trim(t)
  {
    var r := Trim(t);
    TrimSpec(t);
    if r != [] {
      assert TrimStart(r) == r;
    }
  }
}
