/**
 * `hashString` from the data transforms: a 31-multiplier rolling hash over
 * UTF-16 code units with 32-bit wrap-around, rendered as the decimal digits of
 * its absolute value. Used to invent story ids for thread records.
 */
module Hashing {

  import opened JsText

  const TWO_31: int := 0x8000_0000
  const TWO_32: int := 0x1_0000_0000

  /** ECMA-262 ToInt32: the unique value in [-2^31, 2^31) congruent to x modulo 2^32. */
  function ToInt32(x: int): (r: int)
    ensures -TWO_31 <= r < TWO_31
    ensures (x - r) % TWO_32 == 0
  {
    var m := x % TWO_32;
    if m >= TWO_31 then m - TWO_32 else m
  }

  /** Congruent inputs give the same 32-bit value. */
  lemma ToInt32Congruent(a: int, b: int)
    requires (a - b) % TWO_32 == 0
    ensures ToInt32(a) == ToInt32(b)
  {
    var k := (a - b) / TWO_32;
    assert a == b + k * TWO_32;
    assert a % TWO_32 == b % TWO_32 by {
      ModAddMultiple(b, k);
    }
  }

  lemma ModAddMultiple(b: int, k: int)
    ensures (b + k * TWO_32) % TWO_32 == b % TWO_32
  {
  }

  /** One step of the loop: `hash = ((hash << 5) - hash) + char; hash = hash & hash`. */
  function HashStep(hash: int, c: CodeUnit): int
  {
    var shifted := ToInt32(ToInt32(hash) * 32);   // `<<` works on ToInt32 of its operand
    ToInt32(shifted - hash + c as int)             // `hash & hash` is ToInt32(hash)
  }

  /** The accumulator after the loop has consumed all of s. */
  function HashCode(s: Text): int
  {
    if s == [] then 0 else HashStep(HashCode(s[..|s| - 1]), s[|s| - 1])
  }

  /** The polynomial the hash approximates: sum of s[i] * 31^(|s|-1-i), without wrap-around. */
  function Polynomial(s: Text): int
  {
    if s == [] then 0 else 31 * Polynomial(s[..|s| - 1]) + s[|s| - 1] as int
  }

  /** For a 32-bit accumulator, one step is exactly ToInt32(31 * hash + c). */
  lemma HashStepIsMultiplyAdd(h: int, c: CodeUnit)
    requires -TWO_31 <= h < TWO_31
    ensures HashStep(h, c) == ToInt32(31 * h + c as int)
  {
    var y := ToInt32(h * 32);
    assert ToInt32(h) == h;
    var j := (h * 32 - y) / TWO_32;
    assert h * 32 - y == j * TWO_32;
    assert (y - h + c as int) - (31 * h + c as int) == -(j * TWO_32);
    assert (-(j * TWO_32)) % TWO_32 == 0 by {
      ModAddMultiple(0, -j);
    }
    ToInt32Congruent(y - h + c as int, 31 * h + c as int);
  }

  /** The hash is the 32-bit wrap-around of the polynomial: the reference definition. */
  lemma {:induction false} HashCodeIsWrappedPolynomial(s: Text)
    ensures HashCode(s) == ToInt32(Polynomial(s))
  {
    if s != [] {
      var p := s[..|s| - 1];
      var c := s[|s| - 1];
      HashCodeIsWrappedPolynomial(p);
      var x := ToInt32(Polynomial(p));
      HashStepIsMultiplyAdd(x, c);
      var k := (Polynomial(p) - x) / TWO_32;
      assert Polynomial(p) - x == k * TWO_32;
      assert 31 * Polynomial(p) + c as int - (31 * x + c as int) == (31 * k) * TWO_32;
      assert ((31 * k) * TWO_32) % TWO_32 == 0 by {
        ModAddMultiple(0, 31 * k);
      }
      ToInt32Congruent(31 * Polynomial(p) + c as int, 31 * x + c as int);
    }
  }

  function Abs(x: int): nat
  {
    if x < 0 then -x else x
  }

  /** The string `hashString` returns: `Math.abs(hash).toString()`. */
  function HashOf(s: Text): (r: Text)
    ensures 1 <= |r| && forall i :: 0 <= i < |r| ==> IsDigit(r[i])
  {
    Decimal(Abs(HashCode(s)))
  }

  /** The hash value is a 32-bit integer, so its magnitude is at most 2^31 and the text has no sign. */
  lemma HashOfBounds(s: Text)
    ensures 0 <= DigitsValue(HashOf(s)) <= TWO_31
    ensures HashOf(s)[0] != Unit('-')
    ensures s == [] ==> HashOf(s) == Lit("0")
  {
    DecimalRoundTrip(Abs(HashCode(s)));
    assert IsDigit(HashOf(s)[0]);
  }

  /** `hashString(str)` as the source computes it, with its loop. */
  method HashString(str: Text) returns (r: Text)
    ensures r == HashOf(str)
  {
    var hash := 0;
    var i := 0;
    while i < |str|
      invariant 0 <= i <= |str|
      invariant hash == HashCode(str[..i])
    {
      var code := str[i];
      assert str[..i + 1][..i] == str[..i];
      hash := ((ToInt32(ToInt32(hash) * 32)) - hash) + code as int;
      hash := ToInt32(hash);
      i := i + 1;
    }
    assert str[..|str|] == str;
    r := Decimal(Abs(hash));
  }
}
