/**
 * String operations the source takes from JavaScript: `includes`, `startsWith`,
 * `substring`, string comparison, and the decimal text of numbers as it is
 * written into a cell and read back with `Number(...) || 0`.
 */
module Text {

  /** `s.startsWith(p)` */
  predicate StartsWith(s: string, p: string) {
    |p| <= |s| && s[..|p|] == p
  }

  /** `t` occurs in `s` starting at position `i`. */
  predicate OccursAt(s: string, t: string, i: nat) {
    i + |t| <= |s| && s[i..i + |t|] == t
  }

  /** `s.includes(t)`: `t` occurs somewhere in `s`. */
  predicate Contains(s: string, t: string) {
    exists i: nat | i <= |s| :: OccursAt(s, t, i)
  }

  lemma {:induction false} ContainsEmpty(s: string)
    ensures Contains(s, "")
  {
    assert OccursAt(s, "", 0);
  }

  /** Code-point lexicographic order: `a` sorts at or before `b`. */
  predicate LexLe(a: string, b: string) {
    a == [] || (b != [] && (a[0] < b[0] || (a[0] == b[0] && LexLe(a[1..], b[1..]))))
  }

  lemma {:induction false} LexLeTotal(a: string, b: string)
    ensures LexLe(a, b) || LexLe(b, a)
  {
    if a != [] && b != [] && a[0] == b[0] {
      LexLeTotal(a[1..], b[1..]);
    }
  }

  lemma {:induction false} LexLeTransitive(a: string, b: string, c: string)
    requires LexLe(a, b) && LexLe(b, c)
    ensures LexLe(a, c)
  {
    if a != [] && b != [] && c != [] && a[0] == b[0] == c[0] {
      LexLeTransitive(a[1..], b[1..], c[1..]);
    }
  }

  lemma {:induction false} LexLeAntisymmetric(a: string, b: string)
    requires LexLe(a, b) && LexLe(b, a)
    ensures a == b
  {
    if a != [] && b != [] {
      LexLeAntisymmetric(a[1..], b[1..]);
    }
  }

  /**
   * Comparing two strings that begin with parts of equal length: the first
   * parts decide, and only when they are equal do the rests.
   */
  lemma {:induction false} LexLeConcat(a1: string, a2: string, b1: string, b2: string)
    requires |a1| == |b1|
    ensures LexLe(a1 + a2, b1 + b2) <==> (a1 != b1 && LexLe(a1, b1)) || (a1 == b1 && LexLe(a2, b2))
  {
    if a1 == [] {
      assert a1 + a2 == a2 && b1 + b2 == b2;
    } else {
      assert (a1 + a2)[0] == a1[0] && (b1 + b2)[0] == b1[0];
      assert (a1 + a2)[1..] == a1[1..] + a2 && (b1 + b2)[1..] == b1[1..] + b2;
      LexLeConcat(a1[1..], a2, b1[1..], b2);
      if a1[0] == b1[0] {
        assert a1 == b1 <==> a1[1..] == b1[1..] by {
          assert a1 == [a1[0]] + a1[1..] && b1 == [b1[0]] + b1[1..];
        }
      }
    }
  }

  // ---- decimal text of integers ----

  predicate IsDigit(c: char) {
    '0' <= c <= '9'
  }

  predicate AllDigits(s: string) {
    forall i | 0 <= i < |s| :: IsDigit(s[i])
  }

  function DigitChar(d: nat): (c: char)
    requires d < 10
    ensures IsDigit(c) && c as int - '0' as int == d
  {
    (d + '0' as int) as char
  }

  /** The decimal text of a natural number, without leading zeros. */
  function NatText(n: nat): (s: string)
    ensures s != [] && AllDigits(s)
    decreases n
  {
    if n < 10 then [DigitChar(n)] else NatText(n / 10) + [DigitChar(n % 10)]
  }

  /** The decimal text JavaScript gives an integer-valued number. */
  function IntText(n: int): (s: string)
    ensures s != []
  {
    if n < 0 then "-" + NatText(-n) else NatText(n)
  }

  /** The value of a string of decimal digits, read left to right. */
  function DigitsValue(s: string): nat
    requires AllDigits(s)
  {
    if s == [] then 0 else 10 * DigitsValue(s[..|s| - 1]) + (s[|s| - 1] as int - '0' as int)
  }

  /**
   * `Number(s) || 0` for the integer texts a cell holds: an optional minus sign
   * and decimal digits give their value; the empty string and anything that is
   * not a number give 0.
   */
  function NumberOrZero(s: string): int {
    if s != [] && AllDigits(s) then DigitsValue(s) as int
    else if |s| > 1 && s[0] == '-' && AllDigits(s[1..]) then 0 - DigitsValue(s[1..])
    else 0
  }

  lemma {:induction false} DigitsValueOfNatText(n: nat)
    ensures DigitsValue(NatText(n)) == n
    decreases n
  {
    if n >= 10 {
      var s := NatText(n / 10) + [DigitChar(n % 10)];
      assert s[..|s| - 1] == NatText(n / 10);
      DigitsValueOfNatText(n / 10);
    }
  }

  /** Reading back the text written for an integer gives the integer. */
  lemma NumberOrZeroReadsIntText(n: int)
    ensures NumberOrZero(IntText(n)) == n
  {
    if n < 0 {
      assert ("-" + NatText(-n))[1..] == NatText(-n);
      DigitsValueOfNatText(-n);
    } else {
      DigitsValueOfNatText(n);
    }
  }

  function Pow10(n: nat): (p: nat)
    ensures p >= 1
  {
    if n == 0 then 1 else 10 * Pow10(n - 1)
  }

  /** The digits of `x` followed by those of `y`: `x` shifted left by `|y|` places, plus `y`. */
  lemma {:induction false} DigitsValueConcat(x: string, y: string)
    requires AllDigits(x) && AllDigits(y)
    ensures AllDigits(x + y)
    ensures DigitsValue(x + y) == DigitsValue(x) * Pow10(|y|) + DigitsValue(y)
    decreases |y|
  {
    if y == [] {
      assert x + y == x;
    } else {
      var n := |y| - 1;
      var z := x + y;
      assert z[..|z| - 1] == x + y[..n];
      DigitsValueConcat(x, y[..n]);
      var a, b, c := DigitsValue(x), Pow10(n), DigitsValue(y[..n]);
      var d := y[n] as int - '0' as int;
      assert DigitsValue(z) == 10 * (a * b + c) + d;
      assert DigitsValue(y) == 10 * c + d;
      assert Pow10(|y|) == 10 * b;
      Distribute(a, b, c);
    }
  }

  lemma Distribute(a: int, b: int, c: int)
    ensures 10 * (a * b + c) == a * (10 * b) + 10 * c
  {
  }

  /** `n` digits never spell a number of `n + 1` digits. */
  lemma {:induction false} DigitsValueBound(s: string)
    requires AllDigits(s)
    ensures DigitsValue(s) < Pow10(|s|)
  {
    if s != [] {
      DigitsValueBound(s[..|s| - 1]);
    }
  }

  lemma MulLe(x: nat, y: nat, p: nat)
    requires x < y
    ensures x * p + p <= y * p
  {
    var k := y - x - 1;
    assert y * p == x * p + p + k * p;
  }

  /** The value of a digit string of length at least one: its first digit, then the rest. */
  lemma DigitsValueFront(s: string)
    requires AllDigits(s) && s != []
    ensures DigitsValue(s) == (s[0] as int - '0' as int) * Pow10(|s| - 1) + DigitsValue(s[1..])
    ensures DigitsValue(s[1..]) < Pow10(|s| - 1)
  {
    assert s == [s[0]] + s[1..];
    DigitsValueConcat([s[0]], s[1..]);
    assert DigitsValue([s[0]]) == s[0] as int - '0' as int;
    DigitsValueBound(s[1..]);
  }

  /**
   * For digit strings of the same length, the code-point order is the
   * order of the numbers they spell.
   */
  lemma {:induction false} LexLeDigits(a: string, b: string)
    requires AllDigits(a) && AllDigits(b) && |a| == |b|
    ensures LexLe(a, b) <==> DigitsValue(a) <= DigitsValue(b)
  {
    if a != [] {
      var da, db := a[0] as int - '0' as int, b[0] as int - '0' as int;
      DigitsValueFront(a);
      DigitsValueFront(b);
      var p := Pow10(|a| - 1);
      if da < db {
        MulLe(da, db, p);
        assert DigitsValue(a) < DigitsValue(b);
      } else if db < da {
        MulLe(db, da, p);
        assert DigitsValue(b) < DigitsValue(a);
      } else {
        LexLeDigits(a[1..], b[1..]);
      }
    }
  }

  lemma DigitsValueTwo(s: string)
    requires |s| == 2 && AllDigits(s)
    ensures DigitsValue(s) == 10 * (s[0] as int - '0' as int) + (s[1] as int - '0' as int)
  {
    var first := s[..1];
    assert first[..0] == [];
    assert DigitsValue(first) == s[0] as int - '0' as int;
    assert s[..|s| - 1] == first;
  }

  lemma DigitsValueFour(s: string)
    requires |s| == 4 && AllDigits(s)
    ensures DigitsValue(s) == 100 * DigitsValue(s[..2]) + DigitsValue(s[2..])
  {
    assert s == s[..2] + s[2..];
    DigitsValueConcat(s[..2], s[2..]);
    assert Pow10(2) == 100;
  }
}
