/** Decimal rendering of numbers, and the ids and paths built from it. */
module Text {

  const DIGITS := "0123456789"

  /** Python's `str(n)` for a non-negative integer. */
  function Decimal(n: nat): (s: string)
    ensures s != []
    ensures forall i :: 0 <= i < |s| ==> s[i] in DIGITS
  {
    if n < 10 then [DIGITS[n]] else Decimal(n / 10) + [DIGITS[n % 10]]
  }

  function DigitValue(c: char): nat { if '0' <= c <= '9' then c as int - '0' as int else 0 }

  /** Python's `int(text)` on a text of plain digits. */
  function ParseDecimal(s: string): nat {
    if s == [] then 0 else 10 * ParseDecimal(s[..|s| - 1]) + DigitValue(s[|s| - 1])
  }

  lemma DigitValueOfDigit(d: nat)
    requires d < 10
    ensures DigitValue(DIGITS[d]) == d
  {
    assert d in {0, 1, 2, 3, 4, 5, 6, 7, 8, 9};
  }

  lemma {:induction false} ParseOfDecimal(n: nat)
    ensures ParseDecimal(Decimal(n)) == n
  {
    var s := Decimal(n);
    if n < 10 {
      DigitValueOfDigit(n);
      assert s[..0] == [];
    } else {
      DigitValueOfDigit(n % 10);
      ParseOfDecimal(n / 10);
      assert s[..|s| - 1] == Decimal(n / 10);
    }
  }

  lemma DecimalInjective(m: nat, n: nat)
    requires Decimal(m) == Decimal(n)
    ensures m == n
  {
    ParseOfDecimal(m);
    ParseOfDecimal(n);
  }

  lemma LastSeparator(a: string, sep: char, s: string, x: string)
    requires x == a + [sep] + s && sep !in s
    ensures x[|a|] == sep && s == x[|a| + 1..]
    ensures forall i :: |a| < i < |x| ==> x[i] != sep
  {
    forall i | |a| < i < |x| ensures x[i] != sep {
      assert x[i] == s[i - |a| - 1];
    }
  }

  /** A text that ends in a separator and a separator-free tail determines the tail. */
  lemma TailUnique(a: string, b: string, sep: char, s: string, t: string)
    requires a + [sep] + s == b + [sep] + t
    requires sep !in s && sep !in t
    ensures s == t && a == b
  {
    var x := a + [sep] + s;
    LastSeparator(a, sep, s, x);
    LastSeparator(b, sep, t, x);
    assert |a| == |b|;
    assert a == x[..|a|] && b == x[..|b|];
  }

  /** `part in s`. */
  predicate Contains(part: string, s: string) {
    |part| <= |s| && (s[..|part|] == part || (s != [] && Contains(part, s[1..])))
  }

  /** The part stands at position `i` of the text. */
  predicate StandsAt(part: string, s: string, i: int) {
    0 <= i <= |s| - |part| && s[i..i + |part|] == part
  }

  /** Somewhere in the text the part stands. */
  lemma {:induction false} ContainsExactly(part: string, s: string)
    ensures Contains(part, s) <==> exists i :: StandsAt(part, s, i)
  {
    if |part| <= |s| {
      assert s[0..|part|] == s[..|part|];
      assert StandsAt(part, s, 0) <==> s[..|part|] == part;
      if s != [] {
        ContainsExactly(part, s[1..]);
        forall i | 0 < i <= |s| - |part| ensures StandsAt(part, s, i) <==> StandsAt(part, s[1..], i - 1) {
          assert s[1..][i - 1..i - 1 + |part|] == s[i..i + |part|];
        }
        if Contains(part, s[1..]) {
          var i :| StandsAt(part, s[1..], i);
          assert StandsAt(part, s, i + 1);
        }
      }
    }
  }

  /** `s.lower()` on ASCII letters. */
  function Lower(s: string): (r: string)
    ensures |r| == |s| && forall i :: 0 <= i < |s| ==> r[i] == if 'A' <= s[i] <= 'Z' then (s[i] as int + 32) as char else s[i]
  {
    seq(|s|, i requires 0 <= i < |s| => if 'A' <= s[i] <= 'Z' then s[i] - 'A' + 'a' else s[i])
  }
}
