/** String operations the connector relies on: ASCII case folding (the model of
    `toLowerCase`), substring search (`includes`) and the decimal rendering of an
    integer inside a template literal. */
module Text {

  /** ASCII lowercase of one character; every other character is unchanged. */
  function Lower(c: char): char {
    if 'A' <= c <= 'Z' then (c as int + 32) as char else c
  }

  /** ASCII uppercase of one character; every other character is unchanged. */
  function Upper(c: char): char {
    if 'a' <= c <= 'z' then (c as int - 32) as char else c
  }

  /** `s.toLowerCase()`, folding ASCII letters only: same length, each
      character lowered in place. */
  function LowerStr(s: string): (r: string)
    ensures |r| == |s|
    ensures forall i :: 0 <= i < |s| ==> r[i] == Lower(s[i])
  {
    if s == [] then [] else [Lower(s[0])] + LowerStr(s[1..])
  }

  /** A word written in lowercase ASCII letters only. */
  predicate IsLowerWord(w: string) {
    forall i :: 0 <= i < |w| ==> 'a' <= w[i] <= 'z'
  }

  /** `s` spells the word `w` with each letter in either case. */
  predicate IsCasingOf(s: string, w: string) {
    |s| == |w| && forall i :: 0 <= i < |s| ==> s[i] == w[i] || s[i] == Upper(w[i])
  }

  /** Lowering `s` gives the lowercase word `w` exactly when `s` is one of the
      casings of `w`. */
  lemma LowerStrIsCasing(s: string, w: string)
    requires IsLowerWord(w)
    ensures LowerStr(s) == w <==> IsCasingOf(s, w)
  {
    if LowerStr(s) == w {
      forall i | 0 <= i < |s| ensures s[i] == w[i] || s[i] == Upper(w[i]) {
        assert Lower(s[i]) == w[i];
      }
    }
    if IsCasingOf(s, w) {
      forall i | 0 <= i < |s| ensures LowerStr(s)[i] == w[i] {
        assert Lower(s[i]) == w[i];
      }
    }
  }

  /** `s.includes(pat)`: the pattern occurs somewhere in `s`. */
  predicate Contains(s: string, pat: string)
    ensures Contains(s, pat) ==> |pat| <= |s|
    decreases |s|
  {
    if |pat| > |s| then false else s[..|pat|] == pat || Contains(s[1..], pat)
  }

  /** The pattern occurs in `s` starting at index `i`. */
  ghost predicate OccursAt(s: string, pat: string, i: int) {
    0 <= i && i + |pat| <= |s| && s[i..i + |pat|] == pat
  }

  /** `Contains` finds an occurrence exactly when there is one. */
  lemma {:induction false} ContainsIff(s: string, pat: string)
    ensures Contains(s, pat) <==> exists i :: OccursAt(s, pat, i)
    decreases |s|
  {
    if |pat| > |s| {
      assert forall i :: !OccursAt(s, pat, i);
    } else if s[..|pat|] == pat {
      assert OccursAt(s, pat, 0);
    } else {
      ContainsIff(s[1..], pat);
      forall i | OccursAt(s, pat, i) ensures OccursAt(s[1..], pat, i - 1) {
        assert i != 0;
        assert s[1..][i - 1..i - 1 + |pat|] == s[i..i + |pat|];
      }
      forall i | OccursAt(s[1..], pat, i) ensures OccursAt(s, pat, i + 1) {
        assert s[1..][i..i + |pat|] == s[i + 1..i + 1 + |pat|];
      }
    }
  }

  /** An occurrence at a known index is found. */
  lemma ContainsAt(s: string, pat: string, i: int)
    requires OccursAt(s, pat, i)
    ensures Contains(s, pat)
  {
    ContainsIff(s, pat);
  }

  /** Lowercasing distributes over concatenation. */
  lemma LowerStrConcat(a: string, b: string)
    ensures LowerStr(a + b) == LowerStr(a) + LowerStr(b)
  {
  }

  /** A pattern whose first character never occurs in `s` does not occur. */
  lemma NotContained(s: string, pat: string)
    requires |pat| > 0 && forall i :: 0 <= i < |s| ==> s[i] != pat[0]
    ensures !Contains(s, pat)
  {
    ContainsIff(s, pat);
    forall i | 0 <= i && i + |pat| <= |s| ensures !OccursAt(s, pat, i) {
      assert s[i..i + |pat|][0] == s[i];
    }
  }

  /** The decimal digit for `d`. */
  function Digit(d: nat): (c: char)
    requires d < 10
    ensures '0' <= c <= '9' && c as int - '0' as int == d
  {
    ('0' as int + d) as char
  }

  /** The decimal rendering of a natural number, as `${n}` prints it. */
  function NatText(n: nat): (r: string)
    ensures |r| >= 1 && '0' <= r[0] <= '9'
    decreases n
  {
    if n < 10 then [Digit(n)] else NatText(n / 10) + [Digit(n % 10)]
  }

  /** The decimal rendering of an integer, with a leading minus sign when
      negative. */
  function IntText(i: int): string {
    if i < 0 then "-" + NatText(-i) else NatText(i)
  }

  /** A well-formed decimal numeral: one or more digits, no leading zero. */
  predicate IsDecimal(s: string) {
    |s| >= 1 && (forall i :: 0 <= i < |s| ==> '0' <= s[i] <= '9') && (|s| > 1 ==> s[0] != '0')
  }

  /** The value of a string of decimal digits, read from the left. */
  function DigitsValue(s: string): int
    decreases |s|
  {
    if s == [] then 0 else 10 * DigitsValue(s[..|s| - 1]) + (s[|s| - 1] as int - '0' as int)
  }

  /** Decimal rendering is a well-formed numeral that reads back as the number. */
  lemma {:induction false} NatTextRoundTrip(n: nat)
    ensures IsDecimal(NatText(n))
    ensures DigitsValue(NatText(n)) == n
    decreases n
  {
    if n >= 10 {
      NatTextRoundTrip(n / 10);
      var t := NatText(n);
      assert t[..|t| - 1] == NatText(n / 10);
      assert t[0] == NatText(n / 10)[0];
    }
  }
}
