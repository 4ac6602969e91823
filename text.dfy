/** The string operations of the Python runtime that the scoring code relies on:
    lower-casing, substring tests (`in`), `str.count`, `str.join`, the word count
    of `str.split()` and the decimal rendering of a non-negative integer. */
module Text {

  // ---------------------------------------------------------------------------
  // Lower-casing (ASCII letters only; see README)
  // ---------------------------------------------------------------------------

  predicate IsUpper(c: char) {
    'A' <= c <= 'Z'
  }

  function LowerChar(c: char): (r: char)
    ensures !IsUpper(r)
    ensures !IsUpper(c) ==> r == c
  {
    if IsUpper(c) then (c as int + 32) as char else c
  }

  /** `s.lower()`, restricted to the ASCII letters. */
  function Lower(s: string): (r: string)
    ensures |r| == |s|
    ensures forall i :: 0 <= i < |s| ==> r[i] == LowerChar(s[i])
  {
    seq(|s|, i requires 0 <= i < |s| => LowerChar(s[i]))
  }

  predicate HasUpper(s: string) {
    exists i :: 0 <= i < |s| && IsUpper(s[i])
  }

  lemma LowerConcat(a: string, b: string)
    ensures Lower(a + b) == Lower(a) + Lower(b)
  {
  }

  /** Lower-casing a string that has no upper-case letter changes nothing. */
  lemma LowerIdentity(s: string)
    requires !HasUpper(s)
    ensures Lower(s) == s
  {
  }

  // ---------------------------------------------------------------------------
  // Substrings and occurrence counts
  // ---------------------------------------------------------------------------

  /** sub occurs in s starting at index i. */
  predicate OccursAt(s: string, sub: string, i: int) {
    0 <= i <= |s| - |sub| && s[i..i + |sub|] == sub
  }

  /** Python's `sub in s`. */
  predicate Contains(s: string, sub: string) {
    exists i :: 0 <= i <= |s| - |sub| && OccursAt(s, sub, i)
  }

  lemma ContainsLeft(a: string, b: string, sub: string)
    requires Contains(a, sub)
    ensures Contains(a + b, sub)
  {
    var i :| 0 <= i <= |a| - |sub| && OccursAt(a, sub, i);
    assert (a + b)[i..i + |sub|] == sub;
    assert OccursAt(a + b, sub, i);
  }

  lemma ContainsRight(a: string, b: string, sub: string)
    requires Contains(b, sub)
    ensures Contains(a + b, sub)
  {
    var i :| 0 <= i <= |b| - |sub| && OccursAt(b, sub, i);
    assert (a + b)[|a| + i..|a| + i + |sub|] == sub;
    assert OccursAt(a + b, sub, |a| + i);
  }

  lemma ContainsSelf(s: string)
    ensures Contains(s, s)
  {
    assert s[0..|s|] == s;
    assert OccursAt(s, s, 0);
  }

  /** Lower-casing keeps an occurrence an occurrence. */
  lemma LowerKeepsContains(s: string, sub: string)
    requires Contains(s, sub)
    ensures Contains(Lower(s), Lower(sub))
  {
    var i :| 0 <= i <= |s| - |sub| && OccursAt(s, sub, i);
    assert Lower(s)[i..i + |sub|] == Lower(sub);
    assert OccursAt(Lower(s), Lower(sub), i);
  }

  /** A one-character pattern occurs exactly when the character does. */
  lemma ContainsChar(s: string, c: char)
    ensures Contains(s, [c]) <==> c in s
  {
    if c in s {
      var i :| 0 <= i < |s| && s[i] == c;
      assert s[i..i + 1] == [c];
      assert OccursAt(s, [c], i);
    }
    if Contains(s, [c]) {
      var i :| 0 <= i <= |s| - 1 && OccursAt(s, [c], i);
      assert s[i] == s[i..i + 1][0];
    }
  }

  /** A lower-cased text never contains a pattern that has an upper-case letter. */
  lemma {:induction false} LoweredTextMissesUpperCase(s: string, sub: string)
    requires HasUpper(sub)
    ensures !Contains(Lower(s), sub)
  {
    var j :| 0 <= j < |sub| && IsUpper(sub[j]);
    forall i | 0 <= i <= |s| - |sub|
      ensures !OccursAt(Lower(s), sub, i)
    {
      assert Lower(s)[i..i + |sub|][j] == LowerChar(s[i + j]);
    }
  }

  /** Python's `s.count(sub)`: the number of non-overlapping occurrences of sub,
      scanning from the left; an empty sub is counted at every position, |s| + 1 times. */
  function CountOccurrences(s: string, sub: string): (n: nat)
    decreases |s|
  {
    if |sub| == 0 then |s| + 1
    else if |s| < |sub| then 0
    else if s[..|sub|] == sub then 1 + CountOccurrences(s[|sub|..], sub)
    else CountOccurrences(s[1..], sub)
  }

  /** The counted occurrences do not overlap, so together they fit in s. */
  lemma {:induction false} CountBound(s: string, sub: string)
    requires |sub| > 0
    ensures CountOccurrences(s, sub) * |sub| <= |s|
    decreases |s|
  {
    if |s| < |sub| {
    } else if s[..|sub|] == sub {
      var rest := s[|sub|..];
      CountBound(rest, sub);
      MultiplySucc(CountOccurrences(rest, sub), |sub|);
    } else {
      CountBound(s[1..], sub);
    }
  }

  lemma MultiplySucc(n: nat, m: nat)
    ensures (1 + n) * m == m + n * m
  {
  }

  /** A keyword is counted at least once exactly when it occurs. */
  lemma {:induction false} CountPositiveIffContains(s: string, sub: string)
    ensures CountOccurrences(s, sub) > 0 <==> Contains(s, sub)
    decreases |s|
  {
    if |sub| == 0 {
      assert OccursAt(s, sub, 0);
    } else if |s| < |sub| {
    } else if s[..|sub|] == sub {
      assert OccursAt(s, sub, 0);
    } else {
      CountPositiveIffContains(s[1..], sub);
      if Contains(s, sub) {
        var i :| 0 <= i <= |s| - |sub| && OccursAt(s, sub, i);
        assert i != 0;
        assert s[1..][i - 1..i - 1 + |sub|] == sub;
        assert OccursAt(s[1..], sub, i - 1);
      }
      if Contains(s[1..], sub) {
        var i :| 0 <= i <= |s[1..]| - |sub| && OccursAt(s[1..], sub, i);
        assert s[i + 1..i + 1 + |sub|] == sub;
        assert OccursAt(s, sub, i + 1);
      }
    }
  }

  /** Appending text never loses an occurrence already counted. */
  lemma {:induction false} CountAppendMonotone(s: string, t: string, sub: string)
    ensures CountOccurrences(s + t, sub) >= CountOccurrences(s, sub)
    decreases |s|
  {
    if |sub| == 0 || |s| < |sub| {
    } else if s[..|sub|] == sub {
      assert (s + t)[..|sub|] == sub;
      assert (s + t)[|sub|..] == s[|sub|..] + t;
      CountAppendMonotone(s[|sub|..], t, sub);
    } else {
      assert (s + t)[..|sub|] == s[..|sub|];
      assert (s + t)[1..] == s[1..] + t;
      CountAppendMonotone(s[1..], t, sub);
    }
  }

  /** Appending one more copy of sub adds at least one occurrence. */
  lemma {:induction false} CountAppendSelf(s: string, sub: string)
    requires |sub| > 0
    ensures CountOccurrences(s + sub, sub) >= CountOccurrences(s, sub) + 1
    decreases |s|
  {
    if |s| < |sub| {
      ContainsSelf(sub);
      ContainsRight(s, sub, sub);
      CountPositiveIffContains(s + sub, sub);
    } else if s[..|sub|] == sub {
      assert (s + sub)[..|sub|] == sub;
      assert (s + sub)[|sub|..] == s[|sub|..] + sub;
      CountAppendSelf(s[|sub|..], sub);
    } else {
      assert (s + sub)[..|sub|] == s[..|sub|];
      assert (s + sub)[1..] == s[1..] + sub;
      CountAppendSelf(s[1..], sub);
    }
  }

  // ---------------------------------------------------------------------------
  // str.join
  // ---------------------------------------------------------------------------

  /** Python's `sep.join(xs)`. */
  function Join(sep: string, xs: seq<string>): (r: string)
  {
    if xs == [] then ""
    else if |xs| == 1 then xs[0]
    else xs[0] + sep + Join(sep, xs[1..])
  }

  /** Every joined element appears in the joined text. */
  lemma {:induction false} JoinContainsEach(sep: string, xs: seq<string>, i: nat)
    requires i < |xs|
    ensures Contains(Join(sep, xs), xs[i])
  {
    if |xs| == 1 {
      ContainsSelf(xs[0]);
    } else if i == 0 {
      ContainsSelf(xs[0]);
      ContainsLeft(xs[0], sep + Join(sep, xs[1..]), xs[0]);
      assert xs[0] + sep + Join(sep, xs[1..]) == xs[0] + (sep + Join(sep, xs[1..]));
    } else {
      JoinContainsEach(sep, xs[1..], i - 1);
      ContainsRight(xs[0] + sep, Join(sep, xs[1..]), xs[i]);
    }
  }

  // ---------------------------------------------------------------------------
  // len(s.split())
  // ---------------------------------------------------------------------------

  /** The characters on which Python's argument-less `str.split()` breaks words. */
  predicate IsSpace(c: char) {
    var n := c as int;
    (9 <= n <= 13) || (28 <= n <= 32) || n == 0x85 || n == 0xA0 || n == 0x1680 ||
    (0x2000 <= n <= 0x200A) || n == 0x2028 || n == 0x2029 || n == 0x202F ||
    n == 0x205F || n == 0x3000
  }

  /** The number of words that start in s, where afterSpace says whether the
      character before s was white space (or s starts the text). */
  function WordsFrom(s: string, afterSpace: bool): (n: nat)
    ensures n <= |s|
  {
    if s == [] then 0
    else if IsSpace(s[0]) then WordsFrom(s[1..], true)
    else (if afterSpace then 1 else 0) + WordsFrom(s[1..], false)
  }

  /** `len(s.split())`: the number of maximal runs of non-space characters. */
  function WordCount(s: string): (n: nat) {
    WordsFrom(s, true)
  }

  /** A text has a word exactly when it has a character that is not white space. */
  lemma {:induction false} WordCountPositive(s: string)
    ensures WordCount(s) > 0 <==> exists i :: 0 <= i < |s| && !IsSpace(s[i])
    decreases |s|
  {
    if s != [] && IsSpace(s[0]) {
      WordCountPositive(s[1..]);
      assert forall i :: 0 < i < |s| ==> s[i] == s[1..][i - 1];
      if exists i :: 0 <= i < |s| && !IsSpace(s[i]) {
        var i :| 0 <= i < |s| && !IsSpace(s[i]);
        assert !IsSpace(s[1..][i - 1]);
      }
    }
  }

  // ---------------------------------------------------------------------------
  // Decimal rendering of scores
  // ---------------------------------------------------------------------------

  predicate IsDigit(c: char) {
    '0' <= c <= '9'
  }

  function DigitChar(d: nat): (c: char)
    requires d < 10
    ensures IsDigit(c) && c as int - '0' as int == d
  {
    ('0' as int + d) as char
  }

  /** `f"{n:.0f}"` for a non-negative integer score: its decimal digits. */
  function NatToDecimal(n: nat): (r: string)
    ensures |r| >= 1
    ensures forall i :: 0 <= i < |r| ==> IsDigit(r[i])
  {
    if n < 10 then [DigitChar(n)] else NatToDecimal(n / 10) + [DigitChar(n % 10)]
  }

  /** The value a string of decimal digits denotes. */
  function DecimalValue(s: string): nat
    requires forall i :: 0 <= i < |s| ==> IsDigit(s[i])
  {
    if s == [] then 0
    else
      assert IsDigit(s[|s| - 1]);
      DecimalValue(s[..|s| - 1]) * 10 + (s[|s| - 1] as int - '0' as int)
  }

  /** Reading the rendered digits back gives the score. */
  lemma {:induction false} DecimalRoundTrip(n: nat)
    ensures DecimalValue(NatToDecimal(n)) == n
  {
    if n >= 10 {
      DecimalRoundTrip(n / 10);
      var r := NatToDecimal(n);
      assert r[..|r| - 1] == NatToDecimal(n / 10);
    }
  }
}
