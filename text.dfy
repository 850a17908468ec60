/**
 * The handful of JavaScript string operations the application relies on:
 * `toLowerCase`, `trim`, `includes`, number-to-text interpolation and
 * `Array.prototype.join`.  Characters are restricted to ASCII behaviour:
 * only 'A'..'Z' change case and the whitespace set is the six ASCII
 * whitespace characters.
 */
module Text {

  /** ASCII part of the whitespace set JavaScript's `trim` and `\s` use. */
  predicate IsSpace(c: char) {
    c == ' ' || c == '\t' || c == '\n' || c == '\r' || c == '\U{B}' || c == '\U{C}'
  }

  /** Every character of `s` is whitespace (this includes the empty string). */
  predicate IsBlank(s: string) {
    forall i :: 0 <= i < |s| ==> IsSpace(s[i])
  }

  function LowerChar(c: char): char
  {
    if 'A' <= c <= 'Z' then (c as int + 32) as char else c
  }

  /** `s.toLowerCase()` over ASCII. */
  function Lower(s: string): string
  {
    seq(|s|, i requires 0 <= i < |s| => LowerChar(s[i]))
  }

  /**
   * Lower-casing keeps the length, leaves no upper-case letter, keeps every
   * other character, and sends each letter to the same letter in lower case.
   */
  lemma LowerSpec(s: string)
    ensures |Lower(s)| == |s|
    ensures forall i :: 0 <= i < |s| ==> !('A' <= Lower(s)[i] <= 'Z')
    ensures forall i :: 0 <= i < |s| && !('A' <= s[i] <= 'Z') ==> Lower(s)[i] == s[i]
    ensures forall i :: 0 <= i < |s| && 'A' <= s[i] <= 'Z' ==> Lower(s)[i] as int - 'a' as int == s[i] as int - 'A' as int
  {
  }

  /** Lower-casing twice is lower-casing once. */
  lemma LowerIdempotent(s: string)
    ensures Lower(Lower(s)) == Lower(s)
  {
  }

  /** Leading whitespace removed: a suffix of `s`, cut after a blank prefix, not starting with whitespace. */
  function TrimStart(s: string): (r: string)
    ensures |r| <= |s| && r == s[|s| - |r|..]
    ensures IsBlank(s[..|s| - |r|])
    ensures r != [] ==> !IsSpace(r[0])
  {
    if s != [] && IsSpace(s[0]) then
      var r := TrimStart(s[1..]);
      assert s[..|s| - |r|] == [s[0]] + s[1..][..|s[1..]| - |r|];
      r
    else
      s
  }

  /** Trailing whitespace removed: a prefix of `s`, cut before a blank suffix, not ending with whitespace. */
  function TrimEnd(s: string): (r: string)
    ensures |r| <= |s| && r == s[..|r|]
    ensures IsBlank(s[|r|..])
    ensures r != [] ==> !IsSpace(r[|r| - 1])
  {
    if s != [] && IsSpace(s[|s| - 1]) then
      var r := TrimEnd(s[..|s| - 1]);
      assert s[|r|..] == s[..|s| - 1][|r|..] + [s[|s| - 1]];
      r
    else
      s
  }

  /** `s.trim()`: the longest infix of `s` that starts and ends with a non-space. */
  function Trim(s: string): (r: string)
  {
    TrimEnd(TrimStart(s))
  }

  /** A non-empty string is blank exactly when its head is whitespace and its tail is blank. */
  lemma BlankFront(s: string)
    requires s != []
    ensures IsBlank(s) <==> IsSpace(s[0]) && IsBlank(s[1..])
  {
    if IsSpace(s[0]) && IsBlank(s[1..]) {
      forall i | 0 < i < |s| ensures IsSpace(s[i]) {
        assert s[i] == s[1..][i - 1];
      }
    }
  }

  /** A non-empty string is blank exactly when its last character is whitespace and the rest is blank. */
  lemma BlankBack(s: string)
    requires s != []
    ensures IsBlank(s) <==> IsSpace(s[|s| - 1]) && IsBlank(s[..|s| - 1])
  {
    var p := s[..|s| - 1];
    if IsSpace(s[|s| - 1]) && IsBlank(p) {
      forall i | 0 <= i < |s| - 1 ensures IsSpace(s[i]) {
        assert s[i] == p[i];
      }
    }
  }

  lemma {:induction false} TrimStartEmptyIffBlank(s: string)
    ensures TrimStart(s) == [] <==> IsBlank(s)
  {
    if s != [] {
      BlankFront(s);
      if IsSpace(s[0]) {
        TrimStartEmptyIffBlank(s[1..]);
      }
    }
  }

  lemma {:induction false} TrimEndEmptyIffBlank(s: string)
    ensures TrimEnd(s) == [] <==> IsBlank(s)
  {
    if s != [] {
      BlankBack(s);
      if IsSpace(s[|s| - 1]) {
        TrimEndEmptyIffBlank(s[..|s| - 1]);
      }
    }
  }

  /** Trimming leaves nothing exactly when the string is blank. */
  lemma TrimEmptyIffBlank(s: string)
    ensures Trim(s) == [] <==> IsBlank(s)
  {
    var t := TrimStart(s);
    TrimStartEmptyIffBlank(s);
    TrimEndEmptyIffBlank(t);
    assert t != [] ==> !IsBlank(t);
  }

  /** A string whose first character is not whitespace survives trimming. */
  lemma TrimNonEmptyWhenHeadVisible(s: string)
    requires s != [] && !IsSpace(s[0])
    ensures Trim(s) != []
  {
    TrimEmptyIffBlank(s);
  }

  /** `needle` occurs in `hay` starting at position `i`. */
  ghost predicate OccursAt(hay: string, needle: string, i: int) {
    0 <= i && i + |needle| <= |hay| && hay[i..i + |needle|] == needle
  }

  /** `needle` occurs in `hay` at `i` from its `k`-th character on. */
  function MatchesAt(hay: string, needle: string, i: nat, k: nat): bool
    requires i + |needle| <= |hay|
    decreases |needle| - k
  {
    k >= |needle| || (hay[i + k] == needle[k] && MatchesAt(hay, needle, i, k + 1))
  }

  /** Some position `j >= i` of `hay` starts a copy of `needle`. */
  function ContainsFrom(hay: string, needle: string, i: nat): bool
    decreases |hay| - i
  {
    if i + |needle| > |hay| then false
    else MatchesAt(hay, needle, i, 0) || ContainsFrom(hay, needle, i + 1)
  }

  /** `hay.includes(needle)`; the empty needle is included in every string. */
  function Contains(hay: string, needle: string): bool
  {
    ContainsFrom(hay, needle, 0)
  }

  lemma {:induction false} MatchesAtSpec(hay: string, needle: string, i: nat, k: nat)
    requires i + |needle| <= |hay| && k <= |needle|
    ensures MatchesAt(hay, needle, i, k) <==> hay[i + k..i + |needle|] == needle[k..]
    decreases |needle| - k
  {
    if k < |needle| {
      MatchesAtSpec(hay, needle, i, k + 1);
      assert hay[i + k..i + |needle|] == [hay[i + k]] + hay[i + k + 1..i + |needle|];
      assert needle[k..] == [needle[k]] + needle[k + 1..];
    }
  }

  lemma {:induction false} ContainsFromSpec(hay: string, needle: string, i: nat)
    ensures ContainsFrom(hay, needle, i) <==> exists j :: i <= j && OccursAt(hay, needle, j)
    decreases |hay| - i
  {
    if i + |needle| <= |hay| {
      MatchesAtSpec(hay, needle, i, 0);
      ContainsFromSpec(hay, needle, i + 1);
      if MatchesAt(hay, needle, i, 0) {
        assert OccursAt(hay, needle, i);
      } else if !ContainsFrom(hay, needle, i + 1) {
        forall j | i <= j && OccursAt(hay, needle, j) ensures j == i {
        }
      }
    }
  }

  /** The search agrees with the positional definition of an occurrence. */
  lemma ContainsSpec(hay: string, needle: string)
    ensures Contains(hay, needle) <==> exists i :: OccursAt(hay, needle, i)
  {
    ContainsFromSpec(hay, needle, 0);
  }

  /** Every string includes the empty string. */
  lemma ContainsEmpty(hay: string)
    ensures Contains(hay, "")
  {
    assert MatchesAt(hay, "", 0, 0);
  }

  function DigitChar(d: int): char
    requires 0 <= d < 10
  {
    ('0' as int + d) as char
  }

  /** Decimal rendering of a natural number, as template interpolation prints it. */
  function NatToString(n: nat): (r: string)
    ensures |r| >= 1
    ensures forall i :: 0 <= i < |r| ==> '0' <= r[i] <= '9'
  {
    if n < 10 then [DigitChar(n)] else NatToString(n / 10) + [DigitChar(n % 10)]
  }

  /** Decimal rendering of an integer, with a leading '-' when negative. */
  function IntToString(n: int): (r: string)
    ensures |r| >= 1
  {
    if n < 0 then "-" + NatToString(-n) else NatToString(n)
  }

  /** `xs.join(sep)`. */
  function Join(xs: seq<string>, sep: string): string
  {
    if xs == [] then ""
    else if |xs| == 1 then xs[0]
    else xs[0] + sep + Join(xs[1..], sep)
  }
}
