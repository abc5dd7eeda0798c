/** String primitives the keyword engine relies on, written as the JavaScript
    string methods it calls behave: `toLowerCase`, `trim`, `includes`,
    `startsWith`, `split(/\s+/)` and `split(' ')`. */
module Strings {

  /** The characters matched by ECMAScript's `\s` and removed by `trim()`:
      WhiteSpace (TAB, VT, FF, ZWNBSP and the Zs category) and LineTerminator. */
  predicate IsWhitespace(c: char)
  {
    c == ' ' || c == '\t' || c == '\n' || c == '\r' || c == '\U{000B}' || c == '\U{000C}'
    || c == '\U{00A0}' || c == '\U{1680}' || ('\U{2000}' <= c <= '\U{200A}')
    || c == '\U{2028}' || c == '\U{2029}' || c == '\U{202F}' || c == '\U{205F}'
    || c == '\U{3000}' || c == '\U{FEFF}'
  }

  predicate IsAsciiUpper(c: char) { 'A' <= c <= 'Z' }

  predicate IsAsciiDigit(c: char) { '0' <= c <= '9' }

  function LowerChar(c: char): (r: char)
    ensures !IsAsciiUpper(r)
    ensures IsAsciiUpper(c) ==> r as int == c as int + 32
    ensures !IsAsciiUpper(c) ==> r == c
  {
    if IsAsciiUpper(c) then (c as int + 32) as char else c
  }

  /** `toLowerCase()` restricted to the ASCII letters. */
  function ToLower(s: string): (r: string)
    ensures |r| == |s|
    ensures forall i {:trigger r[i]} :: 0 <= i < |s| ==> r[i] == LowerChar(s[i])
  {
    if s == [] then [] else [LowerChar(s[0])] + ToLower(s[1..])
  }

  /** Number of leading whitespace characters. */
  function LeadingWhitespace(s: string): (k: nat)
    ensures k <= |s|
    ensures forall i :: 0 <= i < k ==> IsWhitespace(s[i])
    ensures k < |s| ==> !IsWhitespace(s[k])
  {
    if |s| > 0 && IsWhitespace(s[0]) then 1 + LeadingWhitespace(s[1..]) else 0
  }

  /** Index where the run of trailing whitespace starts. */
  function TrailingStart(s: string): (k: nat)
    ensures k <= |s|
    ensures forall i :: k <= i < |s| ==> IsWhitespace(s[i])
    ensures 0 < k ==> !IsWhitespace(s[k - 1])
  {
    if |s| > 0 && IsWhitespace(s[|s| - 1]) then TrailingStart(s[..|s| - 1]) else |s|
  }

  /** `r` is `s` with a whitespace-only prefix of length `i` and a
      whitespace-only suffix cut away. */
  predicate StrippedAt(s: string, r: string, i: int)
  {
    0 <= i <= |s| - |r| && r == s[i..i + |r|]
    && (forall k :: 0 <= k < i ==> IsWhitespace(s[k]))
    && (forall k :: i + |r| <= k < |s| ==> IsWhitespace(s[k]))
  }

  /** `trim()`: the infix of `s` left once the whitespace at both ends is gone. */
  function Trim(s: string): (r: string)
    ensures r == [] || (!IsWhitespace(r[0]) && !IsWhitespace(r[|r| - 1]))
    ensures exists i :: StrippedAt(s, r, i)
  {
    var a := LeadingWhitespace(s);
    var b := TrailingStart(s);
    if a < b then
      assert StrippedAt(s, s[a..b], a);
      s[a..b]
    else
      assert a == |s|;
      assert StrippedAt(s, [], 0);
      []
  }

  predicate IsPrefix(p: string, s: string)
  {
    |p| <= |s| && s[..|p|] == p
  }

  predicate OccursAt(s: string, t: string, i: int)
  {
    0 <= i <= |s| - |t| && s[i..i + |t|] == t
  }

  /** `s.includes(t)`, scanning the start positions of `s` one by one. */
  predicate Contains(s: string, t: string)
    decreases |s|
  {
    IsPrefix(t, s) || (|s| > 0 && Contains(s[1..], t))
  }

  /** Contains means: `t` occurs in `s` at some position. */
  lemma {:induction false} ContainsAt(s: string, t: string)
    ensures Contains(s, t) <==> exists i :: OccursAt(s, t, i)
    decreases |s|
  {
    if IsPrefix(t, s) {
      assert OccursAt(s, t, 0);
    } else if |s| > 0 {
      ContainsAt(s[1..], t);
      if Contains(s[1..], t) {
        var j :| OccursAt(s[1..], t, j);
        assert s[1..][j..j + |t|] == s[j + 1..j + 1 + |t|];
        assert OccursAt(s, t, j + 1);
      }
      if exists i :: OccursAt(s, t, i) {
        var i :| OccursAt(s, t, i);
        assert i != 0;
        assert s[1..][i - 1..i - 1 + |t|] == s[i..i + |t|];
        assert OccursAt(s[1..], t, i - 1);
      }
    }
  }

  /** The array test `words.some(w => s.includes(w))`, in list order. */
  function ContainsAny(s: string, words: seq<string>): (b: bool)
    ensures b <==> exists i :: 0 <= i < |words| && Contains(s, words[i])
  {
    if words == [] then false
    else if Contains(s, words[0]) then true
    else
      var rest := ContainsAny(s, words[1..]);
      assert rest <==> exists i :: 1 <= i < |words| && Contains(s, words[i]) by {
        forall i | 1 <= i < |words| ensures words[1..][i - 1] == words[i] { }
      }
      rest
  }

  /** `words.filter(w => s.includes(w)).length`. */
  function CountContaining(s: string, words: seq<string>): (n: nat)
    ensures n <= |words|
    ensures n >= 1 <==> ContainsAny(s, words)
    ensures n == |words| <==> forall i :: 0 <= i < |words| ==> Contains(s, words[i])
  {
    if words == [] then 0
    else
      var rest := CountContaining(s, words[1..]);
      assert (forall i :: 0 <= i < |words| ==> Contains(s, words[i]))
        <==> Contains(s, words[0]) && forall i :: 0 <= i < |words[1..]| ==> Contains(s, words[1..][i]) by {
        forall i | 1 <= i < |words| ensures words[1..][i - 1] == words[i] { }
      }
      (if Contains(s, words[0]) then 1 else 0) + rest
  }

  /** The count over a concatenated list is the sum of the counts, and a
      one-word list counts 1 or 0: together these fix the count's value. */
  lemma {:induction false} CountContainingAppend(s: string, a: seq<string>, b: seq<string>)
    ensures CountContaining(s, a + b) == CountContaining(s, a) + CountContaining(s, b)
    ensures |a| == 1 ==> CountContaining(s, a) == if Contains(s, a[0]) then 1 else 0
    decreases |a|
  {
    if a != [] {
      assert (a + b)[0] == a[0];
      assert (a + b)[1..] == a[1..] + b;
      CountContainingAppend(s, a[1..], b);
      if |a| == 1 {
        assert a[1..] == [];
      }
    } else {
      assert a + b == b;
    }
  }

  /** Number of occurrences of the character `c`. */
  function CountChar(s: string, c: char): (n: nat)
    ensures n <= |s|
    ensures n == 0 <==> forall i :: 0 <= i < |s| ==> s[i] != c
    ensures n == multiset(s)[c]
  {
    if s == [] then 0
    else
      var rest := CountChar(s[1..], c);
      assert s == [s[0]] + s[1..];
      assert multiset(s) == multiset([s[0]]) + multiset(s[1..]);
      assert (forall i :: 0 <= i < |s| ==> s[i] != c)
        <==> s[0] != c && forall i :: 0 <= i < |s[1..]| ==> s[1..][i] != c by {
        forall i | 1 <= i < |s| ensures s[1..][i - 1] == s[i] { }
      }
      (if s[0] == c then 1 else 0) + rest
  }

  /** `s.split(' ').length`: one more than the number of spaces. */
  function SpaceSplitCount(s: string): (n: nat)
    ensures n >= 1
    ensures n == 1 <==> forall i :: 0 <= i < |s| ==> s[i] != ' '
    ensures n == 1 + multiset(s)[' ']
  {
    1 + CountChar(s, ' ')
  }

  /** Number of maximal runs of characters of one class (whitespace when
      `white`, non-whitespace otherwise), counted at the end of each run. */
  function RunCount(s: string, white: bool): nat
  {
    if s == [] then 0
    else
      var ends := IsWhitespace(s[0]) == white && (|s| == 1 || IsWhitespace(s[1]) != white);
      (if ends then 1 else 0) + RunCount(s[1..], white)
  }

  /** `s.split(/\s+/).length`: every maximal run of whitespace separates two pieces. */
  function WordCount(s: string): (n: nat)
    ensures n >= 1
    ensures s == [] ==> n == 1
  {
    1 + RunCount(s, true)
  }

  /** The whitespace-delimited tokens of `s` (its maximal non-whitespace runs). */
  function TokenCount(s: string): nat
  {
    RunCount(s, false)
  }

  /** Runs of the two classes alternate, so their numbers differ by what the
      first and last characters are. */
  lemma {:induction false} RunsAlternate(s: string)
    requires s != []
    ensures RunCount(s, false) ==
            RunCount(s, true) + (if IsWhitespace(s[0]) then 0 else 1)
            + (if IsWhitespace(s[|s| - 1]) then 0 else 1) - 1
    decreases |s|
  {
    if |s| > 1 {
      RunsAlternate(s[1..]);
      assert s[1..][0] == s[1];
      assert s[1..][|s[1..]| - 1] == s[|s| - 1];
    }
  }

  /** For a trimmed, non-empty string, `split(/\s+/).length` counts exactly its
      whitespace-delimited tokens. */
  lemma WordCountIsTokenCount(s: string)
    requires s != [] && !IsWhitespace(s[0]) && !IsWhitespace(s[|s| - 1])
    ensures WordCount(s) == TokenCount(s)
  {
    RunsAlternate(s);
  }
}
