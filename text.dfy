/**
 * The handful of JavaScript string operations the app relies on:
 * `String.prototype.trim`, `split` on one character, `Array.prototype.join`,
 * `startsWith` and `includes`. Strings are sequences of Unicode scalar values.
 */
module Text {

  /** ECMAScript WhiteSpace and LineTerminator code points, the set `trim` strips. */
  predicate IsWhitespace(c: char) {
    || c == '\t' || c == '\n' || c == '\U{B}' || c == '\U{C}' || c == '\r' || c == ' '
    || c == '\U{A0}' || c == '\U{1680}' || ('\U{2000}' <= c <= '\U{200A}')
    || c == '\U{2028}' || c == '\U{2029}' || c == '\U{202F}' || c == '\U{205F}'
    || c == '\U{3000}' || c == '\U{FEFF}'
  }

  /** Neither end of `s` is whitespace. */
  predicate IsTrimmed(s: string) {
    s == [] || (!IsWhitespace(s[0]) && !IsWhitespace(s[|s| - 1]))
  }

  predicate AllWhitespace(s: string) {
    forall i :: 0 <= i < |s| ==> IsWhitespace(s[i])
  }

  /** The first index at or after `i` that holds a non-blank, or `|s|` when there is none. */
  function SkipBlanks(s: string, i: nat): (k: nat)
    requires i <= |s|
    ensures i <= k <= |s|
    ensures forall m :: i <= m < k ==> IsWhitespace(s[m])
    ensures k == |s| || !IsWhitespace(s[k])
    decreases |s| - i
  {
    if i < |s| && IsWhitespace(s[i]) then SkipBlanks(s, i + 1) else i
  }

  /** The least index `k <= j` such that `s[k..j]` is all blank: one past the last non-blank before `j`. */
  function SkipBlanksBack(s: string, j: nat): (k: nat)
    requires j <= |s|
    ensures k <= j
    ensures forall m :: k <= m < j ==> IsWhitespace(s[m])
    ensures k == 0 || !IsWhitespace(s[k - 1])
    decreases j
  {
    if j > 0 && IsWhitespace(s[j - 1]) then SkipBlanksBack(s, j - 1) else j
  }

  /** Every character of a slice occurs in the whole. */
  lemma SliceChars(s: string, i: nat, j: nat)
    requires i <= j <= |s|
    ensures forall c :: c in s[i..j] ==> c in s
  {
    forall c | c in s[i..j] ensures c in s {
      var m :| 0 <= m < j - i && s[i..j][m] == c;
      assert s[i + m] == c;
    }
  }

  /** `s.trim()`: what lies between the first and the last non-blank, or nothing when there is none. */
  function Trim(s: string): (r: string)
    ensures IsTrimmed(r)
    ensures r == [] <==> AllWhitespace(s)
    ensures forall c :: c in r ==> c in s
  {
    var i := SkipBlanks(s, 0);
    if i == |s| then []
    else
      var j := SkipBlanksBack(s, |s|);
      assert i < j;
      SliceChars(s, i, j);
      s[i..j]
  }

  /** Trimming keeps exactly the stretch from the first to the last non-blank: any such stretch is the result. */
  lemma TrimUnique(s: string, i: nat, j: nat)
    requires i < j <= |s| && !IsWhitespace(s[i]) && !IsWhitespace(s[j - 1])
    requires forall m :: 0 <= m < i ==> IsWhitespace(s[m])
    requires forall m :: j <= m < |s| ==> IsWhitespace(s[m])
    ensures Trim(s) == s[i..j]
  {
    var k := SkipBlanks(s, 0);
    var l := SkipBlanksBack(s, |s|);
    assert k == i;
    assert l == j;
  }

  /** A character that is not blank survives trimming. */
  lemma TrimKeepsNonBlank(s: string, i: nat)
    requires i < |s| && !IsWhitespace(s[i])
    ensures s[i] in Trim(s)
  {
    var k := SkipBlanks(s, 0);
    var l := SkipBlanksBack(s, |s|);
    assert k <= i < l;
    assert Trim(s)[i - k] == s[i];
  }

  /** Trimming a string that is already trimmed changes nothing. */
  lemma TrimOfTrimmed(s: string)
    requires IsTrimmed(s)
    ensures Trim(s) == s
  {
    if s != [] {
      TrimUnique(s, 0, |s|);
      assert s[0..|s|] == s;
    }
  }

  /** A leading blank makes no difference to `trim`. */
  lemma TrimLeadingBlank(c: char, s: string)
    requires IsWhitespace(c)
    ensures Trim([c] + s) == Trim(s)
  {
    var t := [c] + s;
    if !AllWhitespace(s) {
      var i := SkipBlanks(s, 0);
      var j := SkipBlanksBack(s, |s|);
      assert t[i + 1] == s[i] && t[j] == s[j - 1];
      forall m | 0 <= m < i + 1 ensures IsWhitespace(t[m]) {
        if m > 0 { assert t[m] == s[m - 1]; }
      }
      forall m | j + 1 <= m < |t| ensures IsWhitespace(t[m]) {
        assert t[m] == s[m - 1];
      }
      TrimUnique(t, i + 1, j + 1);
      assert t[i + 1..j + 1] == s[i..j];
    } else {
      assert forall m :: 0 < m < |t| ==> t[m] == s[m - 1];
    }
  }

  /** Number of occurrences of `c` in `s`. */
  function Count(s: string, c: char): (n: nat)
    ensures n <= |s|
    ensures n == 0 <==> c !in s
  {
    if s == [] then 0 else (if s[0] == c then 1 else 0) + Count(s[1..], c)
  }

  /** `s.split(sep)` for a one-character separator: the pieces between separators, never an empty list. */
  function Split(s: string, sep: char): (r: seq<string>)
    ensures |r| == Count(s, sep) + 1
    ensures forall i :: 0 <= i < |r| ==> sep !in r[i]
  {
    if s == [] then [[]]
    else
      var rest := Split(s[1..], sep);
      if s[0] == sep then [[]] + rest else [[s[0]] + rest[0]] + rest[1..]
  }

  /** `xs.join(sep)`. */
  function Join(xs: seq<string>, sep: string): string
  {
    if |xs| == 0 then [] else if |xs| == 1 then xs[0] else xs[0] + sep + Join(xs[1..], sep)
  }

  /** `s.split(sep)` cut at the first separator: the head piece, then the split of the rest. */
  lemma {:induction false} SplitAfterPiece(a: string, sep: char, b: string)
    requires sep !in a
    ensures Split(a + [sep] + b, sep) == [a] + Split(b, sep)
  {
    if a == [] {
      assert a + [sep] + b == [sep] + b;
      assert ([sep] + b)[1..] == b;
    } else {
      assert (a + [sep] + b)[1..] == a[1..] + [sep] + b;
      SplitAfterPiece(a[1..], sep, b);
      assert [a[0]] + a[1..] == a;
    }
  }

  /** A string without the separator splits into itself. */
  lemma {:induction false} SplitWithoutSeparator(a: string, sep: char)
    requires sep !in a
    ensures Split(a, sep) == [a]
  {
    if a != [] {
      SplitWithoutSeparator(a[1..], sep);
      assert [a[0]] + a[1..] == a;
    }
  }

  /** A leading character other than the separator lands in the first piece. */
  lemma SplitConsOther(c: char, s: string, sep: char)
    requires c != sep
    ensures var r := Split(s, sep);
            Split([c] + s, sep) == [[c] + r[0]] + r[1..]
  {
    assert ([c] + s)[1..] == s;
  }

  /** `s.startsWith(p)`. */
  predicate StartsWith(s: string, p: string) {
    |p| <= |s| && s[..|p|] == p
  }

  /** `s.includes(sub)`: `sub` occurs in `s` at some position. */
  predicate Contains(s: string, sub: string)
    decreases |s|
  {
    StartsWith(s, sub) || (s != [] && Contains(s[1..], sub))
  }

  /** `Contains` holds as soon as `sub` occurs at some offset of `s`. */
  lemma {:induction false} ContainsAt(s: string, sub: string, k: nat)
    requires k + |sub| <= |s| && s[k..k + |sub|] == sub
    ensures Contains(s, sub)
    decreases k
  {
    if k > 0 {
      assert s[1..][k - 1..k - 1 + |sub|] == s[k..k + |sub|];
      ContainsAt(s[1..], sub, k - 1);
    }
  }

  /** A string shorter than `sub` cannot contain it. */
  lemma {:induction false} ContainsNeedsRoom(s: string, sub: string)
    requires Contains(s, sub)
    ensures |sub| <= |s|
    decreases |s|
  {
    if !StartsWith(s, sub) {
      ContainsNeedsRoom(s[1..], sub);
    }
  }
}
