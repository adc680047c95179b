/**
 * The few operations of Rust's `str` that the gateway relies on:
 * `trim`, `starts_with` and `contains`, over strings seen as sequences of
 * Unicode scalar values.
 */
module RustStr {

  /**
   * Rust's `char::is_whitespace`: the characters with the Unicode
   * White_Space property.
   */
  predicate IsWhitespace(c: char)
  {
    var n := c as int;
    (0x09 <= n <= 0x0D) || n == 0x20 || n == 0x85 || n == 0xA0 || n == 0x1680
    || (0x2000 <= n <= 0x200A) || n == 0x2028 || n == 0x2029 || n == 0x202F
    || n == 0x205F || n == 0x3000
  }

  predicate AllWhitespace(s: string)
  {
    forall i :: 0 <= i < |s| ==> IsWhitespace(s[i])
  }

  /** `starts_with`: `p` is a prefix of `s`. */
  predicate StartsWith(s: string, p: string)
  {
    |p| <= |s| && s[..|p|] == p
  }

  /** `sub` occurs in `s` starting at index `i`. */
  predicate OccursAt(s: string, sub: string, i: int)
  {
    0 <= i <= |s| - |sub| && s[i..i + |sub|] == sub
  }

  /** `contains`: `sub` occurs somewhere in `s`. */
  predicate Contains(s: string, sub: string)
  {
    exists i :: 0 <= i <= |s| - |sub| && OccursAt(s, sub, i)
  }

  /** The length of the longest all-whitespace prefix of `s`. */
  function LeadingWhitespace(s: string): (n: nat)
    ensures n <= |s|
    ensures forall i :: 0 <= i < n ==> IsWhitespace(s[i])
    ensures n < |s| ==> !IsWhitespace(s[n])
  {
    if |s| > 0 && IsWhitespace(s[0]) then
      var m := LeadingWhitespace(s[1..]);
      assert forall i :: 1 <= i < 1 + m ==> s[i] == s[1..][i - 1];
      1 + m
    else 0
  }

  /** Where the longest all-whitespace suffix of `s` begins. */
  function TrailingWhitespaceStart(s: string): (n: nat)
    ensures n <= |s|
    ensures forall i :: n <= i < |s| ==> IsWhitespace(s[i])
    ensures n > 0 ==> !IsWhitespace(s[n - 1])
  {
    if |s| > 0 && IsWhitespace(s[|s| - 1]) then TrailingWhitespaceStart(s[..|s| - 1]) else |s|
  }

  /** `trim_start`: `s` without its whitespace prefix. */
  function TrimStart(s: string): string
  {
    s[LeadingWhitespace(s)..]
  }

  /** `trim_end`: `s` without its whitespace suffix. */
  function TrimEnd(s: string): string
  {
    s[..TrailingWhitespaceStart(s)]
  }

  /** `trim`: whitespace removed at both ends. */
  function Trim(s: string): (r: string)
    ensures r == [] || (!IsWhitespace(r[0]) && !IsWhitespace(r[|r| - 1]))
    ensures r == [] <==> AllWhitespace(s)
  {
    var t := TrimStart(s);
    assert forall i :: 0 <= i < |t| ==> t[i] == s[LeadingWhitespace(s) + i];
    TrimEnd(t)
  }

  /** The whitespace prefix is the one ending at the first non-white character. */
  lemma LeadingWhitespaceUnique(s: string, n: nat)
    requires n <= |s|
    requires forall i :: 0 <= i < n ==> IsWhitespace(s[i])
    requires n < |s| ==> !IsWhitespace(s[n])
    ensures LeadingWhitespace(s) == n
  {
  }

  /** The whitespace suffix is the one starting after the last non-white character. */
  lemma TrailingWhitespaceStartUnique(s: string, n: nat)
    requires n <= |s|
    requires forall i :: n <= i < |s| ==> IsWhitespace(s[i])
    requires n > 0 ==> !IsWhitespace(s[n - 1])
    ensures TrailingWhitespaceStart(s) == n
  {
  }

  /** A whitespace prefix is invisible to `trim_start`. */
  lemma TrimStartSkipsPrefix(w: string, s: string)
    requires AllWhitespace(w)
    ensures TrimStart(w + s) == TrimStart(s)
  {
    var n := LeadingWhitespace(s);
    assert forall i :: 0 <= i < |s| ==> (w + s)[|w| + i] == s[i];
    LeadingWhitespaceUnique(w + s, |w| + n);
    assert (w + s)[|w| + n..] == s[n..];
  }

  /** A whitespace suffix is invisible to `trim_end`. */
  lemma TrimEndSkipsSuffix(s: string, w: string)
    requires AllWhitespace(w)
    ensures TrimEnd(s + w) == TrimEnd(s)
  {
    var n := TrailingWhitespaceStart(s);
    assert forall i :: 0 <= i < |w| ==> (s + w)[|s| + i] == w[i];
    TrailingWhitespaceStartUnique(s + w, n);
    assert (s + w)[..n] == s[..n];
  }

  /**
   * Trailing characters pass through `trim_start` untouched as long as
   * something non-white precedes them.
   */
  lemma TrimStartKeepsTail(s: string, w: string)
    requires !AllWhitespace(s)
    ensures TrimStart(s + w) == TrimStart(s) + w
  {
    var n := LeadingWhitespace(s);
    LeadingWhitespaceUnique(s + w, n);
    assert (s + w)[n..] == s[n..] + w;
  }

  /** Surrounding a string with whitespace does not change its trimmed form. */
  lemma TrimIgnoresPadding(w1: string, s: string, w2: string)
    requires AllWhitespace(w1) && AllWhitespace(w2)
    ensures Trim(w1 + s + w2) == Trim(s)
  {
    assert w1 + s + w2 == w1 + (s + w2);
    TrimStartSkipsPrefix(w1, s + w2);
    if AllWhitespace(s) {
      assert AllWhitespace(s + w2);
      LeadingWhitespaceUnique(s + w2, |s + w2|);
      LeadingWhitespaceUnique(s, |s|);
    } else {
      TrimStartKeepsTail(s, w2);
      TrimEndSkipsSuffix(TrimStart(s), w2);
    }
  }

  /** A string that neither begins nor ends with whitespace is its own trimmed form. */
  lemma TrimOfUnpadded(s: string)
    requires s != [] && !IsWhitespace(s[0]) && !IsWhitespace(s[|s| - 1])
    ensures Trim(s) == s
  {
    LeadingWhitespaceUnique(s, 0);
    TrailingWhitespaceStartUnique(s, |s|);
  }

  /** A string without a given character contains no substring that has it. */
  lemma NotContainsWithout(s: string, sub: string, k: nat)
    requires k < |sub| && sub[k] !in s
    ensures !Contains(s, sub)
  {
  }

  /** Trimming twice is the same as trimming once. */
  lemma TrimIdempotent(s: string)
    ensures Trim(Trim(s)) == Trim(s)
  {
    var r := Trim(s);
    if r != [] {
      TrimOfUnpadded(r);
    }
  }

  /**
   * Dropping trailing characters cannot make a string start with a prefix
   * it did not already start with, and keeps every prefix whose last
   * character is not whitespace.
   */
  lemma TrimEndKeepsPrefix(s: string, p: string)
    requires p != [] && !IsWhitespace(p[|p| - 1])
    ensures StartsWith(TrimEnd(s), p) <==> StartsWith(s, p)
  {
    if StartsWith(s, p) {
      assert s[|p| - 1] == p[|p| - 1];
      assert TrailingWhitespaceStart(s) >= |p|;
      assert TrimEnd(s)[..|p|] == s[..|p|];
    }
  }
}
