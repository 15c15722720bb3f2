/**
 * String helpers the source takes from Foundation: trimming with the
 * `whitespacesAndNewlines` character set, and lower-casing of file
 * extensions.
 */
module Text {

  /**
   * Foundation's `CharacterSet.whitespacesAndNewlines`: the separators of
   * Unicode general category Z (space, line and paragraph separators), the
   * tab, U+000A to U+000D and NEXT LINE (U+0085).
   */
  predicate IsWhitespaceOrNewline(c: char) {
    || ('\U{0009}' <= c <= '\U{000D}')
    || c == ' '
    || c == '\U{0085}'
    || c == '\U{00A0}'
    || c == '\U{1680}'
    || ('\U{2000}' <= c <= '\U{200A}')
    || c == '\U{2028}'
    || c == '\U{2029}'
    || c == '\U{202F}'
    || c == '\U{205F}'
    || c == '\U{3000}'
  }

  /** Every character of `s` is whitespace or a newline (true of ""). */
  predicate IsBlank(s: string) {
    forall i :: 0 <= i < |s| ==> IsWhitespaceOrNewline(s[i])
  }

  /** The number of whitespace characters `s` starts with. */
  function LeadingCount(s: string): (n: nat)
    ensures n <= |s|
    ensures IsBlank(s[..n])
    ensures n < |s| ==> !IsWhitespaceOrNewline(s[n])
  {
    if s == [] || !IsWhitespaceOrNewline(s[0]) then 0
    else
      var m := LeadingCount(s[1..]);
      assert s[1..][..m] == s[1..m + 1];
      1 + m
  }

  /** The number of whitespace characters `s` ends with. */
  function TrailingCount(s: string): (n: nat)
    ensures n <= |s|
    ensures IsBlank(s[|s| - n..])
    ensures n < |s| ==> !IsWhitespaceOrNewline(s[|s| - n - 1])
  {
    if s == [] || !IsWhitespaceOrNewline(s[|s| - 1]) then 0
    else
      var m := TrailingCount(s[..|s| - 1]);
      assert s[..|s| - 1][|s| - 1 - m..] == s[|s| - 1 - m..|s| - 1];
      1 + m
  }

  /**
   * `s.trimmingCharacters(in: .whitespacesAndNewlines)`: the infix of `s`
   * left after removing whitespace from both ends.
   */
  function Trim(s: string): (r: string)
    ensures LeadingCount(s) + |r| <= |s|
    ensures r == s[LeadingCount(s)..LeadingCount(s) + |r|]
  {
    var n := LeadingCount(s);
    s[n..|s| - TrailingCount(s[n..])]
  }

  /** Trimming removes only whitespace: what precedes and what follows the result is blank. */
  lemma TrimRemovesBlank(s: string)
    ensures IsBlank(s[..LeadingCount(s)]) && IsBlank(s[LeadingCount(s) + |Trim(s)|..])
  {
    var n := LeadingCount(s);
    var rest := s[n..];
    assert rest[|rest| - TrailingCount(rest)..] == s[n + |Trim(s)|..];
  }

  /** What trimming leaves starts and ends with a character it would have removed. */
  lemma TrimEnds(s: string)
    ensures var r := Trim(s);
      r != [] ==> !IsWhitespaceOrNewline(r[0]) && !IsWhitespaceOrNewline(r[|r| - 1])
  {
    var n := LeadingCount(s);
    var rest := s[n..];
    var t := TrailingCount(rest);
    var r := Trim(s);
    assert r == rest[..|rest| - t];
    if r != [] {
      assert r[0] == s[n];
      assert r[|r| - 1] == rest[|rest| - t - 1];
    }
  }

  /** A trimmed string is empty exactly when the input was all whitespace. */
  lemma TrimEmptyIffBlank(s: string)
    ensures Trim(s) == [] <==> IsBlank(s)
  {
    var n := LeadingCount(s);
    if Trim(s) == [] {
      // the first non-whitespace character, if any, would survive the trim
      assert n == |s|;
      assert s[..n] == s;
    } else {
      assert Trim(s)[0] == s[n];
    }
  }

  /** A string with no whitespace at either end is its own trim. */
  lemma TrimOfTrimmed(s: string)
    requires s != [] ==> !IsWhitespaceOrNewline(s[0]) && !IsWhitespaceOrNewline(s[|s| - 1])
    ensures Trim(s) == s
  {
    if s != [] {
      assert LeadingCount(s) == 0;
      assert TrailingCount(s) == 0;
    }
  }

  /** Trimming twice is trimming once. */
  lemma TrimIdempotent(s: string)
    ensures Trim(Trim(s)) == Trim(s)
  {
    TrimEnds(s);
    TrimOfTrimmed(Trim(s));
  }

  /** ASCII lower-casing of one character. */
  function LowerChar(c: char): (d: char)
    ensures 'A' <= c <= 'Z' ==> d as int == c as int + 32
    ensures !('A' <= c <= 'Z') ==> d == c
    ensures !('A' <= d <= 'Z')
  {
    if 'A' <= c <= 'Z' then (c as int + 32) as char else c
  }

  /**
   * `String.lowercased()` restricted to what the extension tables can see:
   * ASCII letters are folded, every other character is kept.
   */
  function Lower(s: string): (r: string)
    ensures |r| == |s|
    ensures forall i :: 0 <= i < |s| ==> r[i] == LowerChar(s[i])
  {
    seq(|s|, i requires 0 <= i < |s| => LowerChar(s[i]))
  }

  /** Lower-casing is idempotent, so the tables below are case-insensitive. */
  lemma LowerIdempotent(s: string)
    ensures Lower(Lower(s)) == Lower(s)
  {
  }
}
