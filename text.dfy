/** Character and substring primitives used by the transaction classifier:
    ASCII lower-casing, the JavaScript `\s` class, literal substring search and
    the search for `left\s?right` (two words with at most one whitespace between). */
module Text {

  /** An ASCII capital letter, the only characters the model lower-cases. */
  predicate IsUpper(c: char) {
    'A' <= c <= 'Z'
  }

  /** String.prototype.toLowerCase restricted to ASCII letters. */
  function LowerChar(c: char): (d: char)
    ensures !IsUpper(d)
    ensures IsUpper(c) ==> d as int - c as int == 'a' as int - 'A' as int
    ensures !IsUpper(c) ==> d == c
  {
    if IsUpper(c) then (c as int - 'A' as int + 'a' as int) as char else c
  }

  /** Lower-cases a whole string, character by character: the result has the
      same length, each character is the lower-cased character at the same
      position, and no ASCII capital is left. */
  function Lower(s: string): (r: string)
    ensures |r| == |s|
    ensures forall i :: 0 <= i < |s| ==> r[i] == LowerChar(s[i])
    ensures forall i :: 0 <= i < |r| ==> !IsUpper(r[i])
  {
    seq(|s|, i requires 0 <= i < |s| => LowerChar(s[i]))
  }

  /** Lower-casing twice is lower-casing once. */
  lemma LowerIdempotent(s: string)
    ensures Lower(Lower(s)) == Lower(s)
  {
  }

  /** The characters JavaScript's `\s` matches: the ECMAScript WhiteSpace and
      LineTerminator code points (section 22.2.2.9 of ECMA-262). */
  predicate IsSpace(c: char) {
    c == '\t' || c == '\n' || c == '\U{000B}' || c == '\U{000C}' || c == '\r' || c == ' '
    || c == '\U{00A0}' || c == '\U{1680}' || '\U{2000}' <= c <= '\U{200A}'
    || c == '\U{2028}' || c == '\U{2029}' || c == '\U{202F}' || c == '\U{205F}'
    || c == '\U{3000}' || c == '\U{FEFF}'
  }

  /** `w` occurs in `s` starting at index `i`. */
  predicate OccursAt(s: string, w: string, i: int) {
    0 <= i && i + |w| <= |s| && s[i..i + |w|] == w
  }

  /** The regular expression `left\s?right` matches `s` at index `i`: the two
      words either touch, or exactly one whitespace character separates them. */
  predicate GapAt(s: string, left: string, right: string, i: int) {
    OccursAt(s, left + right, i)
    || (OccursAt(s, left, i) && i + |left| < |s| && IsSpace(s[i + |left|])
        && OccursAt(s, right, i + |left| + 1))
  }

  /** `w` is a substring of `s`: what a regular expression made of the
      literal `w` finds when its `test` tries every start position. */
  predicate Contains(s: string, w: string) {
    exists i :: 0 <= i <= |s| && OccursAt(s, w, i)
  }

  /** The regular expression `left\s?right` matches somewhere in `s`. */
  predicate ContainsGap(s: string, left: string, right: string) {
    exists i :: 0 <= i <= |s| && GapAt(s, left, right, i)
  }

  /** A word holding a character that `s` lacks is not a substring of `s`. */
  lemma AbsentChar(s: string, w: string, c: char)
    requires c in w && c !in s
    ensures !Contains(s, w)
  {
  }

  /** When the first letter of `w` does not occur in `prefix`, every
      occurrence of `w` in `prefix + rest` lies inside `rest`. */
  lemma SkipPrefix(prefix: string, rest: string, w: string)
    requires |w| > 0 && w[0] !in prefix
    ensures Contains(prefix + rest, w) ==> Contains(rest, w)
  {
    var s := prefix + rest;
    if i :| OccursAt(s, w, i) {
      assert s[i] == w[0];
      assert rest[i - |prefix|..i - |prefix| + |w|] == s[i..i + |w|];
      assert OccursAt(rest, w, i - |prefix|);
    }
  }

  /** A match of `left\s?right` contains a match of each word. */
  lemma GapHasWords(s: string, left: string, right: string)
    ensures ContainsGap(s, left, right) ==> Contains(s, left) && Contains(s, right)
  {
    if i :| GapAt(s, left, right, i) {
      if OccursAt(s, left + right, i) {
        assert s[i..i + |left|] == (left + right)[..|left|] == left;
        assert s[i + |left|..i + |left| + |right|] == (left + right)[|left|..] == right;
        assert OccursAt(s, right, i + |left|);
      }
      assert OccursAt(s, left, i);
    }
  }

  /** `left\s?right` matches wherever the two words touch. */
  lemma GapMatchesJoined(x: string, left: string, right: string, y: string)
    ensures ContainsGap(x + left + right + y, left, right)
  {
    var s := x + left + right + y;
    assert s[|x|..|x| + |left + right|] == left + right;
    assert GapAt(s, left, right, |x|);
  }

  /** `left\s?right` matches wherever exactly one whitespace character
      separates the two words. */
  lemma GapMatchesSpaced(x: string, left: string, c: char, right: string, y: string)
    requires IsSpace(c)
    ensures ContainsGap(x + left + [c] + right + y, left, right)
  {
    var s := x + left + [c] + right + y;
    var i := |x|;
    assert s[i..i + |left|] == left;
    assert s[i + |left|] == c;
    assert s[i + |left| + 1..i + |left| + 1 + |right|] == right;
    assert GapAt(s, left, right, i);
  }
}
