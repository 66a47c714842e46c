/**
 * The string predicates the repositories use to decide whether a search
 * condition is present: Spring's StringUtils.hasText, ObjectUtils.isEmpty on a
 * String, Java's String.contains, plus a character count used to reason about
 * query placeholders. A Java `String` that the
 * code tests for null is an Option<string>.
 */
module Text {
  import opened Wrappers

  /** java.lang.Character.isWhitespace on a UTF-16 unit: the Unicode space,
      line and paragraph separators except the three non-breaking spaces,
      and the controls TAB, LF, VT, FF, CR and FS, GS, RS, US. */
  predicate IsWhitespace(c: char)
  {
    || c == ' ' || c == '\t' || c == '\n' || c == '\U{000B}' || c == '\U{000C}' || c == '\r'
    || ('\U{001C}' <= c <= '\U{001F}')
    || c == '\U{1680}'
    || ('\U{2000}' <= c <= '\U{2006}') || ('\U{2008}' <= c <= '\U{200A}')
    || c == '\U{2028}' || c == '\U{2029}' || c == '\U{205F}' || c == '\U{3000}'
  }

  /** StringUtils.hasText: not null and at least one non-whitespace character. */
  predicate HasText(s: Option<string>)
  {
    s.Some? && exists i :: 0 <= i < |s.value| && !IsWhitespace(s.value[i])
  }

  /** ObjectUtils.isEmpty applied to a String: null or of length 0. */
  predicate IsEmpty(s: Option<string>)
  {
    s.None? || |s.value| == 0
  }

  /** A name with text is never empty, but a blank name is empty only when it
      has no characters at all: every non-empty all-whitespace name, such as
      "   ", is a filter for isEmpty and none for hasText. */
  lemma HasTextStricterThanNonEmpty(s: Option<string>)
    ensures HasText(s) ==> !IsEmpty(s)
    ensures s.Some? && |s.value| > 0 && (forall i :: 0 <= i < |s.value| ==> IsWhitespace(s.value[i]))
            ==> !HasText(s) && !IsEmpty(s)
  {
  }

  predicate OccursAt(s: string, sub: string, i: int)
  {
    0 <= i && i + |sub| <= |s| && s[i..i + |sub|] == sub
  }

  /** String.contains: `sub` occurs somewhere in `s` (the empty string occurs in every string). */
  predicate Contains(s: string, sub: string)
  {
    exists i :: 0 <= i <= |s| - |sub| && OccursAt(s, sub, i)
  }

  /** A string that lacks a character of `sub` cannot contain `sub`. */
  lemma NotContainsMissingChar(s: string, sub: string, c: char)
    requires c in sub && c !in s
    ensures !Contains(s, sub)
  {
  }

  /** `sub` occurs in any string that has it as an infix. */
  lemma ContainsInfix(before: string, sub: string, after: string)
    ensures Contains(before + sub + after, sub)
  {
    var s := before + sub + after;
    assert s[|before|..|before| + |sub|] == sub;
    assert OccursAt(s, sub, |before|);
  }

  /** Number of occurrences of character `c` in `s`. */
  function CountChar(s: string, c: char): (n: nat)
    ensures n <= |s|
    ensures n == 0 <==> c !in s
  {
    if s == [] then 0
    else (if s[0] == c then 1 else 0) + CountChar(s[1..], c)
  }

  lemma {:induction false} CountCharAppend(a: string, b: string, c: char)
    ensures CountChar(a + b, c) == CountChar(a, c) + CountChar(b, c)
  {
    if a == [] {
      assert a + b == b;
    } else {
      assert (a + b)[1..] == a[1..] + b;
      CountCharAppend(a[1..], b, c);
    }
  }

  /** A string with `c` once, between two stretches without it, counts one `c`. */
  lemma CountCharOnce(before: string, after: string, c: char)
    requires c !in before && c !in after
    ensures CountChar(before + [c] + after, c) == 1
  {
    CountCharAppend(before, [c], c);
    CountCharAppend(before + [c], after, c);
  }
}
