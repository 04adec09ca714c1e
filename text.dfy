/**
 * Character classes and string helpers shared by the model.
 *
 * Python's `str.lower()` and the regular-expression classes `\w`, `\s` and `\b`
 * are Unicode-aware; here they are restricted to ASCII, which is what every
 * pattern and keyword of the modelled code is written in.
 */
module Text {

  predicate IsUpper(c: char) { 'A' <= c <= 'Z' }

  predicate IsDigit(c: char) { '0' <= c <= '9' }

  predicate IsAsciiLetter(c: char) { 'a' <= c <= 'z' || 'A' <= c <= 'Z' }

  /** `[a-zA-Z0-9]` */
  predicate IsAlnum(c: char) { IsAsciiLetter(c) || IsDigit(c) }

  /** `\w`, restricted to ASCII: letters, digits and underscore. */
  predicate IsWordChar(c: char) { IsAlnum(c) || c == '_' }

  /** `[a-f0-9]` compiled with `re.I`. */
  predicate IsHexDigit(c: char) { IsDigit(c) || 'a' <= c <= 'f' || 'A' <= c <= 'F' }

  /** `\s` on ASCII: space, tab, line feed, carriage return, vertical tab, form feed, and
   *  the four separators 0x1C-0x1F, which Python's `str.isspace` also counts. */
  predicate IsSpace(c: char)
  {
    c == ' ' || c == '\t' || c == '\n' || c == '\r' || c == '\U{000B}' || c == '\U{000C}'
    || '\U{001C}' <= c <= '\U{001F}'
  }

  predicate IsQuote(c: char) { c == '"' || c == '\'' }

  function LowerChar(c: char): (r: char)
    ensures !IsUpper(r)
    ensures IsUpper(c) || r == c
  {
    if IsUpper(c) then (c as int + 32) as char else c
  }

  /** Python's `str.lower()` on ASCII letters; every other character is kept. */
  function Lower(s: string): (r: string)
    ensures |r| == |s|
    ensures forall i :: 0 <= i < |s| ==> r[i] == LowerChar(s[i])
  {
    seq(|s|, i requires 0 <= i < |s| => LowerChar(s[i]))
  }

  /** No ASCII upper-case letter occurs in `s`. */
  predicate IsLower(s: string)
  {
    forall i :: 0 <= i < |s| ==> !IsUpper(s[i])
  }

  /** `p` occurs in `s` starting at index `i`. */
  predicate OccursAt(s: string, i: nat, p: string)
  {
    i + |p| <= |s| && s[i..i + |p|] == p
  }

  /** Python's `p in s` for strings. */
  predicate Contains(s: string, p: string)
  {
    exists i | 0 <= i <= |s| :: OccursAt(s, i, p)
  }

  predicate StartsWith(s: string, p: string) { OccursAt(s, 0, p) }

  predicate EndsWith(s: string, p: string)
  {
    |p| <= |s| && s[|s| - |p|..] == p
  }

  /** Lower-casing commutes with slicing. */
  lemma LowerSlice(s: string, a: nat, b: nat)
    requires a <= b <= |s|
    ensures Lower(s[a..b]) == Lower(s)[a..b]
  {
  }

  /** A string already in lower case is left unchanged by `Lower`. */
  lemma LowerOfLower(s: string)
    requires IsLower(s)
    ensures Lower(s) == s
  {
  }

  lemma LowerConcat(s: string, t: string)
    ensures Lower(s + t) == Lower(s) + Lower(t)
  {
  }

  /** Lower-casing keeps every occurrence of a lower-case pattern. */
  lemma LowerKeepsLowerOccurrence(s: string, p: string)
    requires IsLower(p) && Contains(s, p)
    ensures Contains(Lower(s), p)
  {
    var i :| 0 <= i <= |s| && OccursAt(s, i, p);
    LowerSlice(s, i, i + |p|);
    LowerOfLower(p);
    assert OccursAt(Lower(s), i, p);
  }

  /** An occurrence of `p` in a prefix is an occurrence in the whole string. */
  lemma ContainsInSuffix(s: string, t: string, p: string)
    requires EndsWith(s + t, p) || Contains(t, p)
    ensures Contains(s + t, p)
  {
    if Contains(t, p) {
      var i :| 0 <= i <= |t| && OccursAt(t, i, p);
      assert (s + t)[|s| + i..|s| + i + |p|] == t[i..i + |p|];
      assert OccursAt(s + t, |s| + i, p);
    } else {
      assert OccursAt(s + t, |s + t| - |p|, p);
    }
  }
}
