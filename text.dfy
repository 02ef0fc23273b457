/** String helpers with the meaning JavaScript gives them: `String.prototype.trim`
    (only its emptiness is ever tested) and `email.split('@')[0]`. */
module Text {

  /** ECMAScript WhiteSpace and LineTerminator code points, the characters
      `trim` removes: TAB, LF, VT, FF, CR, SPACE, NBSP, the other Unicode
      space separators (U+1680, U+2000..U+200A, U+202F, U+205F, U+3000),
      LINE SEPARATOR, PARAGRAPH SEPARATOR and the byte-order mark. */
  predicate IsWhitespace(c: char)
  {
    var n := c as int;
    (9 <= n <= 13) || n == 0x20 || n == 0xA0 || n == 0x1680 ||
    (0x2000 <= n <= 0x200A) || n == 0x2028 || n == 0x2029 || n == 0x202F ||
    n == 0x205F || n == 0x3000 || n == 0xFEFF
  }

  /** A string is blank when `s.trim()` is falsy: it holds nothing but white space. */
  predicate IsBlank(s: string)
  {
    forall i :: 0 <= i < |s| ==> IsWhitespace(s[i])
  }

  /** Leading white space removed: the longest suffix that starts with a
      non-white-space character (or is empty). */
  function TrimStart(s: string): (r: string)
    ensures |r| <= |s| && r == s[|s| - |r|..]
    ensures forall i :: 0 <= i < |s| - |r| ==> IsWhitespace(s[i])
    ensures r != [] ==> !IsWhitespace(r[0])
  {
    if s != [] && IsWhitespace(s[0]) then TrimStart(s[1..]) else s
  }

  /** Trailing white space removed: the longest prefix that ends with a
      non-white-space character (or is empty). */
  function TrimEnd(s: string): (r: string)
    ensures |r| <= |s| && r == s[..|r|]
    ensures forall i :: |r| <= i < |s| ==> IsWhitespace(s[i])
    ensures r != [] ==> !IsWhitespace(r[|r| - 1])
  {
    if s != [] && IsWhitespace(s[|s| - 1]) then TrimEnd(s[..|s| - 1]) else s
  }

  /** `s.trim()`. */
  function Trim(s: string): string
  {
    TrimEnd(TrimStart(s))
  }

  /** `!s.trim()` holds exactly for blank strings, in both directions. */
  lemma TrimEmptyIffBlank(s: string)
    ensures Trim(s) == "" <==> IsBlank(s)
  {
    var t := TrimStart(s);
    if Trim(s) == "" {
      // every character of `t` is trailing white space, so `t` is empty
      assert t == [];
    } else {
      assert Trim(s)[0] == t[0];
      assert t[0] == s[|s| - |t|];
    }
  }

  /** `email.split('@')[0]`: the text before the first '@', or the whole
      string when it holds none. */
  function LocalPart(email: string): (r: string)
    ensures '@' !in r
    ensures r <= email
    ensures |r| < |email| ==> email[|r|] == '@'
  {
    if email == [] || email[0] == '@' then [] else [email[0]] + LocalPart(email[1..])
  }

  /** The contract above pins `LocalPart` down: the prefix free of '@' that is
      either the whole string or followed by '@' is unique. */
  lemma {:induction false} LocalPartUnique(email: string, p: string)
    requires '@' !in p && p <= email
    requires |p| < |email| ==> email[|p|] == '@'
    ensures LocalPart(email) == p
  {
    if p != [] {
      assert p[0] == email[0];
      assert p[1..] <= email[1..];
      LocalPartUnique(email[1..], p[1..]);
      assert p == [p[0]] + p[1..];
    } else if email != [] {
      assert email[0] == '@';
    }
  }

}
