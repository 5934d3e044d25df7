/** The string primitives the chat code relies on: ECMAScript's
    `String.prototype.trim`, `toLowerCase` and `includes`. */
module Text {
  import opened Common

  /** ECMAScript WhiteSpace (TAB, VT, FF, SP, NBSP, ZWNBSP and the Unicode
      space separators) and LineTerminator (LF, CR, LS, PS) characters:
      the set `trim` strips. No visible ASCII character is among them. */
  predicate IsWhiteSpace(c: char): (w: bool)
    ensures w ==> !('!' <= c <= '~')
  {
    || c == '\t' || c == '\n' || c == '\U{000B}' || c == '\U{000C}' || c == '\r'
    || c == ' ' || c == '\U{00A0}' || c == '\U{1680}'
    || ('\U{2000}' <= c <= '\U{200A}')
    || c == '\U{2028}' || c == '\U{2029}' || c == '\U{202F}' || c == '\U{205F}'
    || c == '\U{3000}' || c == '\U{FEFF}'
  }

  predicate AllWhiteSpace(s: string) {
    forall k :: 0 <= k < |s| ==> IsWhiteSpace(s[k])
  }

  /** Neither the first nor the last character is white space. */
  predicate Unpadded(s: string) {
    s == [] || (!IsWhiteSpace(s[0]) && !IsWhiteSpace(s[|s| - 1]))
  }

  /** `r` sits at offset `i` of `s` with only white space around it. */
  predicate TrimmedAt(s: string, r: string, i: int) {
    && 0 <= i <= i + |r| <= |s|
    && s[i..i + |r|] == r
    && AllWhiteSpace(s[..i])
    && AllWhiteSpace(s[i + |r|..])
  }

  /** Length of the white-space run that starts `s`. */
  function LeadingWhiteSpace(s: string): (n: nat)
    ensures n <= |s|
    ensures AllWhiteSpace(s[..n])
    ensures n < |s| ==> !IsWhiteSpace(s[n])
  {
    if s == [] || !IsWhiteSpace(s[0]) then 0
    else
      var m := LeadingWhiteSpace(s[1..]);
      assert s[..1 + m] == [s[0]] + s[1..][..m];
      1 + m
  }

  /** Length of the white-space run that ends `s`. */
  function TrailingWhiteSpace(s: string): (n: nat)
    ensures n <= |s|
    ensures AllWhiteSpace(s[|s| - n..])
    ensures n < |s| ==> !IsWhiteSpace(s[|s| - 1 - n])
  {
    if s == [] || !IsWhiteSpace(s[|s| - 1]) then 0
    else
      var init := s[..|s| - 1];
      var m := TrailingWhiteSpace(init);
      assert s[|s| - (1 + m)..] == init[|init| - m..] + [s[|s| - 1]];
      1 + m
  }

  /** `s.trim()`: `s` without its leading and trailing white space. The
      result is a slice of `s` with only white space around it, and it
      neither starts nor ends with white space. */
  function Trim(s: string): (r: string)
    ensures |r| <= |s|
    ensures exists i :: TrimmedAt(s, r, i)
    ensures Unpadded(r)
  {
    var a := LeadingWhiteSpace(s);
    var rest := s[a..];
    var b := TrailingWhiteSpace(rest);
    var r := rest[..|rest| - b];
    assert TrimmedAt(s, r, a) by {
      assert s[a + |r|..] == rest[|rest| - b..];
    }
    assert r != [] ==> r[0] == s[a] && r[|r| - 1] == rest[|rest| - 1 - b];
    r
  }

  /** `!s.trim()`: the string is falsy once trimmed. */
  predicate IsBlank(s: string) {
    Trim(s) == []
  }

  /** A string made only of white space trims to the empty string, and
      only such a string does. */
  lemma BlankIffAllWhiteSpace(s: string)
    ensures IsBlank(s) <==> AllWhiteSpace(s)
  {
    var r := Trim(s);
    var i :| TrimmedAt(s, r, i);
    if r == [] {
      assert s == s[..i] + s[i..];
      forall k | 0 <= k < |s| ensures IsWhiteSpace(s[k]) {
        if k < i { assert s[..i][k] == s[k]; } else { assert s[i..][k - i] == s[k]; }
      }
    } else {
      assert r[0] == s[i];
    }
  }

  /** A string that neither starts nor ends with white space is returned
      unchanged. */
  lemma TrimUnpadded(s: string)
    ensures Unpadded(s) ==> Trim(s) == s
  {
    if s != [] && Unpadded(s) {
      assert s[..0] == [] && s[|s|..] == [];
      assert LeadingWhiteSpace(s) == 0;
      assert TrailingWhiteSpace(s) == 0;
    }
  }

  /** Trimming twice is trimming once. */
  lemma TrimIdempotent(s: string)
    ensures Trim(Trim(s)) == Trim(s)
  {
    TrimUnpadded(Trim(s));
  }

  /** The characterisation determines the result: any unpadded slice of `s`
      surrounded only by white space is `Trim(s)`. */
  lemma TrimUnique(s: string, r: string, i: int)
    requires TrimmedAt(s, r, i) && Unpadded(r)
    ensures Trim(s) == r
  {
    var t := Trim(s);
    var j :| TrimmedAt(s, t, j);
    if r == [] || t == [] {
      // One of them is empty, so all of s is white space and so is the other.
      var e := if r == [] then i else j;
      forall k | 0 <= k < |s| ensures IsWhiteSpace(s[k]) {
        if k < e { assert s[..e][k] == s[k]; } else { assert s[e..][k - e] == s[k]; }
      }
    } else {
      // Both are non-empty: their first and last characters pin down the offsets.
      assert r[0] == s[i] && t[0] == s[j];
      assert i == j;
      var ei, ej := i + |r|, j + |t|;
      assert r[|r| - 1] == s[ei - 1] && t[|t| - 1] == s[ej - 1];
      assert |r| == |t|;
    }
  }

  /** `c.toLowerCase()` on the ASCII letters A-Z. */
  function LowerChar(c: char): (d: char)
    ensures 'A' <= c <= 'Z' ==> 'a' <= d <= 'z' && d as int - c as int == 32
    ensures !('A' <= c <= 'Z') ==> d == c
  {
    if 'A' <= c <= 'Z' then (c as int + 32) as char else c
  }

  /** `s.toLowerCase()`, character by character. */
  function ToLower(s: string): (r: string)
    ensures |r| == |s|
    ensures forall k :: 0 <= k < |s| ==> r[k] == LowerChar(s[k])
  {
    if s == [] then [] else [LowerChar(s[0])] + ToLower(s[1..])
  }

  /** Lower-casing is idempotent: it holds character by character, since a
      lowered letter is no longer in A-Z. */
  lemma ToLowerIdempotent(s: string)
    ensures ToLower(ToLower(s)) == ToLower(s)
  {
  }

  /** `s.includes(sub)`. */
  predicate Contains(s: string, sub: string): (found: bool)
    ensures sub == [] ==> found
    ensures found ==> |sub| <= |s|
  {
    assert sub == [] ==> IsPrefix(sub, s[0..]);
    exists i :: 0 <= i <= |s| && IsPrefix(sub, s[i..])
  }

  /** A string is found inside any concatenation that has it in the middle. */
  lemma ContainsMiddle(a: string, m: string, b: string)
    ensures Contains(a + m + b, m)
  {
    var s := a + m + b;
    assert s[|a|..][..|m|] == m;
    assert IsPrefix(m, s[|a|..]);
  }
}
