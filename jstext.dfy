/** JavaScript's `String.prototype.trim`, which the submit guard uses to reject blank input.
    It removes the ECMAScript WhiteSpace and LineTerminator code points from both ends. */
module JsText {

  predicate IsJsWhitespace(c: char)
  {
    c == '\t' || c == '\U{000B}' || c == '\U{000C}' || c == ' ' || c == '\U{00A0}' || c == '\U{FEFF}'
    || c == '\U{1680}' || ('\U{2000}' <= c <= '\U{200A}') || c == '\U{202F}' || c == '\U{205F}'
    || c == '\U{3000}' || c == '\n' || c == '\r' || c == '\U{2028}' || c == '\U{2029}'
  }

  /** `s` without its leading whitespace: a suffix of `s` that starts with a non-blank
      character, or nothing. */
  function TrimStart(s: string): (r: string)
    ensures |r| <= |s| && r == s[|s| - |r|..]
    ensures r != [] ==> !IsJsWhitespace(r[0])
    ensures forall k :: 0 <= k < |s| - |r| ==> IsJsWhitespace(s[k])
  {
    if s != [] && IsJsWhitespace(s[0]) then TrimStart(s[1..]) else s
  }

  /** `s` without its trailing whitespace: a prefix of `s` that ends with a non-blank
      character, or nothing. */
  function TrimEnd(s: string): (r: string)
    ensures |r| <= |s| && r == s[..|r|]
    ensures r != [] ==> !IsJsWhitespace(r[|r| - 1])
    ensures forall k :: |r| <= k < |s| ==> IsJsWhitespace(s[k])
  {
    if s != [] && IsJsWhitespace(s[|s| - 1]) then TrimEnd(s[..|s| - 1]) else s
  }

  function Trim(s: string): string
  {
    TrimEnd(TrimStart(s))
  }

  /** `!input.trim()`: the trimmed input is the empty (falsy) string. */
  predicate IsBlank(s: string)
  {
    Trim(s) == ""
  }

  lemma BlankIffAllWhitespace(s: string)
    ensures IsBlank(s) <==> forall k :: 0 <= k < |s| ==> IsJsWhitespace(s[k])
  {
    var t := TrimStart(s);
    if !IsBlank(s) {
      assert Trim(s) != [];
      assert t != [];
      assert s[|s| - |t|] == t[0];
    }
  }

  /** How many leading characters the trim removes. */
  function LeadingBlanks(s: string): (n: nat)
    ensures n <= |s| && TrimStart(s) == s[n..]
  {
    |s| - |TrimStart(s)|
  }

  /** Trimming keeps, in place, every character between a non-blank character and a later
      one: that span of `s` is a slice of the trimmed string, shifted left by the number of
      leading blanks removed. */
  lemma TrimKeepsInterior(s: string, i: nat, j: nat)
    requires i <= j < |s| && !IsJsWhitespace(s[i]) && !IsJsWhitespace(s[j])
    ensures LeadingBlanks(s) <= i && j + 1 - LeadingBlanks(s) <= |Trim(s)|
    ensures Trim(s)[i - LeadingBlanks(s)..j + 1 - LeadingBlanks(s)] == s[i..j + 1]
  {
    InteriorSurvives(s, TrimStart(s), Trim(s), LeadingBlanks(s), i, j);
  }

  /** The chain behind `TrimKeepsInterior`, for any suffix `t` of `s` that cut off only
      whitespace and does not start with it, and any prefix `r` of `t` with the same
      properties at its end. */
  lemma InteriorSurvives(s: string, t: string, r: string, off: nat, i: nat, j: nat)
    requires i <= j < |s| && !IsJsWhitespace(s[i]) && !IsJsWhitespace(s[j])
    requires off <= |s| && t == s[off..]
    requires forall k :: 0 <= k < off ==> IsJsWhitespace(s[k])
    requires |r| <= |t| && r == t[..|r|]
    requires forall k :: |r| <= k < |t| ==> IsJsWhitespace(t[k])
    ensures off <= i && j + 1 - off <= |r|
    ensures r[i - off..j + 1 - off] == s[i..j + 1]
  {
    assert off <= i;
    assert t[j - off] == s[j];
    assert j - off < |r|;
    assert r[i - off..j + 1 - off] == t[i - off..j + 1 - off];
  }
}
