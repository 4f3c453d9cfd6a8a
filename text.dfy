/**
 * The two string primitives the validators and the chat view rely on: the
 * character class `\s` of JavaScript regular expressions and
 * `String.prototype.trim`, which strips exactly the same characters (white
 * space and line terminators) from both ends.
 */
module Text {

  /** The characters matched by `\s` and removed by `trim()`. */
  predicate IsWhitespace(c: char) {
    || c == ' ' || c == '\t' || c == '\n' || c == '\U{000B}' || c == '\U{000C}' || c == '\r'
    || c == '\U{00A0}' || c == '\U{1680}' || ('\U{2000}' <= c <= '\U{200A}')
    || c == '\U{2028}' || c == '\U{2029}' || c == '\U{202F}' || c == '\U{205F}'
    || c == '\U{3000}' || c == '\U{FEFF}'
  }

  /** Every character of `s` is white space (vacuously so for ""). */
  predicate IsBlank(s: string) {
    forall k :: 0 <= k < |s| ==> IsWhitespace(s[k])
  }

  /** `s` with its leading white space removed. */
  function TrimStart(s: string): (r: string)
    ensures |r| <= |s| && r == s[|s| - |r|..]
    ensures IsBlank(s[..|s| - |r|])
    ensures r == [] || !IsWhitespace(r[0])
  {
    if |s| > 0 && IsWhitespace(s[0]) then
      var t := TrimStart(s[1..]);
      assert s[1..][..|s| - 1 - |t|] == s[1..|s| - |t|];
      t
    else
      s
  }

  /** `s` with its trailing white space removed. */
  function TrimEnd(s: string): (r: string)
    ensures |r| <= |s| && r == s[..|r|]
    ensures IsBlank(s[|r|..])
    ensures r == [] || !IsWhitespace(r[|r| - 1])
    ensures r == [] <==> IsBlank(s)
  {
    if |s| > 0 && IsWhitespace(s[|s| - 1]) then
      var init := s[..|s| - 1];
      var t := TrimEnd(init);
      assert init[|t|..] == s[|t|..|s| - 1];
      assert s[|t|..] == init[|t|..] + [s[|s| - 1]];
      assert IsBlank(s) <==> IsBlank(init) by {
        if IsBlank(init) {
          forall k | 0 <= k < |s| ensures IsWhitespace(s[k]) {
            if k < |s| - 1 { assert s[k] == init[k]; }
          }
        }
        if IsBlank(s) {
          forall k | 0 <= k < |init| ensures IsWhitespace(init[k]) {
            assert init[k] == s[k];
          }
        }
      }
      t
    else
      s
  }

  /** `s.trim()`. */
  function Trim(s: string): string {
    TrimEnd(TrimStart(s))
  }

  /** `s.trim()` is the empty string exactly when `s` consists of white space only. */
  lemma TrimEmptyIffBlank(s: string)
    ensures Trim(s) == "" <==> IsBlank(s)
  {
    var t := TrimStart(s);
    // TrimStart leaves nothing exactly when s is blank ...
    assert t == [] <==> IsBlank(s) by {
      if t != [] {
        assert t[0] == s[|s| - |t|];
      } else {
        assert s[..|s| - |t|] == s;
      }
    }
    // ... and TrimEnd empties a string that does not start with white space only when it is empty.
    assert t != [] ==> !IsBlank(t);
  }
}
