/** ECMAScript's String.prototype.trim, which the chat input guard relies on. */
module JsText {

  /** A WhiteSpace or LineTerminator code point of ECMAScript: the characters trim strips. */
  predicate IsJsWhitespace(c: char) {
    var n := c as int;
    n == 0x09 || n == 0x0A || n == 0x0B || n == 0x0C || n == 0x0D || n == 0x20 ||
    n == 0xA0 || n == 0x1680 || (0x2000 <= n <= 0x200A) || n == 0x2028 || n == 0x2029 ||
    n == 0x202F || n == 0x205F || n == 0x3000 || n == 0xFEFF
  }

  predicate AllWhitespace(s: string) {
    forall i :: 0 <= i < |s| ==> IsJsWhitespace(s[i])
  }

  /** The number of whitespace characters `s` starts with: every character before that index is
      whitespace and the one at it, if any, is not. */
  function Lead(s: string): (n: nat)
    ensures n <= |s|
    ensures forall i :: 0 <= i < n ==> IsJsWhitespace(s[i])
    ensures n < |s| ==> !IsJsWhitespace(s[n])
  {
    if s != [] && IsJsWhitespace(s[0]) then
      var n := 1 + Lead(s[1..]);
      assert forall i :: 1 <= i < n ==> s[i] == s[1..][i - 1];
      n
    else
      0
  }

  /** The number of whitespace characters `s` ends with: every character from `|s| - n` on is
      whitespace and the one just before, if any, is not. */
  function Trail(s: string): (n: nat)
    ensures n <= |s|
    ensures forall i :: |s| - n <= i < |s| ==> IsJsWhitespace(s[i])
    ensures n < |s| ==> !IsJsWhitespace(s[|s| - 1 - n])
  {
    if s != [] && IsJsWhitespace(s[|s| - 1]) then
      var init := s[..|s| - 1];
      var n := 1 + Trail(init);
      assert forall i :: |s| - n <= i < |s| - 1 ==> s[i] == init[i];
      n
    else
      0
  }

  /** `s.trim()`: the part of `s` between its whitespace margins. It is empty exactly when `s` is
      all whitespace; otherwise it neither starts nor ends with whitespace, and it is the slice of
      `s` after the leading whitespace, with only whitespace left outside it. */
  function Trim(s: string): (r: string)
    ensures r == [] <==> AllWhitespace(s)
    ensures r != [] ==> !IsJsWhitespace(r[0]) && !IsJsWhitespace(r[|r| - 1])
    ensures Lead(s) + |r| <= |s| && r == s[Lead(s)..Lead(s) + |r|]
    ensures forall i :: 0 <= i < |s| && !(Lead(s) <= i < Lead(s) + |r|) ==> IsJsWhitespace(s[i])
  {
    if Lead(s) == |s| then
      []
    else
      assert !IsJsWhitespace(s[Lead(s)]);
      s[Lead(s)..|s| - Trail(s)]
  }

  /** Whitespace counts are determined by where the first non-blank stands. */
  lemma LeadIs(s: string, n: nat)
    requires n <= |s|
    requires forall i :: 0 <= i < n ==> IsJsWhitespace(s[i])
    requires n < |s| ==> !IsJsWhitespace(s[n])
    ensures Lead(s) == n
  {
  }

  lemma TrailIs(s: string, n: nat)
    requires n <= |s|
    requires forall i :: |s| - n <= i < |s| ==> IsJsWhitespace(s[i])
    requires n < |s| ==> !IsJsWhitespace(s[|s| - 1 - n])
    ensures Trail(s) == n
  {
  }

  /** Trimming twice is trimming once. */
  lemma TrimIdempotent(s: string)
    ensures Trim(Trim(s)) == Trim(s)
  {
    var r := Trim(s);
    if r != [] {
      LeadIs(r, 0);
      TrailIs(r, 0);
      assert r[0..|r|] == r;
    }
  }

  /** Whitespace typed around a text that has no whitespace margins is removed again by trim. */
  lemma TrimPadded(pre: string, text: string, post: string)
    requires AllWhitespace(pre) && AllWhitespace(post)
    requires text != [] ==> !IsJsWhitespace(text[0]) && !IsJsWhitespace(text[|text| - 1])
    ensures Trim(pre + text + post) == text
  {
    var s := pre + text + post;
    if text == [] {
      assert s == pre + post;
      assert AllWhitespace(s) by {
        forall i | 0 <= i < |s| ensures IsJsWhitespace(s[i]) {
          if i >= |pre| { assert s[i] == post[i - |pre|]; }
        }
      }
    } else {
      assert s[|pre|] == text[0];
      LeadIs(s, |pre|);
      assert s[|s| - 1 - |post|] == text[|text| - 1];
      assert forall i :: |s| - |post| <= i < |s| ==> s[i] == post[i - |s| + |post|];
      TrailIs(s, |post|);
      assert s[|pre|..|s| - |post|] == text;
    }
  }
}
