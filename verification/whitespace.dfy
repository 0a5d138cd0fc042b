/** Python's `str.strip()` with no argument: remove the longest prefix and
    the longest suffix made of whitespace characters, where "whitespace" is
    exactly the set of code points for which `str.isspace()` holds. The
    monitor applies it to the feed body before deciding whether the feed
    is empty. */
module Whitespace {

  /** The code points `str.isspace()` accepts: the ASCII controls TAB..CR
      and FS..US, SPACE, NEL, NO-BREAK SPACE, OGHAM SPACE MARK, the
      typographic spaces EN QUAD..HAIR SPACE, LINE and PARAGRAPH
      SEPARATOR, NARROW NO-BREAK SPACE, MEDIUM MATHEMATICAL SPACE and
      IDEOGRAPHIC SPACE. */
  predicate IsSpace(c: char) {
    || ('\t' <= c <= '\r')
    || ('\U{1C}' <= c <= '\U{1F}')
    || c == ' '
    || c == '\U{85}'
    || c == '\U{A0}'
    || c == '\U{1680}'
    || ('\U{2000}' <= c <= '\U{200A}')
    || c == '\U{2028}'
    || c == '\U{2029}'
    || c == '\U{202F}'
    || c == '\U{205F}'
    || c == '\U{3000}'
  }

  predicate AllSpace(s: string) {
    forall i :: 0 <= i < |s| ==> IsSpace(s[i])
  }

  /** Length of the longest all-whitespace prefix of `s`. */
  function LeadingSpaces(s: string): (n: nat)
    ensures n <= |s|
    ensures forall i :: 0 <= i < n ==> IsSpace(s[i])
    ensures n < |s| ==> !IsSpace(s[n])
  {
    if |s| == 0 || !IsSpace(s[0]) then 0
    else 1 + LeadingSpaces(s[1..])
  }

  /** Length of the longest all-whitespace suffix of `s`. */
  function TrailingSpaces(s: string): (n: nat)
    ensures n <= |s|
    ensures AllSpace(s[|s| - n..])
    ensures n < |s| ==> !IsSpace(s[|s| - n - 1])
  {
    if |s| == 0 || !IsSpace(s[|s| - 1]) then 0
    else
      var init := s[..|s| - 1];
      var k := TrailingSpaces(init);
      assert s[|s| - (k + 1)..] == init[|init| - k..] + [s[|s| - 1]];
      k + 1
  }

  /** `s.strip()`: the text between the leading and the trailing run of
      whitespace. The result is a slice of `s` whose surroundings are all
      whitespace and whose own ends are not; it is empty exactly when `s`
      is nothing but whitespace. */
  function Strip(s: string): (r: string)
    ensures |r| <= |s|
    ensures |r| > 0 ==> !IsSpace(r[0]) && !IsSpace(r[|r| - 1])
    ensures exists i :: 0 <= i <= |s| - |r| && Surrounds(s, i, r)
    ensures r == [] <==> AllSpace(s)
  {
    var lead := LeadingSpaces(s);
    var rest := s[lead..];
    var trail := TrailingSpaces(rest);
    var r := rest[..|rest| - trail];
    assert s[lead..lead + |r|] == r;
    assert s[lead + |r|..] == rest[|rest| - trail..];
    assert Surrounds(s, lead, r);
    assert r == [] ==> AllSpace(s) by {
      if r == [] {
        assert s == s[..lead] + rest[|rest| - trail..];
      }
    }
    r
  }

  /** `s` is `r` placed at offset `i` with only whitespace before and after it. */
  predicate Surrounds(s: string, i: nat, r: string) {
    && i + |r| <= |s|
    && s[i..i + |r|] == r
    && AllSpace(s[..i])
    && AllSpace(s[i + |r|..])
  }

  /** `Strip` is the only way to cut `s` into whitespace, a core that
      neither starts nor ends with whitespace, and whitespace: any such
      decomposition has exactly the stripped text as its core. */
  lemma StripUnique(pre: string, core: string, post: string)
    requires AllSpace(pre) && AllSpace(post)
    requires |core| > 0 ==> !IsSpace(core[0]) && !IsSpace(core[|core| - 1])
    ensures Strip(pre + core + post) == core
  {
    var s := pre + core + post;
    if core == [] {
      assert s == pre + post;
      assert AllSpace(s) by {
        forall i | 0 <= i < |s| ensures IsSpace(s[i]) {
          if i < |pre| { assert s[i] == pre[i]; } else { assert s[i] == post[i - |pre|]; }
        }
      }
    } else {
      var lead := LeadingSpaces(s);
      assert s[|pre|] == core[0];
      assert lead == |pre|;
      var rest := s[lead..];
      assert rest == core + post;
      var trail := TrailingSpaces(rest);
      assert rest[|rest| - |post| - 1] == core[|core| - 1];
      assert trail == |post|;
      assert rest[..|rest| - trail] == core;
    }
  }

  /** Stripping twice is stripping once. */
  lemma StripIdempotent(s: string)
    ensures Strip(Strip(s)) == Strip(s)
  {
    var r := Strip(s);
    assert r == [] + r + [];
    StripUnique([], r, []);
  }

}
