/** The few JavaScript value rules the controllers rely on: a request field
    is absent or a string, a string is falsy exactly when it is empty, and
    String.prototype.trim strips the ECMAScript white-space and line-terminator
    code points from both ends. */
module Js {

  /** A request field that may be absent; `undefined` and `null` are both None. */
  datatype Option<+T> = None | Some(value: T)

  /** `!!v` for an optional string: present and not the empty string. */
  predicate Truthy(v: Option<string>)
  {
    v.Some? && v.value != ""
  }

  /** The WhiteSpace and LineTerminator code points of ECMAScript, which is
      the set `trim` removes: TAB, LF, VT, FF, CR, the Zs space separators,
      LINE SEPARATOR, PARAGRAPH SEPARATOR and the byte-order mark. */
  predicate IsWhitespace(c: char)
  {
    || c == '\t' || c == '\n' || c == '\U{000B}' || c == '\U{000C}' || c == '\r'
    || c == ' ' || c == '\U{00A0}' || c == '\U{1680}'
    || ('\U{2000}' <= c <= '\U{200A}')
    || c == '\U{2028}' || c == '\U{2029}' || c == '\U{202F}' || c == '\U{205F}'
    || c == '\U{3000}' || c == '\U{FEFF}'
  }

  /** Reference definition: every character of `s` is white space. */
  ghost predicate AllWhitespace(s: string)
  {
    forall i :: 0 <= i < |s| ==> IsWhitespace(s[i])
  }

  /** The number of white-space characters `s` starts with. */
  function LeadingSpace(s: string): (n: nat)
    ensures n <= |s|
    ensures forall i :: 0 <= i < n ==> IsWhitespace(s[i])
    ensures n == |s| || !IsWhitespace(s[n])
  {
    if s == [] || !IsWhitespace(s[0]) then 0 else 1 + LeadingSpace(s[1..])
  }

  /** The number of white-space characters `s` ends with. */
  function TrailingSpace(s: string): (n: nat)
    ensures n <= |s|
    ensures forall i :: |s| - n <= i < |s| ==> IsWhitespace(s[i])
    ensures n == |s| || !IsWhitespace(s[|s| - 1 - n])
  {
    if s == [] || !IsWhitespace(s[|s| - 1]) then 0 else 1 + TrailingSpace(s[..|s| - 1])
  }

  /** `s.trim()`: the infix of `s` left once the longest white-space prefix
      and suffix are stripped; it neither starts nor ends with white space. */
  function Trim(s: string): (r: string)
    ensures |r| <= |s|
    ensures r == [] || (!IsWhitespace(r[0]) && !IsWhitespace(r[|r| - 1]))
    ensures exists k :: 0 <= k <= |s| - |r| && r == s[k..k + |r|]
                        && AllWhitespace(s[..k]) && AllWhitespace(s[k + |r|..])
  {
    var k := LeadingSpace(s);
    var m := |s| - k - TrailingSpace(s[k..]);
    var r := s[k..k + m];
    TrimBounds(s, k, m);
    assert 0 <= k <= |s| - |r| && r == s[k..k + |r|];
    r
  }

  /** Where Trim cuts: everything before `k` and from `k + m` on is white
      space, and the characters at both cut points are not. */
  lemma TrimBounds(s: string, k: nat, m: nat)
    requires k == LeadingSpace(s) && k + m <= |s| && m == |s| - k - TrailingSpace(s[k..])
    ensures AllWhitespace(s[..k]) && AllWhitespace(s[k + m..])
    ensures m == 0 || (!IsWhitespace(s[k]) && !IsWhitespace(s[k + m - 1]))
  {
    var rest := s[k..];
    LeadingBlank(s);
    TrailingBlank(rest);
    assert s[k + m..] == rest[m..];
    if m != 0 {
      assert rest[0] == s[k] && rest[m - 1] == s[k + m - 1];
    }
  }

  lemma LeadingBlank(s: string)
    ensures AllWhitespace(s[..LeadingSpace(s)])
  {
    var head := s[..LeadingSpace(s)];
    forall i | 0 <= i < |head| ensures IsWhitespace(head[i]) { assert head[i] == s[i]; }
  }

  lemma TrailingBlank(s: string)
    ensures AllWhitespace(s[|s| - TrailingSpace(s)..])
  {
    var d := |s| - TrailingSpace(s);
    var tail := s[d..];
    forall i | 0 <= i < |tail| ensures IsWhitespace(tail[i]) { assert tail[i] == s[d + i]; }
  }

  /** Trimming removes exactly white-space padding around a word that
      neither starts nor ends with white space. */
  lemma {:induction false} TrimPadded(pre: string, w: string, post: string)
    requires AllWhitespace(pre) && AllWhitespace(post)
    requires w != [] && !IsWhitespace(w[0]) && !IsWhitespace(w[|w| - 1])
    ensures Trim(pre + w + post) == w
  {
    var s := pre + w + post;
    assert s[|pre|] == w[0];
    assert forall i :: 0 <= i < |pre| ==> s[i] == pre[i];
    var k := LeadingSpace(s);
    assert k == |pre|;
    var rest := s[k..];
    assert rest == w + post;
    assert rest[|w| - 1] == w[|w| - 1];
    assert forall i :: |w| <= i < |rest| ==> rest[i] == post[i - |w|];
    assert TrailingSpace(rest) == |post|;
    assert s[k..k + |w|] == w;
  }

  /** `s.trim().length === 0` holds exactly when `s` is all white space. */
  lemma TrimEmptyIff(s: string)
    ensures Trim(s) == [] <==> AllWhitespace(s)
  {
    var k := LeadingSpace(s);
    var rest := s[k..];
    var n := TrailingSpace(rest);
    TrimBounds(s, k, |s| - k - n);
    if AllWhitespace(s) {
      assert k == |s|;
    } else {
      var i :| 0 <= i < |s| && !IsWhitespace(s[i]);
      assert i >= k;
      assert rest[i - k] == s[i];
    }
  }
}
