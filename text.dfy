/** The string operations the client uses: JavaScript's `trimStart` and the
    backend's case-insensitive pattern match `ilike '%needle%'`. */
module Text {

  /** JavaScript's WhiteSpace and LineTerminator code points, which
      `String.prototype.trimStart` removes. */
  predicate IsWhitespace(c: char)
  {
    c == '\t' || c == '\n' || c == '\U{000B}' || c == '\U{000C}' || c == '\r' ||
    c == ' ' || c == '\U{00A0}' || c == '\U{1680}' ||
    ('\U{2000}' <= c <= '\U{200A}') ||
    c == '\U{2028}' || c == '\U{2029}' || c == '\U{202F}' || c == '\U{205F}' ||
    c == '\U{3000}' || c == '\U{FEFF}'
  }

  /** How many whitespace characters `s` starts with. */
  function LeadingWhitespace(s: string): (n: nat)
    ensures n <= |s|
    ensures forall i :: 0 <= i < n ==> IsWhitespace(s[i])
    ensures n == |s| || !IsWhitespace(s[n])
  {
    if s != [] && IsWhitespace(s[0]) then
      var m := LeadingWhitespace(s[1..]);
      assert forall i :: 0 <= i < m ==> s[1..][i] == s[i + 1];
      1 + m
    else 0
  }

  /** `s` with its leading whitespace removed: a suffix of `s` that does not
      start with whitespace, and everything cut off is whitespace. */
  function TrimStart(s: string): (r: string)
    ensures |r| <= |s| && forall i :: 0 <= i < |r| ==> r[i] == s[|s| - |r| + i]
    ensures r == [] || !IsWhitespace(r[0])
    ensures forall i :: 0 <= i < |s| - |r| ==> IsWhitespace(s[i])
  {
    s[LeadingWhitespace(s)..]
  }

  /** Trimming twice is trimming once. */
  lemma TrimStartIdempotent(s: string)
    ensures TrimStart(TrimStart(s)) == TrimStart(s)
  {
    var t := TrimStart(s);
    assert LeadingWhitespace(t) == 0;
    assert t[0..] == t;
  }

  /** Text that already starts with a non-whitespace character is kept. */
  lemma TrimStartKeepsTrimmed(s: string)
    requires s == [] || !IsWhitespace(s[0])
    ensures TrimStart(s) == s
  {
    assert LeadingWhitespace(s) == 0;
    assert s[0..] == s;
  }

  /** Whitespace in front of a text adds exactly its own length to the
      count. */
  lemma {:induction false} LeadingWhitespacePadding(pad: string, s: string)
    requires forall i :: 0 <= i < |pad| ==> IsWhitespace(pad[i])
    ensures LeadingWhitespace(pad + s) == |pad| + LeadingWhitespace(s)
  {
    if pad != [] {
      assert (pad + s)[0] == pad[0];
      assert (pad + s)[1..] == pad[1..] + s;
      LeadingWhitespacePadding(pad[1..], s);
    } else {
      assert pad + s == s;
    }
  }

  /** Whitespace put in front of a text is exactly what trimming removes. */
  lemma TrimStartDropsPadding(pad: string, s: string)
    requires forall i :: 0 <= i < |pad| ==> IsWhitespace(pad[i])
    ensures TrimStart(pad + s) == TrimStart(s)
  {
    LeadingWhitespacePadding(pad, s);
    var n := LeadingWhitespace(s);
    assert (pad + s)[|pad| + n..] == s[n..];
  }

  /** ASCII lower-casing of one character; other characters are kept. */
  function LowerChar(c: char): (d: char)
    ensures 'A' <= c <= 'Z' ==> d != c && 'a' <= d <= 'z'
    ensures !('A' <= c <= 'Z') ==> d == c
  {
    if 'A' <= c <= 'Z' then (c as int + 32) as char else c
  }

  function Lower(s: string): (r: string)
    ensures |r| == |s|
    ensures forall i :: 0 <= i < |s| ==> r[i] == LowerChar(s[i])
  {
    seq(|s|, i requires 0 <= i < |s| => LowerChar(s[i]))
  }

  /** `n` occurs in `h` starting at index `k`. */
  predicate OccursAt(n: string, h: string, k: int)
  {
    0 <= k <= |h| - |n| && h[k..k + |n|] == n
  }

  /** `n` occurs in `h` as a contiguous piece. */
  predicate IsSubstring(n: string, h: string)
  {
    exists k :: 0 <= k <= |h| - |n| && OccursAt(n, h, k)
  }

  /** The backend's `ilike '%n%'` with `n` taken literally and case folded
      on ASCII letters. */
  predicate ILikeContains(h: string, n: string)
  {
    IsSubstring(Lower(n), Lower(h))
  }

  lemma LowerIdempotent(s: string)
    ensures Lower(Lower(s)) == Lower(s)
  {
  }

  /** Lower-casing both sides does not change whether they match. */
  lemma ILikeIgnoresCase(h: string, n: string)
    ensures ILikeContains(Lower(h), n) == ILikeContains(h, n)
    ensures ILikeContains(h, Lower(n)) == ILikeContains(h, n)
  {
    LowerIdempotent(h);
    LowerIdempotent(n);
  }

  /** An exact occurrence is also a case-insensitive one. */
  lemma SubstringILike(h: string, n: string)
    requires IsSubstring(n, h)
    ensures ILikeContains(h, n)
  {
    var k :| 0 <= k <= |h| - |n| && OccursAt(n, h, k);
    assert Lower(h)[k..k + |n|] == Lower(n);
    assert OccursAt(Lower(n), Lower(h), k);
  }
}
