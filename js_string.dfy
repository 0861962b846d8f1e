/** `String.prototype.trim` of ECMAScript: strip the longest prefix and the
    longest suffix made of WhiteSpace and LineTerminator code points. */
module JsString {

  /** The ECMAScript WhiteSpace code points (tab, vertical tab, form feed,
      space, no-break space, byte order mark and the Unicode space
      separators) and LineTerminator code points. */
  predicate IsSpace(c: char)
  {
    c == '\t' || c == '\U{000B}' || c == '\U{000C}' || c == ' ' || c == '\U{00A0}' || c == '\U{FEFF}' ||
    c == '\U{1680}' || ('\U{2000}' <= c <= '\U{200A}') || c == '\U{202F}' || c == '\U{205F}' || c == '\U{3000}' ||
    c == '\n' || c == '\r' || c == '\U{2028}' || c == '\U{2029}'
  }

  /** Every character of `s[lo..hi]` is white space. */
  predicate BlankBetween(s: string, lo: nat, hi: nat)
    requires lo <= hi <= |s|
  {
    forall i :: lo <= i < hi ==> IsSpace(s[i])
  }

  /** Every character is white space (the empty string included). */
  predicate IsBlank(s: string)
  {
    BlankBetween(s, 0, |s|)
  }

  /** No white space at either end. */
  predicate IsTrimmed(s: string)
  {
    s == [] || (!IsSpace(s[0]) && !IsSpace(s[|s| - 1]))
  }

  /** The index of the first non-white-space character at or after `i`,
      or `|s|` if there is none. */
  function SkipLeading(s: string, i: nat): (k: nat)
    requires i <= |s|
    ensures i <= k <= |s| && BlankBetween(s, i, k)
    ensures k < |s| ==> !IsSpace(s[k])
    decreases |s| - i
  {
    if i < |s| && IsSpace(s[i]) then SkipLeading(s, i + 1) else i
  }

  /** The end of `s[lo..j]` once its trailing white space is dropped. */
  function SkipTrailing(s: string, lo: nat, j: nat): (k: nat)
    requires lo <= j <= |s|
    ensures lo <= k <= j && BlankBetween(s, k, j)
    ensures k > lo ==> !IsSpace(s[k - 1])
    decreases j - lo
  {
    if j > lo && IsSpace(s[j - 1]) then SkipTrailing(s, lo, j - 1) else j
  }

  /** The number of characters `Trim` strips from the front. */
  function LeadLength(s: string): (n: nat)
    ensures n <= |s|
  {
    SkipLeading(s, 0)
  }

  /** `s.trim()`. */
  function Trim(s: string): (r: string)
    ensures IsTrimmed(r)
    ensures r == [] <==> IsBlank(s)
    ensures |r| <= |s|
  {
    var a := SkipLeading(s, 0);
    var b := SkipTrailing(s, a, |s|);
    s[a..b]
  }

  /** The result of `Trim` is a slice of the input with only white space
      around it. */
  lemma TrimIsSlice(s: string)
    ensures LeadLength(s) + |Trim(s)| <= |s|
    ensures s[LeadLength(s)..LeadLength(s) + |Trim(s)|] == Trim(s)
    ensures IsBlank(s[..LeadLength(s)])
    ensures IsBlank(s[LeadLength(s) + |Trim(s)|..])
  {
  }

  /** The converse of `TrimIsSlice`: padding a trimmed, non-empty string
      with white space on both sides and trimming gives it back. */
  lemma TrimPadding(pre: string, s: string, post: string)
    requires IsBlank(pre) && IsBlank(post)
    requires IsTrimmed(s) && s != []
    ensures Trim(pre + s + post) == s
  {
    var x := pre + s + post;
    var a := SkipLeading(x, 0);
    assert x[|pre|] == s[0] && x[|pre| + |s| - 1] == s[|s| - 1];
    assert forall i :: 0 <= i < |pre| ==> x[i] == pre[i];
    assert forall i :: |pre| + |s| <= i < |x| ==> x[i] == post[i - |pre| - |s|];
    assert a == |pre|;
    var b := SkipTrailing(x, a, |x|);
    assert b == |pre| + |s|;
    assert x[a..b] == s;
  }

  /** Trimming twice is trimming once. */
  lemma TrimIdempotent(s: string)
    ensures Trim(Trim(s)) == Trim(s)
  {
  }
}
