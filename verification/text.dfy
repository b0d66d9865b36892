/** `String.prototype.trim` as the front end uses it to clean typed input. */
module Text {

  /** ECMAScript's WhiteSpace and LineTerminator code points, the set `trim`
      strips: TAB, VT, FF, SP, NBSP, ZWNBSP, the other space separators
      (U+1680, U+2000..U+200A, U+202F, U+205F, U+3000), LF, CR, LS and PS. */
  predicate IsSpace(c: char) {
    c == '\t' || c == '\U{000B}' || c == '\U{000C}' || c == ' ' || c == '\U{00A0}'
    || c == '\U{FEFF}' || c == '\U{1680}' || ('\U{2000}' <= c <= '\U{200A}')
    || c == '\U{202F}' || c == '\U{205F}' || c == '\U{3000}'
    || c == '\n' || c == '\r' || c == '\U{2028}' || c == '\U{2029}'
  }

  predicate AllSpace(s: string) {
    forall i :: 0 <= i < |s| ==> IsSpace(s[i])
  }

  /** Number of leading white-space characters. */
  function LeadingSpace(s: string): (n: nat)
    ensures n <= |s|
    ensures AllSpace(s[..n])
    ensures n < |s| ==> !IsSpace(s[n])
    decreases |s|
  {
    if s != [] && IsSpace(s[0]) then
      var k := LeadingSpace(s[1..]);
      assert s[..k + 1] == [s[0]] + s[1..][..k];
      k + 1
    else 0
  }

  /** Number of trailing white-space characters. */
  function TrailingSpace(s: string): (n: nat)
    ensures n <= |s|
    ensures forall i :: |s| - n <= i < |s| ==> IsSpace(s[i])
    ensures n < |s| ==> !IsSpace(s[|s| - n - 1])
    decreases |s|
  {
    if s != [] && IsSpace(s[|s| - 1]) then
      var p := s[..|s| - 1];
      var k := TrailingSpace(p);
      assert forall i :: |p| - k <= i < |p| ==> s[i] == p[i];
      k + 1
    else 0
  }

  /** White space at every one of the last `k` positions makes the last `k`
      characters all white space. */
  lemma SuffixAllSpace(t: string, k: nat)
    requires k <= |t| && forall i :: |t| - k <= i < |t| ==> IsSpace(t[i])
    ensures AllSpace(t[|t| - k..])
  {
    var u := t[|t| - k..];
    forall m | 0 <= m < |u| ensures IsSpace(u[m]) {
      assert u[m] == t[|t| - k + m];
    }
  }

  /** `s.trim()`: the slice of `s` between its leading and trailing white space. */
  function Trim(s: string): (r: string)
    ensures exists i, j ::
      (0 <= i <= j <= |s| && r == s[i..j] && AllSpace(s[..i]) && AllSpace(s[j..]))
    ensures r != [] ==> !IsSpace(r[0]) && !IsSpace(r[|r| - 1])
    ensures |r| <= |s|
  {
    var i := LeadingSpace(s);
    var t := s[i..];
    var k := TrailingSpace(t);
    assert s[i..][..|t| - k] == s[i..|s| - k];
    assert s[|s| - k..] == t[|t| - k..];
    SuffixAllSpace(t, k);
    s[i..|s| - k]
  }

  /** Trimming yields "" exactly when the input is all white space. */
  lemma TrimEmptyIff(s: string)
    ensures Trim(s) == [] <==> AllSpace(s)
  {
    var i := LeadingSpace(s);
    if AllSpace(s) {
      assert Trim(s) == s[|s|..|s|];
    }
    if Trim(s) == [] {
      var k := TrailingSpace(s[i..]);
      assert |s| - k == i;
      assert i == |s|;
      forall n | 0 <= n < |s| ensures IsSpace(s[n]) {
        assert s[n] == s[..i][n];
      }
    }
  }

  /** Trimming is idempotent. */
  lemma TrimIdempotent(s: string)
    ensures Trim(Trim(s)) == Trim(s)
  {
    var r := Trim(s);
    if r != [] {
      assert LeadingSpace(r) == 0;
      assert TrailingSpace(r) == 0;
      assert r[0..|r|] == r;
    }
  }
}
