/** `String.prototype.trim` as the renderer uses it on the message box
    (renderer.js:92): strip leading and trailing white space and line
    terminators, as ECMAScript defines them. */
module Text {

  /** ECMAScript WhiteSpace (TAB, VT, FF, ZWNBSP and the Unicode category Zs)
      and LineTerminator (LF, CR, LS, PS). */
  predicate IsSpace(c: char) {
    c == '\t' || c == '\U{000B}' || c == '\U{000C}' || c == ' ' || c == '\U{00A0}'
    || c == '\U{FEFF}' || c == '\U{1680}' || ('\U{2000}' <= c <= '\U{200A}')
    || c == '\U{202F}' || c == '\U{205F}' || c == '\U{3000}'
    || c == '\n' || c == '\r' || c == '\U{2028}' || c == '\U{2029}'
  }

  predicate AllSpace(s: string) {
    forall i :: 0 <= i < |s| ==> IsSpace(s[i])
  }

  /** The index of the first non-white-space character of `s` at or after
      `i`, or `|s|` if there is none. */
  function SkipSpace(s: string, i: nat): (r: nat)
    requires i <= |s|
    decreases |s| - i
    ensures i <= r <= |s|
    ensures forall j :: i <= j < r ==> IsSpace(s[j])
    ensures r < |s| ==> !IsSpace(s[r])
  {
    if i < |s| && IsSpace(s[i]) then SkipSpace(s, i + 1) else i
  }

  /** The end of `s[lo..hi]` once its trailing white space is dropped. */
  function SkipSpaceBack(s: string, lo: nat, hi: nat): (r: nat)
    requires lo <= hi <= |s|
    decreases hi - lo
    ensures lo <= r <= hi
    ensures forall j :: r <= j < hi ==> IsSpace(s[j])
    ensures lo < r ==> !IsSpace(s[r - 1])
  {
    if lo < hi && IsSpace(s[hi - 1]) then SkipSpaceBack(s, lo, hi - 1) else hi
  }

  /** The trimmed text: the piece of `s` between its leading and its trailing
      white space, empty exactly when `s` is all white space. */
  function Trim(s: string): (r: string)
    ensures |r| <= |s|
    ensures var lo := SkipSpace(s, 0); lo + |r| <= |s| && r == s[lo..lo + |r|]
    ensures AllSpace(s[..SkipSpace(s, 0)]) && AllSpace(s[SkipSpace(s, 0) + |r|..])
    ensures r == [] <==> AllSpace(s)
    ensures r != [] ==> !IsSpace(r[0]) && !IsSpace(r[|r| - 1])
  {
    var lo := SkipSpace(s, 0);
    var hi := SkipSpaceBack(s, lo, |s|);
    assert lo < hi ==> s[lo..hi][0] == s[lo];
    s[lo..hi]
  }

  /** Trimming twice is trimming once. */
  lemma TrimIdempotent(s: string)
    ensures Trim(Trim(s)) == Trim(s)
  {
    var r := Trim(s);
    if r != [] {
      assert SkipSpace(r, 0) == 0;
      assert SkipSpaceBack(r, 0, |r|) == |r|;
      assert r[0..|r|] == r;
    }
  }

  /** Inner white space is kept: every character between the first and the
      last non-white-space character of `s`, white space included, is in the
      trimmed text at the same place relative to the first one. A corollary
      of the contract of `Trim`, stated index by index. */
  lemma TrimKeepsInnerSpace(s: string)
    ensures var lo := SkipSpace(s, 0); var r := Trim(s);
      forall i :: lo <= i < lo + |r| ==> r[i - lo] == s[i]
  {
    var lo := SkipSpace(s, 0);
    var r := Trim(s);
    forall i | lo <= i < lo + |r| ensures r[i - lo] == s[i] {
      assert r[i - lo] == s[lo..lo + |r|][i - lo];
    }
  }

  /** An example: the spaces inside the text survive, the two ends go. */
  lemma TrimExample()
    ensures Trim("  hello world\n") == "hello world"
  {
    var s := "  hello world\n";
    assert |s| == 14 && s[0] == ' ' && s[1] == ' ' && s[2] == 'h';
    assert s[12] == 'd' && s[13] == '\n';
    assert SkipSpace(s, 2) == 2;
    assert SkipSpace(s, 1) == 2;
    assert SkipSpace(s, 0) == 2;
    assert SkipSpaceBack(s, 2, 13) == 13;
    assert SkipSpaceBack(s, 2, 14) == 13;
    assert s[2..13] == "hello world";
  }
}
