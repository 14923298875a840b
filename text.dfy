/** String trimming with the whitespace set of ECMAScript's
    `String.prototype.trim`. */
module Text {

  /** The code points `trim` removes: the WhiteSpace and LineTerminator
      productions of the ECMAScript language specification (sections 12.2 and
      12.3 of ECMA-262), with the Unicode space separators (category Zs)
      written out. */
  predicate IsWhitespace(c: char)
  {
    || c == '\t' || c == '\n' || c == '\U{000B}' || c == '\U{000C}' || c == '\r'
    || c == ' ' || c == '\U{00A0}' || c == '\U{1680}'
    || ('\U{2000}' <= c <= '\U{200A}')
    || c == '\U{2028}' || c == '\U{2029}' || c == '\U{202F}' || c == '\U{205F}'
    || c == '\U{3000}' || c == '\U{FEFF}'
  }

  /** Every character of `s` is whitespace (the empty string included). */
  predicate Blank(s: string)
  {
    forall i :: 0 <= i < |s| ==> IsWhitespace(s[i])
  }

  /** `s` neither starts nor ends with whitespace. */
  predicate Trimmed(s: string)
  {
    s == [] || (!IsWhitespace(s[0]) && !IsWhitespace(s[|s| - 1]))
  }

  /** The index of the first non-whitespace character of `s` at or after
      `k`, or `|s|` when there is none. */
  function SkipForward(s: string, k: nat): (n: nat)
    requires k <= |s|
    ensures k <= n <= |s|
    ensures forall j :: k <= j < n ==> IsWhitespace(s[j])
    ensures n == |s| || !IsWhitespace(s[n])
    decreases |s| - k
  {
    if k == |s| || !IsWhitespace(s[k]) then k else SkipForward(s, k + 1)
  }

  /** The index just after the last non-whitespace character of `s` below
      `k` and at or after `lo`, or `lo` when there is none. */
  function SkipBackward(s: string, lo: nat, k: nat): (n: nat)
    requires lo <= k <= |s|
    ensures lo <= n <= k
    ensures forall j :: n <= j < k ==> IsWhitespace(s[j])
    ensures n == lo || !IsWhitespace(s[n - 1])
    decreases k - lo
  {
    if k == lo || !IsWhitespace(s[k - 1]) then k else SkipBackward(s, lo, k - 1)
  }

  /** `s` without leading and trailing whitespace: the infix of `s` that
      starts and ends with a non-whitespace character and is preceded and
      followed only by whitespace. */
  function Trim(s: string): (r: string)
    ensures Trimmed(r)
    ensures r == [] <==> Blank(s)
    ensures var i := SkipForward(s, 0);
            && i + |r| <= |s| && r == s[i..i + |r|]
            && Blank(s[..i]) && Blank(s[i + |r|..])
  {
    var i := SkipForward(s, 0);
    var j := SkipBackward(s, i, |s|);
    assert Blank(s) ==> i == |s|;
    assert i == j ==> Blank(s);
    assert Blank(s[..i]) by {
      assert forall k :: 0 <= k < i ==> s[..i][k] == s[k];
    }
    assert Blank(s[j..]) by {
      assert forall k :: 0 <= k < |s| - j ==> s[j..][k] == s[j + k];
    }
    s[i..j]
  }

  /** A string that is already trimmed is left unchanged. */
  lemma TrimOfTrimmed(s: string)
    requires Trimmed(s)
    ensures Trim(s) == s
  {
    var i := SkipForward(s, 0);
    assert i == 0;
    assert SkipBackward(s, i, |s|) == |s|;
    assert s[0..|s|] == s;
  }

  /** Trimming twice is trimming once. */
  lemma TrimIdempotent(s: string)
    ensures Trim(Trim(s)) == Trim(s)
  {
    TrimOfTrimmed(Trim(s));
  }
}
