/** `String.prototype.trim`, which both submit handlers apply to the name
    field before testing it for emptiness. */
module Text {

  /** ECMAScript WhiteSpace and LineTerminator code points: tab, vertical
      tab, form feed, the Unicode space separators (category Zs), the
      byte-order mark, line feed, carriage return, and the line and
      paragraph separators. */
  predicate IsWhiteSpace(c: char)
  {
    c == '\t' || c == '\U{B}' || c == '\U{C}' || c == ' ' || c == '\U{A0}'
    || c == '\U{1680}' || ('\U{2000}' <= c <= '\U{200A}') || c == '\U{202F}'
    || c == '\U{205F}' || c == '\U{3000}' || c == '\U{FEFF}'
    || c == '\n' || c == '\r' || c == '\U{2028}' || c == '\U{2029}'
  }

  /** The string with its leading white space removed. */
  function TrimStart(s: string): (r: string)
    ensures |r| <= |s| && r == s[|s| - |r|..]
    ensures forall j :: 0 <= j < |s| - |r| ==> IsWhiteSpace(s[j])
    ensures r == [] || !IsWhiteSpace(r[0])
  {
    if s != [] && IsWhiteSpace(s[0]) then TrimStart(s[1..]) else s
  }

  /** The string with its trailing white space removed. */
  function TrimEnd(s: string): (r: string)
    ensures |r| <= |s| && r == s[..|r|]
    ensures forall j :: |r| <= j < |s| ==> IsWhiteSpace(s[j])
    ensures r == [] || !IsWhiteSpace(r[|r| - 1])
  {
    if s != [] && IsWhiteSpace(s[|s| - 1]) then TrimEnd(s[..|s| - 1]) else s
  }

  /** Every character of `s` from position `lo` up to (not including) `hi`
      is white space. */
  ghost predicate BlankBetween(s: string, lo: int, hi: int)
  {
    forall j :: lo <= j < hi && 0 <= j < |s| ==> IsWhiteSpace(s[j])
  }

  /** `s.trim()`: a contiguous slice of `s` that neither starts nor ends
      with white space, and everything cut off around it is white space. */
  function Trim(s: string): (r: string)
    ensures exists k :: 0 <= k <= |s| - |r| && r <= s[k..]
                        && BlankBetween(s, 0, k) && BlankBetween(s, k + |r|, |s|)
    ensures r == [] || (!IsWhiteSpace(r[0]) && !IsWhiteSpace(r[|r| - 1]))
  {
    var t := TrimStart(s);
    var r := TrimEnd(t);
    TrimIsSlice(s, t, r);
    r
  }

  /** Trimming the end after the start cuts white space only, around the
      slice that starts where `TrimStart` left off. */
  lemma TrimIsSlice(s: string, t: string, r: string)
    requires t == TrimStart(s) && r == TrimEnd(t)
    ensures var k := |s| - |t|;
            0 <= k <= |s| - |r| && r <= s[k..]
            && BlankBetween(s, 0, k) && BlankBetween(s, k + |r|, |s|)
  {
    var k := |s| - |t|;
    assert t == s[k..];
    forall j | k + |r| <= j < |s|
      ensures IsWhiteSpace(s[j])
    {
      assert s[j] == t[j - k];
    }
  }

  /** A name trims to the empty string exactly when it is made of white
      space only: the condition under which the submit handlers reject it. */
  lemma TrimEmptyIffBlank(s: string)
    ensures Trim(s) == [] <==> forall j :: 0 <= j < |s| ==> IsWhiteSpace(s[j])
  {
    var t := TrimStart(s);
    if Trim(s) == [] {
      assert t == [];
    } else {
      assert !IsWhiteSpace(Trim(s)[0]);
    }
  }
}
