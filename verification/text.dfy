/** Blank-input detection as done by the forms: `value.trim().length === 0`. */
module Text {

  /** The characters ECMAScript's String.prototype.trim strips: the WhiteSpace
      code points (tab, vertical tab, form feed, space, no-break space, the byte
      order mark and every other Zs space separator) and the LineTerminator code
      points (line feed, carriage return, line and paragraph separator). */
  predicate IsWhitespace(c: char) {
    c in SingleWhitespace || '\U{2000}' <= c <= '\U{200A}'
  }

  /** The whitespace code points outside the range U+2000..U+200A. */
  const SingleWhitespace: set<char> :=
    {'\t', '\n', '\U{000B}', '\U{000C}', '\r', ' ', '\U{00A0}', '\U{1680}',
     '\U{2028}', '\U{2029}', '\U{202F}', '\U{205F}', '\U{3000}', '\U{FEFF}'}

  predicate AllWhitespace(s: string) {
    forall i :: 0 <= i < |s| ==> IsWhitespace(s[i])
  }

  /** Drops the leading whitespace. */
  function TrimStart(s: string): (r: string)
    ensures |r| <= |s| && r == s[|s| - |r|..]
    ensures AllWhitespace(s[..|s| - |r|])
    ensures r == [] || !IsWhitespace(r[0])
  {
    if s != [] && IsWhitespace(s[0]) then TrimStart(s[1..]) else s
  }

  /** Drops the trailing whitespace. */
  function TrimEnd(s: string): (r: string)
    ensures |r| <= |s| && r == s[..|r|]
    ensures AllWhitespace(s[|r|..])
    ensures r == [] || !IsWhitespace(r[|r| - 1])
  {
    if s != [] && IsWhitespace(s[|s| - 1]) then TrimEnd(s[..|s| - 1]) else s
  }

  /** String.prototype.trim: whitespace dropped at both ends; the result is empty
      exactly when the input holds nothing but whitespace. */
  function Trim(s: string): (r: string)
    ensures |r| <= |s|
    ensures r == [] || (!IsWhitespace(r[0]) && !IsWhitespace(r[|r| - 1]))
    ensures r == [] <==> AllWhitespace(s)
    ensures exists a, b :: 0 <= a <= b <= |s| && r == s[a..b] && AllWhitespace(s[..a]) && AllWhitespace(s[b..])
  {
    TrimEmptyIffAllWhitespace(s);
    TrimDropsOnlyEdges(s);
    TrimStart(TrimEnd(s))
  }

  lemma TrimEmptyIffAllWhitespace(s: string)
    ensures TrimStart(TrimEnd(s)) == [] <==> AllWhitespace(s)
  {
    var t := TrimEnd(s);
    var r := TrimStart(t);
    if r == [] {
      assert t[..|t|] == t;
      assert t == [];
      assert s[|t|..] == s;
    } else {
      assert t[|t| - |r|] == r[0];
      assert s[|t| - |r|] == r[0];
    }
  }

  /** Trimming keeps a contiguous middle part of the input and drops only
      whitespace before and after it. */
  lemma TrimDropsOnlyEdges(s: string)
    ensures var t := TrimEnd(s); var a := |t| - |TrimStart(t)|;
            TrimStart(t) == s[a..|t|] && AllWhitespace(s[..a]) && AllWhitespace(s[|t|..])
  {
    var t := TrimEnd(s);
    var a := |t| - |TrimStart(t)|;
    assert t == s[..|t|];
    assert TrimStart(t) == t[a..] == s[a..|t|];
    assert t[..a] == s[..a];
  }

  /** The guard of both forms: `value.trim().length === 0`. */
  predicate IsBlank(s: string)
    ensures IsBlank(s) <==> AllWhitespace(s)
  {
    |Trim(s)| == 0
  }
}
