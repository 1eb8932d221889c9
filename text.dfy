/**
 * The JavaScript string operations the application relies on: `trim`,
 * `split(c)[0]`, `includes`, `toLowerCase` and `Array.prototype.join`.
 */
module Text {

  /** The characters `String.prototype.trim` removes: ECMAScript WhiteSpace and LineTerminator. */
  predicate IsJsWhitespace(c: char) {
    || c == '\t' || c == '\n' || c == '\U{B}' || c == '\U{C}' || c == '\r' || c == ' '
    || c == '\U{A0}' || c == '\U{1680}' || ('\U{2000}' <= c <= '\U{200A}')
    || c == '\U{2028}' || c == '\U{2029}' || c == '\U{202F}' || c == '\U{205F}'
    || c == '\U{3000}' || c == '\U{FEFF}'
  }

  predicate AllWhitespace(s: string) {
    forall k :: 0 <= k < |s| ==> IsJsWhitespace(s[k])
  }

  /** Drops leading whitespace: what is left is a suffix that is empty or starts with a non-blank. */
  function TrimStart(s: string): (r: string)
    ensures |r| <= |s| && forall k :: 0 <= k < |r| ==> r[k] == s[|s| - |r| + k]
    ensures AllWhitespace(s[..|s| - |r|])
    ensures r != [] ==> !IsJsWhitespace(r[0])
  {
    if s != [] && IsJsWhitespace(s[0]) then
      var r := TrimStart(s[1..]);
      assert s[..|s| - |r|] == [s[0]] + s[1..][..|s[1..]| - |r|];
      r
    else s
  }

  /** Drops trailing whitespace: what is left is a prefix that is empty or ends with a non-blank. */
  function TrimEnd(s: string): (r: string)
    ensures |r| <= |s| && r == s[..|r|]
    ensures AllWhitespace(s[|r|..])
    ensures r != [] ==> !IsJsWhitespace(r[|r| - 1])
  {
    if s != [] && IsJsWhitespace(s[|s| - 1]) then
      var r := TrimEnd(s[..|s| - 1]);
      assert s[|r|..] == s[..|s| - 1][|r|..] + [s[|s| - 1]];
      r
    else s
  }

  /** `s.trim()`: both ends stripped. */
  function Trim(s: string): (r: string)
    ensures |r| <= |s|
  {
    TrimEnd(TrimStart(s))
  }

  /** A trimmed string is empty exactly when `s` is blank, and otherwise starts and ends with a non-blank. */
  lemma TrimShape(s: string)
    ensures Trim(s) == [] <==> AllWhitespace(s)
    ensures Trim(s) != [] ==> !IsJsWhitespace(Trim(s)[0]) && !IsJsWhitespace(Trim(s)[|Trim(s)| - 1])
  {
    var t := TrimStart(s);
    var n := |s| - |t|;
    if TrimEnd(t) == [] {
      assert s == s[..n];
    }
  }

  /** Leading blanks of `p` go; a piece starting with a non-blank after it is kept whole. */
  lemma {:induction false} TrimStartAppend(p: string, v: string)
    requires v != [] && !IsJsWhitespace(v[0])
    ensures TrimStart(p + v) == TrimStart(p) + v
  {
    if p == [] {
      assert p + v == v;
    } else if IsJsWhitespace(p[0]) {
      assert (p + v)[1..] == p[1..] + v;
      TrimStartAppend(p[1..], v);
    }
  }

  /** Trailing blanks appended to a string are all stripped again. */
  lemma {:induction false} TrimEndBlanks(u: string, w: string)
    requires AllWhitespace(w)
    ensures TrimEnd(u + w) == TrimEnd(u)
  {
    if w != [] {
      var w' := w[..|w| - 1];
      assert (u + w)[..|u + w| - 1] == u + w';
      TrimEndBlanks(u, w');
    } else {
      assert u + w == u;
    }
  }

  /** Stripping the end never reaches back past a non-blank. */
  lemma {:induction false} TrimEndKeepsHead(p: string, q: string)
    requires p != [] && !IsJsWhitespace(p[|p| - 1])
    ensures TrimEnd(p + q) == p + TrimEnd(q)
  {
    if q == [] {
      assert p + q == p;
    } else if IsJsWhitespace(q[|q| - 1]) {
      var q' := q[..|q| - 1];
      assert (p + q)[..|p + q| - 1] == p + q';
      TrimEndKeepsHead(p, q');
    }
  }

  lemma Assoc(a: string, b: string, c: string)
    ensures a + b + c == a + (b + c)
  {
  }

  lemma TrimEndNonBlank(a: string, q: string)
    requires q != [] && !IsJsWhitespace(q[|q| - 1])
    ensures TrimEnd(a + q) == a + q
  {
    assert (a + q)[|a + q| - 1] == q[|q| - 1];
  }

  /**
   * Trimming a string that starts with a piece beginning and ending with
   * non-blanks keeps that piece whole at the front.
   */
  lemma TrimKeepsPrefix(p: string, q: string)
    requires p != [] && !IsJsWhitespace(p[0]) && !IsJsWhitespace(p[|p| - 1])
    ensures Trim(p + q) == p + TrimEnd(q)
  {
    assert TrimStart(p + q) == p + q;
    TrimEndKeepsHead(p, q);
  }

  /**
   * Trimming a string that ends with a piece beginning and ending with
   * non-blanks, followed only by blanks, drops those blanks and keeps the piece
   * whole at the end.
   */
  lemma TrimKeepsSuffix(p: string, q: string, w: string)
    requires q != [] && !IsJsWhitespace(q[0]) && !IsJsWhitespace(q[|q| - 1])
    requires AllWhitespace(w)
    ensures Trim(p + q + w) == TrimStart(p) + q
  {
    var a := TrimStart(p);
    Assoc(p, q, w);
    TrimStartAppend(p, q + w);
    Assoc(a, q, w);
    TrimEndBlanks(a + q, w);
    TrimEndNonBlank(a, q);
  }

  /** ASCII `toLowerCase`: upper-case Latin letters become lower case, every other character stays. */
  function LowerChar(c: char): char {
    if 'A' <= c <= 'Z' then (c as int + 32) as char else c
  }

  function Lower(s: string): (r: string)
    ensures |r| == |s| && forall i :: 0 <= i < |s| ==> r[i] == LowerChar(s[i])
  {
    if s == [] then [] else [LowerChar(s[0])] + Lower(s[1..])
  }

  /** `s.includes(t)`: `t` occurs in `s` as a contiguous piece. */
  predicate Contains(s: string, t: string) {
    t <= s || (s != [] && Contains(s[1..], t))
  }

  /**
   * `s.split(c)[0]`: the longest prefix of `s` without `c`; it stops right before
   * the first `c`, or is all of `s` when `s` has none.
   */
  function BeforeFirst(s: string, c: char): (r: string)
    ensures r <= s && c !in r
    ensures |r| < |s| ==> s[|r|] == c
    ensures c !in s ==> r == s
  {
    if s == [] || s[0] == c then []
    else [s[0]] + BeforeFirst(s[1..], c)
  }

  /** `xs.join(sep)`: the first element comes first, whole. */
  function Join(xs: seq<string>, sep: string): (r: string)
    ensures xs != [] ==> xs[0] <= r
  {
    if xs == [] then ""
    else if |xs| == 1 then xs[0]
    else xs[0] + sep + Join(xs[1..], sep)
  }
}
