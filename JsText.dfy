/**
 * The JavaScript string operations the program relies on, written out with
 * their ECMAScript meaning: `trim`, `indexOf`, `includes`, `replace` with a
 * string pattern, `Array.prototype.join`, template-literal rendering of a
 * missing property, and truthiness of an optional string.
 */
module JsText {
  import opened Options

  /** The code units `String.prototype.trim` strips: ECMAScript WhiteSpace and LineTerminator. */
  predicate IsJsSpace(c: char) {
    c == '\t' || c == '\n' || c == '\U{000B}' || c == '\U{000C}' || c == '\r' || c == ' ' ||
    c == '\U{00A0}' || c == '\U{1680}' || ('\U{2000}' <= c <= '\U{200A}') ||
    c == '\U{2028}' || c == '\U{2029}' || c == '\U{202F}' || c == '\U{205F}' ||
    c == '\U{3000}' || c == '\U{FEFF}'
  }

  predicate AllSpace(s: string) {
    forall i :: 0 <= i < |s| ==> IsJsSpace(s[i])
  }

  /** Drops leading white space: what is dropped is all space, and what is left does not start with space. */
  function TrimStart(s: string): (r: string)
    ensures |r| <= |s| && r == s[|s| - |r|..]
    ensures AllSpace(s[..|s| - |r|])
    ensures r != [] ==> !IsJsSpace(r[0])
  {
    if s != [] && IsJsSpace(s[0]) then
      var r := TrimStart(s[1..]);
      assert s[..|s| - |r|] == [s[0]] + s[1..][..|s| - 1 - |r|];
      r
    else
      s
  }

  /** Drops trailing white space: what is dropped is all space, and what is left does not end with space. */
  function TrimEnd(s: string): (r: string)
    ensures |r| <= |s| && r == s[..|r|]
    ensures AllSpace(s[|r|..])
    ensures r != [] ==> !IsJsSpace(r[|r| - 1])
  {
    if s != [] && IsJsSpace(s[|s| - 1]) then
      var r := TrimEnd(s[..|s| - 1]);
      assert s[|r|..] == s[..|s| - 1][|r|..] + [s[|s| - 1]];
      r
    else
      s
  }

  /** `r` is `s[a..b]`, and only white space lies outside it. */
  predicate StrippedSlice(s: string, r: string, a: int, b: int) {
    0 <= a <= b <= |s| && r == s[a..b] && AllSpace(s[..a]) && AllSpace(s[b..])
  }

  /**
   * `String.prototype.trim`: a slice of the input with only white space
   * outside it; empty exactly when the input is all white space.
   */
  function Trim(s: string): (r: string)
    ensures r == [] <==> AllSpace(s)
    ensures r != [] ==> !IsJsSpace(r[0]) && !IsJsSpace(r[|r| - 1])
    ensures exists a, b :: StrippedSlice(s, r, a, b)
  {
    var t := TrimStart(s);
    var r := TrimEnd(t);
    HeadOfTail(s, t, r);
    r
  }

  /**
   * A white-space-stripped head of a white-space-stripped tail of `s` is a
   * stripped slice of `s`, empty exactly when `s` is all white space.
   */
  lemma HeadOfTail(s: string, t: string, r: string)
    requires |t| <= |s| && t == s[|s| - |t|..] && AllSpace(s[..|s| - |t|]) && (t != [] ==> !IsJsSpace(t[0]))
    requires |r| <= |t| && r == t[..|r|] && AllSpace(t[|r|..])
    ensures r == [] <==> AllSpace(s)
    ensures StrippedSlice(s, r, |s| - |t|, |s| - |t| + |r|)
  {
    var a := |s| - |t|;
    assert s == s[..a] + t;
    assert r == [] ==> t == t[|r|..];
    assert t != [] ==> t[0] == s[a];
    assert s[a + |r|..] == t[|r|..];
    assert r == s[a..a + |r|];
  }

  /** `!s.trim()`: the string is empty or white space only. */
  predicate IsBlank(s: string) {
    Trim(s) == []
  }

  /** Appending white space does not change what `TrimEnd` keeps. */
  lemma {:induction false} TrimEndIgnoresTrailingSpace(s: string, ws: string)
    requires AllSpace(ws)
    ensures TrimEnd(s + ws) == TrimEnd(s)
    decreases |ws|
  {
    if ws != [] {
      var w := ws[..|ws| - 1];
      assert (s + ws)[..|s + ws| - 1] == s + w;
      TrimEndIgnoresTrailingSpace(s, w);
    } else {
      assert s + ws == s;
    }
  }

  /** Leading white space in front of a text that starts with a non-space is all `TrimStart` removes. */
  lemma {:induction false} TrimStartSkipsLeadingSpace(lead: string, s: string)
    requires AllSpace(lead) && s != [] && !IsJsSpace(s[0])
    ensures TrimStart(lead + s) == s
    decreases |lead|
  {
    if lead == [] {
      assert lead + s == s;
    } else {
      var t := lead + s;
      assert t[0] == lead[0];
      assert t[1..] == lead[1..] + s;
      assert TrimStart(t) == TrimStart(t[1..]);
      TrimStartSkipsLeadingSpace(lead[1..], s);
    }
  }

  /** Behind a text that ends with a non-space, `TrimEnd` only works on what follows. */
  lemma {:induction false} TrimEndAfterNonSpace(x: string, y: string)
    requires x == [] || !IsJsSpace(x[|x| - 1])
    ensures TrimEnd(x + y) == x + TrimEnd(y)
    decreases |y|
  {
    if y == [] {
      assert x + y == x;
    } else if IsJsSpace(y[|y| - 1]) {
      assert (x + y)[..|x + y| - 1] == x + y[..|y| - 1];
      TrimEndAfterNonSpace(x, y[..|y| - 1]);
    } else {
      assert (x + y)[|x + y| - 1] == y[|y| - 1];
    }
  }

  /** Trimming a text padded with white space on both sides gives the text with its own trailing space removed. */
  lemma TrimPadded(lead: string, s: string, trail: string)
    requires AllSpace(lead) && AllSpace(trail) && s != [] && !IsJsSpace(s[0])
    ensures Trim(lead + s + trail) == TrimEnd(s)
  {
    assert lead + s + trail == lead + (s + trail);
    TrimStartSkipsLeadingSpace(lead, s + trail);
    TrimEndIgnoresTrailingSpace(s, trail);
  }

  /** A template literal renders a missing property as the text "undefined". */
  function Str(o: Option<string>): string {
    match o
    case Some(v) => v
    case None => "undefined"
  }

  /** JavaScript truthiness of a `string | null | undefined` value. */
  predicate Truthy(o: Option<string>) {
    o.Some? && o.value != ""
  }

  predicate IsPrefix(p: string, s: string) {
    |p| <= |s| && s[..|p|] == p
  }

  lemma PrefixOfConcat(x: string, y: string)
    ensures IsPrefix(x, x + y)
  {
    assert (x + y)[..|x|] == x;
  }

  lemma PrefixTransitive(x: string, y: string, z: string)
    requires IsPrefix(x, y) && IsPrefix(y, z)
    ensures IsPrefix(x, z)
  {
    assert z[..|x|] == z[..|y|][..|x|];
  }

  /** `s.indexOf(p)`: the first position where `p` occurs, or -1. */
  function IndexOf(s: string, p: string): (r: int)
    ensures -1 <= r <= |s|
    ensures r >= 0 ==> IsPrefix(p, s[r..]) && forall j :: 0 <= j < r ==> !IsPrefix(p, s[j..])
    ensures r == -1 ==> forall j :: 0 <= j <= |s| ==> !IsPrefix(p, s[j..])
  {
    if IsPrefix(p, s) then 0
    else if s == [] then -1
    else
      var k := IndexOf(s[1..], p);
      assert forall j :: 1 <= j <= |s| ==> s[1..][j - 1..] == s[j..];
      if k == -1 then -1 else k + 1
  }

  /** Any occurrence of `p` makes `s.includes(p)` hold. */
  lemma IncludesAt(s: string, p: string, j: int)
    requires 0 <= j <= |s| && IsPrefix(p, s[j..])
    ensures Includes(s, p)
  {
  }

  /** A text found at position `j` of `r` is included in anything that ends with `r`. */
  lemma IncludesBehind(base: string, r: string, u: string, j: int)
    requires 0 <= j <= j + |u| <= |r| && r[j..j + |u|] == u
    ensures Includes(base + r, u)
  {
    var k := |base| + j;
    assert (base + r)[k..][..|u|] == r[j..j + |u|];
    IncludesAt(base + r, u, k);
  }

  /**
   * Trailing white space is all `TrimEnd` removes: a part that does not trim
   * to nothing keeps its trimmed text at the same position.
   */
  lemma TrimEndKeepsInner(x: string, t: string, y: string)
    requires TrimEnd(t) != []
    ensures |x| + |TrimEnd(t)| <= |TrimEnd(x + t + y)|
    ensures TrimEnd(x + t + y)[|x|..|x| + |TrimEnd(t)|] == TrimEnd(t)
  {
    KeptPrefix(x, t, y, TrimEnd(x + t + y), TrimEnd(t));
  }

  /** A prefix `r` of `x + t + y` followed only by white space covers every non-space-ended prefix `u` of `t`. */
  lemma KeptPrefix(x: string, t: string, y: string, r: string, u: string)
    requires |r| <= |x + t + y| && r == (x + t + y)[..|r|] && AllSpace((x + t + y)[|r|..])
    requires u != [] && |u| <= |t| && u == t[..|u|] && !IsJsSpace(u[|u| - 1])
    ensures |x| + |u| <= |r| && r[|x|..|x| + |u|] == u
  {
    var s := x + t + y;
    var n := |x| + |u|;
    AllSpaceFrom(s, |r|);
    assert s[n - 1] == t[|u| - 1];
    assert t[|u| - 1] == u[|u| - 1];
    assert r[|x|..n] == s[|x|..n];
    assert s[|x|..n] == t[..|u|];
  }

  /** A part that does not trim to nothing is still included, up to trailing white space, after `TrimEnd`. */
  lemma TrimmedPartIncluded(base: string, x: string, t: string, y: string)
    requires TrimEnd(t) != []
    ensures Includes(base + TrimEnd(x + t + y), TrimEnd(t))
  {
    TrimEndKeepsInner(x, t, y);
    IncludesBehind(base, TrimEnd(x + t + y), TrimEnd(t), |x|);
  }

  /** Every character of an all-white-space tail is white space. */
  lemma AllSpaceFrom(s: string, m: int)
    requires 0 <= m <= |s| && AllSpace(s[m..])
    ensures forall i :: m <= i < |s| ==> IsJsSpace(s[i])
  {
    forall i | m <= i < |s|
      ensures IsJsSpace(s[i])
    {
      assert s[m..][i - m] == s[i];
    }
  }

  /** `s.includes(t)`. */
  predicate Includes(s: string, t: string) {
    IndexOf(s, t) >= 0
  }

  /**
   * `s.replace(p, v)` with a string pattern: only the first occurrence is
   * replaced, and a string without `p` is returned unchanged.
   */
  function ReplaceFirst(s: string, p: string, v: string): (r: string)
    ensures !Includes(s, p) ==> r == s
    ensures Includes(s, p) ==>
      var i := IndexOf(s, p);
      r == s[..i] + v + s[i + |p|..] && |r| == |s| - |p| + |v|
  {
    var i := IndexOf(s, p);
    if i < 0 then s else s[..i] + v + s[i + |p|..]
  }

  /** `parts.join(sep)`. */
  function Join(parts: seq<string>, sep: string): (r: string)
    ensures parts == [] ==> r == ""
    ensures |parts| == 1 ==> r == parts[0]
  {
    if parts == [] then ""
    else if |parts| == 1 then parts[0]
    else parts[0] + sep + Join(parts[1..], sep)
  }

  /** Appending one more part adds the separator and that part. */
  lemma {:induction false} JoinSnoc(parts: seq<string>, x: string, sep: string)
    requires parts != []
    ensures Join(parts + [x], sep) == Join(parts, sep) + sep + x
    decreases |parts|
  {
    if |parts| == 1 {
      assert (parts + [x])[1..] == [x];
    } else {
      assert (parts + [x])[1..] == parts[1..] + [x];
      JoinSnoc(parts[1..], x, sep);
    }
  }

  /** Each part of a join stands in it whole, between what comes before and after it. */
  lemma {:induction false} JoinHasPart(parts: seq<string>, i: int, sep: string) returns (before: string, after: string)
    requires 0 <= i < |parts|
    ensures Join(parts, sep) == before + parts[i] + after
    decreases |parts|
  {
    if |parts| == 1 {
      before, after := "", "";
      assert Join(parts, sep) == before + parts[i] + after;
    } else if i == 0 {
      before, after := "", sep + Join(parts[1..], sep);
      assert Join(parts, sep) == before + parts[i] + after;
    } else {
      var b, a := JoinHasPart(parts[1..], i - 1, sep);
      before, after := parts[0] + sep + b, a;
      assert Join(parts, sep) == parts[0] + sep + (b + parts[i] + a);
    }
  }

  /** ASCII case folding; the program calls the Unicode `toLowerCase`. */
  function LowerChar(c: char): char {
    if 'A' <= c <= 'Z' then (c as int + 32) as char else c
  }

  function Lower(s: string): (r: string)
    ensures |r| == |s|
    ensures forall i :: 0 <= i < |s| ==> r[i] == LowerChar(s[i])
  {
    seq(|s|, i requires 0 <= i < |s| => LowerChar(s[i]))
  }
}
