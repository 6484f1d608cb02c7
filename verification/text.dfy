/** String helpers shared by the whole model: the JavaScript `trim`, the
    `\s+` collapse used for chat titles, ASCII lower-casing and substring
    containment (`String.prototype.includes`). */
module Text {

  /** The characters JavaScript's `trim()` removes and `\s` matches:
      WhiteSpace and LineTerminator of ECMAScript, Zs included. */
  predicate IsWhitespace(c: char) {
    c == ' ' || c == '\t' || c == '\n' || c == '\r' || c == '\U{000B}' || c == '\U{000C}'
    || c == '\U{00A0}' || c == '\U{1680}' || ('\U{2000}' <= c <= '\U{200A}')
    || c == '\U{2028}' || c == '\U{2029}' || c == '\U{202F}' || c == '\U{205F}'
    || c == '\U{3000}' || c == '\U{FEFF}'
  }

  predicate AllWhitespace(s: string) {
    forall i :: 0 <= i < |s| ==> IsWhitespace(s[i])
  }

  /** Drops leading whitespace (the left half of `trim`). */
  function TrimStart(s: string): (r: string)
    ensures |r| <= |s| && r == s[|s| - |r|..]
    ensures r != [] ==> !IsWhitespace(r[0])
    ensures AllWhitespace(s[..|s| - |r|])
  {
    if s != [] && IsWhitespace(s[0]) then
      var r := TrimStart(s[1..]);
      TrimStartStep(s, r);
      r
    else s
  }

  /** What `TrimStart` promises for `s` without its first character, when
      that character is whitespace, holds for `s` too. */
  lemma TrimStartStep(s: string, r: string)
    requires s != [] && IsWhitespace(s[0])
    requires |r| <= |s| - 1 && r == s[1..][|s| - 1 - |r|..] && AllWhitespace(s[1..][..|s| - 1 - |r|])
    ensures r == s[|s| - |r|..] && AllWhitespace(s[..|s| - |r|])
  {
    assert s[1..][..|s[1..]| - |r|] == s[1..|s| - |r|];
  }

  /** Drops trailing whitespace (the right half of `trim`). */
  function TrimEnd(s: string): (r: string)
    ensures |r| <= |s| && r == s[..|r|]
    ensures r != [] ==> !IsWhitespace(r[|r| - 1])
    ensures AllWhitespace(s[|r|..])
  {
    if s != [] && IsWhitespace(s[|s| - 1]) then
      var r := TrimEnd(s[..|s| - 1]);
      TrimEndStep(s, r);
      r
    else s
  }

  /** What `TrimEnd` promises for `s` without its last character, when
      that character is whitespace, holds for `s` too. */
  lemma TrimEndStep(s: string, r: string)
    requires s != [] && IsWhitespace(s[|s| - 1])
    requires |r| <= |s| - 1 && r == s[..|s| - 1][..|r|] && AllWhitespace(s[..|s| - 1][|r|..])
    ensures r == s[..|r|] && AllWhitespace(s[|r|..])
  {
    assert s[..|s| - 1][|r|..] + [s[|s| - 1]] == s[|r|..];
  }

  /** `r` is the slice of `s` at `k`, with only whitespace on either side. */
  predicate Framed(s: string, k: int, r: string) {
    0 <= k <= |s| - |r| && r == s[k..k + |r|] && AllWhitespace(s[..k]) && AllWhitespace(s[k + |r|..])
  }

  /** JavaScript `s.trim()`: the longest slice of `s` that neither starts nor
      ends with whitespace, after removing only whitespace. */
  function Trim(s: string): (r: string)
    ensures |r| <= |s|
    ensures r != [] ==> !IsWhitespace(r[0]) && !IsWhitespace(r[|r| - 1])
    ensures Framed(s, |s| - |TrimStart(s)|, r)
  {
    var a := TrimStart(s);
    var r := TrimEnd(a);
    TrimParts(s, a, r);
    r
  }

  /** Trimming the end of a string whose start is trimmed keeps the start
      trimmed; both cuts are slices of the original. */
  lemma TrimParts(s: string, a: string, r: string)
    requires |a| <= |s| && a == s[|s| - |a|..] && AllWhitespace(s[..|s| - |a|])
    requires a != [] ==> !IsWhitespace(a[0])
    requires |r| <= |a| && r == a[..|r|] && AllWhitespace(a[|r|..])
    ensures r != [] ==> !IsWhitespace(r[0])
    ensures Framed(s, |s| - |a|, r)
  {
    var k := |s| - |a|;
    assert r == s[k..k + |r|];
    assert s[k + |r|..] == a[|r|..];
  }

  /** `!s.trim()` in JavaScript: the string is empty once trimmed. */
  predicate IsBlank(s: string) {
    Trim(s) == ""
  }

  lemma {:induction false} TrimStartEmpty(s: string)
    ensures TrimStart(s) == [] <==> AllWhitespace(s)
  {
    if s != [] && IsWhitespace(s[0]) {
      TrimStartEmpty(s[1..]);
      if AllWhitespace(s[1..]) {
        forall i | 0 <= i < |s| ensures IsWhitespace(s[i]) {
          if i > 0 { assert s[i] == s[1..][i - 1]; }
        }
      }
    }
  }

  /** A string is blank exactly when every character is whitespace. */
  lemma BlankIffAllWhitespace(s: string)
    ensures IsBlank(s) <==> AllWhitespace(s)
  {
    TrimStartEmpty(s);
    var a := TrimStart(s);
    assert a[0..] == a;
  }

  /** Trimming a string that has no whitespace at either end changes nothing. */
  lemma TrimOfTrimmed(s: string)
    requires s != [] ==> !IsWhitespace(s[0]) && !IsWhitespace(s[|s| - 1])
    ensures Trim(s) == s
  {
  }

  /** `s.replace(/\s+/g, " ")`: every maximal run of whitespace becomes a
      single space; all other characters are kept in order. */
  function Collapse(s: string): (r: string)
    ensures |r| <= |s|
    ensures s != [] ==> r != [] && (IsWhitespace(s[0]) <==> r[0] == ' ')
    ensures s != [] ==> (IsWhitespace(s[|s| - 1]) <==> r[|r| - 1] == ' ')
    ensures s != [] && !IsWhitespace(s[0]) ==> r[0] == s[0]
    ensures s != [] && !IsWhitespace(s[|s| - 1]) ==> r[|r| - 1] == s[|s| - 1]
  {
    if s == [] then ""
    else if IsWhitespace(s[0]) then
      (if |s| > 1 && IsWhitespace(s[1]) then Collapse(s[1..]) else " " + Collapse(s[1..]))
    else [s[0]] + Collapse(s[1..])
  }

  /** A whitespace run followed by a non-whitespace character (or by
      nothing) becomes exactly one space. */
  lemma {:induction false} CollapseRun(w: string, b: string)
    requires w != [] && AllWhitespace(w)
    requires b == [] || !IsWhitespace(b[0])
    ensures Collapse(w + b) == " " + Collapse(b)
  {
    var s := w + b;
    assert s[1..] == w[1..] + b;
    if |w| == 1 {
      assert w[1..] + b == b;
    } else {
      assert s[1] == w[1];
      CollapseRun(w[1..], b);
    }
  }

  /** A string whose only whitespace is single, non-adjacent spaces. */
  predicate Normalized(s: string) {
    (forall i :: 0 <= i < |s| && IsWhitespace(s[i]) ==> s[i] == ' ')
    && (forall i :: 0 <= i < |s| - 1 ==> !(IsWhitespace(s[i]) && IsWhitespace(s[i + 1])))
  }

  /** The characters of `s` that are not whitespace, in order. */
  function NonWhitespace(s: string): (r: string)
    ensures |r| <= |s|
  {
    if s == [] then "" else (if IsWhitespace(s[0]) then "" else [s[0]]) + NonWhitespace(s[1..])
  }

  /** Collapsing keeps every non-whitespace character, in order. */
  lemma {:induction false} CollapseKeepsText(s: string)
    ensures NonWhitespace(Collapse(s)) == NonWhitespace(s)
  {
    if s != [] {
      CollapseKeepsText(s[1..]);
      var t := Collapse(s[1..]);
      if IsWhitespace(s[0]) && !(|s| > 1 && IsWhitespace(s[1])) {
        assert (" " + t)[1..] == t;
      } else if !IsWhitespace(s[0]) {
        assert ([s[0]] + t)[1..] == t;
      }
    }
  }

  /** Collapsing produces a normalized string. */
  lemma {:induction false} CollapseNormalizes(s: string)
    ensures Normalized(Collapse(s))
  {
    if s != [] {
      CollapseNormalizes(s[1..]);
      var t := Collapse(s[1..]);
      if IsWhitespace(s[0]) && |s| > 1 && IsWhitespace(s[1]) {
      } else {
        var r := (if IsWhitespace(s[0]) then " " else [s[0]]) + t;
        assert r == Collapse(s);
        assert t != [] && IsWhitespace(s[0]) ==> !IsWhitespace(t[0]);
        forall i | 0 <= i < |r| ensures IsWhitespace(r[i]) ==> r[i] == ' ' {
          if i > 0 { assert r[i] == t[i - 1]; }
        }
        forall i | 0 <= i < |r| - 1 ensures !(IsWhitespace(r[i]) && IsWhitespace(r[i + 1])) {
          if i > 0 { assert r[i] == t[i - 1] && r[i + 1] == t[i]; }
        }
      }
    }
  }

  /** Collapsing a string that is already normalized changes nothing. */
  lemma {:induction false} CollapseOfNormalized(s: string)
    requires Normalized(s)
    ensures Collapse(s) == s
  {
    if s != [] {
      assert Normalized(s[1..]) by {
        var t := s[1..];
        forall i | 0 <= i < |t| - 1 ensures !(IsWhitespace(t[i]) && IsWhitespace(t[i + 1])) {
          assert t[i] == s[i + 1] && t[i + 1] == s[i + 2];
        }
      }
      CollapseOfNormalized(s[1..]);
      if IsWhitespace(s[0]) {
        assert s[0] == ' ';
        assert |s| > 1 ==> !IsWhitespace(s[1]);
      }
    }
  }

  /** ASCII lower-casing of one character; other characters are unchanged. */
  function LowerChar(c: char): (r: char)
    ensures 'A' <= c <= 'Z' ==> r as int == c as int + 32
    ensures !('A' <= c <= 'Z') ==> r == c
  {
    if 'A' <= c <= 'Z' then (c as int + 32) as char else c
  }

  /** `s.toLowerCase()`, restricted to the ASCII letters. */
  function Lower(s: string): (r: string)
    ensures |r| == |s|
    ensures forall i :: 0 <= i < |s| ==> r[i] == LowerChar(s[i])
  {
    if s == [] then [] else [LowerChar(s[0])] + Lower(s[1..])
  }

  /** `Lower(s)` is `t` when `t` lower-cases `s` character by character. */
  lemma LowerPointwise(s: string, t: string)
    requires |t| == |s| && forall i :: 0 <= i < |s| ==> LowerChar(s[i]) == t[i]
    ensures Lower(s) == t
  {
  }

  lemma LowerIdempotent(s: string)
    ensures Lower(Lower(s)) == Lower(s)
  {
  }

  /** `kw` occurs in `s` at position `i`. */
  predicate OccursAt(s: string, kw: string, i: int) {
    0 <= i <= |s| - |kw| && s[i..i + |kw|] == kw
  }

  /** `s.includes(kw)`: `kw` occurs in `s` at some position. */
  ghost predicate Contains(s: string, kw: string) {
    exists i :: OccursAt(s, kw, i)
  }

  /** `p` is a prefix of `s`, compared character by character. */
  function IsPrefix(p: string, s: string): (r: bool)
    ensures r <==> |p| <= |s| && s[..|p|] == p
  {
    p == [] || (s != [] && p[0] == s[0] && IsPrefix(p[1..], s[1..]))
  }

  /** Substring search as a scan over the start positions, so that concrete
      cases compute. */
  function ContainsScan(s: string, kw: string): (r: bool)
    ensures r <==> Contains(s, kw)
  {
    if IsPrefix(kw, s) then
      assert OccursAt(s, kw, 0);
      true
    else if s == [] then false
    else
      var r := ContainsScan(s[1..], kw);
      assert r ==> Contains(s, kw) by {
        if r {
          var i :| OccursAt(s[1..], kw, i);
          assert s[i + 1..i + 1 + |kw|] == s[1..][i..i + |kw|];
          assert OccursAt(s, kw, i + 1);
        }
      }
      assert Contains(s, kw) ==> r by {
        if Contains(s, kw) {
          var i :| OccursAt(s, kw, i);
          assert i != 0;
          assert s[1..][i - 1..i - 1 + |kw|] == s[i..i + |kw|];
          assert OccursAt(s[1..], kw, i - 1);
        }
      }
      r
  }

  /** `kws.some((kw) => s.includes(kw))`. */
  function ContainsAny(s: string, kws: seq<string>): (r: bool)
    ensures r <==> exists k :: 0 <= k < |kws| && Contains(s, kws[k])
  {
    if kws == [] then false
    else
      assert forall k :: 1 <= k < |kws| ==> kws[k] == kws[1..][k - 1];
      ContainsScan(s, kws[0]) || ContainsAny(s, kws[1..])
  }

  /** Code-point lexicographic order: `a` is a prefix of `b`, or `a` has
      the smaller character at the first place they differ. */
  predicate LexLe(a: string, b: string) {
    a == [] || (b != [] && (a[0] < b[0] || (a[0] == b[0] && LexLe(a[1..], b[1..]))))
  }

  lemma {:induction false} LexLeTotal(a: string, b: string)
    ensures LexLe(a, b) || LexLe(b, a)
  {
    if a != [] && b != [] && a[0] == b[0] {
      LexLeTotal(a[1..], b[1..]);
    }
  }

  lemma {:induction false} LexLeTransitive(a: string, b: string, c: string)
    requires LexLe(a, b) && LexLe(b, c)
    ensures LexLe(a, c)
  {
    if a != [] && a[0] == b[0] && b[0] == c[0] {
      LexLeTransitive(a[1..], b[1..], c[1..]);
    }
  }

  lemma {:induction false} LexLeAntisymmetric(a: string, b: string)
    requires LexLe(a, b) && LexLe(b, a)
    ensures a == b
  {
    if a != [] {
      LexLeAntisymmetric(a[1..], b[1..]);
      assert a == [a[0]] + a[1..] && b == [b[0]] + b[1..];
    }
  }

  /** `a.localeCompare(b)` reduced to its sign, under code-point order:
      negative when `a` sorts first, zero when equal, positive otherwise. */
  function LocaleCompare(a: string, b: string): (r: int)
    ensures r == -1 || r == 0 || r == 1
    ensures r == 0 <==> a == b
    ensures r <= 0 <==> LexLe(a, b)
  {
    LexLeTotal(a, b);
    if a == b then
      assert LexLe(a, a) by { LexLeReflexive(a); }
      0
    else if LexLe(a, b) then -1
    else 1
  }

  lemma {:induction false} LexLeReflexive(a: string)
    ensures LexLe(a, a)
  {
    if a != [] {
      LexLeReflexive(a[1..]);
    }
  }
}
