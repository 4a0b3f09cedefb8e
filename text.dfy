/** The JavaScript string operations the storefront's decision rules use:
    `toLowerCase`, `includes`, `join` and `trim`. Strings are sequences of
    UTF-16-free characters; case mapping covers ASCII and Latin-1 letters. */
module Text {

  /** `c.toLowerCase()` for ASCII letters and the Latin-1 capitals U+00C0–U+00DE
      (except the multiplication sign U+00D7), which is where the store's option
      names live ("TALLA", "TAMAÑO"). Every other character is left as it is. */
  function ToLowerChar(c: char): (r: char)
    ensures 'A' <= c <= 'Z' ==> 'a' <= r <= 'z'
    ensures !('A' <= c <= 'Z') && !('\U{C0}' <= c <= '\U{DE}') ==> r == c
  {
    if 'A' <= c <= 'Z' || ('\U{C0}' <= c <= '\U{DE}' && c != '\U{D7}') then
      (c as int + 32) as char
    else
      c
  }

  function ToLower(s: string): (r: string)
    ensures |r| == |s|
    ensures forall i :: 0 <= i < |s| ==> r[i] == ToLowerChar(s[i])
  {
    seq(|s|, i requires 0 <= i < |s| => ToLowerChar(s[i]))
  }

  /** `t` occurs in `s` at position `i`. */
  ghost predicate OccursAt(s: string, t: string, i: int) {
    0 <= i && i + |t| <= |s| && s[i..i + |t|] == t
  }

  predicate StartsWith(s: string, t: string) {
    |t| <= |s| && s[..|t|] == t
  }

  /** `s.includes(t)`. */
  predicate Contains(s: string, t: string)
    decreases |s|
  {
    StartsWith(s, t) || (s != [] && Contains(s[1..], t))
  }

  /** `Contains` finds exactly the occurrences of `t` in `s`. */
  lemma {:induction false} ContainsIff(s: string, t: string)
    ensures Contains(s, t) <==> exists i :: OccursAt(s, t, i)
    decreases |s|
  {
    if StartsWith(s, t) {
      assert OccursAt(s, t, 0);
    } else if s == [] {
    } else {
      ContainsIff(s[1..], t);
      if Contains(s[1..], t) {
        var i :| OccursAt(s[1..], t, i);
        assert s[1..][i..i + |t|] == s[i + 1..i + 1 + |t|];
        assert OccursAt(s, t, i + 1);
      }
      if exists i :: OccursAt(s, t, i) {
        var i :| OccursAt(s, t, i);
        assert i != 0;
        assert s[1..][i - 1..i - 1 + |t|] == s[i..i + |t|];
        assert OccursAt(s[1..], t, i - 1);
      }
    }
  }

  /** `xs.join(sep)`. */
  function Join(xs: seq<string>, sep: string): string
    decreases |xs|
  {
    if |xs| == 0 then ""
    else if |xs| == 1 then xs[0]
    else xs[0] + sep + Join(xs[1..], sep)
  }

  /** A needle without the separator's character occurs in the joined string
      exactly when it occurs in one of the parts: joining creates no new matches. */
  lemma {:induction false} JoinContains(xs: seq<string>, sep: char, t: string)
    requires t != [] && sep !in t
    ensures Contains(Join(xs, [sep]), t) <==> exists k :: 0 <= k < |xs| && Contains(xs[k], t)
    decreases |xs|
  {
    if |xs| == 0 {
      ContainsIff("", t);
    } else if |xs| == 1 {
    } else {
      JoinContains(xs[1..], sep, t);
      ConcatContains(xs[0], sep, Join(xs[1..], [sep]), t);
      assert Join(xs, [sep]) == xs[0] + [sep] + Join(xs[1..], [sep]);
      if exists k :: 0 <= k < |xs| && Contains(xs[k], t) {
        var k :| 0 <= k < |xs| && Contains(xs[k], t);
        if k > 0 {
          assert xs[1..][k - 1] == xs[k];
        }
      }
      if exists k :: 0 <= k < |xs[1..]| && Contains(xs[1..][k], t) {
        var k :| 0 <= k < |xs[1..]| && Contains(xs[1..][k], t);
        assert xs[k + 1] == xs[1..][k];
      }
    }
  }

  lemma ConcatContains(a: string, sep: char, b: string, t: string)
    requires t != [] && sep !in t
    ensures Contains(a + [sep] + b, t) <==> Contains(a, t) || Contains(b, t)
  {
    var s := a + [sep] + b;
    ContainsIff(s, t);
    ContainsIff(a, t);
    ContainsIff(b, t);
    if Contains(s, t) {
      var i :| OccursAt(s, t, i);
      OccurrenceSplits(a, sep, b, t, i);
    }
    if Contains(a, t) {
      var i :| OccursAt(a, t, i);
      SliceLeft(a, sep, b, i, |t|);
      assert OccursAt(s, t, i);
    }
    if Contains(b, t) {
      var i :| OccursAt(b, t, i);
      SliceRight(a, sep, b, i, |t|);
      assert OccursAt(s, t, i + |a| + 1);
    }
  }

  /** An occurrence in `a + [sep] + b` of a needle without `sep` lies inside `a` or inside `b`. */
  lemma OccurrenceSplits(a: string, sep: char, b: string, t: string, i: int)
    requires t != [] && sep !in t && OccursAt(a + [sep] + b, t, i)
    ensures OccursAt(a, t, i) || OccursAt(b, t, i - |a| - 1)
  {
    var s := a + [sep] + b;
    if i + |t| <= |a| {
      SliceLeft(a, sep, b, i, |t|);
    } else if i > |a| {
      SliceRight(a, sep, b, i - |a| - 1, |t|);
    } else {
      assert s[|a|] == sep;
      OccurrenceCovers(s, t, i, |a|);
      assert false;
    }
  }

  /** A slice inside the left part of `a + [sep] + b` is a slice of `a`. */
  lemma SliceLeft(a: string, sep: char, b: string, i: int, n: int)
    requires 0 <= i && 0 <= n && i + n <= |a|
    ensures (a + [sep] + b)[i..i + n] == a[i..i + n]
  {
    var s := a + [sep] + b;
    var x, y := s[i..i + n], a[i..i + n];
    forall k | 0 <= k < n
      ensures x[k] == y[k]
    {
      assert s[i + k] == a[i + k];
    }
  }

  /** A slice inside the right part of `a + [sep] + b` is a slice of `b`. */
  lemma SliceRight(a: string, sep: char, b: string, j: int, n: int)
    requires 0 <= j && 0 <= n && j + n <= |b|
    ensures (a + [sep] + b)[|a| + 1 + j..|a| + 1 + j + n] == b[j..j + n]
  {
    var s := a + [sep] + b;
    var x, y := s[|a| + 1 + j..|a| + 1 + j + n], b[j..j + n];
    forall k | 0 <= k < n
      ensures x[k] == y[k]
    {
      assert s[|a| + 1 + j + k] == b[j + k];
    }
  }

  lemma OccurrenceCovers(s: string, t: string, i: int, k: int)
    requires OccursAt(s, t, i) && i <= k < i + |t|
    ensures s[k] in t
  {
    assert s[k] == s[i..i + |t|][k - i];
  }

  /** The characters `String.prototype.trim` removes: ECMAScript WhiteSpace and
      LineTerminator code points. */
  predicate IsWhitespace(c: char) {
    c == '\t' || c == '\n' || c == '\U{0B}' || c == '\U{0C}' || c == '\r' || c == ' '
    || c == '\U{A0}' || c == '\U{1680}' || ('\U{2000}' <= c <= '\U{200A}')
    || c == '\U{2028}' || c == '\U{2029}' || c == '\U{202F}' || c == '\U{205F}'
    || c == '\U{3000}' || c == '\U{FEFF}'
  }

  function TrimStart(s: string): string
    decreases |s|
  {
    if s != [] && IsWhitespace(s[0]) then TrimStart(s[1..]) else s
  }

  function TrimEnd(s: string): string
    decreases |s|
  {
    if s != [] && IsWhitespace(s[|s| - 1]) then TrimEnd(s[..|s| - 1]) else s
  }

  /** `s.trim()`. */
  function Trim(s: string): string {
    TrimEnd(TrimStart(s))
  }

  ghost predicate AllWhitespace(s: string) {
    forall i :: 0 <= i < |s| ==> IsWhitespace(s[i])
  }

  lemma {:induction false} TrimStartEmpty(s: string)
    ensures TrimStart(s) == [] <==> AllWhitespace(s)
    decreases |s|
  {
    if s != [] && IsWhitespace(s[0]) {
      TrimStartEmpty(s[1..]);
      assert AllWhitespace(s) <==> AllWhitespace(s[1..]) by {
        if AllWhitespace(s[1..]) {
          forall i | 0 <= i < |s| ensures IsWhitespace(s[i]) {
            if i > 0 { assert s[i] == s[1..][i - 1]; }
          }
        }
      }
    }
  }

  lemma {:induction false} TrimEndKeepsContent(s: string)
    ensures TrimEnd(s) == [] ==> AllWhitespace(s)
    ensures s != [] && !IsWhitespace(s[0]) ==> TrimEnd(s) != []
    decreases |s|
  {
    if s != [] && IsWhitespace(s[|s| - 1]) {
      var p := s[..|s| - 1];
      TrimEndKeepsContent(p);
      if TrimEnd(s) == [] {
        forall i | 0 <= i < |s| ensures IsWhitespace(s[i]) {
          if i < |s| - 1 { assert s[i] == p[i]; }
        }
      }
      if !IsWhitespace(s[0]) {
        assert p != [] && p[0] == s[0];
      }
    }
  }

  /** `s.trim() !== ''` holds exactly when `s` has a non-whitespace character. */
  lemma TrimEmptyIff(s: string)
    ensures Trim(s) == [] <==> AllWhitespace(s)
  {
    TrimStartEmpty(s);
    var u := TrimStart(s);
    TrimStartShape(s);
    TrimEndKeepsContent(u);
  }

  lemma {:induction false} TrimStartShape(s: string)
    ensures TrimStart(s) == [] || !IsWhitespace(TrimStart(s)[0])
    decreases |s|
  {
    if s != [] && IsWhitespace(s[0]) {
      TrimStartShape(s[1..]);
    }
  }
}
