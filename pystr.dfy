/**
 * The Python string operations the dashboard relies on, with Python's
 * semantics: `strip`, `split(sep)[-1]` and `replace`.
 */
module PyStr {

  /** The characters Python's `str.isspace` accepts, which `str.strip()` removes. */
  const Whitespace: set<char> := {
    ' ', '\t', '\n', '\r', '\U{0B}', '\U{0C}',
    '\U{1C}', '\U{1D}', '\U{1E}', '\U{1F}', '\U{85}', '\U{A0}',
    '\U{1680}', '\U{2000}', '\U{2001}', '\U{2002}', '\U{2003}', '\U{2004}',
    '\U{2005}', '\U{2006}', '\U{2007}', '\U{2008}', '\U{2009}', '\U{200A}',
    '\U{2028}', '\U{2029}', '\U{202F}', '\U{205F}', '\U{3000}'
  }

  /** `s.lstrip(chars)`: drops the longest prefix made only of `chars`. */
  function LStrip(s: string, chars: set<char>): (r: string)
    ensures |r| <= |s| && r == s[|s| - |r|..]
    ensures forall k :: 0 <= k < |s| - |r| ==> s[k] in chars
    ensures r != [] ==> r[0] !in chars
  {
    if s != [] && s[0] in chars then LStrip(s[1..], chars) else s
  }

  /** `s.rstrip(chars)`: drops the longest suffix made only of `chars`. */
  function RStrip(s: string, chars: set<char>): (r: string)
    ensures |r| <= |s| && r == s[..|r|]
    ensures forall k :: |r| <= k < |s| ==> s[k] in chars
    ensures r != [] ==> r[|r| - 1] !in chars
  {
    if s != [] && s[|s| - 1] in chars then RStrip(s[..|s| - 1], chars) else s
  }

  /**
   * `s.strip(chars)`: what is left between the longest prefix and the
   * longest suffix made only of `chars`.
   */
  function Strip(s: string, chars: set<char>): (r: string)
    ensures |r| <= |s|
    ensures forall c :: c in r ==> c in s
    ensures r != [] ==> r[0] !in chars && r[|r| - 1] !in chars
    ensures r == [] <==> forall k :: 0 <= k < |s| ==> s[k] in chars
    ensures s == [] || (s[0] !in chars && s[|s| - 1] !in chars) ==> r == s
    ensures IsStrippedOf(s, chars, r)
  {
    var l := LStrip(s, chars);
    var r := RStrip(l, chars);
    StrippedMiddle(s, chars, l, r);
    r
  }

  /**
   * What `lstrip` then `rstrip` leave: a slice of `s` with only stripped
   * characters around it and none at its ends, empty exactly when all of
   * `s` is stripped.
   */
  lemma StrippedMiddle(s: string, chars: set<char>, l: string, r: string)
    requires |l| <= |s| && l == s[|s| - |l|..] && forall k :: 0 <= k < |s| - |l| ==> s[k] in chars
    requires l != [] ==> l[0] !in chars
    requires |r| <= |l| && r == l[..|r|] && forall k :: |r| <= k < |l| ==> l[k] in chars
    requires r != [] ==> r[|r| - 1] !in chars
    ensures forall c :: c in r ==> c in s
    ensures r != [] ==> r[0] !in chars
    ensures r == [] <==> forall k :: 0 <= k < |s| ==> s[k] in chars
    ensures s == [] || (s[0] !in chars && s[|s| - 1] !in chars) ==> r == s
    ensures IsStrippedOf(s, chars, r)
  {
    var a := |s| - |l|;
    var b := a + |r|;
    assert l == s[a..] && r == l[..|r|];
    assert r == s[a..b];
    forall k | b <= k < |s|
      ensures s[k] in chars
    {
      assert s[k] == l[k - a];
    }
    assert StrippedSlice(s, chars, r, a, b);
    if r != [] {
      assert r[0] == l[0] == s[a];
    }
    if s != [] && s[0] !in chars && s[|s| - 1] !in chars {
      assert a == 0 && b == |s|;
    }
    assert IsStrippedOf(s, chars, r);
  }

  /**
   * `r` is what stripping `chars` from both ends of `s` leaves: a slice
   * of `s` with only characters of `chars` around it and none at its ends.
   */
  ghost predicate IsStrippedOf(s: string, chars: set<char>, r: string) {
    && (exists a, b :: StrippedSlice(s, chars, r, a, b))
    && (r != [] ==> r[0] !in chars && r[|r| - 1] !in chars)
  }

  /** The description fixes the stripped text: at most one text meets it. */
  lemma StrippedUnique(s: string, chars: set<char>, x: string, y: string)
    requires IsStrippedOf(s, chars, x) && IsStrippedOf(s, chars, y)
    ensures x == y
  {
    var a, b :| StrippedSlice(s, chars, x, a, b);
    var c, d :| StrippedSlice(s, chars, y, c, d);
    if x != [] {
      assert s[a] == x[0];
      assert c <= a < d;
    }
    if y != [] {
      assert s[c] == y[0];
      assert a <= c < b;
    }
    if x != [] && y != [] {
      assert s[b - 1] == x[|x| - 1] && s[d - 1] == y[|y| - 1];
      assert a == c && b == d;
    }
  }

  /** `r` is `s[a..b]`, and only characters of `chars` lie outside it. */
  ghost predicate StrippedSlice(s: string, chars: set<char>, r: string, a: int, b: int) {
    && 0 <= a <= b <= |s| && r == s[a..b]
    && (forall k :: 0 <= k < a ==> s[k] in chars)
    && (forall k :: b <= k < |s| ==> s[k] in chars)
  }

  /**
   * `s.split(sep)[-1]`: the text after the last `sep`, or all of `s` when
   * `sep` does not occur. It is the longest suffix of `s` free of `sep`.
   */
  function AfterLast(s: string, sep: char): (r: string)
    ensures sep !in r
    ensures |r| <= |s| && r == s[|s| - |r|..]
    ensures |r| < |s| ==> s[|s| - |r| - 1] == sep
    ensures sep !in s ==> r == s
  {
    if s == [] then []
    else if s[|s| - 1] == sep then []
    else
      var front := s[..|s| - 1];
      var t := AfterLast(front, sep);
      assert s == front + [s[|s| - 1]];
      assert t + [s[|s| - 1]] == s[|s| - |t| - 1..];
      t + [s[|s| - 1]]
  }

  /** `pat` occurs somewhere in `s` as a contiguous substring. */
  predicate Occurs(pat: string, s: string) {
    exists i :: 0 <= i <= |s| && pat <= s[i..]
  }

  /**
   * `s.replace(pat, rep)` for a non-empty `pat`: replaces every
   * non-overlapping occurrence, scanning from the left.
   */
  function Replace(s: string, pat: string, rep: string): (r: string)
    requires pat != []
    ensures |rep| <= |pat| ==> |r| <= |s|
    ensures forall c :: c in r ==> c in s || c in rep
    decreases |s|
  {
    if |s| < |pat| then s
    else if s[..|pat|] == pat then rep + Replace(s[|pat|..], pat, rep)
    else [s[0]] + Replace(s[1..], pat, rep)
  }

  /** Replacing a pattern that does not occur leaves the text unchanged. */
  lemma {:induction false} ReplaceAbsent(s: string, pat: string, rep: string)
    requires pat != [] && !Occurs(pat, s)
    ensures Replace(s, pat, rep) == s
    decreases |s|
  {
    if |s| >= |pat| {
      assert !(pat <= s[0..]);
      var t := s[1..];
      forall i | 0 <= i <= |t|
        ensures !(pat <= t[i..])
      {
        assert t[i..] == s[i + 1..];
      }
      ReplaceAbsent(t, pat, rep);
      assert [s[0]] + t == s;
    }
  }

  /**
   * When the last character of `pat` appears nowhere else in it, a
   * non-empty text free of `pat` followed by `pat` does not start with `pat`.
   */
  lemma NoMatchAtFront(name: string, pat: string)
    requires pat != [] && pat[|pat| - 1] !in pat[..|pat| - 1]
    requires name != [] && !Occurs(pat, name)
    ensures (name + pat)[..|pat|] != pat
  {
    var s := name + pat;
    if |name| >= |pat| {
      assert name[0..] == name;
      assert s[..|pat|] == name[..|pat|];
    } else {
      var k := |pat| - 1 - |name|;
      assert s[|pat| - 1] == pat[k];
      assert pat[k] in pat[..|pat| - 1];
    }
  }

  /**
   * Removing every occurrence of `pat` from a text free of `pat` followed
   * by `pat` gives back the text, when the last character of `pat` appears
   * nowhere else in it.
   */
  lemma {:induction false} RemoveAppended(name: string, pat: string)
    requires pat != [] && pat[|pat| - 1] !in pat[..|pat| - 1]
    requires !Occurs(pat, name)
    ensures Replace(name + pat, pat, "") == name
    decreases |name|
  {
    var s := name + pat;
    if name == [] {
      assert s[..|pat|] == pat && s[|pat|..] == [];
    } else {
      NoMatchAtFront(name, pat);
      var rest := name[1..];
      forall i | 0 <= i <= |rest|
        ensures !(pat <= rest[i..])
      {
        assert rest[i..] == name[i + 1..];
      }
      RemoveAppended(rest, pat);
      assert s[1..] == rest + pat;
      assert [name[0]] + rest == name;
    }
  }
}
