/** The Python `str` operations the dashboard, the CSV reader and the report
    generator rely on: `strip`/`rstrip` (with and without a character set),
    `split` on a one-character separator, `join`, `replace` of one character,
    `startswith`. Strings are sequences of Unicode scalar values. */
module Cadenas {

  /** The characters Python's `str.isspace` accepts: these are what a bare
      `strip()` or `rstrip()` removes. */
  const Blancos: set<char> := {
    ' ', '\t', '\n', '\r', '\U{000B}', '\U{000C}',
    '\U{001C}', '\U{001D}', '\U{001E}', '\U{001F}', '\U{0085}', '\U{00A0}',
    '\U{1680}', '\U{2000}', '\U{2001}', '\U{2002}', '\U{2003}', '\U{2004}',
    '\U{2005}', '\U{2006}', '\U{2007}', '\U{2008}', '\U{2009}', '\U{200A}',
    '\U{2028}', '\U{2029}', '\U{202F}', '\U{205F}', '\U{3000}'
  }

  predicate EsBlanco(s: string) {
    forall k :: 0 <= k < |s| ==> s[k] in Blancos
  }

  /** `s.lstrip(cs)`: drop leading characters that belong to `cs`. */
  function LStripSet(s: string, cs: set<char>): string {
    if s != [] && s[0] in cs then LStripSet(s[1..], cs) else s
  }

  /** `lstrip` keeps a suffix that does not start with a character of `cs`,
      and every character it drops is in `cs`. */
  lemma {:induction false} LStripSetSpec(s: string, cs: set<char>)
    ensures var r := LStripSet(s, cs);
      |r| <= |s| && r == s[|s| - |r|..]
      && (r != [] ==> r[0] !in cs)
      && (forall k :: 0 <= k < |s| - |r| ==> s[k] in cs)
  {
    if s != [] && s[0] in cs {
      LStripSetSpec(s[1..], cs);
      var r := LStripSet(s, cs);
      assert forall k :: 1 <= k < |s| - |r| ==> s[k] == s[1..][k - 1];
    }
  }

  /** `s.rstrip(cs)`: drop trailing characters that belong to `cs`. */
  function RStripSet(s: string, cs: set<char>): string {
    if s != [] && s[|s| - 1] in cs then RStripSet(s[..|s| - 1], cs) else s
  }

  /** `rstrip` keeps a prefix that does not end with a character of `cs`,
      and every character it drops is in `cs`. */
  lemma {:induction false} RStripSetSpec(s: string, cs: set<char>)
    ensures var r := RStripSet(s, cs);
      |r| <= |s| && r == s[..|r|]
      && (r != [] ==> r[|r| - 1] !in cs)
      && (forall k :: |r| <= k < |s| ==> s[k] in cs)
  {
    if s != [] && s[|s| - 1] in cs {
      RStripSetSpec(s[..|s| - 1], cs);
    }
  }

  /** `s.strip(cs)`: both ends. */
  function StripSet(s: string, cs: set<char>): string {
    LStripSet(RStripSet(s, cs), cs)
  }

  /** `s.strip()` */
  function Strip(s: string): string {
    StripSet(s, Blancos)
  }

  /** `s.rstrip()` */
  function RStrip(s: string): string {
    RStripSet(s, Blancos)
  }

  /** What `strip` keeps is the middle of the string: a slice `s[i..j]`
      with nothing of `cs` at either end, and everything cut off belongs
      to `cs`. */
  lemma StripSetIsSlice(s: string, cs: set<char>)
    ensures var r := StripSet(s, cs);
      exists i, j :: 0 <= i <= j <= |s| && r == s[i..j]
        && (forall k :: 0 <= k < i ==> s[k] in cs)
        && (forall k :: j <= k < |s| ==> s[k] in cs)
        && (r != [] ==> r[0] !in cs && r[|r| - 1] !in cs)
  {
    var m := RStripSet(s, cs);
    var r := LStripSet(m, cs);
    RStripSetSpec(s, cs);
    LStripSetSpec(m, cs);
    var i, j := |m| - |r|, |m|;
    assert r == m[i..] == s[i..j];
    assert forall k :: 0 <= k < i ==> s[k] == m[k];
    assert forall k :: 0 <= k < i ==> s[k] in cs;
    if r != [] {
      assert r[|r| - 1] == m[|m| - 1];
    }
  }

  lemma {:induction false} LStripSetOfPrefix(p: string, s: string, cs: set<char>)
    requires forall k :: 0 <= k < |p| ==> p[k] in cs
    ensures LStripSet(p + s, cs) == LStripSet(s, cs)
  {
    if p != [] {
      assert (p + s)[0] == p[0];
      assert (p + s)[1..] == p[1..] + s;
      LStripSetOfPrefix(p[1..], s, cs);
    } else {
      assert p + s == s;
    }
  }

  lemma {:induction false} RStripSetOfSuffix(s: string, q: string, cs: set<char>)
    requires forall k :: 0 <= k < |q| ==> q[k] in cs
    ensures RStripSet(s + q, cs) == RStripSet(s, cs)
  {
    if q != [] {
      assert (s + q)[|s + q| - 1] == q[|q| - 1];
      assert (s + q)[..|s + q| - 1] == s + q[..|q| - 1];
      RStripSetOfSuffix(s, q[..|q| - 1], cs);
    } else {
      assert s + q == s;
    }
  }

  /** Characters of `cs` around a string make no difference to `strip`. */
  lemma StripSetIgnoresSurrounding(p: string, s: string, q: string, cs: set<char>)
    requires forall k :: 0 <= k < |p| ==> p[k] in cs
    requires forall k :: 0 <= k < |q| ==> q[k] in cs
    ensures StripSet(p + s + q, cs) == StripSet(s, cs)
  {
    RStripSetOfSuffix(p + s, q, cs);
    var m := RStripSet(s, cs);
    RStripSetOfPrefixKeeps(p, s, cs);
    assert RStripSet(p + s, cs) == p + m || (m == [] && RStripSet(p + s, cs) == RStripSet(p, cs));
    if RStripSet(p + s, cs) == p + m {
      LStripSetOfPrefix(p, m, cs);
    } else {
      RStripSetSpec(p, cs);
      LStripSetOfPrefix(RStripSet(p, cs), [], cs);
      assert RStripSet(p, cs) + [] == RStripSet(p, cs);
      assert LStripSet(RStripSet(p, cs), cs) == [];
    }
  }

  /** Right-stripping `p + s` either keeps all of `p` (when something of
      `s` survives) or strips into `p` (when all of `s` goes). */
  lemma {:induction false} RStripSetOfPrefixKeeps(p: string, s: string, cs: set<char>)
    ensures RStripSet(s, cs) != [] ==> RStripSet(p + s, cs) == p + RStripSet(s, cs)
    ensures RStripSet(s, cs) == [] ==> RStripSet(p + s, cs) == RStripSet(p, cs)
  {
    if s == [] {
      assert p + s == p;
    } else if s[|s| - 1] in cs {
      assert (p + s)[..|p + s| - 1] == p + s[..|s| - 1];
      RStripSetOfPrefixKeeps(p, s[..|s| - 1], cs);
    }
  }

  /** Stripping twice is stripping once. */
  lemma StripSetIdempotent(s: string, cs: set<char>)
    ensures StripSet(StripSet(s, cs), cs) == StripSet(s, cs)
  {
    var m := RStripSet(s, cs);
    var r := LStripSet(m, cs);
    RStripSetSpec(s, cs);
    LStripSetSpec(m, cs);
    if r != [] {
      assert r[|r| - 1] == m[|m| - 1];
    }
  }

  /** `s.startswith(p)` */
  predicate StartsWith(s: string, p: string) {
    |p| <= |s| && s[..|p|] == p
  }

  /** Number of occurrences of `c` in `s`. */
  function Count(s: string, c: char): (n: nat)
    ensures n <= |s|
  {
    if s == [] then 0 else (if s[0] == c then 1 else 0) + Count(s[1..], c)
  }

  lemma {:induction false} CountAppend(a: string, b: string, c: char)
    ensures Count(a + b, c) == Count(a, c) + Count(b, c)
  {
    if a != [] {
      assert (a + b)[0] == a[0];
      assert (a + b)[1..] == a[1..] + b;
      CountAppend(a[1..], b, c);
    } else {
      assert a + b == b;
    }
  }

  lemma {:induction false} CountZero(s: string, c: char)
    ensures Count(s, c) == 0 <==> c !in s
  {
    if s != [] {
      CountZero(s[1..], c);
      assert s == [s[0]] + s[1..];
    }
  }

  /** `s.replace(a, b)` for one-character `a` and `b`. */
  function ReplaceChar(s: string, a: char, b: char): string {
    if s == [] then [] else [if s[0] == a then b else s[0]] + ReplaceChar(s[1..], a, b)
  }

  /** `replace` works character by character and keeps the length. */
  lemma {:induction false} ReplaceCharSpec(s: string, a: char, b: char)
    ensures |ReplaceChar(s, a, b)| == |s|
    ensures forall k :: 0 <= k < |s| ==> ReplaceChar(s, a, b)[k] == if s[k] == a then b else s[k]
  {
    if s != [] {
      ReplaceCharSpec(s[1..], a, b);
      assert forall k :: 1 <= k < |s| ==> ReplaceChar(s, a, b)[k] == ReplaceChar(s[1..], a, b)[k - 1];
    }
  }

  /** `s.replace(c, '')` */
  function RemoveChar(s: string, c: char): string {
    if s == [] then [] else (if s[0] == c then [] else [s[0]]) + RemoveChar(s[1..], c)
  }

  /** `replace(c, '')` leaves no `c` and is shorter by the number of `c`. */
  lemma {:induction false} RemoveCharSpec(s: string, c: char)
    ensures c !in RemoveChar(s, c)
    ensures |RemoveChar(s, c)| + Count(s, c) == |s|
  {
    if s != [] {
      RemoveCharSpec(s[1..], c);
    }
  }

  lemma {:induction false} RemoveCharCount(s: string, c: char, d: char)
    requires d != c
    ensures Count(RemoveChar(s, c), d) == Count(s, d)
  {
    if s != [] {
      RemoveCharCount(s[1..], c, d);
      CountAppend(if s[0] == c then [] else [s[0]], RemoveChar(s[1..], c), d);
    }
  }

  lemma {:induction false} ReplaceCharCount(s: string, a: char, b: char)
    requires a != b
    ensures Count(ReplaceChar(s, a, b), b) == Count(s, a) + Count(s, b)
    ensures Count(ReplaceChar(s, a, b), a) == 0
  {
    if s != [] {
      ReplaceCharCount(s[1..], a, b);
      assert ReplaceChar(s, a, b)[1..] == ReplaceChar(s[1..], a, b);
    }
  }

  /** `sep.join(xs)` */
  function Join(xs: seq<string>, sep: string): string {
    if xs == [] then "" else if |xs| == 1 then xs[0] else xs[0] + sep + Join(xs[1..], sep)
  }

  /** `s.split(sep)` for a one-character separator: never empty, and an
      empty input gives one empty field. */
  function Split(s: string, sep: char): (r: seq<string>)
    ensures |r| >= 1
  {
    if s == [] then [""]
    else
      var rest := Split(s[1..], sep);
      if s[0] == sep then [""] + rest else [[s[0]] + rest[0]] + rest[1..]
  }

  /** `split` and `join` are inverse: joining the fields with the separator
      gives back the string, there is one more field than separators, and
      no field holds the separator. */
  lemma {:induction false} SplitJoin(s: string, sep: char)
    ensures Join(Split(s, sep), [sep]) == s
    ensures |Split(s, sep)| == Count(s, sep) + 1
    ensures forall f :: f in Split(s, sep) ==> sep !in f
  {
    if s != [] {
      var rest := Split(s[1..], sep);
      SplitJoin(s[1..], sep);
      if s[0] == sep {
        assert Split(s, sep) == [""] + rest;
        assert s == [sep] + s[1..];
      } else {
        var r := Split(s, sep);
        assert r == [[s[0]] + rest[0]] + rest[1..];
        if |rest| == 1 {
          assert s == [s[0]] + rest[0];
        } else {
          assert rest == [rest[0]] + rest[1..];
          assert Join(rest, [sep]) == rest[0] + [sep] + Join(rest[1..], [sep]);
          assert s == [s[0]] + s[1..];
        }
        forall f | f in r ensures sep !in f {
          if f == r[0] {
            assert rest[0] in rest;
          } else {
            assert f in rest;
          }
        }
      }
    }
  }

  /** A string strips to nothing exactly when it is all whitespace. */
  lemma StripEmptyIffBlank(s: string)
    ensures Strip(s) == "" <==> EsBlanco(s)
  {
    StripSetIsSlice(s, Blancos);
  }

  lemma CountOfNoneOf(s: string, c: char, cs: set<char>)
    requires c !in cs
    requires forall k :: 0 <= k < |s| ==> s[k] in cs
    ensures Count(s, c) == 0
  {
    CountZero(s, c);
  }

  /** Stripping characters of `cs` leaves the number of any other
      character unchanged. */
  lemma CountStripSet(s: string, cs: set<char>, c: char)
    requires c !in cs
    ensures Count(RStripSet(s, cs), c) == Count(s, c)
    ensures Count(StripSet(s, cs), c) == Count(s, c)
  {
    var m := RStripSet(s, cs);
    RStripSetSpec(s, cs);
    assert s == m + s[|m|..];
    CountAppend(m, s[|m|..], c);
    CountOfNoneOf(s[|m|..], c, cs);
    var r := LStripSet(m, cs);
    LStripSetSpec(m, cs);
    var i := |m| - |r|;
    assert m == m[..i] + r;
    CountAppend(m[..i], r, c);
    CountOfNoneOf(m[..i], c, cs);
  }

  lemma {:induction false} SplitWithoutSep(s: string, sep: char)
    requires sep !in s
    ensures Split(s, sep) == [s]
  {
    if s != [] {
      assert s[1..] == s[|s| - |s[1..]|..];
      assert sep !in s[1..];
      SplitWithoutSep(s[1..], sep);
      assert s[0] != sep;
      assert [s[0]] + s[1..] == s;
    }
  }

  /** The text before the first separator is the first field. */
  lemma {:induction false} SplitAtFirst(a: string, sep: char, b: string)
    requires sep !in a
    ensures Split(a + [sep] + b, sep) == [a] + Split(b, sep)
  {
    var s := a + [sep] + b;
    if a == [] {
      assert s == [sep] + b;
      assert s[1..] == b;
    } else {
      assert s[0] == a[0];
      assert s[1..] == a[1..] + [sep] + b;
      assert sep !in a[1..] by { assert forall k :: 0 <= k < |a| - 1 ==> a[1..][k] == a[k + 1]; }
      SplitAtFirst(a[1..], sep, b);
      assert [a[0]] + a[1..] == a;
    }
  }

  /** Joining with a separator that no piece holds and splitting again
      gives back the pieces. */
  lemma {:induction false} JoinSplit(xs: seq<string>, sep: char)
    requires xs != []
    requires forall k :: 0 <= k < |xs| ==> sep !in xs[k]
    ensures Split(Join(xs, [sep]), sep) == xs
  {
    if |xs| == 1 {
      SplitWithoutSep(xs[0], sep);
    } else {
      JoinSplit(xs[1..], sep);
      assert Join(xs, [sep]) == xs[0] + [sep] + Join(xs[1..], [sep]);
      SplitAtFirst(xs[0], sep, Join(xs[1..], [sep]));
      assert xs == [xs[0]] + xs[1..];
    }
  }
}
