/** The Python string operations the data-preparation code is built from,
    with the semantics of CPython's `str` methods: `split` on an explicit
    one-character separator, `join`, `replace`, `strip`, `rstrip`, `upper`,
    and POSIX `os.path.join` of two components. */
module PyStrings {

  // ---------------------------------------------------------------------
  // str.split(sep) and sep.join(parts)
  // ---------------------------------------------------------------------

  /** `s.split(sep)`: the pieces between occurrences of `sep`, empty pieces
      included; the empty string splits into one empty piece. */
  function Split(s: string, sep: char): (r: seq<string>)
    ensures |r| >= 1
    ensures forall i :: 0 <= i < |r| ==> sep !in r[i]
    decreases |s|
  {
    if s == [] then [""]
    else if s[0] == sep then [""] + Split(s[1..], sep)
    else
      var rest := Split(s[1..], sep);
      [[s[0]] + rest[0]] + rest[1..]
  }

  /** `sep.join(xs)`. */
  function Join(sep: string, xs: seq<string>): string
    decreases |xs|
  {
    if xs == [] then ""
    else if |xs| == 1 then xs[0]
    else xs[0] + sep + Join(sep, xs[1..])
  }

  /** The last element, `xs[-1]`. */
  function Last<T>(xs: seq<T>): T
    requires |xs| > 0
  {
    xs[|xs| - 1]
  }

  /** A join ends with its last part. */
  lemma {:induction false} JoinEndsWith(sep: string, xs: seq<string>)
    requires |xs| >= 1
    ensures |Last(xs)| <= |Join(sep, xs)|
    ensures Join(sep, xs)[|Join(sep, xs)| - |Last(xs)|..] == Last(xs)
    decreases |xs|
  {
    if |xs| > 1 {
      JoinEndsWith(sep, xs[1..]);
      assert Last(xs[1..]) == Last(xs);
    }
  }

  lemma JoinCons(sep: string, c: char, xs: seq<string>)
    requires |xs| > 0
    ensures Join(sep, [[c] + xs[0]] + xs[1..]) == [c] + Join(sep, xs)
  {
    var ys := [[c] + xs[0]] + xs[1..];
    assert ys[1..] == xs[1..];
  }

  /** Joining the pieces of a split with the same separator gives back the
      original string. */
  lemma {:induction false} JoinSplit(s: string, sep: char)
    ensures Join([sep], Split(s, sep)) == s
    decreases |s|
  {
    if s == [] {
    } else if s[0] == sep {
      JoinSplit(s[1..], sep);
      var rest := Split(s[1..], sep);
      assert ([""] + rest)[1..] == rest;
    } else {
      JoinSplit(s[1..], sep);
      JoinCons([sep], s[0], Split(s[1..], sep));
    }
  }

  lemma {:induction false} SplitNoSep(s: string, sep: char)
    requires sep !in s
    ensures Split(s, sep) == [s]
    decreases |s|
  {
    if s != [] {
      assert sep !in s[1..];
      SplitNoSep(s[1..], sep);
      assert [s[0]] + s[1..] == s;
    }
  }

  /** There is one more piece than there are separators. */
  lemma {:induction false} SplitLength(s: string, sep: char)
    ensures |Split(s, sep)| == multiset(s)[sep] + 1
    decreases |s|
  {
    if s != [] {
      SplitLength(s[1..], sep);
      assert s == [s[0]] + s[1..];
      assert multiset(s) == multiset{s[0]} + multiset(s[1..]);
    }
  }

  /** A separator splits a string into the pieces of its two sides. */
  lemma {:induction false} SplitAroundSep(a: string, sep: char, b: string)
    ensures Split(a + [sep] + b, sep) == Split(a, sep) + Split(b, sep)
    decreases |a|
  {
    if a == [] {
      assert a + [sep] + b == [sep] + b;
      assert ([sep] + b)[1..] == b;
    } else {
      var s := a + [sep] + b;
      assert s[1..] == a[1..] + [sep] + b;
      SplitAroundSep(a[1..], sep, b);
      if a[0] == sep {
      } else {
        var ra := Split(a[1..], sep);
        var rs := Split(s[1..], sep);
        assert rs == ra + Split(b, sep);
        assert rs[0] == ra[0];
        assert rs[1..] == ra[1..] + Split(b, sep);
      }
    }
  }

  /** Splitting a join gives back the parts, when no part contains the
      separator. */
  lemma {:induction false} SplitJoin(xs: seq<string>, sep: char)
    requires |xs| >= 1
    requires forall i :: 0 <= i < |xs| ==> sep !in xs[i]
    ensures Split(Join([sep], xs), sep) == xs
    decreases |xs|
  {
    if |xs| == 1 {
      SplitNoSep(xs[0], sep);
    } else {
      SplitJoin(xs[1..], sep);
      SplitNoSep(xs[0], sep);
      SplitAroundSep(xs[0], sep, Join([sep], xs[1..]));
      assert xs[0] + [sep] + Join([sep], xs[1..]) == Join([sep], xs);
      assert [xs[0]] + xs[1..] == xs;
    }
  }

  // ---------------------------------------------------------------------
  // str.replace(pat, rep)
  // ---------------------------------------------------------------------

  /** `pat` occurs in `s` starting at index `i`. */
  ghost predicate OccursAt(s: string, pat: string, i: int) {
    0 <= i && i + |pat| <= |s| && s[i..i + |pat|] == pat
  }

  /** `s.replace(pat, rep)`: one left-to-right scan that replaces each
      non-overlapping occurrence of `pat`; the output is not scanned again. */
  function Replace(s: string, pat: string, rep: string): string
    requires |pat| > 0
    decreases |s|
  {
    if |s| < |pat| then s
    else if s[..|pat|] == pat then rep + Replace(s[|pat|..], pat, rep)
    else [s[0]] + Replace(s[1..], pat, rep)
  }

  /** With no occurrence of `pat`, replacing leaves the string unchanged. */
  lemma {:induction false} ReplaceAbsent(s: string, pat: string, rep: string)
    requires |pat| > 0
    requires forall i :: !OccursAt(s, pat, i)
    ensures Replace(s, pat, rep) == s
    decreases |s|
  {
    if |s| >= |pat| {
      assert !OccursAt(s, pat, 0);
      forall i ensures !OccursAt(s[1..], pat, i) {
        assert !OccursAt(s, pat, i + 1);
        if 0 <= i && i + |pat| <= |s[1..]| {
          assert s[1..][i..i + |pat|] == s[i + 1..i + 1 + |pat|];
        }
      }
      ReplaceAbsent(s[1..], pat, rep);
    }
  }

  /** When `pat` occurs in `b + pat` only at the end, replacing it by `rep`
      rewrites just that suffix. */
  lemma {:induction false} ReplaceSuffix(b: string, pat: string, rep: string)
    requires |pat| > 0
    requires forall i :: 0 <= i < |b| ==> !OccursAt(b + pat, pat, i)
    ensures Replace(b + pat, pat, rep) == b + rep
    decreases |b|
  {
    var s := b + pat;
    if b == [] {
      assert s == pat;
      assert s[|pat|..] == [];
    } else {
      assert !OccursAt(s, pat, 0);
      var t := b[1..] + pat;
      assert s[1..] == t;
      forall i | 0 <= i < |b[1..]| ensures !OccursAt(t, pat, i) {
        assert !OccursAt(s, pat, i + 1);
        assert t[i..i + |pat|] == s[i + 1..i + 1 + |pat|];
      }
      ReplaceSuffix(b[1..], pat, rep);
      assert Replace(s, pat, rep) == [s[0]] + Replace(t, pat, rep);
      assert [b[0]] + (b[1..] + rep) == b + rep;
    }
  }

  // ---------------------------------------------------------------------
  // str.strip(), str.rstrip(chars), str.upper()
  // ---------------------------------------------------------------------

  /** The characters `str.isspace` accepts. */
  predicate IsSpace(c: char) {
    || c == ' ' || ('\t' <= c <= '\r') || ('\U{1c}' <= c <= '\U{1f}')
    || c == '\U{85}' || c == '\U{a0}' || c == '\U{1680}'
    || ('\U{2000}' <= c <= '\U{200a}') || c == '\U{2028}' || c == '\U{2029}'
    || c == '\U{202f}' || c == '\U{205f}' || c == '\U{3000}'
  }

  /** The length of the longest prefix of `s` made of characters in `P`. */
  function LeadingCount(s: string, P: char -> bool): (n: nat)
    ensures n <= |s|
    ensures forall i :: 0 <= i < n ==> P(s[i])
    ensures n < |s| ==> !P(s[n])
    decreases |s|
  {
    if s == [] || !P(s[0]) then 0 else 1 + LeadingCount(s[1..], P)
  }

  /** The length of the longest suffix of `s` made of characters in `P`. */
  function TrailingCount(s: string, P: char -> bool): (n: nat)
    ensures n <= |s|
    ensures forall i :: |s| - n <= i < |s| ==> P(s[i])
    ensures n < |s| ==> !P(s[|s| - 1 - n])
    decreases |s|
  {
    if s == [] || !P(s[|s| - 1]) then 0 else 1 + TrailingCount(s[..|s| - 1], P)
  }

  /** `s.strip()`: `s` without its leading and trailing white space. */
  function Strip(s: string): (r: string)
    ensures |r| <= |s|
    ensures |r| > 0 ==> !IsSpace(r[0]) && !IsSpace(r[|r| - 1])
  {
    var a := LeadingCount(s, IsSpace);
    var t := s[a..];
    t[..|t| - TrailingCount(t, IsSpace)]
  }

  /** A line read from a file keeps its newline; stripping it gives back the
      text, when the text neither starts nor ends with white space. */
  lemma StripNewline(s: string)
    requires |s| > 0 && !IsSpace(s[0]) && !IsSpace(s[|s| - 1])
    ensures Strip(s + "\n") == s
  {
    var t := s + "\n";
    assert LeadingCount(t, IsSpace) == 0;
    assert t[..|t| - 1] == s;
    assert TrailingCount(t[..|t| - 1], IsSpace) == 0;
  }

  /** `s.rstrip(c)` for a one-character argument. */
  function RStrip(s: string, c: char): (r: string)
    ensures |r| <= |s| && r == s[..|r|]
    ensures |r| > 0 ==> r[|r| - 1] != c
    ensures forall i :: |r| <= i < |s| ==> s[i] == c
  {
    s[..|s| - TrailingCount(s, x => x == c)]
  }

  /** A line as `open` yields it ends with its newline; `rstrip` of that
      character gives back the text when the text does not end with it. */
  lemma RStripLast(s: string, c: char)
    requires |s| > 0 && s[|s| - 1] != c
    ensures RStrip(s + [c], c) == s
  {
    var t := s + [c];
    var r := RStrip(t, c);
    assert t[|s| - 1] == s[|s| - 1];
    assert t[|s|] == c;
    assert |r| == |s|;
    assert r == t[..|s|] == s;
  }

  function UpperChar(c: char): char {
    if 'a' <= c <= 'z' then (c as int - 32) as char else c
  }

  /** `s.upper()` for ASCII letters. */
  function Upper(s: string): (r: string)
    ensures |r| == |s|
    ensures forall i :: 0 <= i < |s| ==> !('a' <= r[i] <= 'z')
    ensures forall i :: 0 <= i < |s| && !('a' <= s[i] <= 'z') ==> r[i] == s[i]
    ensures forall i :: 0 <= i < |s| && 'a' <= s[i] <= 'z' ==>
      'A' <= r[i] <= 'Z' && r[i] as int - 'A' as int == s[i] as int - 'a' as int
  {
    seq(|s|, i requires 0 <= i < |s| => UpperChar(s[i]))
  }

  // ---------------------------------------------------------------------
  // os.path.join(a, b)
  // ---------------------------------------------------------------------

  /** POSIX `os.path.join(a, b)`: an absolute `b` replaces `a`; otherwise
      a `/` is inserted unless `a` is empty or already ends with one. */
  function PathJoin(a: string, b: string): string {
    if |b| > 0 && b[0] == '/' then b
    else if a == [] || a[|a| - 1] == '/' then a + b
    else a + "/" + b
  }

  /** The `/`-separated components of a joined path end with those of the
      joined relative part. */
  lemma PathJoinComponents(a: string, b: string)
    requires |b| > 0 ==> b[0] != '/'
    ensures var r := Split(PathJoin(a, b), '/'); var rb := Split(b, '/');
      |rb| <= |r| && r[|r| - |rb|..] == rb
  {
    if a == [] {
      assert PathJoin(a, b) == b;
    } else if a[|a| - 1] == '/' {
      var a' := a[..|a| - 1];
      assert PathJoin(a, b) == a' + ['/'] + b;
      SplitAroundSep(a', '/', b);
    } else {
      assert PathJoin(a, b) == a + ['/'] + b;
      SplitAroundSep(a, '/', b);
    }
  }
}
