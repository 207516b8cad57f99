/** The handful of Python string operations the pipeline relies on:
    `strip`, `strip(chars)`, ASCII `lower`, `split(sep)`, `split()`,
    `startswith`, `in`, `join` and decimal rendering of counts. */
module Text {

  /** The characters for which Python's `str.isspace` holds, which is the set
      that argument-less `strip()` and `split()` remove. */
  const Whitespace: set<char> := {
    '\t', '\n', '\U{000B}', '\U{000C}', '\r', '\U{001C}', '\U{001D}', '\U{001E}',
    '\U{001F}', ' ', '\U{0085}', '\U{00A0}', '\U{1680}', '\U{2000}', '\U{2001}',
    '\U{2002}', '\U{2003}', '\U{2004}', '\U{2005}', '\U{2006}', '\U{2007}',
    '\U{2008}', '\U{2009}', '\U{200A}', '\U{2028}', '\U{2029}', '\U{202F}',
    '\U{205F}', '\U{3000}'
  }

  predicate AllIn(s: string, cs: set<char>) {
    forall k :: 0 <= k < |s| ==> s[k] in cs
  }

  // ---------------------------------------------------------------- strip

  /** `s.lstrip(cs)`. */
  function StripLeft(s: string, cs: set<char>): string
    decreases |s|
  {
    if s != [] && s[0] in cs then StripLeft(s[1..], cs) else s
  }

  /** `s.rstrip(cs)`. */
  function StripRight(s: string, cs: set<char>): string
    decreases |s|
  {
    if s != [] && s[|s| - 1] in cs then StripRight(s[..|s| - 1], cs) else s
  }

  /** `lstrip` drops the longest prefix made of characters of `cs`: what it
      keeps is a suffix that does not start with one. */
  lemma {:induction false} StripLeftFacts(s: string, cs: set<char>)
    ensures var r := StripLeft(s, cs);
      |r| <= |s| && r == s[|s| - |r|..] && AllIn(s[..|s| - |r|], cs) && (r == [] || r[0] !in cs)
    decreases |s|
  {
    if s != [] && s[0] in cs {
      StripLeftFacts(s[1..], cs);
      var r := StripLeft(s[1..], cs);
      assert s[1..][..|s[1..]| - |r|] == s[1..|s| - |r|];
      assert s[..|s| - |r|] == [s[0]] + s[1..|s| - |r|];
    }
  }

  /** `rstrip` drops the longest suffix made of characters of `cs`: what it
      keeps is a prefix that does not end with one. */
  lemma {:induction false} StripRightFacts(s: string, cs: set<char>)
    ensures var r := StripRight(s, cs);
      |r| <= |s| && r == s[..|r|] && AllIn(s[|r|..], cs) && (r == [] || r[|r| - 1] !in cs)
    decreases |s|
  {
    if s != [] && s[|s| - 1] in cs {
      StripRightFacts(s[..|s| - 1], cs);
      var r := StripRight(s[..|s| - 1], cs);
      assert s[..|s| - 1][|r|..] == s[|r|..|s| - 1];
      assert s[|r|..] == s[|r|..|s| - 1] + [s[|s| - 1]];
    }
  }

  /** `s.strip(cs)`. */
  function Strip(s: string, cs: set<char>): string {
    StripRight(StripLeft(s, cs), cs)
  }

  /** Argument-less `s.strip()`. */
  function Trim(s: string): string {
    Strip(s, Whitespace)
  }

  /** What `strip` keeps is a contiguous piece of the input, with only
      characters of `cs` cut on either side, and neither end of what it
      keeps is in `cs`. */
  lemma StripIsInfix(s: string, cs: set<char>)
    ensures var r := Strip(s, cs);
      var i := |s| - |StripLeft(s, cs)|;
      0 <= i <= i + |r| <= |s| && s[i..i + |r|] == r
      && AllIn(s[..i], cs) && AllIn(s[i + |r|..], cs)
      && (r == [] || (r[0] !in cs && r[|r| - 1] !in cs))
  {
    var l := StripLeft(s, cs);
    var r := StripRight(l, cs);
    var i := |s| - |l|;
    StripLeftFacts(s, cs);
    StripRightFacts(l, cs);
    assert l == s[i..];
    assert r == l[..|r|];
    assert s[i..i + |r|] == r;
    assert AllIn(l[|r|..], cs);
    assert s[i + |r|..] == l[|r|..];
    if r != [] {
      assert r[0] == l[0];
    }
  }

  lemma {:induction false} StripLeftOfPrefix(w: string, s: string, cs: set<char>)
    requires AllIn(w, cs)
    ensures StripLeft(w + s, cs) == StripLeft(s, cs)
    decreases |w|
  {
    if w != [] {
      assert (w + s)[1..] == w[1..] + s;
      StripLeftOfPrefix(w[1..], s, cs);
    } else {
      assert w + s == s;
    }
  }

  lemma {:induction false} StripRightOfSuffix(s: string, w: string, cs: set<char>)
    requires AllIn(w, cs)
    ensures StripRight(s + w, cs) == StripRight(s, cs)
    decreases |w|
  {
    if w != [] {
      assert (s + w)[..|s + w| - 1] == s + w[..|w| - 1];
      StripRightOfSuffix(s, w[..|w| - 1], cs);
    } else {
      assert s + w == s;
    }
  }

  /** Stripping the left end of `s + w`, when `w` consists of stripped
      characters only, either consumes everything or leaves `w` in place. */
  lemma {:induction false} StripLeftOfSuffix(s: string, w: string, cs: set<char>)
    requires AllIn(w, cs)
    ensures StripLeft(s + w, cs) == if StripLeft(s, cs) == [] then [] else StripLeft(s, cs) + w
    decreases |s|
  {
    if s == [] {
      assert s + w == w;
      StripLeftOfPrefix(w, [], cs);
      assert w + [] == w;
    } else if s[0] in cs {
      assert (s + w)[1..] == s[1..] + w;
      StripLeftOfSuffix(s[1..], w, cs);
    } else {
    }
  }

  /** Surrounding runs of stripped characters do not change what `strip`
      returns. */
  lemma StripIgnoresSurrounding(w1: string, s: string, w2: string, cs: set<char>)
    requires AllIn(w1, cs) && AllIn(w2, cs)
    ensures Strip(w1 + s + w2, cs) == Strip(s, cs)
  {
    assert w1 + s + w2 == w1 + (s + w2);
    StripLeftOfPrefix(w1, s + w2, cs);
    StripLeftOfSuffix(s, w2, cs);
    if StripLeft(s, cs) != [] {
      StripRightOfSuffix(StripLeft(s, cs), w2, cs);
    }
  }

  // ---------------------------------------------------------------- lower

  /** Python's `lower` on ASCII letters; every other character is kept. */
  function LowerChar(c: char): char {
    if 'A' <= c <= 'Z' then (c as int + 32) as char else c
  }

  function Lower(s: string): (r: string)
    ensures |r| == |s|
  {
    seq(|s|, k requires 0 <= k < |s| => LowerChar(s[k]))
  }

  lemma LowerKeepsWhitespace(c: char)
    ensures LowerChar(c) in Whitespace <==> c in Whitespace
  {
  }

  lemma {:induction false} LowerStripLeft(s: string)
    ensures Lower(StripLeft(s, Whitespace)) == StripLeft(Lower(s), Whitespace)
    decreases |s|
  {
    if s != [] {
      LowerKeepsWhitespace(s[0]);
      assert Lower(s)[1..] == Lower(s[1..]);
      LowerStripLeft(s[1..]);
    }
  }

  lemma {:induction false} LowerStripRight(s: string)
    ensures Lower(StripRight(s, Whitespace)) == StripRight(Lower(s), Whitespace)
    decreases |s|
  {
    if s != [] {
      LowerKeepsWhitespace(s[|s| - 1]);
      assert Lower(s)[..|s| - 1] == Lower(s[..|s| - 1]);
      LowerStripRight(s[..|s| - 1]);
    }
  }

  /** Lower-casing and trimming commute, because lower-casing maps
      whitespace to whitespace and nothing else to whitespace. */
  lemma LowerTrimCommute(s: string)
    ensures Lower(Trim(s)) == Trim(Lower(s))
  {
    LowerStripLeft(s);
    LowerStripRight(StripLeft(s, Whitespace));
  }

  // ---------------------------------------------------------------- search

  predicate StartsWith(s: string, prefix: string) {
    |prefix| <= |s| && s[..|prefix|] == prefix
  }

  /** Python's `sub in s`. */
  predicate Contains(s: string, sub: string)
    decreases |s|
  {
    StartsWith(s, sub) || (s != [] && Contains(s[1..], sub))
  }

  lemma {:induction false} ContainsInfix(a: string, sub: string, b: string)
    ensures Contains(a + sub + b, sub)
    decreases |a|
  {
    if a == [] {
      assert a + sub + b == sub + b;
      assert (sub + b)[..|sub|] == sub;
    } else {
      assert (a + sub + b)[1..] == a[1..] + sub + b;
      ContainsInfix(a[1..], sub, b);
    }
  }

  /** Where `sub in s` holds, `s` is `sub` with something on either side. */
  lemma {:induction false} ContainsWitness(s: string, sub: string) returns (before: string, after: string)
    requires Contains(s, sub)
    ensures s == before + sub + after
    decreases |s|
  {
    if StartsWith(s, sub) {
      before, after := [], s[|sub|..];
      assert s == s[..|sub|] + s[|sub|..];
    } else {
      var a, b := ContainsWitness(s[1..], sub);
      before, after := [s[0]] + a, b;
      assert s == [s[0]] + s[1..];
    }
  }

  /** What occurs in a piece occurs in any text the piece is part of. */
  lemma ContainsWithin(a: string, p: string, b: string, sub: string)
    requires Contains(p, sub)
    ensures Contains(a + p + b, sub)
  {
    var a2, b2 := ContainsWitness(p, sub);
    assert a + p + b == (a + a2) + sub + (b2 + b);
    ContainsInfix(a + a2, sub, b2 + b);
  }

  // ---------------------------------------------------------------- split and join

  function Join(parts: seq<string>, sep: string): string
    decreases |parts|
  {
    if parts == [] then []
    else if |parts| == 1 then parts[0]
    else parts[0] + sep + Join(parts[1..], sep)
  }

  /** Every part occurs in the joined text, at the position the parts
      before it and their separators give. */
  lemma {:induction false} JoinInfix(parts: seq<string>, sep: string, k: nat) returns (before: string, after: string)
    requires k < |parts|
    ensures Join(parts, sep) == before + parts[k] + after
    decreases |parts|
  {
    if k == 0 {
      if |parts| == 1 {
        before, after := [], [];
      } else {
        before, after := [], sep + Join(parts[1..], sep);
      }
    } else {
      var a, b := JoinInfix(parts[1..], sep, k - 1);
      before, after := parts[0] + sep + a, b;
    }
  }

  /** Joining one more part adds a separator and the part. */
  lemma {:induction false} JoinAppend(parts: seq<string>, sep: string, x: string)
    requires parts != []
    ensures Join(parts + [x], sep) == Join(parts, sep) + sep + x
    decreases |parts|
  {
    var px := parts + [x];
    assert px[1..] == parts[1..] + [x];
    if |parts| > 1 {
      JoinAppend(parts[1..], sep, x);
    } else {
      assert px[1..] == [x];
    }
  }

  /** Python's `s.split(sep)` for a one-character separator: the pieces
      between separators, empty pieces included. */
  function Split(s: string, sep: char): (parts: seq<string>)
    ensures |parts| >= 1
    ensures forall k :: 0 <= k < |parts| ==> sep !in parts[k]
    ensures Join(parts, [sep]) == s
    decreases |s|
  {
    if s == [] then [[]]
    else
      var rest := Split(s[1..], sep);
      if s[0] == sep then
        assert Join([[]] + rest, [sep]) == [] + [sep] + Join(rest, [sep]);
        [[]] + rest
      else
        var parts := [[s[0]] + rest[0]] + rest[1..];
        assert parts[1..] == rest[1..];
        assert Join(parts, [sep]) == [s[0]] + Join(rest, [sep]) by {
          if |rest| > 1 {
            assert Join(rest, [sep]) == rest[0] + [sep] + Join(rest[1..], [sep]);
          }
        }
        parts
  }

  /** What `s.split(sep, 1)[1]` returns: everything after the first `sep`. */
  function AfterFirst(s: string, sep: char): string
    decreases |s|
  {
    if s == [] then []
    else if s[0] == sep then s[1..]
    else AfterFirst(s[1..], sep)
  }

  lemma {:induction false} AfterFirstOfPrefix(p: string, sep: char, s: string)
    requires sep !in p
    ensures AfterFirst(p + [sep] + s, sep) == s
    decreases |p|
  {
    if p == [] {
      assert p + [sep] + s == [sep] + s;
    } else {
      assert (p + [sep] + s)[1..] == p[1..] + [sep] + s;
      AfterFirstOfPrefix(p[1..], sep, s);
    }
  }

  /** What `s.split(sep)[0]` returns: everything before the first `sep`. */
  function UpTo(s: string, sep: char): string
    decreases |s|
  {
    if s == [] || s[0] == sep then [] else [s[0]] + UpTo(s[1..], sep)
  }

  /** The first two pieces of `Split` are what `UpTo` and `AfterFirst`
      find; the second exists whenever `s` holds `sep`. */
  lemma {:induction false} SplitPieces(s: string, sep: char)
    ensures Split(s, sep)[0] == UpTo(s, sep)
    ensures sep in s ==> |Split(s, sep)| >= 2 && Split(s, sep)[1] == UpTo(AfterFirst(s, sep), sep)
    decreases |s|
  {
    if s != [] {
      SplitPieces(s[1..], sep);
      if s[0] != sep && sep in s {
        assert sep in s[1..];
      }
    }
  }

  /** A string without the separator is a single piece. */
  lemma {:induction false} SplitWhole(p: string, sep: char)
    requires sep !in p
    ensures Split(p, sep) == [p]
    decreases |p|
  {
    if p != [] {
      SplitWhole(p[1..], sep);
    }
  }

  /** The text before the first separator is the first piece. */
  lemma {:induction false} SplitFirstPiece(p: string, sep: char, s: string)
    requires sep !in p
    ensures Split(p + [sep] + s, sep) == [p] + Split(s, sep)
    decreases |p|
  {
    if p == [] {
      assert p + [sep] + s == [sep] + s;
      assert ([sep] + s)[1..] == s;
    } else {
      var t := p + [sep] + s;
      assert t[0] == p[0] && t[1..] == p[1..] + [sep] + s;
      SplitFirstPiece(p[1..], sep, s);
      var rest := Split(t[1..], sep);
      assert rest[1..] == Split(s, sep);
      assert [t[0]] + rest[0] == p;
    }
  }

  /** The longest prefix of `s` without whitespace. */
  function TakeWord(s: string): (w: string)
    ensures |w| <= |s| && w == s[..|w|]
    ensures forall k :: 0 <= k < |w| ==> w[k] !in Whitespace
    ensures |w| == |s| || s[|w|] in Whitespace
  {
    if s == [] || s[0] in Whitespace then []
    else [s[0]] + TakeWord(s[1..])
  }

  /** A non-empty run of non-whitespace characters. */
  predicate IsWord(w: string) {
    w != [] && forall j :: 0 <= j < |w| ==> w[j] !in Whitespace
  }

  /** The non-whitespace characters of `s`, in order. */
  function NonSpace(s: string): string
    decreases |s|
  {
    if s == [] then []
    else (if s[0] in Whitespace then [] else [s[0]]) + NonSpace(s[1..])
  }

  /** How many maximal runs of non-whitespace characters `s` holds, counted
      by their last characters. */
  function RunEnds(s: string): nat
    decreases |s|
  {
    if s == [] then 0
    else (if s[0] !in Whitespace && (|s| == 1 || s[1] in Whitespace) then 1 else 0) + RunEnds(s[1..])
  }

  /** A whitespace prefix contributes neither characters nor runs. */
  lemma {:induction false} SkipSpace(a: string, b: string)
    requires AllIn(a, Whitespace)
    ensures NonSpace(a + b) == NonSpace(b) && RunEnds(a + b) == RunEnds(b)
    decreases |a|
  {
    if a != [] {
      assert (a + b)[1..] == a[1..] + b;
      SkipSpace(a[1..], b);
    } else {
      assert a + b == b;
    }
  }

  /** A word followed by whitespace or the end contributes its characters
      and one run. */
  lemma {:induction false} SkipWord(w: string, u: string)
    requires IsWord(w) && (u == [] || u[0] in Whitespace)
    ensures NonSpace(w + u) == w + NonSpace(u) && RunEnds(w + u) == 1 + RunEnds(u)
    decreases |w|
  {
    assert (w + u)[1..] == w[1..] + u;
    if |w| == 1 {
      assert w[1..] + u == u;
      assert w == [w[0]];
    } else {
      assert (w + u)[1] == w[1];
      assert IsWord(w[1..]);
      SkipWord(w[1..], u);
      assert w == [w[0]] + w[1..];
    }
  }

  /** Python's argument-less `s.split()`: the maximal runs of
      non-whitespace characters, in order. */
  function Words(s: string): (ws: seq<string>)
    ensures |ws| <= |s|
    ensures forall k :: 0 <= k < |ws| ==> IsWord(ws[k])
    decreases |s|
  {
    var t := StripLeft(s, Whitespace);
    StripLeftFacts(s, Whitespace);
    if t == [] then []
    else
      var w := TakeWord(t);
      assert w != [] by { assert t[0] !in Whitespace; }
      var rest := Words(t[|w|..]);
      assert IsWord(w);
      [w] + rest
  }

  /** Joining one part in front of the others, without a separator. */
  lemma JoinCons(w: string, rest: seq<string>)
    ensures Join([w] + rest, "") == w + Join(rest, "")
  {
    var p := [w] + rest;
    assert p[0] == w;
    if rest == [] {
      assert w + [] == w;
    } else {
      assert |p| > 1 && p[1..] == rest;
    }
  }

  /** The words are the maximal runs: together they are the non-whitespace
      characters of `s`, in order, and there is one word per run. */
  lemma {:induction false} WordsAreRuns(s: string)
    ensures Join(Words(s), "") == NonSpace(s)
    ensures |Words(s)| == RunEnds(s)
    decreases |s|
  {
    var t := StripLeft(s, Whitespace);
    StripLeftFacts(s, Whitespace);
    assert s == s[..|s| - |t|] + t;
    SkipSpace(s[..|s| - |t|], t);
    if t != [] {
      var w := TakeWord(t);
      assert t[0] !in Whitespace;
      var u := t[|w|..];
      assert t == w + u;
      SkipWord(w, u);
      WordsAreRuns(u);
      JoinCons(w, Words(u));
    }
  }

  // ---------------------------------------------------------------- numbers

  function DigitChar(d: nat): char
    requires d < 10
  {
    "0123456789"[d]
  }

  /** Python's `str(n)` for a non-negative integer. */
  function NatToString(n: nat): string {
    if n < 10 then [DigitChar(n)] else NatToString(n / 10) + [DigitChar(n % 10)]
  }

  predicate IsDigits(s: string) {
    forall k :: 0 <= k < |s| ==> '0' <= s[k] <= '9'
  }

  /** The rendering is a non-empty string of decimal digits. */
  lemma {:induction false} NatToStringDigits(n: nat)
    ensures NatToString(n) != [] && IsDigits(NatToString(n))
  {
    if n >= 10 {
      NatToStringDigits(n / 10);
    }
  }

  /** Python's `str(n)` for any integer. */
  function IntToString(n: int): string {
    if n < 0 then "-" + NatToString(-n) else NatToString(n)
  }

  /** The value of a string of decimal digits. */
  function DigitsValue(s: string): nat
    requires IsDigits(s)
  {
    if s == [] then 0 else 10 * DigitsValue(s[..|s| - 1]) + (s[|s| - 1] as int - '0' as int)
  }

  /** Rendering a count and reading it back gives the count. */
  lemma {:induction false} NatToStringRoundTrip(n: nat)
    ensures IsDigits(NatToString(n)) && DigitsValue(NatToString(n)) == n
  {
    NatToStringDigits(n);
    if n >= 10 {
      var r := NatToString(n);
      assert r[..|r| - 1] == NatToString(n / 10);
      NatToStringRoundTrip(n / 10);
    }
  }
}
