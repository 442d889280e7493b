/** String primitives of the JavaScript runtime that the plan renderers rely on:
    the whitespace set of `String.prototype.trim` and of the regex class `\s`,
    `trim`, `startsWith`, `endsWith`, the global removal of `**`
    and `split` on one character. Strings are sequences of code points. */
module Text {

  /** The characters JavaScript counts as white space (WhiteSpace and
      LineTerminator): exactly those `trim` removes and `\s` matches. */
  predicate IsWs(c: char) {
    c == '\t' || c == '\n' || c == '\U{000B}' || c == '\U{000C}' || c == '\r' || c == ' '
    || c == '\U{00A0}' || c == '\U{1680}' || ('\U{2000}' <= c <= '\U{200A}')
    || c == '\U{2028}' || c == '\U{2029}' || c == '\U{202F}' || c == '\U{205F}'
    || c == '\U{3000}' || c == '\U{FEFF}'
  }

  predicate AllWs(s: string) {
    forall i :: 0 <= i < |s| ==> IsWs(s[i])
  }

  /** The ASCII digits matched by the regex class `\d`. */
  predicate IsDigit(c: char) {
    '0' <= c <= '9'
  }

  predicate StartsWith(s: string, p: string) {
    |p| <= |s| && s[..|p|] == p
  }

  predicate EndsWith(s: string, p: string) {
    |p| <= |s| && s[|s| - |p|..] == p
  }

  /** What a prefix test says about the first three characters. */
  lemma LeadingChars(t: string, p: string)
    ensures StartsWith(t, p) && |p| >= 1 ==> t[0] == p[0]
    ensures StartsWith(t, p) && |p| >= 2 ==> t[1] == p[1]
    ensures StartsWith(t, p) && |p| >= 3 ==> t[2] == p[2]
  {
    if StartsWith(t, p) {
      if |p| >= 1 { assert t[..|p|][0] == t[0]; }
      if |p| >= 2 { assert t[..|p|][1] == t[1]; }
      if |p| >= 3 { assert t[..|p|][2] == t[2]; }
    }
  }

  /** Drops the longest all-white-space prefix (the regex `^\s*` replaced by nothing). */
  function StripLeadingWs(s: string): (r: string)
    ensures |r| <= |s|
    ensures r != [] ==> !IsWs(r[0])
  {
    if s != [] && IsWs(s[0]) then StripLeadingWs(s[1..]) else s
  }

  /** What stripping leading white space keeps is a suffix, and what it
      drops is all white space. */
  lemma {:induction false} StripLeadingWsSuffix(s: string)
    ensures StripLeadingWs(s) == s[|s| - |StripLeadingWs(s)|..]
    ensures AllWs(s[..|s| - |StripLeadingWs(s)|])
  {
    if s != [] && IsWs(s[0]) {
      var r := StripLeadingWs(s[1..]);
      StripLeadingWsSuffix(s[1..]);
      assert s[1..][|s| - 1 - |r|..] == s[|s| - |r|..];
      assert AllWs(s[..|s| - |r|]) by {
        assert s[..|s| - |r|] == [s[0]] + s[1..][..|s| - 1 - |r|];
      }
    }
  }

  /** Drops the longest all-white-space suffix. */
  function StripTrailingWs(s: string): (r: string)
    ensures |r| <= |s|
    ensures r != [] ==> !IsWs(r[|r| - 1])
  {
    if s != [] && IsWs(s[|s| - 1]) then StripTrailingWs(s[..|s| - 1]) else s
  }

  /** What stripping trailing white space keeps is a prefix, and what it
      drops is all white space. */
  lemma {:induction false} StripTrailingWsPrefix(s: string)
    ensures StripTrailingWs(s) == s[..|StripTrailingWs(s)|]
    ensures AllWs(s[|StripTrailingWs(s)|..])
  {
    if s != [] && IsWs(s[|s| - 1]) {
      var r := StripTrailingWs(s[..|s| - 1]);
      StripTrailingWsPrefix(s[..|s| - 1]);
      assert s[..|s| - 1][..|r|] == s[..|r|];
      assert AllWs(s[|r|..]) by {
        assert s[|r|..] == s[..|s| - 1][|r|..] + [s[|s| - 1]];
      }
    }
  }

  /** `s.trim()`: removes white space at both ends. */
  function Trim(s: string): (r: string)
    ensures |r| <= |s|
    ensures r != [] ==> !IsWs(r[0]) && !IsWs(r[|r| - 1])
  {
    var l := StripLeadingWs(s);
    StripTrailingWsPrefix(l);
    StripTrailingWs(l)
  }

  /** What trimming keeps is an infix of the string with only white space
      around it. */
  lemma TrimIsInfix(s: string)
    ensures exists i :: 0 <= i <= |s| - |Trim(s)| && Trim(s) == s[i..i + |Trim(s)|]
                        && AllWs(s[..i]) && AllWs(s[i + |Trim(s)|..])
  {
    var l := StripLeadingWs(s);
    var r := StripTrailingWs(l);
    var i := |s| - |l|;
    StripLeadingWsSuffix(s);
    StripTrailingWsPrefix(l);
    assert l == s[i..];
    assert r == s[i..i + |r|] by {
      assert s[i..i + |r|] == s[i..][..|r|];
    }
    assert AllWs(s[i + |r|..]) by {
      assert s[i + |r|..] == s[i..][|r|..];
    }
    assert 0 <= i <= |s| - |r| && AllWs(s[..i]);
  }

  /** A string with no white space at either end is its own trim. */
  lemma {:induction false} TrimOfTrimmed(s: string)
    requires s != [] ==> !IsWs(s[0]) && !IsWs(s[|s| - 1])
    ensures Trim(s) == s
  {
    if s != [] {
      assert StripLeadingWs(s) == s;
      assert StripTrailingWs(s) == s;
    }
  }

  /** Trimming is idempotent. */
  lemma TrimIdempotent(s: string)
    ensures Trim(Trim(s)) == Trim(s)
  {
    TrimOfTrimmed(Trim(s));
  }

  /** A string without white space is its own trim. */
  lemma TrimNoWs(s: string)
    requires forall i :: 0 <= i < |s| ==> !IsWs(s[i])
    ensures Trim(s) == s
  {
    TrimOfTrimmed(s);
  }

  /** No two adjacent characters of `s` are both `*`. */
  predicate NoDoubleStar(s: string) {
    forall i, j :: 0 <= i < |s| && 0 <= j < |s| && j == i + 1 ==> !(s[i] == '*' && s[j] == '*')
  }

  /** The characters of `s` other than `*`, in order. */
  function Unstarred(s: string): string {
    if s == [] then [] else (if s[0] == '*' then [] else [s[0]]) + Unstarred(s[1..])
  }

  /** The global replacement of `**` by nothing: removes, scanning left to right, every
      non-overlapping occurrence of `**`. It drops an even number of `*`
      characters and keeps a first character that is not a star. */
  function RemoveDoubleStars(s: string): (r: string)
    ensures |r| <= |s| && (|s| - |r|) % 2 == 0
    ensures s != [] && s[0] != '*' ==> r != [] && r[0] == s[0]
  {
    if |s| >= 2 && s[0] == '*' && s[1] == '*' then
      RemoveDoubleStars(s[2..])
    else if s == [] then []
    else
      var t := RemoveDoubleStars(s[1..]);
      [s[0]] + t
  }

  /** The result holds no `**` any more, and it has the same characters
      other than `*`, in the same order. */
  lemma {:induction false} RemoveDoubleStarsClean(s: string)
    ensures NoDoubleStar(RemoveDoubleStars(s))
    ensures Unstarred(RemoveDoubleStars(s)) == Unstarred(s)
  {
    if |s| >= 2 && s[0] == '*' && s[1] == '*' {
      RemoveDoubleStarsClean(s[2..]);
      assert Unstarred(s) == Unstarred(s[2..]) by {
        assert Unstarred(s) == Unstarred(s[1..]);
        assert s[1..][1..] == s[2..];
      }
    } else if s != [] {
      var t := RemoveDoubleStars(s[1..]);
      RemoveDoubleStarsClean(s[1..]);
      assert ([s[0]] + t)[1..] == t;
      assert NoDoubleStar([s[0]] + t) by {
        if t != [] && s[0] == '*' {
          assert s[1..] != [] && s[1..][0] == s[1];
          assert t[0] != '*';
        }
      }
    }
  }

  /** `n` stars in a row. */
  function Stars(n: nat): string {
    seq(n, _ => '*')
  }

  /** The length of the run of `*` that `s` begins with. */
  function StarRun(s: string): (n: nat)
    ensures n <= |s| && s[..n] == Stars(n)
    ensures n < |s| ==> s[n] != '*'
  {
    if s != [] && s[0] == '*' then
      var n := 1 + StarRun(s[1..]);
      assert s[..n] == [s[0]] + s[1..][..n - 1];
      n
    else 0
  }

  /** The removal described run by run: every maximal run of `n` stars
      becomes one star in place when `n` is odd and vanishes when it is even,
      and every other character stays. */
  function CollapseStars(s: string): string
    decreases |s|
  {
    if s == [] then []
    else if s[0] != '*' then [s[0]] + CollapseStars(s[1..])
    else
      var n := StarRun(s);
      if n % 2 == 0 then CollapseStars(s[n..]) else ['*'] + CollapseStars(s[n..])
  }

  /** A run of at least two stars loses its first two, and the scan goes on
      after them. */
  lemma PairStep(n: nat, t: string)
    requires n >= 2
    ensures RemoveDoubleStars(Stars(n) + t) == RemoveDoubleStars(Stars(n - 2) + t)
  {
    var u := Stars(n) + t;
    assert u[0] == '*' && u[1] == '*';
    assert u[2..] == Stars(n - 2) + t;
  }

  /** A lone star in front of something other than a star is kept, and the
      scan goes on after it. */
  lemma LoneStep(t: string)
    requires t == [] || t[0] != '*'
    ensures RemoveDoubleStars(Stars(1) + t) == ['*'] + RemoveDoubleStars(t)
  {
    var u := Stars(1) + t;
    assert u == ['*'] + t;
    assert u[1..] == t;
  }

  /** Removing `**` from a run of stars that is followed by something other
      than a star leaves nothing of an even run and one star of an odd one. */
  lemma {:induction false} RunRemoval(k: nat, t: string)
    requires t == [] || t[0] != '*'
    ensures RemoveDoubleStars(Stars(2 * k) + t) == RemoveDoubleStars(t)
    ensures RemoveDoubleStars(Stars(2 * k + 1) + t) == ['*'] + RemoveDoubleStars(t)
  {
    if k > 0 {
      PairStep(2 * k, t);
      PairStep(2 * k + 1, t);
      RunRemoval(k - 1, t);
    } else {
      assert Stars(0) + t == t;
      LoneStep(t);
    }
  }

  /** The scan from the left and the run-by-run description agree: this
      fixes where the single stars that survive stand. */
  lemma {:induction false} RemoveDoubleStarsCollapses(s: string)
    ensures RemoveDoubleStars(s) == CollapseStars(s)
    decreases |s|
  {
    if s != [] {
      if s[0] != '*' {
        RemoveDoubleStarsCollapses(s[1..]);
      } else {
        var n := StarRun(s);
        var k := n / 2;
        assert s == Stars(n) + s[n..];
        RunRemoval(k, s[n..]);
        if n % 2 == 0 {
          assert n == 2 * k;
        } else {
          assert n == 2 * k + 1;
        }
        RemoveDoubleStarsCollapses(s[n..]);
      }
    }
  }

  /** `s.split(sep)` for a one-character separator: the pieces between the
      separators, never none. */
  function Split(s: string, sep: char): (pieces: seq<string>)
    ensures |pieces| >= 1
  {
    if s == [] then [[]]
    else
      var rest := Split(s[1..], sep);
      if s[0] == sep then [[]] + rest
      else [[s[0]] + rest[0]] + rest[1..]
  }

  /** No piece holds the separator. */
  lemma {:induction false} SplitPieces(s: string, sep: char)
    ensures forall i :: 0 <= i < |Split(s, sep)| ==> sep !in Split(s, sep)[i]
  {
    if s != [] {
      SplitPieces(s[1..], sep);
      var rest := Split(s[1..], sep);
      if s[0] != sep {
        var pieces := Split(s, sep);
        forall i | 0 <= i < |pieces| ensures sep !in pieces[i] {
          if i == 0 {
            assert pieces[0] == [s[0]] + rest[0];
          } else {
            assert pieces[i] == rest[i];
          }
        }
      }
    }
  }

  /** The first piece is the prefix before the first separator, or the
      whole string when there is none. */
  lemma {:induction false} SplitFirst(s: string, sep: char)
    ensures StartsWith(s, Split(s, sep)[0])
    ensures |Split(s, sep)[0]| < |s| ==> s[|Split(s, sep)[0]|] == sep
  {
    if s != [] {
      SplitFirst(s[1..], sep);
      var rest := Split(s[1..], sep);
      if s[0] != sep {
        var p := [s[0]] + rest[0];
        assert Split(s, sep)[0] == p;
        assert s[..|p|] == [s[0]] + s[1..][..|rest[0]|];
        if |p| < |s| {
          assert s[|p|] == s[1..][|rest[0]|];
        }
      }
    }
  }

  /** `pieces.join(sep)`. */
  function Join(pieces: seq<string>, sep: char): string {
    if |pieces| == 0 then []
    else if |pieces| == 1 then pieces[0]
    else pieces[0] + [sep] + Join(pieces[1..], sep)
  }

  function Count(s: string, c: char): nat {
    if s == [] then 0 else (if s[0] == c then 1 else 0) + Count(s[1..], c)
  }

  /** Splitting yields one more piece than there are separators. */
  lemma {:induction false} SplitCount(s: string, sep: char)
    ensures |Split(s, sep)| == 1 + Count(s, sep)
  {
    if s != [] {
      SplitCount(s[1..], sep);
    }
  }

  /** Joining the pieces with the separator gives back the original text. */
  lemma {:induction false} JoinSplit(s: string, sep: char)
    ensures Join(Split(s, sep), sep) == s
  {
    if s != [] {
      JoinSplit(s[1..], sep);
      var rest := Split(s[1..], sep);
      if s[0] == sep {
        assert ([[]] + rest)[1..] == rest;
      } else {
        var r := [[s[0]] + rest[0]] + rest[1..];
        if |rest| == 1 {
          assert r == [[s[0]] + s[1..]];
        } else {
          assert r[1..] == rest[1..];
          assert Join(rest, sep) == rest[0] + [sep] + Join(rest[1..], sep);
        }
      }
    }
  }

  lemma AppendAssoc(x: seq<string>, y: seq<string>, z: seq<string>)
    ensures x + (y + z) == (x + y) + z
  {
  }

  /** Splitting distributes over a separator. */
  lemma {:induction false} SplitAcross(a: string, sep: char, b: string)
    ensures Split(a + [sep] + b, sep) == Split(a, sep) + Split(b, sep)
  {
    var s := a + [sep] + b;
    if a == [] {
      assert s == [sep] + b;
      assert s[1..] == b;
    } else {
      assert s[0] == a[0];
      assert s[1..] == a[1..] + [sep] + b;
      SplitAcross(a[1..], sep, b);
      var ra := Split(a[1..], sep);
      var rb := Split(b, sep);
      if a[0] == sep {
        assert Split(s, sep) == [[]] + (ra + rb);
        assert Split(a, sep) == [[]] + ra;
        AppendAssoc([[]], ra, rb);
      } else {
        assert Split(s, sep) == [[a[0]] + (ra + rb)[0]] + (ra + rb)[1..];
        assert Split(a, sep) == [[a[0]] + ra[0]] + ra[1..];
        assert (ra + rb)[0] == ra[0];
        assert (ra + rb)[1..] == ra[1..] + rb;
        AppendAssoc([[a[0]] + ra[0]], ra[1..], rb);
      }
    }
  }

  /** A piece without the separator splits into itself. */
  lemma {:induction false} SplitSingle(a: string, sep: char)
    requires sep !in a
    ensures Split(a, sep) == [a]
  {
    if a != [] {
      SplitSingle(a[1..], sep);
      assert [a[0]] + a[1..] == a;
    }
  }

  /** Splitting undoes joining when no piece contains the separator. */
  lemma {:induction false} SplitJoin(pieces: seq<string>, sep: char)
    requires |pieces| >= 1
    requires forall i :: 0 <= i < |pieces| ==> sep !in pieces[i]
    ensures Split(Join(pieces, sep), sep) == pieces
  {
    SplitSingle(pieces[0], sep);
    if |pieces| > 1 {
      SplitJoin(pieces[1..], sep);
      SplitAcross(pieces[0], sep, Join(pieces[1..], sep));
      assert [pieces[0]] + pieces[1..] == pieces;
    }
  }

  /** Joining distributes over concatenation of non-empty line lists. */
  lemma {:induction false} JoinAppend(a: seq<string>, b: seq<string>, sep: char)
    requires |a| >= 1 && |b| >= 1
    ensures Join(a + b, sep) == Join(a, sep) + [sep] + Join(b, sep)
  {
    if |a| == 1 {
      assert (a + b)[1..] == b;
    } else {
      assert (a + b)[1..] == a[1..] + b;
      JoinAppend(a[1..], b, sep);
    }
  }

  /** Joining three non-empty line lists: the join of the middle one stands
      in the text just after the join of the first and a separator. */
  lemma JoinThree(a: seq<string>, b: seq<string>, c: seq<string>, sep: char)
    requires |a| >= 1 && |b| >= 1 && |c| >= 1
    ensures var t := Join(a + b + c, sep);
            var n := |Join(a, sep)| + 1;
            n <= |t| - |Join(b, sep)| && t[n..][..|Join(b, sep)|] == Join(b, sep)
  {
    JoinAppend(a + b, c, sep);
    JoinAppend(a, b, sep);
    var t := Join(a + b + c, sep);
    var x, y := Join(a, sep), Join(b, sep);
    assert t == (x + [sep]) + y + ([sep] + Join(c, sep));
    assert t[|x| + 1..][..|y|] == y;
  }

  /** The lines of a joined list begin with the lines of any unbroken first part. */
  lemma SplitJoinPrefix(a: seq<string>, b: seq<string>, sep: char)
    requires |a| >= 1
    requires forall i :: 0 <= i < |a| ==> sep !in a[i]
    ensures |Split(Join(a + b, sep), sep)| >= |a|
    ensures Split(Join(a + b, sep), sep)[..|a|] == a
  {
    SplitJoin(a, sep);
    if b == [] {
      assert a + b == a;
    } else {
      JoinAppend(a, b, sep);
      SplitAcross(Join(a, sep), sep, Join(b, sep));
    }
  }

  /** The lines of a joined list end with the lines of any unbroken last part. */
  lemma SplitJoinSuffix(a: seq<string>, b: seq<string>, sep: char)
    requires |a| >= 1 && |b| >= 1
    requires forall i :: 0 <= i < |b| ==> sep !in b[i]
    ensures Split(Join(a + b, sep), sep) == Split(Join(a, sep), sep) + b
  {
    JoinAppend(a, b, sep);
    SplitAcross(Join(a, sep), sep, Join(b, sep));
    SplitJoin(b, sep);
  }

  /** The lines of a joined list hold any unbroken middle part as it was. */
  lemma SplitJoinInfix(a: seq<string>, b: seq<string>, c: seq<string>, sep: char)
    requires |a| >= 1 && |b| >= 1 && |c| >= 1
    requires forall i :: 0 <= i < |b| ==> sep !in b[i]
    ensures Split(Join(a + b + c, sep), sep) == Split(Join(a, sep), sep) + b + Split(Join(c, sep), sep)
  {
    JoinAppend(a + b, c, sep);
    SplitAcross(Join(a + b, sep), sep, Join(c, sep));
    SplitJoinSuffix(a, b, sep);
  }
}
