/** What the patterns that people write mean. */
module Wildcards {
  import opened Globs

  predicate Special(c: char) {
    c == '*' || c == '?' || c == '['
  }

  /** A pattern without special characters. */
  predicate Plain(p: string) {
    forall i | 0 <= i < |p| :: !Special(p[i])
  }

  ghost predicate Matches(p: string, s: string) {
    Splits(Tokens(p, 0), s)
  }

  /** The pattern from `i` on against the candidate from `j` on. */
  ghost predicate From(p: string, i: nat, s: string, j: nat)
    requires i <= |p| && j <= |s|
  {
    Splits(Tokens(p, i), s[j..])
  }

  /** A plain beginning is matched by itself only. */
  lemma {:induction false} PlainBeginning(p: string, q: string, s: string, i: nat)
    requires Plain(p) && i <= |p| && i <= |s|
    ensures From(p + q, i, s, i) <==>
            |p| <= |s| && p[i..] == s[i..|p|] && From(p + q, |p|, s, |p|)
    decreases |p| - i
  {
    if i < |p| {
      Unfold(p + q, s, i, i);
      assert (p + q)[i] == p[i];
      if i < |s| {
        PlainBeginning(p, q, s, i + 1);
        assert p[i..] == [p[i]] + p[i + 1..];
        if |p| <= |s| { assert s[i..|p|] == [s[i]] + s[i + 1..|p|]; }
      }
    }
  }

  lemma Beginning(p: string, q: string, s: string)
    requires Plain(p)
    ensures Matches(p + q, s) <==> p <= s && From(p + q, |p|, s, |p|)
  {
    PlainBeginning(p, q, s, 0);
    assert s[0..] == s && p[0..] == p;
    if |p| <= |s| { assert s[0..|p|] == s[..|p|]; }
  }

  /** The end of a pattern that stands for one character. */
  lemma OneMore(p: string, q: string, s: string, ok: bool)
    requires q != [] && Plain(p) && TokenAt(p + q, |p|).0 != Star && TokenAt(p + q, |p|).1 == |p + q|
    requires |s| > |p| ==> (Fits(TokenAt(p + q, |p|).0, [s[|p|]]) <==> ok)
    ensures Matches(p + q, s) <==> p <= s && |s| == |p| + 1 && ok
  {
    Beginning(p, q, s);
    if p <= s {
      Unfold(p + q, s, |p|, |p|);
      if |p| < |s| { SplitEmpty(s[|p| + 1..]); }
    }
  }

  /** A pattern without special characters matches only itself. */
  lemma PlainMatches(p: string, s: string)
    requires Plain(p)
    ensures Matches(p, s) <==> s == p
  {
    assert p + [] == p;
    Beginning(p, [], s);
    if p <= s { SplitEmpty(s[|p|..]); }
  }

  /** A star at the end stands for any ending. */
  lemma StarMatches(p: string, s: string)
    requires Plain(p)
    ensures Matches(p + "*", s) <==> p <= s
  {
    Beginning(p, "*", s);
    assert Tokens(p + "*", |p| + 1) == [];
    assert Tokens(p + "*", |p|) == [Star];
    if p <= s { assert IsSplit([Star], s[|p|..], [s[|p|..]]) by { FlatOne(s[|p|..]); } }
  }

  lemma FlatOne(s: string)
    ensures Flat([s]) == s
  {
    assert [s][1..] == [];
  }

  /** A question mark stands for one character. */
  lemma AnyMatches(p: string, s: string)
    requires Plain(p)
    ensures Matches(p + "?", s) <==> p <= s && |s| == |p| + 1
  {
    OneMore(p, "?", s, true);
  }

  lemma ClassToken(p: string, c: char, d: char)
    requires c != '!' && c != ']' && d != ']'
    ensures TokenAt(p + ['[', c, '-', d, ']'], |p|) == (Class(false, [c, '-', d]), |p| + 5)
  {
    var q := p + ['[', c, '-', d, ']'];
    var n := |p|;
    assert q[n] == '[' && q[n + 1] == c && q[n + 2] == '-' && q[n + 3] == d && q[n + 4] == ']';
    assert ContentStart(q, n) == n + 1;
    assert Close(q, n + 1) == Close(q, n + 2) == Close(q, n + 3) == Close(q, n + 4) == n + 4;
    assert q[n + 1..n + 4] == [c, '-', d];
  }

  lemma NotToken(p: string, c: char)
    ensures TokenAt(p + ['[', '!', c, ']'], |p|) == (Class(true, [c]), |p| + 4)
  {
    var q := p + ['[', '!', c, ']'];
    var n := |p|;
    assert q[n] == '[' && q[n + 1] == '!' && q[n + 2] == c && q[n + 3] == ']';
    assert ContentStart(q, n) == n + 2;
    assert Close(q, n + 3) == n + 3;
    assert c != ']' ==> Close(q, n + 2) == n + 3;
    assert q[n + 2..n + 3] == [c];
  }

  /** A range stands for one character within it, both ends included. */
  lemma RangeMatches(p: string, c: char, d: char, s: string)
    requires Plain(p) && c != '!' && c != ']' && d != ']'
    ensures Matches(p + ['[', c, '-', d, ']'], s) <==> p <= s && |s| == |p| + 1 && c <= s[|p|] <= d
  {
    ClassToken(p, c, d);
    if |s| > |p| {
      InClassStep([c, '-', d], s[|p|]);
      assert !InClass([], s[|p|]);
      assert [c, '-', d][3..] == [];
    }
    OneMore(p, ['[', c, '-', d, ']'], s, |s| > |p| && c <= s[|p|] <= d);
  }

  /** A negated class stands for one character that is not in it. */
  lemma NotMatches(p: string, c: char, s: string)
    requires Plain(p)
    ensures Matches(p + ['[', '!', c, ']'], s) <==> p <= s && |s| == |p| + 1 && s[|p|] != c
  {
    NotToken(p, c);
    if |s| > |p| {
      InClassStep([c], s[|p|]);
      assert !InClass([], s[|p|]);
      assert [c][1..] == [];
    }
    OneMore(p, ['[', '!', c, ']'], s, |s| > |p| && s[|p|] != c);
  }
}
