/** Shell-style event patterns: a memoised matcher and the splits it decides. */
module Globs {
  import opened Text

  // ----------------------------------------------------------- specification

  /** A class carries its content between the brackets, without the leading `!`. */
  datatype Token = Star | Any | Literal(c: char) | Class(negated: bool, content: string)

  /** The ranges of a class content; a single character is a range of itself. */
  function Ranges(content: string): seq<(char, char)> {
    if content == [] then []
    else if |content| > 2 && content[1] == '-' then [(content[0], content[2])] + Ranges(content[3..])
    else [(content[0], content[0])] + Ranges(content[1..])
  }

  predicate Within(r: (char, char), c: char) {
    r.0 <= c <= r.1
  }

  predicate Admits(ranges: seq<(char, char)>, c: char) {
    exists i :: 0 <= i < |ranges| && Within(ranges[i], c)
  }

  predicate InClass(content: string, c: char) {
    Admits(Ranges(content), c)
  }

  predicate Fits(t: Token, part: string) {
    match t
    case Star => true
    case Any => |part| == 1
    case Literal(c) => part == [c]
    case Class(negated, content) => |part| == 1 && InClass(content, part[0]) != negated
  }

  function Flat(parts: seq<string>): string {
    if parts == [] then [] else parts[0] + Flat(parts[1..])
  }

  /** The candidate splits into one part per token, each of which fits. */
  ghost predicate Splits(tokens: seq<Token>, s: string) {
    exists parts :: IsSplit(tokens, s, parts)
  }

  ghost predicate IsSplit(tokens: seq<Token>, s: string, parts: seq<string>) {
    |parts| == |tokens| && Flat(parts) == s && forall i | 0 <= i < |tokens| :: Fits(tokens[i], parts[i])
  }

  /** Where a class opened at `i` closes: a `]` right after the opening (or after `!`) belongs to the content. */
  function ContentStart(p: string, i: nat): nat
    requires i < |p|
  {
    if i + 1 < |p| && p[i + 1] == '!' then i + 2 else i + 1
  }

  function Close(p: string, i: nat): nat
    requires i <= |p|
    decreases |p| - i
  {
    if i == |p| || p[i] == ']' then i else Close(p, i + 1)
  }

  function ClassEnd(p: string, i: nat): (end: Option<nat>)
    requires i < |p|
    ensures end.Some? ==> ContentStart(p, i) < end.value < |p|
  {
    var start := ContentStart(p, i);
    if start >= |p| then None
    else
      CloseBounds(p, start + 1);
      var end := Close(p, if p[start] == ']' then start + 1 else start);
      if end == |p| then None else Some(end)
  }

  lemma {:induction false} CloseBounds(p: string, i: nat)
    requires i <= |p|
    ensures i <= Close(p, i) <= |p|
    decreases |p| - i
  {
    if i < |p| && p[i] != ']' { CloseBounds(p, i + 1); }
  }

  /** The token at `i` and the index after it. An unclosed `[` is a literal. */
  function TokenAt(p: string, i: nat): (r: (Token, nat))
    requires i < |p|
    ensures i < r.1 <= |p|
  {
    if p[i] == '*' then (Star, i + 1)
    else if p[i] == '?' then (Any, i + 1)
    else if p[i] == '[' && ClassEnd(p, i).Some? then
      (Class(ContentStart(p, i) == i + 2, p[ContentStart(p, i)..ClassEnd(p, i).value]), ClassEnd(p, i).value + 1)
    else (Literal(p[i]), i + 1)
  }

  function Tokens(p: string, i: nat): seq<Token>
    requires i <= |p|
    decreases |p| - i
  {
    if i == |p| then [] else [TokenAt(p, i).0] + Tokens(p, TokenAt(p, i).1)
  }

  // ------------------------------------------------- splits, one token at a time

  lemma SplitEmpty(s: string)
    ensures Splits([], s) <==> s == []
  {
    if s == [] { assert IsSplit([], s, []); }
  }

  /** A split starts with a part for the first token. */
  lemma SplitHead(tokens: seq<Token>, s: string, k: nat)
    requires tokens != [] && k <= |s| && Fits(tokens[0], s[..k]) && Splits(tokens[1..], s[k..])
    ensures Splits(tokens, s)
  {
    var rest :| IsSplit(tokens[1..], s[k..], rest);
    var parts := [s[..k]] + rest;
    assert parts[1..] == rest;
    assert IsSplit(tokens, s, parts);
  }

  lemma SplitTail(tokens: seq<Token>, s: string) returns (k: nat)
    requires tokens != [] && Splits(tokens, s)
    ensures k <= |s| && Fits(tokens[0], s[..k]) && Splits(tokens[1..], s[k..])
  {
    var parts :| IsSplit(tokens, s, parts);
    k := |parts[0]|;
    assert s == parts[0] + Flat(parts[1..]);
    assert s[..k] == parts[0] && s[k..] == Flat(parts[1..]);
    assert IsSplit(tokens[1..], s[k..], parts[1..]);
  }

  /** A star matches nothing, or swallows one more character. */
  lemma SplitStar(tokens: seq<Token>, s: string)
    requires tokens != [] && tokens[0] == Star
    ensures Splits(tokens, s) <==> Splits(tokens[1..], s) || (s != [] && Splits(tokens, s[1..]))
  {
    if Splits(tokens, s) {
      var k := SplitTail(tokens, s);
      if k == 0 {
        assert s[0..] == s;
      } else {
        assert s[1..][k - 1..] == s[k..];
        SplitHead(tokens, s[1..], k - 1);
      }
    }
    if Splits(tokens[1..], s) {
      assert s[0..] == s;
      SplitHead(tokens, s, 0);
    }
    if s != [] && Splits(tokens, s[1..]) {
      var k := SplitTail(tokens, s[1..]);
      assert s[1..][k..] == s[k + 1..];
      SplitHead(tokens, s, k + 1);
    }
  }

  /** Any other token takes exactly one character. */
  lemma SplitOne(tokens: seq<Token>, s: string)
    requires tokens != [] && tokens[0] != Star
    ensures Splits(tokens, s) <==> s != [] && Fits(tokens[0], s[..1]) && Splits(tokens[1..], s[1..])
  {
    if Splits(tokens, s) {
      var k := SplitTail(tokens, s);
      assert k == 1;
    } else if s != [] && Fits(tokens[0], s[..1]) && Splits(tokens[1..], s[1..]) {
      SplitHead(tokens, s, 1);
    }
  }

  // ------------------------------------------------------------ character class

  lemma AdmitsCons(r: (char, char), rest: seq<(char, char)>, c: char)
    ensures Admits([r] + rest, c) <==> Within(r, c) || Admits(rest, c)
  {
    var all := [r] + rest;
    if Admits(rest, c) {
      var i :| 0 <= i < |rest| && Within(rest[i], c);
      assert Within(all[i + 1], c);
    }
    if Within(r, c) { assert Within(all[0], c); }
  }

  lemma InClassStep(content: string, c: char)
    requires content != []
    ensures |content| > 2 && content[1] == '-' ==>
              (InClass(content, c) <==> content[0] <= c <= content[2] || InClass(content[3..], c))
    ensures !(|content| > 2 && content[1] == '-') ==>
              (InClass(content, c) <==> content[0] == c || InClass(content[1..], c))
  {
    if |content| > 2 && content[1] == '-' {
      AdmitsCons((content[0], content[2]), Ranges(content[3..]), c);
    } else {
      AdmitsCons((content[0], content[0]), Ranges(content[1..]), c);
    }
  }

  /** Scans a class: where it closes, and whether it admits the candidate. */
  method CharacterClass(p: string, start: nat, candidate: char) returns (r: Option<(nat, bool)>)
    requires start < |p|
    ensures r.None? <==> ClassEnd(p, start).None?
    ensures r.Some? ==>
      r.value.0 == ClassEnd(p, start).value
      && r.value.1
              == (InClass(p[ContentStart(p, start)..r.value.0], candidate) != (ContentStart(p, start) == start + 2))
  {
    var index := start + 1;
    var negated := index < |p| && p[index] == '!';
    if negated { index := index + 1; }
    var contentStart := index;
    if index < |p| && p[index] == ']' { index := index + 1; }
    ghost var from := index;
    while index < |p| && p[index] != ']'
      invariant from <= index <= |p|
      invariant Close(p, from) == Close(p, index)
    {
      index := index + 1;
    }
    if index == |p| || index == contentStart { return None; }
    var matched := Scan(p, contentStart, index, candidate);
    r := Some((index, matched != negated));
  }

  method Scan(p: string, from: nat, to: nat, candidate: char) returns (matched: bool)
    requires from <= to <= |p|
    ensures matched <==> InClass(p[from..to], candidate)
  {
    matched := false;
    var at := from;
    while at < to
      invariant from <= at <= to
      invariant InClass(p[from..to], candidate) <==> matched || InClass(p[at..to], candidate)
    {
      ghost var content := p[at..to];
      InClassStep(content, candidate);
      var first := p[at];
      if at + 2 < to && p[at + 1] == '-' {
        assert content[3..] == p[at + 3..to];
        if first <= candidate && candidate <= p[at + 2] { matched := true; }
        at := at + 3;
      } else {
        assert content[1..] == p[at + 1..to];
        if first == candidate { matched := true; }
        at := at + 1;
      }
    }
    assert Ranges(p[to..to]) == [];
  }

  // -------------------------------------------------------------------- matcher

  type Memo = map<(nat, nat), bool>

  /** Every remembered answer is the right one. */
  ghost predicate Remembers(p: string, s: string, memo: Memo) {
    forall key | key in memo :: key.0 <= |p| && key.1 <= |s| && memo[key] == Splits(Tokens(p, key.0), s[key.1..])
  }

  /** What one step must answer, in terms of later positions. */
  lemma Unfold(p: string, s: string, i: nat, j: nat)
    requires i < |p| && j <= |s|
    ensures var (t, next) := TokenAt(p, i);
      Splits(Tokens(p, i), s[j..]) <==>
        if t == Star then Splits(Tokens(p, i + 1), s[j..]) || (j < |s| && Splits(Tokens(p, i), s[j + 1..]))
        else j < |s| && Fits(t, [s[j]]) && Splits(Tokens(p, next), s[j + 1..])
  {
    var (t, next) := TokenAt(p, i);
    var tokens, rest := Tokens(p, i), s[j..];
    assert tokens[0] == t && tokens[1..] == Tokens(p, next);
    if j < |s| { assert rest[..1] == [s[j]] && rest[1..] == s[j + 1..]; }
    if t == Star { SplitStar(tokens, rest); } else { SplitOne(tokens, rest); }
  }

  method MatchSuffix(p: string, s: string, i: nat, j: nat, memo: Memo) returns (answer: bool, memo': Memo)
    requires i <= |p| && j <= |s| && Remembers(p, s, memo)
    ensures answer == Splits(Tokens(p, i), s[j..]) && Remembers(p, s, memo')
    decreases |p| - i, |s| - j, 1
  {
    if (i, j) in memo { return memo[(i, j)], memo; }
    if i == |p| {
      SplitEmpty(s[j..]);
      answer, memo' := j == |s|, memo;
    } else {
      answer, memo' := MatchToken(p, s, i, j, memo);
    }
    memo' := memo'[(i, j) := answer];
  }

  method MatchToken(p: string, s: string, i: nat, j: nat, memo: Memo) returns (answer: bool, memo': Memo)
    requires i < |p| && j <= |s| && Remembers(p, s, memo)
    ensures answer == Splits(Tokens(p, i), s[j..]) && Remembers(p, s, memo')
    decreases |p| - i, |s| - j, 0
  {
    Unfold(p, s, i, j);
    memo' := memo;
    if p[i] == '*' {
      answer, memo' := MatchSuffix(p, s, i + 1, j, memo);
      if !answer && j < |s| {
        answer, memo' := MatchSuffix(p, s, i, j + 1, memo');
      }
    } else if j == |s| {
      answer := false;
    } else if p[i] == '?' {
      answer, memo' := MatchSuffix(p, s, i + 1, j + 1, memo);
    } else if p[i] == '[' {
      var found := CharacterClass(p, i, s[j]);
      if found.Some? {
        answer := found.value.1;
        if answer { answer, memo' := MatchSuffix(p, s, found.value.0 + 1, j + 1, memo); }
      } else {
        answer := p[i] == s[j];
        if answer { answer, memo' := MatchSuffix(p, s, i + 1, j + 1, memo); }
      }
    } else {
      answer := p[i] == s[j];
      if answer { answer, memo' := MatchSuffix(p, s, i + 1, j + 1, memo); }
    }
  }

  /** A pattern matches exactly the candidates that split along its tokens. */
  method GlobMatches(pattern: string, candidate: string) returns (answer: bool)
    ensures answer <==> Splits(Tokens(pattern, 0), candidate)
  {
    var memo: Memo := map[];
    answer, memo := MatchSuffix(pattern, candidate, 0, 0, memo);
    assert candidate[0..] == candidate;
  }
}
