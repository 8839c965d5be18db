/** Exactly when dropping old exchanges keeps calls and results paired. */
module Pairing {
  import opened Prompts
  import opened Compaction
  import opened Assembly

  /** In order, and exactly the calls made are answered. */
  predicate PairedUp(cs: seq<Component>) {
    InOrder(cs) && AllAnswers(cs) == AllIds(cs)
  }

  lemma InOrderSnoc(cs: seq<Component>, c: Component)
    ensures InOrder(cs + [c]) <==> InOrder(cs) && Answers(c) <= AllIds(cs)
  {
    assert (cs + [c])[..|cs|] == cs;
  }

  lemma {:induction false} InOrderAnswers(cs: seq<Component>)
    requires InOrder(cs)
    ensures AllAnswers(cs) <= AllIds(cs)
  {
    if cs != [] {
      var n := |cs| - 1;
      InOrderAnswers(cs[..n]);
      assert cs == cs[..n] + [cs[n]];
      SnocParts(cs[..n], cs[n]);
    }
  }

  lemma {:induction false} InOrderPrefix(a: seq<Component>, b: seq<Component>)
    requires InOrder(a + b)
    ensures InOrder(a)
  {
    if b == [] {
      assert a + b == a;
    } else {
      var n := |b| - 1;
      assert a + b == (a + b[..n]) + [b[n]];
      InOrderSnoc(a + b[..n], b[n]);
      InOrderPrefix(a, b[..n]);
    }
  }

  // ------------------------------------------------------------------ one drop

  /** Leaving out results of some ids and the components that introduced them keeps the rest in order. */
  lemma {:induction false} DropInOrder(pre: seq<Component>, gone: seq<Component>, post: seq<Component>,
                                       ids: set<string>)
    requires InOrder(pre + gone + post) && AllIds(gone) <= ids
    ensures InOrder(pre + Unanswering(post, ids))
  {
    if post == [] {
      assert pre + gone + post == pre + gone;
      InOrderPrefix(pre, gone);
      assert pre + [] == pre;
    } else {
      var n := |post| - 1;
      var before, last := post[..n], post[n];
      var kept := Unanswering(before, ids);
      InOrderLast(pre + gone, post);
      DropInOrder(pre, gone, before, ids);
      KeptIds(pre, gone, before, ids);
      if Answers(last) !! ids { InOrderNext(pre, kept, last); }
    }
  }

  lemma InOrderLast(pre: seq<Component>, post: seq<Component>)
    requires InOrder(pre + post) && post != []
    ensures var n := |post| - 1; InOrder(pre + post[..n]) && Answers(post[n]) <= AllIds(pre + post[..n])
  {
    var n := |post| - 1;
    assert pre + post == (pre + post[..n]) + [post[n]];
    InOrderSnoc(pre + post[..n], post[n]);
  }

  lemma InOrderNext(pre: seq<Component>, kept: seq<Component>, last: Component)
    requires InOrder(pre + kept) && Answers(last) <= AllIds(pre + kept)
    ensures InOrder(pre + (kept + [last]))
  {
    assert pre + (kept + [last]) == (pre + kept) + [last];
    InOrderSnoc(pre + kept, last);
  }

  lemma KeptIds(pre: seq<Component>, gone: seq<Component>, post: seq<Component>, ids: set<string>)
    ensures AllIds(pre + gone + post) == AllIds(pre) + AllIds(gone) + AllIds(post)
    ensures AllAnswers(pre + gone + post) == AllAnswers(pre) + AllAnswers(gone) + AllAnswers(post)
    ensures AllIds(pre + Unanswering(post, ids)) == AllIds(pre) + AllIds(post)
    ensures AllAnswers(pre + Unanswering(post, ids)) == AllAnswers(pre) + (AllAnswers(post) - ids)
  {
    ConcatIds(pre + gone, post);
    ConcatIds(pre, gone);
    ConcatIds(pre, Unanswering(post, ids));
    FilterParts(post, ids);
  }

  /** After one drop the rest is in order, and it is paired up exactly when every id the dropped message shares with a
    * kept call was answered before it, and a dropped result was not the only one. */
  lemma DropExactly(pre: seq<Component>, d: Component, post: seq<Component>)
    requires PairedUp(pre + [d] + post)
    ensures var rest := pre + Unanswering(post, Ids(d));
      && InOrder(rest)
      && (PairedUp(rest) <==> Ids(d) * (AllIds(pre) + AllIds(post)) <= AllAnswers(pre)
                              && Answers(d) <= AllAnswers(pre) + AllAnswers(post))
  {
    var rest, ids := pre + Unanswering(post, Ids(d)), Ids(d);
    OneComponent(d);
    DropInOrder(pre, [d], post, ids);
    InOrderAnswers(rest);
    KeptIds(pre, [d], post, ids);
    InOrderPrefix(pre + [d], post);
    InOrderSnoc(pre, d);
    OneKind(d);
  }

  lemma OneComponent(d: Component)
    ensures AllIds([d]) == Ids(d) && AllAnswers([d]) == Answers(d)
  {
    assert [] + [d] == [d];
    SnocParts([], d);
  }

  lemma OneKind(d: Component)
    ensures Ids(d) == {} || Answers(d) == {}
  {
  }

  // ---------------------------------------------------------------- many drops

  /** A prompt whose history stands in one piece. */
  predicate Layered(lead: seq<Component>, past: seq<Component>, tail: seq<Component>) {
    && (forall c | c in lead + tail :: !Droppable(c))
    && (forall c | c in past :: Droppable(c))
  }

  /** What is left when the first `k` components of the history are gone: the rest without results of their calls. */
  function Swept(lead: seq<Component>, past: seq<Component>, tail: seq<Component>, k: nat): seq<Component>
    requires k <= |past|
  {
    lead + Unanswering(past[k..] + tail, AllIds(past[..k]))
  }

  lemma UnansweringHead(c: Component, rest: seq<Component>, ids: set<string>)
    ensures Unanswering([c] + rest, ids) == (if Answers(c) !! ids then [c] else []) + Unanswering(rest, ids)
  {
    var keep := (x: Component) => Answers(x) !! ids;
    FilterConcat([c], rest, keep);
    assert [c][..0] == [];
    assert Filter([c], keep) == if keep(c) then [c] else [];
  }

  lemma UnansweringTwice(post: seq<Component>, a: set<string>, b: set<string>)
    ensures Unanswering(Unanswering(post, a), b) == Unanswering(post, a + b)
  {
    FilterTwice(post, (c: Component) => Answers(c) !! a, (c: Component) => Answers(c) !! b,
                (c: Component) => Answers(c) !! a + b);
  }

  lemma NoneDroppable(cs: seq<Component>)
    requires forall c | c in cs :: !Droppable(c)
    ensures Oldest(cs) == |cs|
  {
    if Oldest(cs) < |cs| { assert cs[Oldest(cs)] in cs; }
  }

  lemma OldestAt(lead: seq<Component>, c: Component, rest: seq<Component>)
    requires (forall x | x in lead :: !Droppable(x)) && Droppable(c)
    ensures Oldest(lead + [c] + rest) == |lead|
  {
    var cs := lead + [c] + rest;
    assert cs[|lead|] == c;
    assert forall i | 0 <= i < |lead| :: cs[i] == lead[i] && lead[i] in lead;
  }

  lemma IdsNext(past: seq<Component>, k: nat)
    requires k < |past|
    ensures AllIds(past[..k + 1]) == AllIds(past[..k]) + Ids(past[k])
  {
    assert past[..k + 1] == past[..k] + [past[k]];
    SnocParts(past[..k], past[k]);
  }

  /** One more component of the history: already gone with its call, or the next to be dropped. */
  lemma SweepStep(lead: seq<Component>, past: seq<Component>, tail: seq<Component>, k: nat)
    requires Layered(lead, past, tail) && k < |past|
    ensures var ids := AllIds(past[..k]);
      if Answers(past[k]) !! ids
      then Oldest(Swept(lead, past, tail, k)) == |lead| < |Swept(lead, past, tail, k)|
           && Dropped(Swept(lead, past, tail, k), |lead|) == Swept(lead, past, tail, k + 1)
      else Swept(lead, past, tail, k) == Swept(lead, past, tail, k + 1)
  {
    var ids, c, rest := AllIds(past[..k]), past[k], past[k + 1..] + tail;
    assert past[k..] + tail == [c] + rest;
    UnansweringHead(c, rest, ids);
    IdsNext(past, k);
    OneKind(c);
    if Answers(c) !! ids {
      var r := Swept(lead, past, tail, k);
      assert c in past;
      OldestAt(lead, c, Unanswering(rest, ids));
      assert r == lead + [c] + Unanswering(rest, ids);
      assert r[..|lead|] == lead && r[|lead|] == c && r[|lead| + 1..] == Unanswering(rest, ids);
      UnansweringTwice(rest, ids, Ids(c));
    } else {
      assert Ids(c) == {} && AllIds(past[..k + 1]) == ids;
      assert [] + Unanswering(rest, ids) == Unanswering(rest, ids);
    }
  }

  lemma SweptAll(lead: seq<Component>, past: seq<Component>, tail: seq<Component>)
    requires Layered(lead, past, tail)
    ensures Oldest(Swept(lead, past, tail, |past|)) == |Swept(lead, past, tail, |past|)|
  {
    var ids := AllIds(past[..|past|]);
    assert past[|past|..] + tail == tail;
    forall c | c in Swept(lead, past, tail, |past|) ensures !Droppable(c) {
      FilterMembers(tail, (x: Component) => Answers(x) !! ids, c);
    }
    NoneDroppable(Swept(lead, past, tail, |past|));
  }

  /** The first sweep that fits the bound, or the last one. */
  function FirstFit(encode: Component -> string, lead: seq<Component>, past: seq<Component>, tail: seq<Component>,
                    k: nat, maxTokens: nat): (m: nat)
    requires k <= |past|
    ensures k <= m <= |past| && (m < |past| ==> TotalTokens(encode, Swept(lead, past, tail, m)) <= maxTokens)
    ensures forall j | k <= j < m :: TotalTokens(encode, Swept(lead, past, tail, j)) > maxTokens
    decreases |past| - k
  {
    if k == |past| || TotalTokens(encode, Swept(lead, past, tail, k)) <= maxTokens then k
    else FirstFit(encode, lead, past, tail, k + 1, maxTokens)
  }

  /** However many exchanges the loop drops, the outcome is one sweep over the history. */
  lemma {:induction false} LoopSweeps(encode: Component -> string, lead: seq<Component>, past: seq<Component>,
                                      tail: seq<Component>, k: nat, maxTokens: nat)
    requires Layered(lead, past, tail) && k <= |past|
    ensures DroppedUntil(encode, Swept(lead, past, tail, k), maxTokens)
            == Swept(lead, past, tail, FirstFit(encode, lead, past, tail, k, maxTokens))
    decreases |past| - k
  {
    if k == |past| {
      SweptAll(lead, past, tail);
    } else if TotalTokens(encode, Swept(lead, past, tail, k)) > maxTokens {
      SweepStep(lead, past, tail, k);
      LoopSweeps(encode, lead, past, tail, k + 1, maxTokens);
    }
  }

  /** After any number of drops the rest is in order, and it is paired up exactly when no id of a dropped call is
    * introduced again by a kept one, unless the part before the history already answers it. */
  lemma SweptExactly(lead: seq<Component>, past: seq<Component>, tail: seq<Component>, k: nat)
    requires k <= |past| && PairedUp(lead + past + tail) && AllIds(lead) == AllAnswers(lead)
    ensures var rest := Swept(lead, past, tail, k);
      InOrder(rest) && (PairedUp(rest) <==> AllIds(past[..k]) * (AllIds(past[k..]) + AllIds(tail)) <= AllIds(lead))
  {
    var gone, post := past[..k], past[k..] + tail;
    var ids := AllIds(gone);
    assert lead + past + tail == lead + gone + post by { assert past == gone + past[k..]; }
    DropInOrder(lead, gone, post, ids);
    InOrderAnswers(Swept(lead, past, tail, k));
    KeptIds(lead, gone, post, ids);
    ConcatIds(past[k..], tail);
    InOrderPrefix(lead + gone, post);
    InOrderAnswers(lead + gone);
    ConcatIds(lead, gone);
  }
}
