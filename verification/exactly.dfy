/** Exactly when the model sees paired messages, for every prompt and every transform. */
module PromptExactly {
  import opened Text
  import opened Prompts
  import opened Compaction
  import opened Assembly
  import opened Pairing

  // --------------------------------------------------------------------- order

  /** The ids answered before any message introduced them. */
  function Early(messages: seq<Message>): set<string> {
    if messages == [] then {} else
      var n := |messages| - 1;
      Early(messages[..n]) + (Answered(messages[n]) - IdsOf(messages[..n]))
  }

  lemma {:induction false} EarlyNone(messages: seq<Message>)
    ensures CallsFirst(messages) <==> Early(messages) == {}
  {
    if messages != [] {
      var n := |messages| - 1;
      EarlyNone(messages[..n]);
      if CallsFirst(messages) { assert Answered(messages[n]) - IdsOf(messages[..n]) == {}; }
    }
  }

  lemma EarlySnoc(messages: seq<Message>, m: Message)
    ensures Early(messages + [m]) == Early(messages) + (Answered(m) - IdsOf(messages))
  {
    assert (messages + [m])[..|messages|] == messages;
  }

  lemma {:induction false} ConcatMessages(a: seq<Message>, b: seq<Message>)
    ensures IdsOf(a + b) == IdsOf(a) + IdsOf(b) && AnswersOf(a + b) == AnswersOf(a) + AnswersOf(b)
    ensures Early(a + b) == Early(a) + (Early(b) - IdsOf(a))
  {
    if b == [] {
      assert a + b == a;
    } else {
      var n := |b| - 1;
      ConcatMessages(a, b[..n]);
      assert a + b == (a + b[..n]) + [b[n]];
      Snoc(a + b[..n], b[n]);
      EarlySnoc(a + b[..n], b[n]);
    }
  }

  /** Some message that stays introduces the id, but a result of it comes before every one of them. */
  ghost predicate OutOfOrder(entries: seq<Entry>, id: string) {
    var answers := AnswersOf(MessagesOf(entries));
    && (exists i :: 0 <= i < |entries| && Settled(answers, entries[i]) && id in Introduced(entries[i].message))
    && exists j :: 0 <= j < |entries| && id in Answered(entries[j].message)
                   && forall i | 0 <= i < j :: !(Settled(answers, entries[i]) && id in Introduced(entries[i].message))
  }

  /** A kept result of the id before every kept message that introduces it. */
  ghost predicate EarlyAt(entries: seq<Entry>, keep: Entry -> bool, id: string, j: nat) {
    && j < |entries| && keep(entries[j]) && id in Answered(entries[j].message)
    && forall i | 0 <= i < j :: !(keep(entries[i]) && id in Introduced(entries[i].message))
  }

  lemma {:induction false} FilterIntroduces(entries: seq<Entry>, keep: Entry -> bool, id: string)
    ensures id in IdsOf(MessagesOf(Filter(entries, keep))) <==>
            exists i :: 0 <= i < |entries| && keep(entries[i]) && id in Introduced(entries[i].message)
  {
    EntryIds(Filter(entries, keep), id);
    if id in IdsOf(MessagesOf(Filter(entries, keep))) {
      var x :| x in Filter(entries, keep) && id in Introduced(x.message);
      FilterMembers(entries, keep, x);
      var i :| 0 <= i < |entries| && entries[i] == x;
      assert keep(entries[i]);
    }
    if i :| 0 <= i < |entries| && keep(entries[i]) && id in Introduced(entries[i].message) {
      FilterMembers(entries, keep, entries[i]);
    }
  }

  lemma {:induction false} FilterEarly(entries: seq<Entry>, keep: Entry -> bool, id: string)
    ensures id in Early(MessagesOf(Filter(entries, keep))) <==> exists j: nat :: EarlyAt(entries, keep, id, j)
  {
    if entries != [] {
      var n := |entries| - 1;
      var before, kept := entries[..n], Filter(entries[..n], keep);
      FilterEarly(before, keep, id);
      FilterIntroduces(before, keep, id);
      forall j: nat ensures EarlyAt(before, keep, id, j) <==> EarlyAt(entries, keep, id, j) && j < n {
        assert forall i | 0 <= i < n :: before[i] == entries[i];
      }
      if keep(entries[n]) {
        assert MessagesOf(kept + [entries[n]]) == MessagesOf(kept) + [entries[n].message];
        EarlySnoc(MessagesOf(kept), entries[n].message);
        LastEarly(entries, keep, id);
      }
    }
  }

  lemma LastEarly(entries: seq<Entry>, keep: Entry -> bool, id: string)
    requires entries != []
    ensures var n := |entries| - 1;
      EarlyAt(entries, keep, id, n) <==>
      keep(entries[n]) && id in Answered(entries[n].message) && id !in IdsOf(MessagesOf(Filter(entries[..n], keep)))
  {
    var n := |entries| - 1;
    FilterIntroduces(entries[..n], keep, id);
    assert forall i | 0 <= i < n :: entries[..n][i] == entries[i];
  }

  /** Projection leaves an id answered too early exactly when its introducers before the result were dropped and a later
    * one stays. */
  lemma EarlyExactly(entries: seq<Entry>, id: string)
    ensures id in Early(MessagesOf(AnsweredEntries(entries))) <==> OutOfOrder(entries, id)
  {
    var keep := (x: Entry) => Retained(entries, x);
    AnsweredIsRetained(entries, keep);
    FilterEarly(entries, keep, id);
    RetainedMeans(entries, keep, id);
  }

  lemma RetainedMeans(entries: seq<Entry>, keep: Entry -> bool, id: string)
    requires forall x :: keep(x) <==> Retained(entries, x)
    ensures (exists j: nat :: EarlyAt(entries, keep, id, j)) <==> OutOfOrder(entries, id)
  {
    var answers := AnswersOf(MessagesOf(entries));
    FilterIntroduces(entries, (entry: Entry) => Settled(answers, entry), id);
    if j: nat :| EarlyAt(entries, keep, id, j) {
      assert id in IdsOf(MessagesOf(Kept(entries)));
      assert forall i | 0 <= i < j :: !(Settled(answers, entries[i]) && id in Introduced(entries[i].message));
    }
    if OutOfOrder(entries, id) {
      var j: nat :| j < |entries| && id in Answered(entries[j].message)
                    && forall i | 0 <= i < j :: !(Settled(answers, entries[i]) && id in Introduced(entries[i].message));
      assert Answered(entries[j].message) == {id};
      assert EarlyAt(entries, keep, id, j);
    }
  }

  // ------------------------------------------------------- messages of a prompt

  /** The messages projected from a list of events. */
  function Shown(e: Encoders, events: seq<Event>): seq<Message> {
    MessagesOf(AnsweredEntries(Entries(e, events)))
  }

  lemma TimelineShown(e: Encoders, events: seq<Event>, historical: bool)
    ensures Messages(Timeline(e, events, historical)) == Shown(e, events)
    ensures |Timeline(e, events, historical)| == |Shown(e, events)|
  {
    AllMessages(Timeline(e, events, historical), Shown(e, events));
  }

  lemma {:induction false} Silent(cs: seq<Component>)
    requires forall c | c in cs :: Ids(c) == {} && Answers(c) == {}
    ensures var ms := Messages(cs); IdsOf(ms) == {} && AnswersOf(ms) == {} && Early(ms) == {}
  {
    SilentSound(cs);
    SoundPaired(cs);
    MessagesParts(cs);
    EarlyNone(Messages(cs));
  }

  /** What a prompt's caller supplies: live parts, of which only the content takes part in exchanges, and whole ones. */
  predicate Supplied(input: PromptInput) {
    && (forall c | c in input.front + [input.objective] :: !c.historical && Ids(c) == {} && Answers(c) == {})
    && (forall c | c in input.content :: !c.historical) && PairedUp(input.content)
  }

  lemma ContentShown(input: PromptInput)
    requires Supplied(input)
    ensures var ms := Messages(input.front + input.content);
      IdsOf(ms) == AllIds(input.content) && AnswersOf(ms) == AllIds(input.content) && Early(ms) == {}
  {
    MessagesConcat(input.front, input.content);
    Silent(input.front);
    MessagesParts(input.content);
    EarlyNone(Messages(input.content));
    ConcatMessages(Messages(input.front), Messages(input.content));
  }

  /** The history and everything after it, past the objective, which takes no part in an exchange. */
  lemma RestShown(input: PromptInput, past: seq<Message>, present: seq<Message>)
    requires Supplied(input)
    ensures var ms := past + Messages([input.objective]) + present;
      && IdsOf(ms) == IdsOf(past) + IdsOf(present) && AnswersOf(ms) == AnswersOf(past) + AnswersOf(present)
      && Early(ms) == Early(past) + (Early(present) - IdsOf(past))
  {
    Silent([input.objective]);
    ConcatMessages(past, Messages([input.objective]));
    ConcatMessages(past + Messages([input.objective]), present);
  }

  /** Messages in two parts, of which the first is paired. */
  lemma PairedAfter(lead: seq<Message>, rest: seq<Message>, ids: set<string>)
    requires IdsOf(lead) == ids && AnswersOf(lead) == ids && Early(lead) == {}
    ensures Paired(lead + rest) <==> Early(rest) <= ids && AnswersOf(rest) + ids == IdsOf(rest) + ids
  {
    ConcatMessages(lead, rest);
    EarlyNone(lead + rest);
    assert Early(rest) - ids == {} <==> Early(rest) <= ids;
  }

  // --------------------------------------------------------- before compaction

  /** An id answered too early in the history or in the current events is introduced by a part before it. */
  ghost predicate Ordered(e: Encoders, input: PromptInput) {
    && (forall id | OutOfOrder(Entries(e, Tail(input.timeline)), id) :: id in AllIds(input.content))
    && (forall id | OutOfOrder(Entries(e, input.current), id) ::
          id in AllIds(input.content) + IdsOf(Shown(e, Tail(input.timeline))))
  }

  lemma OrderedMeans(e: Encoders, input: PromptInput)
    ensures var past, present := Shown(e, Tail(input.timeline)), Shown(e, input.current);
      Ordered(e, input) <==>
              Early(past) <= AllIds(input.content) && Early(present) <= AllIds(input.content) + IdsOf(past)
  {
    forall id
      ensures id in Early(Shown(e, Tail(input.timeline))) <==> OutOfOrder(Entries(e, Tail(input.timeline)), id)
    {
      EarlyExactly(Entries(e, Tail(input.timeline)), id);
    }
    forall id ensures id in Early(Shown(e, input.current)) <==> OutOfOrder(Entries(e, input.current), id) {
      EarlyExactly(Entries(e, input.current), id);
    }
  }

  lemma ComponentsShown(e: Encoders, address: Component -> string, input: PromptInput)
    ensures Messages(Addressed(address, Components(e, input))) ==
            Messages(input.front + input.content)
            + (Shown(e, Tail(input.timeline)) + Messages([input.objective]) + Shown(e, input.current))
  {
    MessagesAddressed(address, Components(e, input));
    TimelineShown(e, Tail(input.timeline), true);
    TimelineShown(e, input.current, false);
    PartsShown(input.front + input.content, Timeline(e, Tail(input.timeline), true), input.objective,
               Timeline(e, input.current, false));
  }

  lemma PartsShown(lead: seq<Component>, past: seq<Component>, objective: Component, present: seq<Component>)
    ensures Messages(lead + past + [objective] + present)
            == Messages(lead) + (Messages(past) + Messages([objective]) + Messages(present))
  {
    MessagesConcat(lead, past);
    MessagesConcat(lead + past, [objective]);
    MessagesConcat(lead + past + [objective], present);
  }

  /** Without compaction the model sees paired messages exactly when no result came to stand before all its calls. */
  lemma UnchangedExactly(e: Encoders, address: Component -> string, input: PromptInput)
    requires Supplied(input)
    ensures Paired(Messages(Addressed(address, Components(e, input)))) <==> Ordered(e, input)
  {
    var past, present := Shown(e, Tail(input.timeline)), Shown(e, input.current);
    ComponentsShown(e, address, input);
    ContentShown(input);
    RestShown(input, past, present);
    AnsweredExactly(Entries(e, Tail(input.timeline)));
    AnsweredExactly(Entries(e, input.current));
    PairedAfter(Messages(input.front + input.content), past + Messages([input.objective]) + present,
                AllIds(input.content));
    OrderedMeans(e, input);
  }

  // ------------------------------------------------------------------ trimming

  lemma PromptTraced(e: Encoders, address: Component -> string, input: PromptInput)
    requires Supplied(input)
    ensures forall c | c in Addressed(address, Components(e, input)) :: Traced(c)
  {
    var cs := Components(e, input);
    TimelineTraced(e, Tail(input.timeline), true);
    TimelineTraced(e, input.current, false);
    forall i | 0 <= i < |cs| ensures Traced(Addressed(address, cs)[i]) {
      assert cs[i] in input.front + [input.objective] || cs[i] in input.content
             || cs[i] in Timeline(e, Tail(input.timeline), true) || cs[i] in Timeline(e, input.current, false);
      assert Traced(cs[i]);
    }
  }

  /** Trimming neither breaks nor repairs pairing. */
  lemma TrimExactly(stub: Component -> string, cs: seq<Component>, maxChars: nat)
    requires forall c | c in cs :: Traced(c)
    ensures Paired(Messages(TrimmedAll(stub, cs, maxChars))) <==> Paired(Messages(cs))
  {
    var r := TrimmedAll(stub, cs, maxChars);
    forall i | 0 <= i < |cs| ensures Ids(cs[i]) == Ids(r[i]) && Answers(cs[i]) == Answers(r[i]) {
      assert Traced(cs[i]);
    }
    SameShape(cs, r);
    MessagesParts(cs);
    MessagesParts(r);
  }

  // ------------------------------------------------------------------ dropping

  /** Leaving out the results of some ids leaves out these ids from those answered too early. */
  lemma {:induction false} UnansweringShown(post: seq<Component>, ids: set<string>)
    ensures var kept, all := Messages(Unanswering(post, ids)), Messages(post);
      IdsOf(kept) == IdsOf(all) && AnswersOf(kept) == AnswersOf(all) - ids && Early(kept) == Early(all) - ids
  {
    if post != [] {
      var n := |post| - 1;
      UnansweringShown(post[..n], ids);
      assert post == post[..n] + [post[n]];
      UnansweringNext(post[..n], Unanswering(post[..n], ids), post[n], ids);
    }
  }

  lemma ShownSnoc(cs: seq<Component>, c: Component)
    ensures Messages(cs + [c]) == if c.message.Some? then Messages(cs) + [c.message.value] else Messages(cs)
  {
    assert (cs + [c])[..|cs|] == cs;
  }

  lemma UnansweringNext(before: seq<Component>, kept: seq<Component>, last: Component, ids: set<string>)
    requires IdsOf(Messages(kept)) == IdsOf(Messages(before))
    requires AnswersOf(Messages(kept)) == AnswersOf(Messages(before)) - ids
    requires Early(Messages(kept)) == Early(Messages(before)) - ids
    ensures var all, rest := Messages(before + [last]), Messages(if Answers(last) !! ids then kept + [last] else kept);
      IdsOf(rest) == IdsOf(all) && AnswersOf(rest) == AnswersOf(all) - ids && Early(rest) == Early(all) - ids
  {
    ShownSnoc(before, last);
    ShownSnoc(kept, last);
    if last.message.Some? {
      var m := last.message.value;
      NextShown(Messages(before), m);
      NextShown(Messages(kept), m);
      Apart(AnswersOf(Messages(before)), Answered(m), ids);
      Apart(Early(Messages(before)), Answered(m) - IdsOf(Messages(before)), ids);
      assert Answered(m) !! ids || (Answered(m) <= ids && Introduced(m) == {});
    }
  }

  /** Leaving out some ids from a union. */
  lemma Apart(a: set<string>, b: set<string>, ids: set<string>)
    ensures b !! ids ==> (a + b) - ids == (a - ids) + b
    ensures b <= ids ==> (a + b) - ids == a - ids
  {
  }

  lemma NextShown(ms: seq<Message>, m: Message)
    ensures IdsOf(ms + [m]) == IdsOf(ms) + Introduced(m) && AnswersOf(ms + [m]) == AnswersOf(ms) + Answered(m)
    ensures Early(ms + [m]) == Early(ms) + (Answered(m) - IdsOf(ms))
  {
    Snoc(ms, m);
    EarlySnoc(ms, m);
  }

  lemma {:induction false} NothingUnanswering(post: seq<Component>)
    ensures Unanswering(post, {}) == post
  {
    if post != [] {
      NothingUnanswering(post[..|post| - 1]);
      assert post == post[..|post| - 1] + [post[|post| - 1]];
    }
  }

  function Lead(address: Component -> string, input: PromptInput): seq<Component> {
    Addressed(address, input.front + input.content)
  }

  function History(e: Encoders, address: Component -> string, input: PromptInput): seq<Component> {
    Addressed(address, Timeline(e, Tail(input.timeline), true))
  }

  function Rest(e: Encoders, address: Component -> string, input: PromptInput): seq<Component> {
    Addressed(address, [input.objective] + Timeline(e, input.current, false))
  }

  /** How many messages of the history are gone when the prompt fits, or when all of them are. */
  function Gone(e: Encoders, encode: Component -> string, address: Component -> string, input: PromptInput,
                maxTokens: nat): (m: nat)
    ensures m <= |History(e, address, input)|
  {
    FirstFit(encode, Lead(address, input), History(e, address, input), Rest(e, address, input), 0, maxTokens)
  }

  lemma PromptLayered(e: Encoders, address: Component -> string, input: PromptInput)
    requires Supplied(input)
    ensures Layered(Lead(address, input), History(e, address, input), Rest(e, address, input))
    ensures Addressed(address, Components(e, input))
            == Swept(Lead(address, input), History(e, address, input), Rest(e, address, input), 0)
  {
    TimelineTraced(e, Tail(input.timeline), true);
    TimelineTraced(e, input.current, false);
    LiveAddressed(address, input.front + input.content);
    LiveAddressed(address, [input.objective] + Timeline(e, input.current, false));
    PastAddressed(address, Timeline(e, Tail(input.timeline), true));
    PartsAddressed(address, input.front + input.content, Timeline(e, Tail(input.timeline), true), input.objective,
                   Timeline(e, input.current, false));
    SweptNone(Lead(address, input), History(e, address, input), Rest(e, address, input));
  }

  lemma LiveAddressed(address: Component -> string, cs: seq<Component>)
    requires forall c | c in cs :: !c.historical
    ensures forall c | c in Addressed(address, cs) :: !Droppable(c)
  {
    forall i | 0 <= i < |cs| ensures !Droppable(Addressed(address, cs)[i]) {
      assert cs[i] in cs;
    }
  }

  lemma PastAddressed(address: Component -> string, cs: seq<Component>)
    requires forall c | c in cs :: Droppable(c)
    ensures forall c | c in Addressed(address, cs) :: Droppable(c)
  {
    forall i | 0 <= i < |cs| ensures Droppable(Addressed(address, cs)[i]) {
      assert cs[i] in cs;
    }
  }

  lemma PartsAddressed(address: Component -> string, lead: seq<Component>, past: seq<Component>, objective: Component,
                       present: seq<Component>)
    ensures Addressed(address, lead + past + [objective] + present)
            == Addressed(address, lead) + (Addressed(address, past) + Addressed(address, [objective] + present))
  {
  }

  lemma SweptNone(lead: seq<Component>, past: seq<Component>, tail: seq<Component>)
    ensures Swept(lead, past, tail, 0) == lead + (past + tail)
  {
    assert past[0..] == past && past[..0] == [] && AllIds(past[..0]) == {};
    NothingUnanswering(past + tail);
  }

  /** A result either follows a call of its id or comes too early. */
  lemma {:induction false} AnswersPlaced(ms: seq<Message>)
    ensures AnswersOf(ms) <= IdsOf(ms) + Early(ms)
  {
    if ms != [] { AnswersPlaced(ms[..|ms| - 1]); }
  }

  /** Paired messages followed by the rest without the results of the ids that are gone. */
  lemma SweptPaired(lead: seq<Message>, kept: seq<Message>, rest: seq<Message>, ids: set<string>, gone: set<string>)
    requires IdsOf(lead) == ids && AnswersOf(lead) == ids && Early(lead) == {}
    requires IdsOf(kept) == IdsOf(rest) && AnswersOf(kept) == AnswersOf(rest) - gone
    requires Early(kept) == Early(rest) - gone
    ensures Paired(lead + kept) <==> Early(rest) <= ids + gone && IdsOf(rest) - ids <= AnswersOf(rest) - gone
  {
    PairedAfter(lead, kept, ids);
    AnswersPlaced(rest);
    assert Early(rest) - gone <= ids <==> Early(rest) <= ids + gone;
  }

  lemma {:induction false} AddressedFrom(address: Component -> string, cs: seq<Component>, k: nat)
    requires k <= |cs|
    ensures Addressed(address, cs)[..k] == Addressed(address, cs[..k])
    ensures Addressed(address, cs)[k..] == Addressed(address, cs[k..])
  {
  }

  lemma HistoryShown(e: Encoders, address: Component -> string, input: PromptInput, k: nat)
    requires k <= |History(e, address, input)|
    ensures var past := Shown(e, Tail(input.timeline));
      && |past| == |History(e, address, input)|
      && Messages(History(e, address, input)[..k]) == past[..k] && Messages(History(e, address, input)[k..])
              == past[k..]
  {
    PartShown(Timeline(e, Tail(input.timeline), true), Shown(e, Tail(input.timeline)), address, k);
  }

  lemma PartShown(cs: seq<Component>, ms: seq<Message>, address: Component -> string, k: nat)
    requires |cs| == |ms| && k <= |cs| && forall i | 0 <= i < |cs| :: cs[i].message == Some(ms[i])
    ensures Messages(Addressed(address, cs)[..k]) == ms[..k] && Messages(Addressed(address, cs)[k..]) == ms[k..]
  {
    AddressedFrom(address, cs, k);
    MessagesAddressed(address, cs[..k]);
    MessagesAddressed(address, cs[k..]);
    AllMessages(cs[..k], ms[..k]);
    AllMessages(cs[k..], ms[k..]);
  }

  /** What the model is shown after `k` messages of the history are gone. */
  lemma SweptShown(e: Encoders, address: Component -> string, input: PromptInput, k: nat)
    requires Supplied(input) && k <= |History(e, address, input)|
    ensures var lead, past, tail := Lead(address, input), History(e, address, input), Rest(e, address, input);
      var before, after, present := Shown(e, Tail(input.timeline))[..k], Shown(e, Tail(input.timeline))[k..],
          Shown(e, input.current);
      var ms, gone, ids := Messages(Swept(lead, past, tail, k)), IdsOf(before), AllIds(input.content);
      Paired(ms) <==> Early(after) + (Early(present) - IdsOf(after)) <= ids + gone
                      && IdsOf(after) + IdsOf(present) - ids <= AnswersOf(after) + AnswersOf(present) - gone
  {
    var lead, past, tail := Lead(address, input), History(e, address, input), Rest(e, address, input);
    var after, present := Shown(e, Tail(input.timeline))[k..], Shown(e, input.current);
    var gone, rest := AllIds(past[..k]), past[k..] + tail;
    HistoryShown(e, address, input, k);
    MessagesParts(past[..k]);
    MessagesConcat(lead, Unanswering(rest, gone));
    MessagesConcat(past[k..], tail);
    RestTail(e, address, input);
    assert Messages(rest) == after + Messages([input.objective]) + present;
    UnansweringShown(rest, gone);
    RestShown(input, after, present);
    ContentShown(input);
    MessagesAddressed(address, input.front + input.content);
    SweptPaired(Messages(lead), Messages(Unanswering(rest, gone)), Messages(rest), AllIds(input.content), gone);
  }

  lemma RestTail(e: Encoders, address: Component -> string, input: PromptInput)
    ensures Messages(Rest(e, address, input)) == Messages([input.objective]) + Shown(e, input.current)
  {
    MessagesAddressed(address, [input.objective] + Timeline(e, input.current, false));
    MessagesConcat([input.objective], Timeline(e, input.current, false));
    TimelineShown(e, input.current, false);
  }

  /** With a token bound the model sees paired messages exactly when every result left follows a call or belongs to one
    * that is gone or supplied, and every call left that the content does not make is answered by what is left and
    * shares no id with a call that is gone. */
  lemma DropOldestExactly(e: Encoders, encode: Component -> string, address: Component -> string, input: PromptInput,
                          maxTokens: nat)
    requires Supplied(input)
    ensures var m, past, present := Gone(e, encode, address, input, maxTokens), Shown(e, Tail(input.timeline)),
        Shown(e, input.current);
      && m <= |past|
      && var gone, after, ids := IdsOf(past[..m]), past[m..], AllIds(input.content);
         Paired(Messages(DroppedUntil(encode, Addressed(address, Components(e, input)), maxTokens))) <==>
           Early(after) + (Early(present) - IdsOf(after)) <= ids + gone
           && IdsOf(after) + IdsOf(present) - ids <= AnswersOf(after) + AnswersOf(present) - gone
  {
    var m := Gone(e, encode, address, input, maxTokens);
    PromptLayered(e, address, input);
    LoopSweeps(encode, Lead(address, input), History(e, address, input), Rest(e, address, input), 0, maxTokens);
    HistoryShown(e, address, input, m);
    SweptShown(e, address, input, m);
  }

  /** When the whole prompt is paired, what a token bound leaves of it is paired exactly when no call that is gone
    * shares its id with one that is left, except for ids of the supplied content. */
  lemma DropOldestPaired(e: Encoders, encode: Component -> string, address: Component -> string, input: PromptInput,
                         maxTokens: nat)
    requires Supplied(input) && Ordered(e, input)
    ensures var m, past, present := Gone(e, encode, address, input, maxTokens), Shown(e, Tail(input.timeline)),
        Shown(e, input.current);
      && m <= |past|
      && (Paired(Messages(DroppedUntil(encode, Addressed(address, Components(e, input)), maxTokens))) <==>
          IdsOf(past[..m]) * (IdsOf(past[m..]) + IdsOf(present)) <= AllIds(input.content))
  {
    var m, past, present := Gone(e, encode, address, input, maxTokens), Shown(e, Tail(input.timeline)),
        Shown(e, input.current);
    DropOldestExactly(e, encode, address, input, maxTokens);
    OrderedMeans(e, input);
    AnsweredExactly(Entries(e, Tail(input.timeline)));
    AnsweredExactly(Entries(e, input.current));
    OrderedSplit(past, m, present, AllIds(input.content));
  }

  lemma OrderedSplit(past: seq<Message>, m: nat, present: seq<Message>, ids: set<string>)
    requires m <= |past| && Early(past) <= ids && Early(present) <= ids + IdsOf(past)
    requires AnswersOf(past) == IdsOf(past) && AnswersOf(present) == IdsOf(present)
    ensures Early(past[m..]) + (Early(present) - IdsOf(past[m..])) <= ids + IdsOf(past[..m])
    ensures IdsOf(past[m..]) + IdsOf(present) - ids <= AnswersOf(past[m..]) + AnswersOf(present) - IdsOf(past[..m]) <==>
            IdsOf(past[..m]) * (IdsOf(past[m..]) + IdsOf(present)) <= ids
  {
    assert past == past[..m] + past[m..];
    ConcatMessages(past[..m], past[m..]);
    AnswersPlaced(past[..m]);
  }

  // ------------------------------------------------------------ every transform

  /** Read off the input: the projected messages, the supplied ids and how much of the history is gone. */
  ghost predicate Pairs(e: Encoders, encode: Component -> string, address: Component -> string, input: PromptInput,
                        transform: Transform) {
    if transform.DropOldestTo? then
      var m, past, present := Gone(e, encode, address, input, transform.maxTokens), Shown(e, Tail(input.timeline)),
          Shown(e, input.current);
      && m <= |past|
      && var gone, after, ids := IdsOf(past[..m]), past[m..], AllIds(input.content);
         && Early(after) + (Early(present) - IdsOf(after)) <= ids + gone
         && IdsOf(after) + IdsOf(present) - ids <= AnswersOf(after) + AnswersOf(present) - gone
    else Ordered(e, input)
  }

  /** For every supplied prompt and every transform, exactly when the model sees every call answered, every answer
    * called for and every call first. */
  lemma PromptPairedExactly(e: Encoders, encode: Component -> string, stub: Component -> string,
                            address: Component -> string,
                            input: PromptInput, transform: Transform)
    requires Supplied(input)
    ensures Paired(Messages(Transformed(encode, stub, Addressed(address, Components(e, input)), transform)))
            <==> Pairs(e, encode, address, input, transform)
  {
    match transform
    case Unchanged => UnchangedExactly(e, address, input);
    case StructuralTrim(maxChars) =>
      PromptTraced(e, address, input);
      TrimExactly(stub, Addressed(address, Components(e, input)), maxChars);
      UnchangedExactly(e, address, input);
    case DropOldestTo(maxTokens) => DropOldestExactly(e, encode, address, input, maxTokens);
  }
}
