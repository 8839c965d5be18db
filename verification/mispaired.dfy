/** Two prompts that show the model a call or a result without its counterpart. */
module Mispaired {
  import opened Text
  import opened Json
  import opened Prompts
  import opened Compaction
  import opened Assembly
  import opened Pairing
  import opened PromptExactly

  function ToolCallEvent(): Event {
    Event("tool_call", "", "", "", "", "", None, Null)
  }

  function ResultEvent(id: string): Event {
    Event("tool_result", "", "", "", id, "", None, Null)
  }

  function ReplyEvent(calls: seq<Call>): Event {
    Event("model", "assistant", "", "", "", "", Some(calls), Null)
  }

  function Objective(): Component {
    Component("objective", false, "", "", Some(User("go")), None)
  }

  lemma ObjectiveSilent(timeline: seq<Event>, current: seq<Event>)
    ensures Supplied(PromptInput([], [], timeline, Objective(), current))
  {
    assert forall c | c in [] + [Objective()] :: c == Objective();
  }

  lemma Projected1(e: Encoders, a: Event)
    ensures Entries(e, [a]) == Extended([], 0, a, MessageOf(e, a, 0, {}))
  {
    assert [a][..0] == [] && Entries(e, []) == [];
    assert MessagesOf([]) == [];
  }

  lemma ProjectedNext(e: Encoders, events: seq<Event>, b: Event, before: seq<Entry>)
    requires Entries(e, events) == before
    ensures Entries(e, events + [b]) == Extended(before, |events|, b,
                                                 MessageOf(e, b, |events|, IdsOf(MessagesOf(before))))
  {
    assert (events + [b])[..|events|] == events;
  }

  // ------------------------------------------------------ a fallback id used twice

  /** The id projection gives a call without ids at the start of a list. */
  function Fallback(): string {
    "call-" + NatString(0)
  }

  function Untagged(): seq<Event> {
    [ToolCallEvent(), ResultEvent(Fallback())]
  }

  function UntaggedEntries(e: Encoders): seq<Entry> {
    [Entry(0, ToolCallEvent(), Assistant(None, [Call(Fallback(), "", Some(e.input(ToolCallEvent())))])),
     Entry(1, ResultEvent(Fallback()), Tool(Fallback(), e.result(ResultEvent(Fallback()))))]
  }

  lemma UntaggedProjected(e: Encoders)
    ensures Entries(e, Untagged()) == UntaggedEntries(e)
  {
    var entries := UntaggedEntries(e);
    assert Untagged() == [ToolCallEvent()] + [ResultEvent(Fallback())];
    CallProjected(e);
    Projected1(e, ToolCallEvent());
    assert Entries(e, [ToolCallEvent()]) == [entries[0]];
    CallIntroduces(entries[0].message);
    assert MessagesOf([entries[0]]) == [] + [entries[0].message];
    Snoc([], entries[0].message);
    ResultProjected(e, Fallback(), 1, {Fallback()});
    ProjectedNext(e, [ToolCallEvent()], ResultEvent(Fallback()), [entries[0]]);
  }

  lemma CallProjected(e: Encoders)
    ensures MessageOf(e, ToolCallEvent(), 0, {})
            == Some(Assistant(None, [Call(Fallback(), "", Some(e.input(ToolCallEvent())))]))
  {
  }

  lemma ResultProjected(e: Encoders, id: string, index: nat, ids: set<string>)
    requires id != "" && id in ids
    ensures MessageOf(e, ResultEvent(id), index, ids) == Some(Tool(id, e.result(ResultEvent(id))))
  {
  }

  lemma CallIntroduces(m: Message)
    requires m.Assistant? && |m.calls| == 1 && m.calls[0].id != ""
    ensures Introduced(m) == {m.calls[0].id} && Answered(m) == {}
  {
  }

  lemma ExchangeAnswered(a: Entry, t: Entry, id: string)
    requires Introduced(a.message) == {id} && Answered(a.message) == {} && Introduced(t.message) == {}
    requires Answered(t.message) == {id}
    ensures AnsweredEntries([a, t]) == [a, t]
    ensures IdsOf(MessagesOf([a, t])) == {id}
    ensures !OutOfOrder([a, t], id) && forall x :: !OutOfOrder([a, t], x)
  {
    var entries := [a, t];
    assert MessagesOf(entries) == ([] + [a.message]) + [t.message];
    Snoc([], a.message);
    Snoc([] + [a.message], t.message);
    var answers, ids := AnswersOf(MessagesOf(entries)), IdsOf(MessagesOf(entries));
    FilterBoth(a, t, (x: Entry) => Settled(answers, x));
    FilterBoth(a, t, (x: Entry) => Answered(x.message) <= ids);
    assert Settled(answers, entries[0]) && id in Introduced(entries[0].message);
  }

  lemma FilterBoth<T>(x: T, y: T, keep: T -> bool)
    requires keep(x) && keep(y)
    ensures Filter([x, y], keep) == [x, y]
  {
    assert [x, y][..1] == [x] && [x][..0] == [];
    assert Filter([x], keep) == [x];
  }

  lemma UntaggedShown(e: Encoders)
    ensures Shown(e, Untagged()) == MessagesOf(UntaggedEntries(e)) && IdsOf(Shown(e, Untagged())) == {Fallback()}
    ensures forall x :: !OutOfOrder(Entries(e, Untagged()), x)
  {
    var entries := UntaggedEntries(e);
    UntaggedProjected(e);
    CallIntroduces(entries[0].message);
    ExchangeAnswered(entries[0], entries[1], Fallback());
  }

  lemma SomeTokens(encode: Component -> string, cs: seq<Component>, i: nat)
    requires i < |cs| && Tokens(encode, cs[i]) > 0
    ensures TotalTokens(encode, cs) > 0
  {
    if i < |cs| - 1 { SomeTokens(encode, cs[..|cs| - 1], i); }
  }

  lemma NeverEmpty(encode: Component -> string, lead: seq<Component>, past: seq<Component>, tail: seq<Component>,
                   k: nat)
    requires k <= |past| && tail != [] && Answers(tail[0]) == {} && Tokens(encode, tail[0]) > 0
    ensures TotalTokens(encode, Swept(lead, past, tail, k)) > 0
  {
    var ids, cs := AllIds(past[..k]), Swept(lead, past, tail, k);
    assert tail[0] in past[k..] + tail;
    FilterMembers(past[k..] + tail, (c: Component) => Answers(c) !! ids, tail[0]);
    assert tail[0] in cs;
    var i :| 0 <= i < |cs| && cs[i] == tail[0];
    SomeTokens(encode, cs, i);
  }

  /** The objective stays, so a bound of zero is never met and the whole history goes. */
  lemma AllGone(e: Encoders, encode: Component -> string, address: Component -> string, input: PromptInput)
    requires input.objective == Objective()
    ensures Gone(e, encode, address, input, 0) == |Shown(e, Tail(input.timeline))|
  {
    var m := Gone(e, encode, address, input, 0);
    var tail := Rest(e, address, input);
    assert tail[0].message == Some(User("go"));
    NeverEmpty(encode, Lead(address, input), History(e, address, input), tail, m);
    HistoryShown(e, address, input, m);
  }

  /** The same events past and present: dropping the past ones takes the present results with them. */
  lemma RepeatedExchange(e: Encoders, encode: Component -> string, address: Component -> string, events: seq<Event>,
                         id: string)
    requires Tail(events) == events && IdsOf(Shown(e, events)) == {id} && forall x :: !OutOfOrder(Entries(e, events), x)
    ensures var cs := Addressed(address, Components(e, PromptInput([], [], events, Objective(), events)));
      Paired(Messages(cs)) && !Paired(Messages(DroppedUntil(encode, cs, 0)))
  {
    var input, past := PromptInput([], [], events, Objective(), events), Shown(e, events);
    ObjectiveSilent(events, events);
    UnchangedExactly(e, address, input);
    AllGone(e, encode, address, input);
    DropOldestPaired(e, encode, address, input, 0);
    assert past[..|past|] == past;
    assert id in IdsOf(past) * (IdsOf(past[|past|..]) + IdsOf(past));
  }

  /** Two exchanges without ids, one past and one present: the whole prompt is paired, but a tight bound drops the past
    * call and, with it, the result of the present one. */
  lemma FallbackLosesResult(e: Encoders, encode: Component -> string, stub: Component -> string,
                            address: Component -> string)
    ensures var cs := Addressed(address, Components(e, PromptInput([], [], Untagged(), Objective(), Untagged())));
      && Paired(Messages(Transformed(encode, stub, cs, Unchanged)))
      && !Paired(Messages(Transformed(encode, stub, cs, DropOldestTo(0))))
  {
    UntaggedShown(e);
    UntaggedTail();
    RepeatedExchange(e, encode, address, Untagged(), Fallback());
  }

  lemma UntaggedTail()
    ensures Tail(Untagged()) == Untagged()
  {
    assert Untagged()[0].kind == "tool_call" != "tool_result";
  }

  // ------------------------------------------------------- a call made once more

  /** A reply that calls `x` and `y`, the result of `x` alone, and a reply that calls `x` again. */
  function CalledAgain(x: string, y: string): seq<Event> {
    [ReplyEvent([Call(x, "", None), Call(y, "", None)]), ResultEvent(x), ReplyEvent([Call(x, "", None)])]
  }

  function CalledAgainEntries(e: Encoders, x: string, y: string): seq<Entry> {
    var events := CalledAgain(x, y);
    [Entry(0, events[0], Assistant(None, [Call(x, "", None), Call(y, "", None)])),
     Entry(1, events[1], Tool(x, e.result(events[1]))),
     Entry(2, events[2], Assistant(None, [Call(x, "", None)]))]
  }

  lemma ReplyProjected(e: Encoders, calls: seq<Call>, index: nat, ids: set<string>)
    requires forall call | call in calls :: call.arguments.None?
    ensures MessageOf(e, ReplyEvent(calls), index, ids) == Some(Assistant(None, calls))
  {
    assert RepairedAll(e, calls) == calls;
  }

  lemma CalledAgainProjected(e: Encoders, x: string, y: string)
    requires x != ""
    ensures Entries(e, CalledAgain(x, y)) == CalledAgainEntries(e, x, y)
  {
    var events, entries := CalledAgain(x, y), CalledAgainEntries(e, x, y);
    var both, one := [Call(x, "", None), Call(y, "", None)], [Call(x, "", None)];
    Projected1(e, events[0]);
    ReplyProjected(e, both, 0, {});
    assert MessagesOf([entries[0]]) == [] + [entries[0].message];
    Snoc([], entries[0].message);
    assert both[0].id == x;
    ProjectedNext(e, [events[0]], events[1], [entries[0]]);
    assert [events[0]] + [events[1]] == events[..2];
    ReplyProjected(e, one, 2, IdsOf(MessagesOf(entries[..2])));
    ProjectedNext(e, events[..2], events[2], entries[..2]);
    assert events == events[..2] + [events[2]];
  }

  lemma CalledAgainEarly(e: Encoders, x: string, y: string)
    requires x != "" && y != "" && x != y
    ensures OutOfOrder(CalledAgainEntries(e, x, y), x)
  {
    var entries := CalledAgainEntries(e, x, y);
    var a, t, b := entries[0].message, entries[1].message, entries[2].message;
    assert a.calls[1].id == y && b.calls[0].id == x;
    assert MessagesOf(entries) == (([] + [a]) + [t]) + [b];
    Snoc([], a);
    Snoc([] + [a], t);
    Snoc(([] + [a]) + [t], b);
    var answers := AnswersOf(MessagesOf(entries));
    assert answers == {x} && y in Introduced(a) && Introduced(b) == {x};
    assert Settled(answers, entries[2]) && x in Introduced(entries[2].message);
  }

  /** The first reply goes for its unanswered call, and the result comes to stand before the only call left. */
  lemma CalledAgainReorders(e: Encoders, encode: Component -> string, stub: Component -> string,
                            address: Component -> string, x: string, y: string)
    requires x != "" && y != "" && x != y
    ensures var cs := Addressed(address, Components(e, PromptInput([], [], CalledAgain(x, y), Objective(), [])));
      !Paired(Messages(Transformed(encode, stub, cs, Unchanged)))
  {
    var input := PromptInput([], [], CalledAgain(x, y), Objective(), []);
    ObjectiveSilent(CalledAgain(x, y), []);
    CalledAgainProjected(e, x, y);
    CalledAgainEarly(e, x, y);
    assert CalledAgain(x, y)[0].kind == "model" != "tool_result";
    assert Tail(input.timeline) == CalledAgain(x, y);
    assert AllIds([]) == {};
    UnchangedExactly(e, address, input);
  }
}
