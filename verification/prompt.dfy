/** Projecting a timeline of events into chat messages in which tool calls and tool results are paired. */
module Prompts {
  import opened Text
  import opened Json

  /** A tool call of an assistant message; fields that are missing or not text read as empty. */
  datatype Call = Call(id: string, name: string, arguments: Option<string>)

  datatype Message =
    | System(content: string)
    | User(content: string)
    | Assistant(text: Option<string>, calls: seq<Call>)
    | Tool(id: string, content: string)

  /** A timeline event through the accessors projection reads it with. */
  datatype Event = Event(
    kind: string, role: string, content: string, id: string, toolCallId: string, name: string,
    calls: Option<seq<Call>>, payload: Value)

  /** Text encoders, about which nothing is assumed. */
  datatype Encoders = Encoders(
    input: Event -> string, result: Event -> string, rendered: Event -> string, isJson: string -> bool,
    quoted: string -> string)

  datatype Entry = Entry(index: nat, event: Event, message: Message)

  // -------------------------------------------------------- calls and answers

  function CallIds(calls: seq<Call>): set<string> {
    set i | 0 <= i < |calls| && calls[i].id != "" :: calls[i].id
  }

  /** The non-empty call ids a message introduces. */
  function Introduced(m: Message): set<string> {
    if m.Assistant? then CallIds(m.calls) else {}
  }

  function Answered(m: Message): set<string> {
    if m.Tool? then {m.id} else {}
  }

  function IdsOf(messages: seq<Message>): set<string> {
    if messages == [] then {} else IdsOf(messages[..|messages| - 1]) + Introduced(messages[|messages| - 1])
  }

  function AnswersOf(messages: seq<Message>): set<string> {
    if messages == [] then {} else AnswersOf(messages[..|messages| - 1]) + Answered(messages[|messages| - 1])
  }

  /** Every tool message comes after a message that introduced its call. */
  predicate CallsFirst(messages: seq<Message>) {
    messages == [] ||
    var n := |messages| - 1;
    CallsFirst(messages[..n]) && Answered(messages[n]) <= IdsOf(messages[..n])
  }

  /** No call id is introduced by two messages. */
  predicate UniqueCalls(messages: seq<Message>) {
    messages == [] ||
    var n := |messages| - 1;
    UniqueCalls(messages[..n]) && Introduced(messages[n]) !! IdsOf(messages[..n])
  }

  // --------------------------------------------------------------- projection

  function Repaired(e: Encoders, call: Call): Call {
    if call.arguments.None? || e.isJson(call.arguments.value) then call
    else
      var text := call.arguments.value;
      var kept := if |text| <= 200 then text else text[..200];
      call.(arguments := Some("{\"truncated_arguments\": " + e.quoted(kept) + "}"))
  }

  function RepairedAll(e: Encoders, calls: seq<Call>): seq<Call> {
    seq(|calls|, i requires 0 <= i < |calls| => Repaired(e, calls[i]))
  }

  function RoleOf(event: Event): string {
    if event.role == "user" || event.role == "assistant" then event.role
    else if event.kind == "user_message" then "user"
    else if event.kind == "model" || event.kind == "turn_aborted" then "assistant"
    else ""
  }

  function CallIdOf(event: Event, index: nat): string {
    if event.id != "" then event.id
    else if event.toolCallId != "" then event.toolCallId
    else "call-" + NatString(index)
  }

  function MessageOf(e: Encoders, event: Event, index: nat, ids: set<string>): Option<Message> {
    var role := RoleOf(event);
    if role == "assistant" && event.calls.Some? then
      Some(Assistant(if event.content == "" then None else Some(event.content), RepairedAll(e, event.calls.value)))
    else if role != "" then
      if event.content == "" then None
      else if role == "user" then Some(User(event.content))
      else Some(Assistant(Some(event.content), []))
    else if event.kind == "tool_call" then
      var id := CallIdOf(event, index);
      if id in ids then None else Some(Assistant(None, [Call(id, event.name, Some(e.input(event)))]))
    else if event.kind == "tool_result" then
      if event.toolCallId != "" && event.toolCallId in ids then Some(Tool(event.toolCallId, e.result(event)))
      else Some(User("Tool result JSON:\n" + e.rendered(event)))
    else None
  }

  function MessagesOf(entries: seq<Entry>): seq<Message> {
    seq(|entries|, i requires 0 <= i < |entries| => entries[i].message)
  }

  function Entries(e: Encoders, events: seq<Event>): seq<Entry> {
    if events == [] then [] else
      var n := |events| - 1;
      var before := Entries(e, events[..n]);
      Extended(before, n, events[n], MessageOf(e, events[n], n, IdsOf(MessagesOf(before))))
  }

  function Extended(entries: seq<Entry>, index: nat, event: Event, message: Option<Message>): seq<Entry> {
    if message.Some? then entries + [Entry(index, event, message.value)] else entries
  }

  lemma ExtendedMessages(entries: seq<Entry>, index: nat, event: Event, message: Option<Message>)
    ensures MessagesOf(Extended(entries, index, event, message)) ==
            if message.Some? then MessagesOf(entries) + [message.value] else MessagesOf(entries)
  {
  }

  lemma Snoc(messages: seq<Message>, m: Message)
    ensures IdsOf(messages + [m]) == IdsOf(messages) + Introduced(m)
    ensures AnswersOf(messages + [m]) == AnswersOf(messages) + Answered(m)
    ensures CallsFirst(messages + [m]) <==> CallsFirst(messages) && Answered(m) <= IdsOf(messages)
    ensures UniqueCalls(messages + [m]) <==> UniqueCalls(messages) && Introduced(m) !! IdsOf(messages)
  {
    assert (messages + [m])[..|messages|] == messages;
  }

  method MessageEntries(e: Encoders, events: seq<Event>) returns (entries: seq<Entry>)
    ensures entries == Entries(e, events)
  {
    entries := [];
    var ids: set<string> := {};
    var i := 0;
    while i < |events|
      invariant i <= |events|
      invariant entries == Entries(e, events[..i])
      invariant ids == IdsOf(MessagesOf(entries))
    {
      assert events[..i + 1][..i] == events[..i];
      var message := MessageOf(e, events[i], i, ids);
      ExtendedMessages(entries, i, events[i], message);
      if message.Some? {
        Snoc(MessagesOf(entries), message.value);
        ids := ids + Introduced(message.value);
        entries := entries + [Entry(i, events[i], message.value)];
      }
      i := i + 1;
    }
    assert events[..i] == events;
  }

  lemma AnswersKnown(e: Encoders, event: Event, index: nat, ids: set<string>)
    ensures var message := MessageOf(e, event, index, ids);
      message.Some? ==> Answered(message.value) <= ids && "" !in Answered(message.value)
  {
  }

  /** Projection never answers a call before some message introduced it. */
  lemma {:induction false} EntriesOrdered(e: Encoders, events: seq<Event>)
    ensures CallsFirst(MessagesOf(Entries(e, events)))
  {
    if events != [] {
      var n := |events| - 1;
      var before := Entries(e, events[..n]);
      var messages := MessagesOf(before);
      var message := MessageOf(e, events[n], n, IdsOf(messages));
      EntriesOrdered(e, events[..n]);
      AnswersKnown(e, events[n], n, IdsOf(messages));
      ExtendedMessages(before, n, events[n], message);
      if message.Some? { Snoc(messages, message.value); }
    }
  }

  // ----------------------------------------------------------------- answered

  function Filter<T>(s: seq<T>, keep: T -> bool): seq<T> {
    if s == [] then [] else
      var n := |s| - 1;
      if keep(s[n]) then Filter(s[..n], keep) + [s[n]] else Filter(s[..n], keep)
  }

  predicate Settled(answers: set<string>, entry: Entry) {
    Introduced(entry.message) <= answers
  }

  function Kept(entries: seq<Entry>): seq<Entry> {
    var answers := AnswersOf(MessagesOf(entries));
    Filter(entries, (entry: Entry) => Settled(answers, entry))
  }

  /** Entries without unanswered calls, and without the results whose calls went with them. */
  function AnsweredEntries(entries: seq<Entry>): seq<Entry> {
    var kept := Kept(entries);
    var ids := IdsOf(MessagesOf(kept));
    Filter(kept, (entry: Entry) => Answered(entry.message) <= ids)
  }

  lemma {:induction false} InIds(messages: seq<Message>, id: string)
    ensures id in IdsOf(messages) <==> exists i :: 0 <= i < |messages| && id in Introduced(messages[i])
  {
    if messages != [] {
      var n := |messages| - 1;
      InIds(messages[..n], id);
      if id in IdsOf(messages[..n]) {
        var i :| 0 <= i < n && id in Introduced(messages[..n][i]);
        assert id in Introduced(messages[i]);
      } else if i :| 0 <= i < |messages| && id in Introduced(messages[i]) {
        assert i < n ==> id in Introduced(messages[..n][i]);
      }
    }
  }

  lemma {:induction false} InAnswers(messages: seq<Message>, id: string)
    ensures id in AnswersOf(messages) <==> exists i :: 0 <= i < |messages| && id in Answered(messages[i])
  {
    if messages != [] {
      var n := |messages| - 1;
      InAnswers(messages[..n], id);
      if id in AnswersOf(messages[..n]) {
        var i :| 0 <= i < n && id in Answered(messages[..n][i]);
        assert id in Answered(messages[i]);
      } else if i :| 0 <= i < |messages| && id in Answered(messages[i]) {
        assert i < n ==> id in Answered(messages[..n][i]);
      }
    }
  }

  lemma {:induction false} FilterMembers<T>(s: seq<T>, keep: T -> bool, x: T)
    ensures x in Filter(s, keep) <==> x in s && keep(x)
  {
    if s != [] {
      var n := |s| - 1;
      FilterMembers(s[..n], keep, x);
      assert s == s[..n] + [s[n]];
    }
  }

  lemma EntryIds(entries: seq<Entry>, id: string)
    ensures id in IdsOf(MessagesOf(entries)) <==> exists entry :: entry in entries && id in Introduced(entry.message)
  {
    InIds(MessagesOf(entries), id);
    if i :| 0 <= i < |entries| && id in Introduced(MessagesOf(entries)[i]) {
      assert entries[i] in entries;
    }
    if entry :| entry in entries && id in Introduced(entry.message) {
      var i :| 0 <= i < |entries| && entries[i] == entry;
      assert id in Introduced(MessagesOf(entries)[i]);
    }
  }

  lemma EntryAnswers(entries: seq<Entry>, id: string)
    ensures id in AnswersOf(MessagesOf(entries)) <==> exists entry :: entry in entries && id in Answered(entry.message)
  {
    InAnswers(MessagesOf(entries), id);
    if i :| 0 <= i < |entries| && id in Answered(MessagesOf(entries)[i]) {
      assert entries[i] in entries;
    }
    if entry :| entry in entries && id in Answered(entry.message) {
      var i :| 0 <= i < |entries| && entries[i] == entry;
      assert id in Answered(MessagesOf(entries)[i]);
    }
  }

  /** After the filter the answered ids are exactly the introduced ids. */
  lemma AnsweredExactly(entries: seq<Entry>)
    ensures var messages := MessagesOf(AnsweredEntries(entries)); AnswersOf(messages) == IdsOf(messages)
  {
    var messages := MessagesOf(AnsweredEntries(entries));
    forall id ensures id in AnswersOf(messages) <==> id in IdsOf(messages) {
      if id in AnswersOf(messages) { AnswerIntroduced(entries, id); }
      if id in IdsOf(messages) { IntroducedAnswered(entries, id); }
    }
  }

  lemma AnswerIntroduced(entries: seq<Entry>, id: string)
    requires id in AnswersOf(MessagesOf(AnsweredEntries(entries)))
    ensures id in IdsOf(MessagesOf(AnsweredEntries(entries)))
  {
    var kept, final := Kept(entries), AnsweredEntries(entries);
    var ids := IdsOf(MessagesOf(kept));
    var keep := (entry: Entry) => Answered(entry.message) <= ids;
    EntryAnswers(final, id);
    var tool :| tool in final && id in Answered(tool.message);
    FilterMembers(kept, keep, tool);
    EntryIds(kept, id);
    var call :| call in kept && id in Introduced(call.message);
    FilterMembers(kept, keep, call);
    EntryIds(final, id);
  }

  lemma IntroducedAnswered(entries: seq<Entry>, id: string)
    requires id in IdsOf(MessagesOf(AnsweredEntries(entries)))
    ensures id in AnswersOf(MessagesOf(AnsweredEntries(entries)))
  {
    var kept, final := Kept(entries), AnsweredEntries(entries);
    var answers, ids := AnswersOf(MessagesOf(entries)), IdsOf(MessagesOf(kept));
    EntryIds(final, id);
    var call :| call in final && id in Introduced(call.message);
    FilterMembers(kept, (entry: Entry) => Answered(entry.message) <= ids, call);
    FilterMembers(entries, (entry: Entry) => Settled(answers, entry), call);
    EntryAnswers(entries, id);
    var tool :| tool in entries && id in Answered(tool.message);
    FilterMembers(entries, (entry: Entry) => Settled(answers, entry), tool);
    EntryIds(kept, id);
    FilterMembers(kept, (entry: Entry) => Answered(entry.message) <= ids, tool);
    EntryAnswers(final, id);
  }

  method KeepAnswered(entries: seq<Entry>) returns (r: seq<Entry>)
    ensures r == AnsweredEntries(entries)
  {
    var answers := CollectAnswers(entries);
    var kept, ids := KeepSettled(entries, answers);
    r := [];
    var i := 0;
    while i < |kept|
      invariant i <= |kept|
      invariant r == Filter(kept[..i], (entry: Entry) => Answered(entry.message) <= ids)
    {
      assert kept[..i + 1][..i] == kept[..i];
      if !kept[i].message.Tool? || kept[i].message.id in ids { r := r + [kept[i]]; }
      i := i + 1;
    }
    assert kept[..i] == kept;
  }

  method CollectAnswers(entries: seq<Entry>) returns (answers: set<string>)
    ensures answers == AnswersOf(MessagesOf(entries))
  {
    answers := {};
    var i := 0;
    while i < |entries|
      invariant i <= |entries|
      invariant answers == AnswersOf(MessagesOf(entries[..i]))
    {
      PrefixMessages(entries, i);
      if entries[i].message.Tool? { answers := answers + {entries[i].message.id}; }
      i := i + 1;
    }
    assert entries[..i] == entries;
  }

  lemma PrefixMessages(entries: seq<Entry>, i: nat)
    requires i < |entries|
    ensures IdsOf(MessagesOf(entries[..i + 1])) == IdsOf(MessagesOf(entries[..i])) + Introduced(entries[i].message)
    ensures AnswersOf(MessagesOf(entries[..i + 1]))
            == AnswersOf(MessagesOf(entries[..i])) + Answered(entries[i].message)
  {
    assert MessagesOf(entries[..i + 1]) == MessagesOf(entries[..i]) + [entries[i].message];
    Snoc(MessagesOf(entries[..i]), entries[i].message);
  }

  /** Drops the messages with an unanswered call and collects the ids of the calls that stay. */
  method KeepSettled(entries: seq<Entry>, answers: set<string>) returns (kept: seq<Entry>, ids: set<string>)
    ensures kept == Filter(entries, (entry: Entry) => Settled(answers, entry)) && ids == IdsOf(MessagesOf(kept))
  {
    kept, ids := [], {};
    var i := 0;
    while i < |entries|
      invariant i <= |entries|
      invariant kept == Filter(entries[..i], (entry: Entry) => Settled(answers, entry))
      invariant ids == IdsOf(MessagesOf(kept))
    {
      assert entries[..i + 1][..i] == entries[..i];
      if Settled(answers, entries[i]) {
        assert MessagesOf(kept + [entries[i]]) == MessagesOf(kept) + [entries[i].message];
        Snoc(MessagesOf(kept), entries[i].message);
        ids := ids + Introduced(entries[i].message);
        kept := kept + [entries[i]];
      }
      i := i + 1;
    }
    assert entries[..i] == entries;
  }

  // -------------------------------------------------------------------- order

  /** Filtering twice is filtering by both conditions. */
  lemma {:induction false} FilterTwice<T>(s: seq<T>, p: T -> bool, q: T -> bool, both: T -> bool)
    requires forall x | x in s :: both(x) <==> p(x) && q(x)
    ensures Filter(Filter(s, p), q) == Filter(s, both)
  {
    if s != [] {
      var n := |s| - 1;
      FilterTwice(s[..n], p, q, both);
      var rest := Filter(s[..n], p);
      assert (rest + [s[n]])[..|rest|] == rest;
    }
  }

  predicate Retained(entries: seq<Entry>, entry: Entry) {
    Settled(AnswersOf(MessagesOf(entries)), entry) && Answered(entry.message) <= IdsOf(MessagesOf(Kept(entries)))
  }

  lemma AnsweredIsRetained(entries: seq<Entry>, keep: Entry -> bool)
    requires forall x :: keep(x) <==> Retained(entries, x)
    ensures AnsweredEntries(entries) == Filter(entries, keep)
  {
    var answers, ids := AnswersOf(MessagesOf(entries)), IdsOf(MessagesOf(Kept(entries)));
    FilterTwice(entries, (entry: Entry) => Settled(answers, entry), (entry: Entry) => Answered(entry.message) <= ids,
                keep);
  }

  /** A retained result's call is retained when no other message introduces it. */
  lemma CallRetained(entries: seq<Entry>, call: Entry, tool: Entry)
    requires UniqueCalls(MessagesOf(entries)) && call in entries && Retained(entries, tool)
    requires !(Introduced(call.message) !! Answered(tool.message))
    ensures Retained(entries, call)
  {
    var answers := AnswersOf(MessagesOf(entries));
    var id :| id in Introduced(call.message) && id in Answered(tool.message);
    EntryIds(Kept(entries), id);
    var other :| other in Kept(entries) && id in Introduced(other.message);
    FilterMembers(entries, (entry: Entry) => Settled(answers, entry), other);
    OneIntroducer(entries, call, other, id);
  }

  lemma {:induction false} OneIntroducer(entries: seq<Entry>, a: Entry, b: Entry, id: string)
    requires UniqueCalls(MessagesOf(entries)) && a in entries && b in entries
    requires id in Introduced(a.message) && id in Introduced(b.message)
    ensures a == b
  {
    var n := |entries| - 1;
    var before := entries[..n];
    assert MessagesOf(entries)[..n] == MessagesOf(before);
    assert entries == before + [entries[n]];
    if a in before { EntryIds(before, id); }
    if b in before { EntryIds(before, id); }
    if a in before && b in before { OneIntroducer(before, a, b, id); }
  }

  /** Filtering keeps calls before results when a kept result never loses its call. */
  lemma {:induction false} FilterOrdered(entries: seq<Entry>, keep: Entry -> bool)
    requires CallsFirst(MessagesOf(entries))
    requires forall call, tool | call in entries && tool in entries && keep(tool)
                                 && !(Introduced(call.message) !! Answered(tool.message)) :: keep(call)
    ensures CallsFirst(MessagesOf(Filter(entries, keep)))
  {
    if entries != [] {
      var n := |entries| - 1;
      var before, last := entries[..n], entries[n];
      assert entries == before + [last];
      assert MessagesOf(entries)[..n] == MessagesOf(before);
      FilterOrdered(before, keep);
      if keep(last) {
        var kept := Filter(before, keep);
        forall id | id in Answered(last.message) ensures id in IdsOf(MessagesOf(kept)) {
          EntryIds(before, id);
          var call :| call in before && id in Introduced(call.message);
          FilterMembers(before, keep, call);
          EntryIds(kept, id);
        }
        assert MessagesOf(kept + [last]) == MessagesOf(kept) + [last.message];
        Snoc(MessagesOf(kept), last.message);
      }
    }
  }

  lemma {:induction false} FilterUnique(entries: seq<Entry>, keep: Entry -> bool)
    requires UniqueCalls(MessagesOf(entries))
    ensures UniqueCalls(MessagesOf(Filter(entries, keep)))
    ensures IdsOf(MessagesOf(Filter(entries, keep))) <= IdsOf(MessagesOf(entries))
  {
    if entries != [] {
      var n := |entries| - 1;
      assert MessagesOf(entries)[..n] == MessagesOf(entries[..n]);
      FilterUnique(entries[..n], keep);
      var kept := Filter(entries[..n], keep);
      if keep(entries[n]) {
        assert MessagesOf(kept + [entries[n]]) == MessagesOf(kept) + [entries[n].message];
        Snoc(MessagesOf(kept), entries[n].message);
      }
    }
  }

  /** When no id is introduced twice, what is kept still has every call before its results. */
  lemma AnsweredOrdered(entries: seq<Entry>)
    requires CallsFirst(MessagesOf(entries)) && UniqueCalls(MessagesOf(entries))
    ensures var messages := MessagesOf(AnsweredEntries(entries));
      CallsFirst(messages) && UniqueCalls(messages) && IdsOf(messages) <= IdsOf(MessagesOf(entries))
  {
    var keep := (x: Entry) => Retained(entries, x);
    AnsweredIsRetained(entries, keep);
    forall call, tool
      | call in entries && tool in entries && keep(tool) && !(Introduced(call.message) !! Answered(tool.message))
      ensures keep(call)
    {
      CallRetained(entries, call, tool);
    }
    FilterOrdered(entries, keep);
    FilterUnique(entries, keep);
  }
}
