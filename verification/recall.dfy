/** Which events of a timeline a projection shows to the model, and as what. */
module Recollections {
  import opened Text
  import opened Prompts

  predicate ByUser(event: Event) {
    event.role == "user" || (event.role != "assistant" && event.kind == "user_message")
  }

  predicate ByAssistant(event: Event) {
    event.role == "assistant" || (event.role != "user" && (event.kind == "model" || event.kind == "turn_aborted"))
  }

  /** The user said something. */
  predicate UserText(event: Event) {
    ByUser(event) && event.content != ""
  }

  /** The same call; arguments that are no JSON text are replaced. */
  predicate SameCall(e: Encoders, asked: Call, shown: Call) {
    && shown.id == asked.id && shown.name == asked.name
    && (asked.arguments.None? || e.isJson(asked.arguments.value) ==> shown.arguments == asked.arguments)
  }

  /** The message says what the event says, in the voice of the event. */
  predicate Renders(e: Encoders, event: Event, m: Message) {
    match m
    case System(_) => false
    case User(content) =>
      if ByUser(event) then content == event.content
      else !ByAssistant(event) && event.kind == "tool_result" && content == "Tool result JSON:\n" + e.rendered(event)
    case Assistant(text, calls) =>
      if ByAssistant(event) then
        && text == (if event.content == "" then None else Some(event.content))
        && var asked := if event.calls.Some? then event.calls.value else [];
        |calls| == |asked| && forall i | 0 <= i < |calls| :: SameCall(e, asked[i], calls[i])
      else
        && !ByUser(event) && event.kind == "tool_call" && text.None?
        && |calls| == 1 && calls[0].name == event.name && calls[0].arguments == Some(e.input(event))
        && (event.id != "" ==> calls[0].id == event.id)
        && (event.id == "" && event.toolCallId != "" ==> calls[0].id == event.toolCallId)
    case Tool(id, content) =>
      && !ByUser(event) && !ByAssistant(event) && event.kind == "tool_result"
      && id == event.toolCallId && content == e.result(event)
  }

  predicate Rising(at: seq<nat>) {
    forall i, j | 0 <= i < j < |at| :: at[i] < at[j]
  }

  /** The messages render events at these places of a timeline, in its order. */
  ghost predicate Shown(e: Encoders, events: seq<Event>, messages: seq<Message>, at: seq<nat>) {
    && |at| == |messages| && Rising(at)
    && forall i | 0 <= i < |at| :: at[i] < |events| && Renders(e, events[at[i]], messages[i])
  }

  /** The user said this from here on, and the model is told so. */
  ghost predicate Told(events: seq<Event>, messages: seq<Message>, at: seq<nat>, start: nat) {
    forall i | start <= i < |events| && UserText(events[i]) :: Quoted(events[i].content, messages, at, i)
  }

  ghost predicate Quoted(content: string, messages: seq<Message>, at: seq<nat>, i: nat) {
    exists j :: 0 <= j < |at| && j < |messages| && at[j] == i && messages[j] == User(content)
  }

  /** The messages recall a timeline from a place on. */
  ghost predicate Recalls(e: Encoders, events: seq<Event>, messages: seq<Message>, oldest: int, start: nat) {
    exists at: seq<nat> ::
      && Shown(e, events, messages, at) && Told(events, messages, at, start)
      && forall i | 0 <= i < |at| :: oldest <= at[i]
  }

  function Places(entries: seq<Entry>): seq<nat> {
    seq(|entries|, i requires 0 <= i < |entries| => entries[i].index)
  }

  /** The entry has an event of the timeline and a message that renders it. */
  predicate Of(e: Encoders, events: seq<Event>, x: Entry) {
    x.index < |events| && x.event == events[x.index] && Renders(e, x.event, x.message)
  }

  ghost predicate Faithful(e: Encoders, events: seq<Event>, entries: seq<Entry>) {
    && Rising(Places(entries))
    && forall i | 0 <= i < |entries| :: Of(e, events, entries[i])
  }

  lemma MessageRenders(e: Encoders, event: Event, index: nat, ids: set<string>)
    ensures var m := MessageOf(e, event, index, ids);
      && (m.Some? ==> Renders(e, event, m.value)) && (UserText(event) ==> m == Some(User(event.content)))
  {
  }

  lemma FaithfulSnoc(e: Encoders, events: seq<Event>, entries: seq<Entry>, x: Entry)
    requires Faithful(e, events, entries) && Of(e, events, x)
    requires forall i | 0 <= i < |entries| :: entries[i].index < x.index
    ensures Faithful(e, events, entries + [x])
  {
    assert Places(entries + [x]) == Places(entries) + [x.index];
    assert forall i | 0 <= i < |entries| :: Places(entries)[i] == entries[i].index;
  }

  lemma FaithfulPrefix(e: Encoders, events: seq<Event>, entries: seq<Entry>, n: nat)
    requires Faithful(e, events, entries) && n <= |entries|
    ensures Faithful(e, events, entries[..n])
  {
    assert Places(entries[..n]) == Places(entries)[..n];
  }

  lemma FaithfulWider(e: Encoders, events: seq<Event>, n: nat, entries: seq<Entry>)
    requires n <= |events| && Faithful(e, events[..n], entries)
    ensures Faithful(e, events, entries) && forall i | 0 <= i < |entries| :: entries[i].index < n
  {
    forall i | 0 <= i < |entries| ensures Of(e, events, entries[i]) && entries[i].index < n {
      assert Of(e, events[..n], entries[i]);
      assert events[..n][entries[i].index] == events[entries[i].index];
    }
  }

  /** Every entry renders its event. */
  lemma {:induction false} EntriesFaithful(e: Encoders, events: seq<Event>)
    ensures Faithful(e, events, Entries(e, events))
  {
    if events != [] {
      var n := |events| - 1;
      var before := Entries(e, events[..n]);
      var message := MessageOf(e, events[n], n, IdsOf(MessagesOf(before)));
      EntriesFaithful(e, events[..n]);
      FaithfulWider(e, events, n, before);
      MessageRenders(e, events[n], n, IdsOf(MessagesOf(before)));
      if message.Some? { FaithfulSnoc(e, events, before, Entry(n, events[n], message.value)); }
    }
  }

  function QuoteOf(events: seq<Event>, i: nat): Entry
    requires i < |events|
  {
    Entry(i, events[i], User(events[i].content))
  }

  /** Every user text has its entry. */
  lemma {:induction false} UserEntered(e: Encoders, events: seq<Event>, i: nat)
    requires i < |events| && UserText(events[i])
    ensures QuoteOf(events, i) in Entries(e, events)
  {
    var n := |events| - 1;
    var before := Entries(e, events[..n]);
    if i < n {
      assert events[..n][i] == events[i];
      UserEntered(e, events[..n], i);
    } else {
      MessageRenders(e, events[n], n, IdsOf(MessagesOf(before)));
    }
  }

  lemma {:induction false} FilterFaithful(e: Encoders, events: seq<Event>, entries: seq<Entry>, keep: Entry -> bool)
    requires Faithful(e, events, entries)
    ensures Faithful(e, events, Filter(entries, keep))
  {
    if entries != [] {
      var n := |entries| - 1;
      var rest := Filter(entries[..n], keep);
      FaithfulPrefix(e, events, entries, n);
      FilterFaithful(e, events, entries[..n], keep);
      if keep(entries[n]) {
        forall i | 0 <= i < |rest| ensures rest[i].index < entries[n].index {
          FilterMembers(entries[..n], keep, rest[i]);
          var j :| 0 <= j < n && entries[..n][j] == rest[i];
          assert Places(entries)[j] < Places(entries)[n];
        }
        FaithfulSnoc(e, events, rest, entries[n]);
      }
    }
  }

  lemma UserRetained(entries: seq<Entry>, entry: Entry)
    requires entry in entries && entry.message.User?
    ensures entry in AnsweredEntries(entries)
  {
    var keep := (x: Entry) => Retained(entries, x);
    AnsweredIsRetained(entries, keep);
    FilterMembers(entries, keep, entry);
  }

  lemma FaithfulShown(e: Encoders, events: seq<Event>, entries: seq<Entry>)
    requires Faithful(e, events, entries)
    ensures Shown(e, events, MessagesOf(entries), Places(entries))
  {
    forall i | 0 <= i < |entries| ensures Renders(e, events[Places(entries)[i]], MessagesOf(entries)[i]) {
      assert Of(e, events, entries[i]);
    }
  }

  /** What a projection shows is rendered from its events, in their order, and nothing the user said is left out. */
  lemma ProjectionShown(e: Encoders, events: seq<Event>)
    ensures var entries := AnsweredEntries(Entries(e, events));
      && Shown(e, events, MessagesOf(entries), Places(entries))
      && Told(events, MessagesOf(entries), Places(entries), 0)
  {
    var all := Entries(e, events);
    var keep := (x: Entry) => Retained(all, x);
    EntriesFaithful(e, events);
    AnsweredIsRetained(all, keep);
    FilterFaithful(e, events, all, keep);
    FaithfulShown(e, events, AnsweredEntries(all));
    ProjectionTold(e, events);
  }

  lemma ProjectionTold(e: Encoders, events: seq<Event>)
    ensures var entries := AnsweredEntries(Entries(e, events)); Told(events, MessagesOf(entries), Places(entries), 0)
  {
    var entries := AnsweredEntries(Entries(e, events));
    forall i | 0 <= i < |events| && UserText(events[i])
      ensures Quoted(events[i].content, MessagesOf(entries), Places(entries), i)
    {
      UserEntered(e, events, i);
      UserRetained(Entries(e, events), QuoteOf(events, i));
      var j :| 0 <= j < |entries| && entries[j] == QuoteOf(events, i);
      assert Places(entries)[j] == i && MessagesOf(entries)[j] == User(events[i].content);
    }
  }

  function Moved(at: seq<nat>, k: nat): seq<nat> {
    seq(|at|, i requires 0 <= i < |at| => k + at[i])
  }

  lemma ShownEnd(e: Encoders, events: seq<Event>, k: nat, messages: seq<Message>, at: seq<nat>)
    requires k <= |events| && Shown(e, events[k..], messages, at)
    ensures Shown(e, events, messages, Moved(at, k))
  {
    var moved := Moved(at, k);
    forall i | 0 <= i < |moved| ensures moved[i] < |events| && Renders(e, events[moved[i]], messages[i]) {
      assert events[k..][at[i]] == events[moved[i]];
    }
  }

  lemma ToldEnd(events: seq<Event>, k: nat, messages: seq<Message>, at: seq<nat>)
    requires k <= |events| && Told(events[k..], messages, at, 0)
    ensures Told(events, messages, Moved(at, k), k)
  {
    forall i | k <= i < |events| && UserText(events[i]) ensures Quoted(events[i].content, messages, Moved(at, k), i) {
      assert events[k..][i - k] == events[i];
      var j :| 0 <= j < |at| && j < |messages| && at[j] == i - k && messages[j] == User(events[i].content);
      assert Moved(at, k)[j] == i;
    }
  }

  /** Recalling the end of a timeline is recalling the timeline from there on. */
  lemma RecallsEnd(e: Encoders, events: seq<Event>, k: nat, messages: seq<Message>)
    requires k <= |events| && Recalls(e, events[k..], messages, 0, 0)
    ensures Recalls(e, events, messages, k, k)
  {
    var at: seq<nat> :| Shown(e, events[k..], messages, at) && Told(events[k..], messages, at, 0);
    ShownEnd(e, events, k, messages, at);
    ToldEnd(events, k, messages, at);
    assert forall i | 0 <= i < |Moved(at, k)| :: k <= Moved(at, k)[i];
  }
}
