/** The whole prompt: components in order, one compaction transform, and the messages the model sees. */
module Assembly {
  import opened Text
  import opened Prompts
  import opened Compaction
  import opened Recollections

  const TAIL_LIMIT := 50

  datatype Transform = Unchanged | StructuralTrim(maxChars: nat) | DropOldestTo(maxTokens: nat)

  /** `front` holds the system prompt, the tool descriptors and the project context. */
  datatype PromptInput = PromptInput(
    front: seq<Component>, content: seq<Component>, timeline: seq<Event>, objective: Component, current: seq<Event>)

  // ---------------------------------------------------------- structural trim

  function ContentOf(c: Component): string {
    match c.message
    case Some(System(content)) => content
    case Some(User(content)) => content
    case Some(Tool(_, content)) => content
    case Some(Assistant(Some(text), _)) => text
    case _ => ""
  }

  predicate ShouldTrim(c: Component, maxChars: nat) {
    && c.historical && c.kind == "tool_result" && (c.toolName == "read" || c.toolName == "grep")
    && |ContentOf(c)| > maxChars
  }

  /** A stub takes the place of the content. */
  function Stubbed(stub: Component -> string, c: Component): Component {
    var message := if c.message.Some? && c.message.value.Tool? then Tool(c.toolCallId, stub(c)) else User(stub(c));
    Component("compacted_context", false, "", "", Some(message), None)
  }

  function TrimmedAll(stub: Component -> string, cs: seq<Component>, maxChars: nat): seq<Component> {
    seq(|cs|, i requires 0 <= i < |cs| => if ShouldTrim(cs[i], maxChars) then Stubbed(stub, cs[i]) else cs[i])
  }

  /** Trimming fails only when a component to trim has no source object. */
  method ApplyStructuralTrim(stub: Component -> string, cs: seq<Component>,
                             maxChars: nat) returns (r: Option<seq<Component>>)
    ensures r == if exists i :: 0 <= i < |cs| && ShouldTrim(cs[i], maxChars) && cs[i].objectId.None? then None
                 else Some(TrimmedAll(stub, cs, maxChars))
  {
    var out: seq<Component> := [];
    var i := 0;
    while i < |cs|
      invariant i <= |cs| && |out| == i
      invariant forall j | 0 <= j < i :: out[j] == if ShouldTrim(cs[j], maxChars) then Stubbed(stub, cs[j]) else cs[j]
      invariant forall j | 0 <= j < i :: ShouldTrim(cs[j], maxChars) ==> cs[j].objectId.Some?
    {
      if ShouldTrim(cs[i], maxChars) {
        if cs[i].objectId.None? { return None; }
        out := out + [Stubbed(stub, cs[i])];
      } else {
        out := out + [cs[i]];
      }
      i := i + 1;
    }
    assert out == TrimmedAll(stub, cs, maxChars);
    return Some(out);
  }

  // ----------------------------------------------------------------- messages

  /** The messages the model is given. */
  function Messages(cs: seq<Component>): seq<Message> {
    if cs == [] then [] else
      var n := |cs| - 1;
      if cs[n].message.Some? then Messages(cs[..n]) + [cs[n].message.value] else Messages(cs[..n])
  }

  /** Results follow their calls, and exactly the calls made are answered. */
  predicate Paired(messages: seq<Message>) {
    CallsFirst(messages) && AnswersOf(messages) == IdsOf(messages)
  }

  /** Every result follows its call, whatever is historical. */
  predicate InOrder(cs: seq<Component>) {
    cs == [] ||
    var n := |cs| - 1;
    InOrder(cs[..n]) && Answers(cs[n]) <= AllIds(cs[..n])
  }

  lemma {:induction false} LinkedInOrder(cs: seq<Component>)
    requires Linked(cs)
    ensures InOrder(cs) && AllAnswers(cs) <= AllIds(cs)
  {
    if cs != [] {
      var n := |cs| - 1;
      LinkedInOrder(cs[..n]);
      assert cs == cs[..n] + [cs[n]];
      SnocParts(cs[..n], cs[n]);
    }
  }

  lemma {:induction false} MessagesParts(cs: seq<Component>)
    ensures IdsOf(Messages(cs)) == AllIds(cs) && AnswersOf(Messages(cs)) == AllAnswers(cs)
    ensures CallsFirst(Messages(cs)) <==> InOrder(cs)
  {
    if cs != [] {
      var n := |cs| - 1;
      MessagesParts(cs[..n]);
      assert cs == cs[..n] + [cs[n]];
      SnocParts(cs[..n], cs[n]);
      if cs[n].message.Some? { Snoc(Messages(cs[..n]), cs[n].message.value); }
    }
  }

  /** Components that introduce and answer the same ids are paired alike. */
  lemma {:induction false} SameShape(a: seq<Component>, b: seq<Component>)
    requires |a| == |b| && forall i | 0 <= i < |a| :: Ids(a[i]) == Ids(b[i]) && Answers(a[i]) == Answers(b[i])
    ensures AllIds(a) == AllIds(b) && AllAnswers(a) == AllAnswers(b) && (InOrder(a) <==> InOrder(b))
  {
    if a != [] {
      var n := |a| - 1;
      SameShape(a[..n], b[..n]);
      assert a == a[..n] + [a[n]] && b == b[..n] + [b[n]];
      SnocParts(a[..n], a[n]);
      SnocParts(b[..n], b[n]);
    }
  }

  lemma SoundPaired(cs: seq<Component>)
    requires Sound(cs)
    ensures Paired(Messages(cs))
  {
    LinkedInOrder(cs);
    MessagesParts(cs);
  }

  // ----------------------------------------------------------------- assembly

  /** The events from the first one that is not a tool result. */
  function FromBoundary(events: seq<Event>): seq<Event> {
    if events != [] && events[0].kind == "tool_result" then FromBoundary(events[1..]) else events
  }

  method FromMessageBoundary(events: seq<Event>) returns (r: seq<Event>)
    ensures r == FromBoundary(events)
  {
    var start := 0;
    while start < |events| && events[start].kind == "tool_result"
      invariant start <= |events| && FromBoundary(events) == FromBoundary(events[start..])
    {
      assert events[start..][1..] == events[start + 1..];
      start := start + 1;
    }
    r := events[start..];
  }

  function Recent(timeline: seq<Event>): seq<Event> {
    if |timeline| > TAIL_LIMIT then timeline[|timeline| - TAIL_LIMIT..] else timeline
  }

  /** The last events of the timeline that a prompt looks at. */
  function Tail(timeline: seq<Event>): seq<Event> {
    FromBoundary(Recent(timeline))
  }

  /** The first of the last fifty events that is not a tool result, or the end when there is none. */
  predicate Boundary(timeline: seq<Event>, k: nat) {
    && |timeline| - 50 <= k <= |timeline|
    && (forall i | 0 <= i < k && |timeline| - 50 <= i :: timeline[i].kind == "tool_result")
    && (k < |timeline| ==> timeline[k].kind != "tool_result")
  }

  lemma {:induction false} BoundaryFound(events: seq<Event>) returns (k: nat)
    ensures k <= |events| && FromBoundary(events) == events[k..]
    ensures forall i | 0 <= i < k :: events[i].kind == "tool_result"
    ensures k < |events| ==> events[k].kind != "tool_result"
  {
    if events != [] && events[0].kind == "tool_result" {
      k := BoundaryFound(events[1..]);
      forall i | 0 <= i < k + 1 ensures events[i].kind == "tool_result" {
        if i > 0 { assert events[1..][i - 1] == events[i]; }
      }
      k := k + 1;
    } else {
      k := 0;
    }
  }

  function RecentStart(timeline: seq<Event>): nat {
    if |timeline| > 50 then |timeline| - 50 else 0
  }

  lemma RecentFrom(timeline: seq<Event>)
    ensures Recent(timeline) == timeline[RecentStart(timeline)..]
  {
  }

  lemma BoundaryMoves(timeline: seq<Event>, d: nat, r: nat)
    requires d == RecentStart(timeline) && d + r <= |timeline|
    requires forall i | 0 <= i < r :: timeline[d..][i].kind == "tool_result"
    requires d + r < |timeline| ==> timeline[d..][r].kind != "tool_result"
    ensures Boundary(timeline, d + r) && timeline[d..][r..] == timeline[d + r..]
  {
    forall i | 0 <= i < d + r && |timeline| - 50 <= i ensures timeline[i].kind == "tool_result" {
      assert timeline[d..][i - d] == timeline[i];
    }
  }

  /** A prompt looks at the timeline from that boundary on. */
  lemma TailBoundary(timeline: seq<Event>) returns (k: nat)
    ensures Boundary(timeline, k) && Tail(timeline) == timeline[k..]
  {
    var d := RecentStart(timeline);
    RecentFrom(timeline);
    var r := BoundaryFound(timeline[d..]);
    BoundaryMoves(timeline, d, r);
    k := d + r;
  }

  function Components(e: Encoders, input: PromptInput): seq<Component> {
    Assembled(input, Timeline(e, Tail(input.timeline), true), Timeline(e, input.current, false))
  }

  function Assembled(input: PromptInput, past: seq<Component>, present: seq<Component>): seq<Component> {
    input.front + input.content + past + [input.objective] + present
  }

  /** Projected results carry their call id where trimming looks for it. */
  predicate Traced(c: Component) {
    c.historical && c.kind == "tool_result" ==>
      c.message.Some? && c.message.value.Tool? && c.message.value.id == c.toolCallId
  }

  lemma {:induction false} EntriesTraced(e: Encoders, events: seq<Event>)
    ensures forall x | x in Entries(e, events) && x.message.Tool? ::
              x.event.kind == "tool_result" && x.event.toolCallId == x.message.id
  {
    if events != [] {
      var n := |events| - 1;
      EntriesTraced(e, events[..n]);
      ToolSource(e, events[n], n, IdsOf(MessagesOf(Entries(e, events[..n]))));
    }
  }

  lemma ToolSource(e: Encoders, event: Event, index: nat, ids: set<string>)
    ensures var message := MessageOf(e, event, index, ids);
      message.Some? && message.value.Tool? ==> event.kind == "tool_result" && event.toolCallId == message.value.id
  {
  }

  lemma TimelineTraced(e: Encoders, events: seq<Event>, historical: bool)
    ensures forall c | c in Timeline(e, events, historical) :: Traced(c) && c.historical == historical
  {
    var entries := AnsweredEntries(Entries(e, events));
    EntriesTraced(e, events);
    forall i | 0 <= i < |entries| ensures Traced(Timeline(e, events, historical)[i]) {
      var keep := (x: Entry) => Retained(Entries(e, events), x);
      AnsweredIsRetained(Entries(e, events), keep);
      FilterMembers(Entries(e, events), keep, entries[i]);
    }
  }

  /** Components of one kind that carry the given messages. */
  predicate Carries(cs: seq<Component>, messages: seq<Message>, historical: bool) {
    |cs| == |messages| && forall i | 0 <= i < |cs| ::
      cs[i].historical == historical && Ids(cs[i]) == Introduced(messages[i]) && Answers(cs[i]) == Answered(messages[i])
  }

  lemma {:induction false} CarriedIds(cs: seq<Component>, messages: seq<Message>, historical: bool)
    requires Carries(cs, messages, historical)
    ensures IdsIn(cs, historical) == IdsOf(messages) && IdsIn(cs, !historical) == {}
    ensures AllAnswers(cs) == AnswersOf(messages)
  {
    if cs != [] { CarriedIds(cs[..|cs| - 1], messages[..|cs| - 1], historical); }
  }

  lemma {:induction false} CarriedOrder(cs: seq<Component>, messages: seq<Message>, historical: bool)
    requires Carries(cs, messages, historical)
    ensures (Linked(cs) <==> CallsFirst(messages)) && (Unique(cs) <==> UniqueCalls(messages))
  {
    if cs != [] {
      CarriedIds(cs[..|cs| - 1], messages[..|cs| - 1], historical);
      CarriedOrder(cs[..|cs| - 1], messages[..|cs| - 1], historical);
    }
  }

  lemma ComponentsParts(entries: seq<Entry>, historical: bool)
    ensures var cs, messages := ComponentsOf(entries, historical), MessagesOf(entries);
      && AllIds(cs) == IdsOf(messages) && AllAnswers(cs) == AnswersOf(messages)
      && (Linked(cs) <==> CallsFirst(messages)) && (Unique(cs) <==> UniqueCalls(messages))
  {
    CarriedIds(ComponentsOf(entries, historical), MessagesOf(entries), historical);
    CarriedOrder(ComponentsOf(entries, historical), MessagesOf(entries), historical);
  }

  /** A projected timeline always answers exactly the calls it keeps. */
  lemma TimelineAnswered(e: Encoders, events: seq<Event>, historical: bool)
    ensures AllAnswers(Timeline(e, events, historical)) == AllIds(Timeline(e, events, historical))
  {
    var entries := AnsweredEntries(Entries(e, events));
    AnsweredExactly(Entries(e, events));
    ComponentsParts(entries, historical);
  }

  lemma TimelineSound(e: Encoders, events: seq<Event>, historical: bool)
    requires UniqueCalls(MessagesOf(Entries(e, events)))
    ensures Sound(Timeline(e, events, historical))
    ensures AllIds(Timeline(e, events, historical)) <= IdsOf(MessagesOf(Entries(e, events)))
  {
    EntriesOrdered(e, events);
    AnsweredOrdered(Entries(e, events));
    ComponentsParts(AnsweredEntries(Entries(e, events)), historical);
    TimelineAnswered(e, events, historical);
  }

  /** What a prompt's caller must ensure: fixed parts are no part of any exchange, supplied content is sound and not
    * historical, and no call id is introduced twice by the supplied content and the two event lists. */
  predicate WellSupplied(e: Encoders, input: PromptInput) {
    var past, present := MessagesOf(Entries(e, Tail(input.timeline))), MessagesOf(Entries(e, input.current));
    && (forall c | c in input.front + [input.objective] :: !c.historical && Ids(c) == {} && Answers(c) == {})
    && Sound(input.content) && (forall c | c in input.content :: !c.historical)
    && UniqueCalls(past) && UniqueCalls(present)
    && AllIds(input.content) !! IdsOf(past) && AllIds(input.content) !! IdsOf(present) && IdsOf(past) !! IdsOf(present)
  }

  lemma {:induction false} SilentSound(cs: seq<Component>)
    requires forall c | c in cs :: Ids(c) == {} && Answers(c) == {}
    ensures Sound(cs) && AllIds(cs) == {}
  {
    if cs != [] { SilentSound(cs[..|cs| - 1]); }
  }

  lemma ComponentsSound(e: Encoders, input: PromptInput)
    requires WellSupplied(e, input)
    ensures Sound(Components(e, input))
  {
    var past, present := Timeline(e, Tail(input.timeline), true), Timeline(e, input.current, false);
    SilentSound(input.front);
    SilentSound([input.objective]);
    TimelineSound(e, Tail(input.timeline), true);
    TimelineSound(e, input.current, false);
    ConcatSound(input.front, input.content);
    ConcatSound(input.front + input.content, past);
    ConcatSound(input.front + input.content + past, [input.objective]);
    ConcatSound(input.front + input.content + past + [input.objective], present);
  }

  // ------------------------------------------------------------------- prompt

  /** Every component is given its trace address before a transform runs. */
  function Addressed(address: Component -> string, cs: seq<Component>): seq<Component> {
    seq(|cs|, i requires 0 <= i < |cs| => cs[i].(objectId := Some(address(cs[i]))))
  }

  lemma {:induction false} AddressedSound(address: Component -> string, cs: seq<Component>)
    ensures var addressed := Addressed(address, cs);
      && (forall h :: IdsIn(addressed, h) == IdsIn(cs, h)) && AllAnswers(addressed) == AllAnswers(cs)
      && (Linked(addressed) <==> Linked(cs)) && (Unique(addressed) <==> Unique(cs))
  {
    if cs != [] {
      var n := |cs| - 1;
      var addressed, before := Addressed(address, cs), Addressed(address, cs[..n]);
      AddressedSound(address, cs[..n]);
      assert addressed == before + [addressed[n]] && cs == cs[..n] + [cs[n]];
      SnocParts(before, addressed[n]);
      SnocParts(cs[..n], cs[n]);
    }
  }

  lemma ComponentsTraced(e: Encoders, input: PromptInput)
    requires WellSupplied(e, input)
    ensures forall c | c in Components(e, input) :: Traced(c)
  {
    TimelineTraced(e, Tail(input.timeline), true);
    TimelineTraced(e, input.current, false);
    forall c | c in Components(e, input) ensures Traced(c) {
      assert c in input.front + [input.objective] || c in input.content
             || c in Timeline(e, Tail(input.timeline), true) || c in Timeline(e, input.current, false);
    }
  }

  /** Stubs answer the calls their contents answered. */
  lemma TrimPaired(stub: Component -> string, cs: seq<Component>, maxChars: nat)
    requires Sound(cs) && (forall c | c in cs :: Traced(c))
    ensures Paired(Messages(TrimmedAll(stub, cs, maxChars)))
  {
    var r := TrimmedAll(stub, cs, maxChars);
    forall i | 0 <= i < |cs| ensures Ids(cs[i]) == Ids(r[i]) && Answers(cs[i]) == Answers(r[i]) {
      assert Traced(cs[i]);
    }
    SameShape(cs, r);
    LinkedInOrder(cs);
    MessagesParts(r);
  }

  /** A past result of reading or searching, longer than the bound. */
  predicate LongReading(c: Component, maxChars: nat) {
    && c.historical && c.kind == "tool_result" && (c.toolName == "read" || c.toolName == "grep")
    && c.message.Some? && c.message.value.Tool? && |c.message.value.content| > maxChars
  }

  /** Trimming replaces the text of exactly the long past readings, and leaves everything else as it is. */
  lemma TrimmedExactly(stub: Component -> string, cs: seq<Component>, maxChars: nat)
    requires forall c | c in cs :: Traced(c)
    ensures var r := TrimmedAll(stub, cs, maxChars);
      |r| == |cs| && forall i | 0 <= i < |cs| ::
        if LongReading(cs[i], maxChars) then r[i].message == Some(cs[i].message.value.(content := stub(cs[i])))
        else r[i] == cs[i]
  {
    var r := TrimmedAll(stub, cs, maxChars);
    forall i | 0 <= i < |cs|
      ensures if LongReading(cs[i], maxChars) then r[i].message == Some(cs[i].message.value.(content := stub(cs[i])))
              else r[i] == cs[i]
    {
      assert Traced(cs[i]);
    }
  }

  function Transformed(encode: Component -> string, stub: Component -> string, cs: seq<Component>,
                       transform: Transform): seq<Component> {
    match transform
    case Unchanged => cs
    case StructuralTrim(maxChars) => TrimmedAll(stub, cs, maxChars)
    case DropOldestTo(maxTokens) => DroppedUntil(encode, cs, maxTokens)
  }

  method ApplyTransform(encode: Component -> string, stub: Component -> string, cs: seq<Component>,
                        transform: Transform)
    returns (r: Option<seq<Component>>)
    ensures (forall c | c in cs :: c.objectId.Some?) ==> r == Some(Transformed(encode, stub, cs, transform))
  {
    match transform
    case Unchanged => r := Some(cs);
    case StructuralTrim(maxChars) => r := ApplyStructuralTrim(stub, cs, maxChars);
    case DropOldestTo(maxTokens) =>
      var kept := DropOldest(encode, cs, maxTokens);
      r := Some(kept);
  }

  /** Every transform of sound components shows the model paired calls and results. */
  lemma TransformPaired(encode: Component -> string, stub: Component -> string, cs: seq<Component>,
                        transform: Transform)
    requires Sound(cs) && (forall c | c in cs :: Traced(c))
    ensures Paired(Messages(Transformed(encode, stub, cs, transform)))
  {
    match transform
    case Unchanged => SoundPaired(cs);
    case StructuralTrim(maxChars) => TrimPaired(stub, cs, maxChars);
    case DropOldestTo(maxTokens) =>
      DroppedSound(encode, cs, maxTokens);
      SoundPaired(DroppedUntil(encode, cs, maxTokens));
  }

  method ProjectComponents(e: Encoders, input: PromptInput) returns (cs: seq<Component>)
    ensures cs == Components(e, input)
  {
    var tail := FromMessageBoundary(Recent(input.timeline));
    var past := ProjectTimeline(e, tail, true);
    var present := ProjectTimeline(e, input.current, false);
    cs := Assembled(input, past, present);
  }

  lemma AddressedKnown(address: Component -> string, cs: seq<Component>)
    ensures forall c | c in Addressed(address, cs) :: c.objectId.Some?
  {
  }

  lemma {:induction false} MessagesConcat(a: seq<Component>, b: seq<Component>)
    ensures Messages(a + b) == Messages(a) + Messages(b)
  {
    if b == [] {
      assert a + b == a;
    } else {
      var n := |b| - 1;
      MessagesConcat(a, b[..n]);
      assert (a + b)[..|a + b| - 1] == a + b[..n];
    }
  }

  lemma {:induction false} MessagesAddressed(address: Component -> string, cs: seq<Component>)
    ensures Messages(Addressed(address, cs)) == Messages(cs)
  {
    if cs != [] {
      var n := |cs| - 1;
      MessagesAddressed(address, cs[..n]);
      assert Addressed(address, cs)[..n] == Addressed(address, cs[..n]);
    }
  }

  lemma {:induction false} AllMessages(cs: seq<Component>, messages: seq<Message>)
    requires |cs| == |messages| && forall i | 0 <= i < |cs| :: cs[i].message == Some(messages[i])
    ensures Messages(cs) == messages
  {
    if cs != [] {
      var n := |cs| - 1;
      AllMessages(cs[..n], messages[..n]);
      assert messages == messages[..n] + [messages[n]];
    }
  }

  lemma TimelineRecalls(e: Encoders, events: seq<Event>, historical: bool)
    ensures Recalls(e, events, Messages(Timeline(e, events, historical)), 0, 0)
  {
    var entries := AnsweredEntries(Entries(e, events));
    ProjectionShown(e, events);
    AllMessages(Timeline(e, events, historical), MessagesOf(entries));
    assert Shown(e, events, MessagesOf(entries), Places(entries));
  }

  /** The messages of a prompt without a transform: the fixed parts as they are, between them what the timeline holds
    * from its boundary on, and at the end what happened since. */
  ghost predicate Remembers(e: Encoders, input: PromptInput, messages: seq<Message>) {
    exists past: seq<Message>, present: seq<Message>, k: nat ::
      && messages == Messages(input.front) + Messages(input.content) + past + Messages([input.objective]) + present
      && Boundary(input.timeline, k) && Recalls(e, input.timeline, past, |input.timeline| - 50, k)
      && Recalls(e, input.current, present, 0, 0)
  }

  lemma RecallsMore(e: Encoders, events: seq<Event>, messages: seq<Message>, oldest: int, older: int, start: nat)
    requires Recalls(e, events, messages, oldest, start) && older <= oldest
    ensures Recalls(e, events, messages, older, start)
  {
    var at: seq<nat> :| Shown(e, events, messages, at) && Told(events, messages, at, start)
                        && forall i | 0 <= i < |at| :: oldest <= at[i];
  }

  lemma PromptRemembers(e: Encoders, address: Component -> string, input: PromptInput)
    ensures Remembers(e, input, Messages(Addressed(address, Components(e, input))))
  {
    var past, present := Timeline(e, Tail(input.timeline), true), Timeline(e, input.current, false);
    var front := input.front + input.content;
    MessagesAddressed(address, Components(e, input));
    MessagesConcat(input.front, input.content);
    MessagesConcat(front, past);
    MessagesConcat(front + past, [input.objective]);
    MessagesConcat(front + past + [input.objective], present);
    var k := TailBoundary(input.timeline);
    TimelineRecalls(e, Tail(input.timeline), true);
    RecallsEnd(e, input.timeline, k, Messages(past));
    RecallsMore(e, input.timeline, Messages(past), k, |input.timeline| - 50, k);
    TimelineRecalls(e, input.current, false);
  }

  method BuildPrompt(e: Encoders, encode: Component -> string, stub: Component -> string, address: Component -> string,
                     input: PromptInput, transform: Transform) returns (messages: seq<Message>)
    ensures messages == Messages(Transformed(encode, stub, Addressed(address, Components(e, input)), transform))
    ensures transform.Unchanged? ==> Remembers(e, input, messages)
  {
    PromptRemembers(e, address, input);
    var cs := ProjectComponents(e, input);
    AddressedKnown(address, cs);
    var r := ApplyTransform(encode, stub, Addressed(address, cs), transform);
    messages := Messages(r.value);
  }

  /** Whatever the transform, the model sees every call answered, every answer called for, and every call first. */
  lemma PromptPaired(e: Encoders, encode: Component -> string, stub: Component -> string, address: Component -> string,
                     input: PromptInput, transform: Transform)
    requires WellSupplied(e, input)
    ensures Paired(Messages(Transformed(encode, stub, Addressed(address, Components(e, input)), transform)))
  {
    PromptReady(e, address, input);
    TransformPaired(encode, stub, Addressed(address, Components(e, input)), transform);
  }

  lemma PromptReady(e: Encoders, address: Component -> string, input: PromptInput)
    requires WellSupplied(e, input)
    ensures Sound(Addressed(address, Components(e, input)))
    ensures forall c | c in Addressed(address, Components(e, input)) :: Traced(c)
  {
    var cs := Components(e, input);
    ComponentsSound(e, input);
    ComponentsTraced(e, input);
    AddressedSound(address, cs);
    forall i | 0 <= i < |cs| ensures Traced(Addressed(address, cs)[i]) {
      assert Traced(cs[i]);
    }
  }
}
