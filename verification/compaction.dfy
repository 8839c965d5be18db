/** Prompt components and the compaction transforms that must keep calls and results paired. */
module Compaction {
  import opened Text
  import opened Prompts

  /** A prompt component; the source fields are those its trace payload carries. */
  datatype Component = Component(
    kind: string, historical: bool, toolName: string, toolCallId: string, message: Option<Message>,
    objectId: Option<string>)

  // ----------------------------------------------------------------- timeline

  function RecordNames(calls: seq<Call>, names: map<string, string>): map<string, string> {
    if calls == [] then names else
      var before := RecordNames(calls[..|calls| - 1], names);
      var call := calls[|calls| - 1];
      if call.id != "" && call.name != "" then before[call.id := call.name] else before
  }

  function NamesOf(messages: seq<Message>): map<string, string> {
    if messages == [] then map[] else
      var n := |messages| - 1;
      if messages[n].Assistant? then RecordNames(messages[n].calls, NamesOf(messages[..n])) else NamesOf(messages[..n])
  }

  function KindOf(message: Message): string {
    if message.Tool? then "tool_result" else if message.Assistant? then "assistant_message" else "user_message"
  }

  function SourceCallId(event: Event): string {
    if event.kind == "tool_result" then event.toolCallId
    else if event.kind == "tool_call" then (if event.toolCallId != "" then event.toolCallId else event.id)
    else ""
  }

  function ComponentOf(entry: Entry, names: map<string, string>, historical: bool): Component {
    var event := entry.event;
    var name :=
      if event.kind == "tool_call" then event.name
      else if event.toolCallId in names then names[event.toolCallId]
      else "";
    Component(KindOf(entry.message), historical, name, SourceCallId(event), Some(entry.message), None)
  }

  function ComponentsOf(entries: seq<Entry>, historical: bool): seq<Component> {
    seq(|entries|,
        i requires 0 <= i < |entries| => ComponentOf(entries[i], NamesOf(MessagesOf(entries[..i])), historical))
  }

  function Timeline(e: Encoders, events: seq<Event>, historical: bool): seq<Component> {
    ComponentsOf(AnsweredEntries(Entries(e, events)), historical)
  }

  method RecordToolNames(message: Message, names: map<string, string>) returns (r: map<string, string>)
    ensures r == if message.Assistant? then RecordNames(message.calls, names) else names
  {
    r := names;
    if !message.Assistant? { return; }
    var i := 0;
    while i < |message.calls|
      invariant i <= |message.calls|
      invariant r == RecordNames(message.calls[..i], names)
    {
      var call := message.calls[i];
      assert message.calls[..i + 1][..i] == message.calls[..i];
      if call.id != "" && call.name != "" { r := r[call.id := call.name]; }
      i := i + 1;
    }
    assert message.calls[..i] == message.calls;
  }

  method ProjectTimeline(e: Encoders, events: seq<Event>, historical: bool) returns (components: seq<Component>)
    ensures components == Timeline(e, events, historical)
  {
    var projected := MessageEntries(e, events);
    var entries := KeepAnswered(projected);
    components := BuildComponents(entries, historical);
  }

  method BuildComponents(entries: seq<Entry>, historical: bool) returns (components: seq<Component>)
    ensures components == ComponentsOf(entries, historical)
  {
    components := [];
    var names: map<string, string> := map[];
    var i := 0;
    while i < |entries|
      invariant i <= |entries|
      invariant names == NamesOf(MessagesOf(entries[..i]))
      invariant components == ComponentsOf(entries[..i], historical)
    {
      ComponentsNext(entries, i, historical);
      NamesNext(entries, i);
      components := components + [ComponentOf(entries[i], names, historical)];
      names := RecordToolNames(entries[i].message, names);
      i := i + 1;
    }
    assert entries[..i] == entries;
  }

  lemma ComponentsNext(entries: seq<Entry>, i: nat, historical: bool)
    requires i < |entries|
    ensures ComponentsOf(entries[..i + 1], historical) ==
            ComponentsOf(entries[..i], historical)
            + [ComponentOf(entries[i], NamesOf(MessagesOf(entries[..i])), historical)]
  {
    var more, all := ComponentsOf(entries[..i + 1], historical), ComponentsOf(entries[..i], historical);
    forall j | 0 <= j < i ensures more[j] == all[j] {
      assert entries[..i + 1][..j] == entries[..i][..j];
    }
    assert entries[..i + 1][..i] == entries[..i];
  }

  lemma NamesNext(entries: seq<Entry>, i: nat)
    requires i < |entries|
    ensures NamesOf(MessagesOf(entries[..i + 1])) ==
            var message, names := entries[i].message, NamesOf(MessagesOf(entries[..i]));
            if message.Assistant? then RecordNames(message.calls, names) else names
  {
    assert MessagesOf(entries[..i + 1])[..i] == MessagesOf(entries[..i]);
  }

  // ------------------------------------------------------------------ pairing

  function Ids(c: Component): set<string> {
    if c.message.Some? then Introduced(c.message.value) else {}
  }

  function Answers(c: Component): set<string> {
    if c.message.Some? then Answered(c.message.value) else {}
  }

  /** The ids introduced by the historical, or by the live, components. */
  function IdsIn(cs: seq<Component>, historical: bool): set<string> {
    if cs == [] then {} else
      var n := |cs| - 1;
      IdsIn(cs[..n], historical) + if cs[n].historical == historical then Ids(cs[n]) else {}
  }

  function AllIds(cs: seq<Component>): set<string> {
    IdsIn(cs, true) + IdsIn(cs, false)
  }

  function AllAnswers(cs: seq<Component>): set<string> {
    if cs == [] then {} else AllAnswers(cs[..|cs| - 1]) + Answers(cs[|cs| - 1])
  }

  /** Every result follows its call, and a historical result a historical call. */
  predicate Linked(cs: seq<Component>) {
    cs == [] ||
    var n := |cs| - 1;
    Linked(cs[..n]) && Answers(cs[n]) <= IdsIn(cs[..n], cs[n].historical)
  }

  predicate Unique(cs: seq<Component>) {
    cs == [] ||
    var n := |cs| - 1;
    Unique(cs[..n]) && Ids(cs[n]) !! AllIds(cs[..n])
  }

  /** Calls come first, no id is introduced twice and every call is answered. */
  predicate Sound(cs: seq<Component>) {
    Linked(cs) && Unique(cs) && AllIds(cs) <= AllAnswers(cs)
  }

  lemma SnocParts(cs: seq<Component>, c: Component)
    ensures forall h :: IdsIn(cs + [c], h) == IdsIn(cs, h) + if c.historical == h then Ids(c) else {}
    ensures AllIds(cs + [c]) == AllIds(cs) + Ids(c)
    ensures AllAnswers(cs + [c]) == AllAnswers(cs) + Answers(c)
    ensures Linked(cs + [c]) <==> Linked(cs) && Answers(c) <= IdsIn(cs, c.historical)
    ensures Unique(cs + [c]) <==> Unique(cs) && Ids(c) !! AllIds(cs)
  {
    assert (cs + [c])[..|cs|] == cs;
  }

  lemma {:induction false} ConcatIdsIn(a: seq<Component>, b: seq<Component>, historical: bool)
    ensures IdsIn(a + b, historical) == IdsIn(a, historical) + IdsIn(b, historical)
  {
    if b == [] {
      assert a + b == a;
    } else {
      ConcatIdsIn(a, b[..|b| - 1], historical);
      assert (a + b)[..|a + b| - 1] == a + b[..|b| - 1];
    }
  }

  lemma {:induction false} ConcatAnswers(a: seq<Component>, b: seq<Component>)
    ensures AllAnswers(a + b) == AllAnswers(a) + AllAnswers(b)
  {
    if b == [] {
      assert a + b == a;
    } else {
      ConcatAnswers(a, b[..|b| - 1]);
      assert (a + b)[..|a + b| - 1] == a + b[..|b| - 1];
    }
  }

  lemma ConcatIds(a: seq<Component>, b: seq<Component>)
    ensures forall h :: IdsIn(a + b, h) == IdsIn(a, h) + IdsIn(b, h)
    ensures AllIds(a + b) == AllIds(a) + AllIds(b)
    ensures AllAnswers(a + b) == AllAnswers(a) + AllAnswers(b)
  {
    ConcatIdsIn(a, b, true);
    ConcatIdsIn(a, b, false);
    ConcatAnswers(a, b);
  }

  lemma {:induction false} ConcatLinked(a: seq<Component>, b: seq<Component>)
    requires Linked(a) && Linked(b)
    ensures Linked(a + b)
  {
    if b == [] {
      assert a + b == a;
    } else {
      var n := |b| - 1;
      ConcatLinked(a, b[..n]);
      assert a + b == (a + b[..n]) + [b[n]];
      SnocParts(a + b[..n], b[n]);
      ConcatIds(a, b[..n]);
    }
  }

  lemma {:induction false} ConcatUnique(a: seq<Component>, b: seq<Component>)
    ensures Unique(a + b) <==> Unique(a) && Unique(b) && AllIds(a) !! AllIds(b)
  {
    if b == [] {
      assert a + b == a;
    } else {
      var n := |b| - 1;
      ConcatUnique(a, b[..n]);
      assert a + b == (a + b[..n]) + [b[n]];
      assert b == b[..n] + [b[n]];
      SnocParts(a + b[..n], b[n]);
      SnocParts(b[..n], b[n]);
      ConcatIds(a, b[..n]);
    }
  }

  /** Sound parts with different ids make a sound whole. */
  lemma ConcatSound(a: seq<Component>, b: seq<Component>)
    requires Sound(a) && Sound(b) && AllIds(a) !! AllIds(b)
    ensures Sound(a + b) && AllIds(a + b) == AllIds(a) + AllIds(b)
  {
    ConcatIds(a, b);
    ConcatLinked(a, b);
    ConcatUnique(a, b);
  }

  // -------------------------------------------------------------- drop oldest

  predicate Droppable(c: Component) {
    c.historical && c.message.Some?
  }

  /** The components before the dropped one, and those after it that do not answer its calls. */
  function Dropped(cs: seq<Component>, index: nat): seq<Component>
    requires index < |cs|
  {
    var ids := Ids(cs[index]);
    cs[..index] + Unanswering(cs[index + 1..], ids)
  }

  function Oldest(cs: seq<Component>): (index: nat)
    ensures index <= |cs| && (forall i | 0 <= i < index :: !Droppable(cs[i])) && (index < |cs| ==> Droppable(cs[index]))
  {
    if cs == [] then 0
    else if Droppable(cs[0]) then 0
    else 1 + Oldest(cs[1..])
  }

  lemma {:induction false} FilterLength<T>(s: seq<T>, keep: T -> bool)
    ensures |Filter(s, keep)| <= |s|
  {
    if s != [] { FilterLength(s[..|s| - 1], keep); }
  }

  lemma {:induction false} FilterParts(post: seq<Component>, ids: set<string>)
    ensures var kept := Unanswering(post, ids);
      && (forall h :: IdsIn(kept, h) == IdsIn(post, h))
      && AllAnswers(kept) == AllAnswers(post) - ids
  {
    if post != [] {
      var n := |post| - 1;
      FilterParts(post[..n], ids);
      var kept := Unanswering(post[..n], ids);
      SnocParts(kept, post[n]);
    }
  }

  function Unanswering(post: seq<Component>, ids: set<string>): seq<Component> {
    Filter(post, (c: Component) => Answers(c) !! ids)
  }

  /** Dropping a call and its results loses the ids of that call and no others. */
  lemma DropIds(pre: seq<Component>, d: Component, post: seq<Component>)
    ensures forall h :: IdsIn(pre + [d] + post, h) - Ids(d) <= IdsIn(pre + Unanswering(post, Ids(d)), h)
    ensures AllAnswers(pre + [d] + post) - Ids(d) - Answers(d) <= AllAnswers(pre + Unanswering(post, Ids(d)))
    ensures AllIds(pre + Unanswering(post, Ids(d))) <= AllIds(pre) + AllIds(post) <= AllIds(pre + [d] + post)
  {
    var kept := Unanswering(post, Ids(d));
    ConcatIds(pre + [d], post);
    SnocParts(pre, d);
    ConcatIds(pre, kept);
    FilterParts(post, Ids(d));
  }

  /** Without a call and its later results, every other result still follows its call. */
  lemma {:induction false} DropLinked(pre: seq<Component>, d: Component, post: seq<Component>)
    requires Linked(pre + [d] + post)
    ensures Linked(pre + Unanswering(post, Ids(d)))
  {
    var ids := Ids(d);
    if post == [] {
      assert pre + [d] + post == pre + [d];
      SnocParts(pre, d);
      assert pre + [] == pre;
    } else {
      var n := |post| - 1;
      var before, last := post[..n], post[n];
      assert pre + [d] + post == (pre + [d] + before) + [last];
      SnocParts(pre + [d] + before, last);
      DropLinked(pre, d, before);
      if Answers(last) !! ids {
        var kept := Unanswering(before, ids);
        DropIds(pre, d, before);
        assert Unanswering(post, ids) == kept + [last];
        LinkedNext(pre, kept, last);
      }
    }
  }

  lemma LinkedNext(pre: seq<Component>, kept: seq<Component>, last: Component)
    requires Linked(pre + kept) && Answers(last) <= IdsIn(pre + kept, last.historical)
    ensures Linked(pre + (kept + [last]))
  {
    assert pre + (kept + [last]) == (pre + kept) + [last];
    SnocParts(pre + kept, last);
  }

  lemma UniqueAround(pre: seq<Component>, d: Component, post: seq<Component>)
    requires Unique(pre + [d] + post)
    ensures Unique(pre) && Unique(post) && AllIds(pre) !! AllIds(post)
    ensures Ids(d) !! AllIds(pre) && Ids(d) !! AllIds(post)
  {
    ConcatUnique(pre + [d], post);
    SnocParts(pre, d);
  }

  lemma {:induction false} FilterUniqueIds(post: seq<Component>, keep: Component -> bool)
    requires Unique(post)
    ensures Unique(Filter(post, keep)) && AllIds(Filter(post, keep)) <= AllIds(post)
  {
    if post != [] {
      var n := |post| - 1;
      FilterUniqueIds(post[..n], keep);
      SnocParts(Filter(post[..n], keep), post[n]);
      assert post == post[..n] + [post[n]];
      SnocParts(post[..n], post[n]);
    }
  }

  lemma {:induction false} NoHistoricalIds(cs: seq<Component>)
    requires forall i | 0 <= i < |cs| :: !Droppable(cs[i])
    ensures IdsIn(cs, true) == {}
  {
    if cs != [] {
      NoHistoricalIds(cs[..|cs| - 1]);
      assert !Droppable(cs[|cs| - 1]);
    }
  }

  /** The oldest historical message is never a result, because its call would be older. */
  lemma OldestIsNoResult(pre: seq<Component>, d: Component, post: seq<Component>)
    requires Linked(pre + [d] + post) && d.historical && forall i | 0 <= i < |pre| :: !Droppable(pre[i])
    ensures Answers(d) == {}
  {
    LinkedPrefix(pre + [d], post);
    SnocParts(pre, d);
    NoHistoricalIds(pre);
  }

  lemma {:induction false} LinkedPrefix(a: seq<Component>, b: seq<Component>)
    requires Linked(a + b)
    ensures Linked(a)
  {
    if b == [] {
      assert a + b == a;
    } else {
      assert a + b == (a + b[..|b| - 1]) + [b[|b| - 1]];
      SnocParts(a + b[..|b| - 1], b[|b| - 1]);
      LinkedPrefix(a, b[..|b| - 1]);
    }
  }

  lemma DropUnique(pre: seq<Component>, d: Component, post: seq<Component>)
    requires Unique(pre + [d] + post)
    ensures Unique(pre + Unanswering(post, Ids(d)))
  {
    UniqueAround(pre, d, post);
    FilterUniqueIds(post, (c: Component) => Answers(c) !! Ids(d));
    ConcatUnique(pre, Unanswering(post, Ids(d)));
  }

  lemma DropAnswered(pre: seq<Component>, d: Component, post: seq<Component>)
    requires Unique(pre + [d] + post) && AllIds(pre + [d] + post) <= AllAnswers(pre + [d] + post) && Answers(d) == {}
    ensures var r := pre + Unanswering(post, Ids(d)); AllIds(r) <= AllAnswers(r)
  {
    UniqueAround(pre, d, post);
    DropIds(pre, d, post);
  }

  /** Dropping the oldest historical message with its results leaves calls and results paired. */
  lemma DropSound(cs: seq<Component>, index: nat)
    requires Sound(cs) && index < |cs| && index == Oldest(cs)
    ensures Sound(Dropped(cs, index))
  {
    var pre, d, post := cs[..index], cs[index], cs[index + 1..];
    assert cs == pre + [d] + post;
    DropAround(pre, d, post);
  }

  lemma DropAround(pre: seq<Component>, d: Component, post: seq<Component>)
    requires Sound(pre + [d] + post) && d.historical && forall i | 0 <= i < |pre| :: !Droppable(pre[i])
    ensures Sound(pre + Unanswering(post, Ids(d)))
  {
    DropLinked(pre, d, post);
    DropUnique(pre, d, post);
    OldestIsNoResult(pre, d, post);
    DropAnswered(pre, d, post);
  }

  // ------------------------------------------------------- what dropping keeps

  function Live(cs: seq<Component>): seq<Component> {
    Filter(cs, (c: Component) => !c.historical)
  }

  lemma {:induction false} FilterConcat<T>(a: seq<T>, b: seq<T>, keep: T -> bool)
    ensures Filter(a + b, keep) == Filter(a, keep) + Filter(b, keep)
  {
    if b == [] {
      assert a + b == a;
    } else {
      var n := |b| - 1;
      FilterConcat(a, b[..n], keep);
      assert (a + b)[..|a + b| - 1] == a + b[..n];
    }
  }

  /** A live result answers a live call, so never the calls of a historical message. */
  lemma {:induction false} LiveUnaffected(pre: seq<Component>, d: Component, post: seq<Component>)
    requires Linked(pre + [d] + post) && Unique(pre + [d] + post) && d.historical
    ensures forall c | c in post && !c.historical :: Answers(c) !! Ids(d)
  {
    if post != [] {
      var n := |post| - 1;
      var before, last := post[..n], post[n];
      assert pre + [d] + post == (pre + [d] + before) + [last];
      assert post == before + [last];
      SnocParts(pre + [d] + before, last);
      LiveUnaffected(pre, d, before);
      UniqueAround(pre, d, before);
      ConcatIds(pre + [d], before);
      SnocParts(pre, d);
    }
  }

  lemma DropKeepsLive(cs: seq<Component>, index: nat)
    requires Sound(cs) && index < |cs| && cs[index].historical
    ensures Live(Dropped(cs, index)) == Live(cs)
  {
    var pre, d, post := cs[..index], cs[index], cs[index + 1..];
    assert cs == pre + [d] + post;
    var live := (c: Component) => !c.historical;
    LiveUnaffected(pre, d, post);
    FilterTwice(post, (c: Component) => Answers(c) !! Ids(d), live, live);
    FilterConcat(pre, Unanswering(post, Ids(d)), live);
    FilterConcat(pre + [d], post, live);
    FilterConcat(pre, [d], live);
    assert Filter([d], live) == [];
  }

  predicate Subsequence<T(==)>(a: seq<T>, b: seq<T>) {
    a == [] ||
    (b != [] &&
     ((a[|a| - 1] == b[|b| - 1] && Subsequence(a[..|a| - 1], b[..|b| - 1])) || Subsequence(a, b[..|b| - 1])))
  }

  lemma {:induction false} SubsequenceTransitive<T>(a: seq<T>, b: seq<T>, c: seq<T>)
    requires Subsequence(a, b) && Subsequence(b, c)
    ensures Subsequence(a, c)
    decreases c
  {
    if a != [] {
      var before := c[..|c| - 1];
      if Subsequence(b, before) {
        SubsequenceTransitive(a, b, before);
      } else if Subsequence(a, b[..|b| - 1]) {
        SubsequenceTransitive(a, b[..|b| - 1], before);
      } else {
        SubsequenceTransitive(a[..|a| - 1], b[..|b| - 1], before);
      }
    }
  }

  lemma {:induction false} SubsequenceItself<T>(a: seq<T>)
    ensures Subsequence(a, a)
  {
    if a != [] { SubsequenceItself(a[..|a| - 1]); }
  }

  lemma {:induction false} FilterSubsequence<T>(s: seq<T>, keep: T -> bool)
    ensures Subsequence(Filter(s, keep), s)
  {
    if s != [] {
      var n := |s| - 1;
      var kept := Filter(s[..n], keep);
      FilterSubsequence(s[..n], keep);
      assert (kept + [s[n]])[..|kept|] == kept;
    }
  }

  lemma {:induction false} DropSubsequence(pre: seq<Component>, d: Component, post: seq<Component>, ids: set<string>)
    ensures Subsequence(pre + Unanswering(post, ids), pre + [d] + post)
  {
    var all := pre + [d] + post;
    if post == [] {
      SubsequenceItself(pre);
      assert all[..|all| - 1] == pre && pre + [] == pre;
    } else {
      var n := |post| - 1;
      DropSubsequence(pre, d, post[..n], ids);
      var kept := Unanswering(post[..n], ids);
      assert all[..|all| - 1] == pre + [d] + post[..n];
      assert (pre + (kept + [post[n]]))[..|pre + kept|] == pre + kept;
    }
  }

  // ------------------------------------------------------------ the token loop

  /** An estimate of four characters a token over the message text, or over the encoded payload when there is none. */
  function Tokens(encode: Component -> string, c: Component): nat {
    (|TextOf(encode, c)| + 3) / 4
  }

  function TextOf(encode: Component -> string, c: Component): string {
    match c.message
    case Some(System(content)) => content
    case Some(User(content)) => content
    case Some(Tool(_, content)) => content
    case Some(Assistant(Some(text), _)) => text
    case _ => encode(c)
  }

  function TotalTokens(encode: Component -> string, cs: seq<Component>): nat {
    if cs == [] then 0 else TotalTokens(encode, cs[..|cs| - 1]) + Tokens(encode, cs[|cs| - 1])
  }

  method EstimatedTokens(encode: Component -> string, cs: seq<Component>) returns (total: nat)
    ensures total == TotalTokens(encode, cs)
  {
    total := 0;
    var i := 0;
    while i < |cs|
      invariant i <= |cs| && total == TotalTokens(encode, cs[..i])
    {
      assert cs[..i + 1][..i] == cs[..i];
      total := total + Tokens(encode, cs[i]);
      i := i + 1;
    }
    assert cs[..i] == cs;
  }

  method OldestHistorical(cs: seq<Component>) returns (index: nat)
    ensures index == Oldest(cs)
  {
    index := 0;
    while index < |cs| && !Droppable(cs[index])
      invariant index <= |cs| && Oldest(cs) == index + Oldest(cs[index..])
    {
      assert cs[index..][1..] == cs[index + 1..];
      index := index + 1;
    }
  }

  method DropOne(cs: seq<Component>, index: nat) returns (remaining: seq<Component>)
    requires index < |cs|
    ensures remaining == Dropped(cs, index)
  {
    var ids := Ids(cs[index]);
    remaining := cs[..index];
    var i := index + 1;
    assert cs[index + 1..i] == [];
    while i < |cs|
      invariant index < i <= |cs|
      invariant remaining == cs[..index] + Unanswering(cs[index + 1..i], ids)
    {
      assert cs[index + 1..i + 1][..i - index - 1] == cs[index + 1..i];
      if Answers(cs[i]) !! ids { remaining := remaining + [cs[i]]; }
      i := i + 1;
    }
    assert cs[index + 1..i] == cs[index + 1..];
  }

  /** Oldest exchanges first, and only while the estimate is over the bound. */
  function DroppedUntil(encode: Component -> string, cs: seq<Component>, maxTokens: nat): seq<Component>
    decreases |cs|
  {
    var index := Oldest(cs);
    if TotalTokens(encode, cs) <= maxTokens || index == |cs| then cs else
      var ids := Ids(cs[index]);
      FilterLength(cs[index + 1..], (c: Component) => Answers(c) !! ids);
      DroppedUntil(encode, Dropped(cs, index), maxTokens)
  }

  /** Drops the oldest historical exchange until the estimate fits or no historical message is left. */
  method DropOldest(encode: Component -> string, cs: seq<Component>, maxTokens: nat) returns (r: seq<Component>)
    ensures TotalTokens(encode, r) <= maxTokens || Oldest(r) == |r|
    ensures Subsequence(r, cs)
    ensures r == DroppedUntil(encode, cs, maxTokens)
  {
    r := cs;
    SubsequenceItself(cs);
    var total := EstimatedTokens(encode, r);
    while total > maxTokens
      invariant total == TotalTokens(encode, r)
      invariant Subsequence(r, cs)
      invariant DroppedUntil(encode, cs, maxTokens) == DroppedUntil(encode, r, maxTokens)
      decreases |r|
    {
      var index := OldestHistorical(r);
      if index == |r| { break; }
      DropEffect(r, cs, index);
      r := DropOne(r, index);
      total := EstimatedTokens(encode, r);
    }
  }

  /** Whatever is dropped, calls and results stay paired and every live component stays. */
  lemma {:induction false} DroppedSound(encode: Component -> string, cs: seq<Component>, maxTokens: nat)
    requires Sound(cs)
    ensures Sound(DroppedUntil(encode, cs, maxTokens)) && Live(DroppedUntil(encode, cs, maxTokens)) == Live(cs)
    decreases |cs|
  {
    var index := Oldest(cs);
    if TotalTokens(encode, cs) > maxTokens && index < |cs| {
      SubsequenceItself(cs);
      DropEffect(cs, cs, index);
      DroppedSound(encode, Dropped(cs, index), maxTokens);
    }
  }

  lemma DropEffect(r: seq<Component>, cs: seq<Component>, index: nat)
    requires index < |r| && index == Oldest(r) && Subsequence(r, cs)
    ensures Subsequence(Dropped(r, index), cs) && |Dropped(r, index)| < |r|
    ensures Sound(r) ==> Sound(Dropped(r, index)) && Live(Dropped(r, index)) == Live(r)
  {
    var pre, d, post := r[..index], r[index], r[index + 1..];
    assert r == pre + [d] + post;
    DropSubsequence(pre, d, post, Ids(d));
    SubsequenceTransitive(Dropped(r, index), r, cs);
    FilterLength(post, (c: Component) => Answers(c) !! Ids(d));
    if Sound(r) {
      DropSound(r, index);
      DropKeepsLive(r, index);
    }
  }
}
