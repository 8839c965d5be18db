/** The in-memory journal: append with duplicate resolution, indexes, filtered pages and causal chains. */
module Memory {
  import opened Text
  import opened Json
  import opened Canonical
  import opened Hashing
  import opened Chain

  datatype Journal = Journal(
    entries: seq<Entry>, byId: map<string, nat>, byKey: map<string, nat>, nextCursor: u64, head: Option<Hash>)

  datatype Outcome = Outcome(event: Event, inserted: bool)

  const EMPTY: Journal := Journal([], map[], map[], 1, None)

  // ------------------------------------------------------------------ append

  /** What appending does to a journal, and what it answers. */
  ghost function Appended(h: Hasher, j: Journal, e: Event): (r: (Journal, Result<Outcome, AppendError>))
    requires Indexed(j)
  {
    if IdentityFault(e).Some? then (j, Err(IdentityFault(e).value))
    else if e.id in j.byId then
      var stored := j.entries[j.byId[e.id]];
      match CanonicalBytes(Object(e.payload))
      case Err(cause) => (j, Err(PayloadEncoding(cause)))
      case Ok(bytes) =>
        if h.content(bytes) != stored.payloadAddress then (j, Err(DuplicateIdPayloadMismatch))
        else (j, Ok(Outcome(stored.event, false)))
    else if e.idempotencyKey.Some? && e.idempotencyKey.value in j.byKey then
      (j, Ok(Outcome(j.entries[j.byKey[e.idempotencyKey.value]].event, false)))
    else if j.nextCursor == U64_MAX then (j, Err(CursorExhausted))
    else match Minted(h, e, j.nextCursor, j.head)
      case Err(error) => (j, Err(error))
      case Ok(entry) => (Extended(j, entry), Ok(Outcome(entry.event, true)))
  }

  function Extended(j: Journal, entry: Entry): Journal
    requires j.nextCursor < U64_MAX
  {
    var index := |j.entries|;
    Journal(
      j.entries + [entry],
      j.byId[entry.event.id := index],
      if entry.event.idempotencyKey.Some? then j.byKey[entry.event.idempotencyKey.value := index] else j.byKey,
      j.nextCursor + 1,
      Some(entry.entryAddress))
  }

  /** Each index holds exactly what a scan of the entries finds. */
  ghost predicate Indexed(j: Journal) {
    && (forall id | id in j.byId :: j.byId[id] < |j.entries| && j.entries[j.byId[id]].event.id == id)
    && (forall key | key in j.byKey ::
          j.byKey[key] < |j.entries| && j.entries[j.byKey[key]].event.idempotencyKey == Some(key))
    && (forall i | 0 <= i < |j.entries| :: j.entries[i].event.id in j.byId && j.byId[j.entries[i].event.id] == i)
    && (forall i | 0 <= i < |j.entries| && j.entries[i].event.idempotencyKey.Some? ::
          var key := j.entries[i].event.idempotencyKey.value; key in j.byKey && j.byKey[key] == i)
  }

  /** Cursors are 1, 2, 3, ... and the journal verifies against its own head. */
  ghost predicate Inv(h: Hasher, j: Journal) {
    && Indexed(j)
    && WellChained(h, j.entries) && j.head == Head(j.entries)
    && j.nextCursor == |j.entries| + 1
    && (forall i | 0 <= i < |j.entries| :: j.entries[i].event.cursor == Some(i + 1))
  }

  lemma NotSeen(j: Journal, e: Event)
    requires Indexed(j) && e.id !in j.byId
    requires e.idempotencyKey.Some? ==> e.idempotencyKey.value !in j.byKey
    ensures !SeenId(j.entries, e.id) && (e.idempotencyKey.Some? ==> !SeenKey(j.entries, e.idempotencyKey.value))
  {
  }

  lemma MintedFollows(h: Hasher, j: Journal, e: Event)
    requires Inv(h, j) && e.id !in j.byId && j.nextCursor < U64_MAX
    requires e.idempotencyKey.Some? ==> e.idempotencyKey.value !in j.byKey
    requires Minted(h, e, j.nextCursor, j.head).Ok?
    ensures Chain.Fault(h, j.entries, Minted(h, e, j.nextCursor, j.head).value).None?
  {
    NotSeen(j, e);
  }

  lemma ExtendedIndexed(j: Journal, entry: Entry)
    requires Indexed(j) && j.nextCursor < U64_MAX && entry.event.id !in j.byId
    requires entry.event.idempotencyKey.Some? ==> entry.event.idempotencyKey.value !in j.byKey
    ensures Indexed(Extended(j, entry))
  {
    var k := Extended(j, entry);
    assert forall i | 0 <= i < |j.entries| :: k.entries[i] == j.entries[i];
  }

  /** The appends that insert: the event is new in both indexes and mints an entry. */
  ghost predicate Inserts(h: Hasher, j: Journal, e: Event)
    requires Indexed(j)
  {
    Appended(h, j, e).1.Ok? && Appended(h, j, e).1.value.inserted
  }

  lemma InsertsMeans(h: Hasher, j: Journal, e: Event)
    requires Indexed(j) && Inserts(h, j, e)
    ensures e.id !in j.byId && (e.idempotencyKey.Some? ==> e.idempotencyKey.value !in j.byKey)
    ensures j.nextCursor < U64_MAX && Minted(h, e, j.nextCursor, j.head).Ok?
    ensures var entry := Minted(h, e, j.nextCursor, j.head).value;
      Appended(h, j, e) == (Extended(j, entry), Ok(Outcome(entry.event, true)))
      && entry.event == e.(cursor := Some(j.nextCursor))
  {
  }

  lemma InsertKeeps(h: Hasher, j: Journal, entry: Entry)
    requires Inv(h, j) && j.nextCursor < U64_MAX && Indexed(Extended(j, entry))
    requires Chain.Fault(h, j.entries, entry).None? && entry.event.cursor == Some(j.nextCursor)
    ensures Inv(h, Extended(j, entry)) && j.entries <= Extended(j, entry).entries
  {
    var entries := j.entries + [entry];
    assert Extended(j, entry).entries == entries;
    SnocChained(h, j.entries, entry);
    SnocCursors(j.entries, entry);
    assert Head(entries) == Some(entry.entryAddress);
  }

  lemma SnocCursors(entries: seq<Entry>, entry: Entry)
    requires (forall i | 0 <= i < |entries| :: entries[i].event.cursor == Some(i + 1))
    requires entry.event.cursor == Some(|entries| + 1)
    ensures var longer := entries + [entry]; forall i | 0 <= i < |longer| :: longer[i].event.cursor == Some(i + 1)
  {
  }

  lemma SnocChained(h: Hasher, entries: seq<Entry>, entry: Entry)
    requires WellChained(h, entries) && Chain.Fault(h, entries, entry).None?
    ensures WellChained(h, entries + [entry])
  {
    var longer := entries + [entry];
    assert longer[..|entries|] == entries;
    WellChainedSnoc(h, longer, |entries|);
    assert longer[..|longer|] == longer;
  }

  /** A failed or duplicate append changes nothing and a duplicate is answered from the journal. */
  lemma NoInsertKeeps(h: Hasher, j: Journal, e: Event)
    requires Indexed(j) && !Inserts(h, j, e)
    ensures Appended(h, j, e).0 == j
    ensures var r := Appended(h, j, e).1; r.Ok? ==>
              exists i :: 0 <= i < |j.entries| && j.entries[i].event == r.value.event
  {
  }

  /** Every append keeps the journal verifiable and append-only. */
  lemma AppendKeeps(h: Hasher, j: Journal, e: Event)
    requires Inv(h, j)
    ensures Inv(h, Appended(h, j, e).0)
    ensures j.entries <= Appended(h, j, e).0.entries
    ensures !Inserts(h, j, e) ==> Appended(h, j, e).0 == j
    ensures Inserts(h, j, e) ==>
      var k := Appended(h, j, e).0;
      k.entries[..|k.entries| - 1] == j.entries && k.entries[|k.entries| - 1].event == e.(cursor := Some(j.nextCursor))
  {
    if Inserts(h, j, e) {
      InsertsMeans(h, j, e);
      MintedFollows(h, j, e);
      var entry := Minted(h, e, j.nextCursor, j.head).value;
      ExtendedIndexed(j, entry);
      InsertKeeps(h, j, entry);
    } else {
      NoInsertKeeps(h, j, e);
    }
  }

  lemma StoredAnswers(h: Hasher, j: Journal, e: Event, i: nat)
    requires Indexed(j) && i < |j.entries| && IdentityFault(e).None?
    requires Minted(h, e, j.nextCursor, j.head).Ok? || Encodable(Object(e.payload))
    requires j.entries[i].event.id == e.id && j.entries[i].payloadAddress == h.content(Encode(Object(e.payload)))
    ensures Appended(h, j, e) == (j, Ok(Outcome(j.entries[i].event, false)))
  {
  }

  lemma InsertIdempotent(h: Hasher, j: Journal, e: Event)
    requires Inv(h, j) && Inserts(h, j, e) && Indexed(Appended(h, j, e).0)
    ensures Appended(h, Appended(h, j, e).0, e) == (Appended(h, j, e).0,
                                                    Ok(Outcome(Appended(h, j, e).1.value.event, false)))
  {
    InsertsMeans(h, j, e);
    var entry := Minted(h, e, j.nextCursor, j.head).value;
    var k := Extended(j, entry);
    assert k.entries[|j.entries|] == entry;
    StoredAnswers(h, k, e, |j.entries|);
  }

  /** Appending an event again answers with the stored event and inserts nothing. */
  lemma AppendIdempotent(h: Hasher, j: Journal, e: Event)
    requires Inv(h, j) && Appended(h, j, e).1.Ok?
    ensures Indexed(Appended(h, j, e).0)
    ensures Appended(h, Appended(h, j, e).0, e) == (Appended(h, j, e).0,
                                                    Ok(Outcome(Appended(h, j, e).1.value.event, false)))
  {
    AppendKeeps(h, j, e);
    if Inserts(h, j, e) { InsertIdempotent(h, j, e); }
  }

  ghost function AppendAll(h: Hasher, events: seq<Event>): (j: Journal)
    ensures Inv(h, j)
  {
    if events == [] then EMPTY else
      var j := AppendAll(h, events[..|events| - 1]);
      AppendKeeps(h, j, events[|events| - 1]);
      Appended(h, j, events[|events| - 1]).0
  }

  /** Every reachable journal verifies, and its history is fixed by its head up to an explicit collision. */
  lemma ReachableTamperEvident(h: Hasher, events: seq<Event>, entries: seq<Entry>) returns (c: Option<Collision>)
    requires WellChained(h, entries) && Head(entries) == AppendAll(h, events).head
    ensures WellChained(h, AppendAll(h, events).entries)
    ensures c.None? ==> SameHistory(AppendAll(h, events).entries, entries)
    ensures c.Some? ==> IsCollision(h, c.value)
  {
    c := TamperEvident(h, AppendAll(h, events).entries, entries);
  }

  // ----------------------------------------------------------------- queries

  datatype Filter = Filter(
    eventType: Option<string>, eventTypePrefix: Option<string>, sessionId: Option<string>, runId: Option<string>,
    turnId: Option<string>, causedBy: Option<string>, afterCursor: Option<u64>, limit: Option<nat>, newestFirst: bool)

  predicate Wants(expected: Option<string>, actual: Option<string>) {
    expected.Some? ==> actual == expected
  }

  predicate Matches(e: Event, f: Filter) {
    && Wants(f.eventType, Some(e.eventType))
    && (f.eventTypePrefix.Some? ==> f.eventTypePrefix.value <= e.eventType)
    && Wants(f.sessionId, e.sessionId)
    && Wants(f.runId, e.runId)
    && Wants(f.turnId, e.turnId)
    && Wants(f.causedBy, e.causedBy)
    && (f.afterCursor.Some? ==> e.cursor.Some? && e.cursor.value > f.afterCursor.value)
  }

  function Select(entries: seq<Entry>, f: Filter): seq<Event> {
    if entries == [] then [] else
      (if Matches(entries[0].event, f) then [entries[0].event] else []) + Select(entries[1..], f)
  }

  function Reversed<T>(s: seq<T>): (r: seq<T>)
    ensures |r| == |s| && forall i | 0 <= i < |s| :: r[i] == s[|s| - 1 - i]
  {
    if s == [] then [] else Reversed(s[1..]) + [s[0]]
  }

  function Truncated<T>(s: seq<T>, limit: Option<nat>): seq<T> {
    if limit.Some? && limit.value < |s| then s[..limit.value] else s
  }

  function Listed(entries: seq<Entry>, f: Filter): seq<Event> {
    Truncated(if f.newestFirst then Reversed(Select(entries, f)) else Select(entries, f), f.limit)
  }

  lemma {:induction false} SelectConcat(a: seq<Entry>, b: seq<Entry>, f: Filter)
    ensures Select(a + b, f) == Select(a, f) + Select(b, f)
  {
    if a == [] {
      assert a + b == b;
    } else {
      assert (a + b)[1..] == a[1..] + b;
      SelectConcat(a[1..], b, f);
    }
  }

  lemma {:induction false} SelectAll(entries: seq<Entry>, f: Filter)
    ensures forall e | e in Select(entries, f) :: Matches(e, f) && exists i ::
        0 <= i < |entries| && entries[i].event == e
  {
    if entries != [] {
      SelectAll(entries[1..], f);
      forall e | e in Select(entries[1..], f) ensures exists i :: 0 <= i < |entries| && entries[i].event == e {
        var i :| 0 <= i < |entries[1..]| && entries[1..][i].event == e;
        assert entries[i + 1].event == e;
      }
      assert entries[0].event == entries[0].event;
    }
  }

  /** The event differs from what the query asks for. */
  predicate Differs(e: Event, f: Filter) {
    || (f.eventType.Some? && e.eventType != f.eventType.value)
    || (f.eventTypePrefix.Some? && !(f.eventTypePrefix.value <= e.eventType))
    || (f.sessionId.Some? && e.sessionId != f.sessionId) || (f.runId.Some? && e.runId != f.runId)
    || (f.turnId.Some? && e.turnId != f.turnId) || (f.causedBy.Some? && e.causedBy != f.causedBy)
    || (f.afterCursor.Some? && (e.cursor.None? || e.cursor.value <= f.afterCursor.value))
  }

  lemma {:induction false} Selected(entries: seq<Entry>, f: Filter, i: nat)
    requires i < |entries| && Matches(entries[i].event, f)
    ensures entries[i].event in Select(entries, f)
  {
    if i > 0 { Selected(entries[1..], f, i - 1); }
  }

  /** A query lists stored events that carry all it asks for, no more than its limit, and unless the limit cut it short
    * every stored event it does not list differs in something it asks for. */
  lemma ListedExactly(entries: seq<Entry>, f: Filter)
    ensures forall e | e in Listed(entries, f) ::
              !Differs(e, f) && exists i :: 0 <= i < |entries| && entries[i].event == e
    ensures f.limit.Some? ==> |Listed(entries, f)| <= f.limit.value
    ensures f.limit.None? || |Listed(entries, f)| < f.limit.value ==>
              forall i | 0 <= i < |entries| :: entries[i].event in Listed(entries, f) || Differs(entries[i].event, f)
  {
    var selected := Select(entries, f);
    var ordered := if f.newestFirst then Reversed(selected) else selected;
    SelectAll(entries, f);
    forall e ensures e in ordered <==> e in selected {
      if f.newestFirst { InReversed(selected, e); }
    }
    forall e | e in Listed(entries, f) ensures e in selected { assert e in ordered; }
    if f.limit.None? || |Listed(entries, f)| < f.limit.value {
      forall i | 0 <= i < |entries| ensures entries[i].event in Listed(entries, f) || Differs(entries[i].event, f) {
        if Matches(entries[i].event, f) { Selected(entries, f, i); }
      }
    }
  }

  /** The events in one order of their cursors. */
  predicate InOrder(events: seq<Event>, newestFirst: bool) {
    && (forall i | 0 <= i < |events| :: events[i].cursor.Some?)
    && forall i, j | 0 <= i < j < |events| ::
         if newestFirst then events[i].cursor.value > events[j].cursor.value
         else events[i].cursor.value < events[j].cursor.value
  }

  /** A query lists its events in the order it asks for, and a limit cuts off those that come last. */
  lemma ListedInOrder(entries: seq<Entry>, f: Filter, e: Event)
    requires Numbered(entries)
    ensures InOrder(Listed(entries, f), f.newestFirst)
    ensures e in Listed(entries, f.(limit := None)) && e !in Listed(entries, f) ==>
              InOrder(Listed(entries, f) + [e], f.newestFirst)
  {
    var all, listed := Listed(entries, f.(limit := None)), Listed(entries, f);
    AllInOrder(entries, f);
    ListedPrefix(entries, f);
    if e in all && e !in listed {
      var k :| 0 <= k < |all| && all[k] == e;
      assert all[..|listed|] == listed;
      assert k >= |listed|;
      OrderedPick(all, f.newestFirst, |listed|, k);
    }
  }

  lemma AllInOrder(entries: seq<Entry>, f: Filter)
    requires Numbered(entries)
    ensures InOrder(Listed(entries, f.(limit := None)), f.newestFirst)
  {
    SelectAscending(entries, f);
    SelectIgnoresLimit(entries, f, None);
  }

  lemma ListedPrefix(entries: seq<Entry>, f: Filter)
    ensures Listed(entries, f) <= Listed(entries, f.(limit := None))
  {
    SelectIgnoresLimit(entries, f, None);
  }

  lemma OrderedPick(events: seq<Event>, newestFirst: bool, n: nat, k: nat)
    requires InOrder(events, newestFirst) && n <= k < |events|
    ensures InOrder(events[..n] + [events[k]], newestFirst)
  {
  }

  lemma InReversed<T>(s: seq<T>, x: T)
    ensures x in Reversed(s) <==> x in s
  {
    if x in s {
      var i :| 0 <= i < |s| && s[i] == x;
      assert Reversed(s)[|s| - 1 - i] == x;
    }
  }

  // ----------------------------------------------------------------- paging

  predicate Numbered(entries: seq<Entry>) {
    && (forall i | 0 <= i < |entries| :: entries[i].event.cursor.Some?)
    && (forall i, j | 0 <= i < j < |entries| :: entries[i].event.cursor.value < entries[j].event.cursor.value)
  }

  predicate AscendingCursors(events: seq<Event>) {
    && (forall i | 0 <= i < |events| :: events[i].cursor.Some?)
    && (forall i, j | 0 <= i < j < |events| :: events[i].cursor.value < events[j].cursor.value)
  }

  function After(f: Filter, cursor: u64): Filter {
    f.(afterCursor := Some(cursor), newestFirst := false)
  }

  function Page(entries: seq<Entry>, f: Filter, n: nat): seq<Event> {
    Listed(entries, f.(limit := Some(n)))
  }

  /** Ascending pages of at most `n` events, each starting after the last cursor of the one before. */
  function Pages(entries: seq<Entry>, f: Filter, n: nat): seq<Event>
    requires n > 0 && Numbered(entries) && !f.newestFirst
    decreases |Select(entries, f)|
  {
    PageSplits(entries, f, n);
    var page := Page(entries, f, n);
    if page == [] then [] else page + Pages(entries, After(f, page[|page| - 1].cursor.value), n)
  }

  /** A page is a prefix of the matches, and the filter for the next page selects the rest. */
  lemma PageSplits(entries: seq<Entry>, f: Filter, n: nat)
    requires n > 0 && Numbered(entries) && !f.newestFirst
    ensures Page(entries, f, n) <= Select(entries, f)
    ensures Page(entries, f, n) == [] <==> Select(entries, f) == []
    ensures Page(entries, f, n) != [] ==>
      var page := Page(entries, f, n);
      page[|page| - 1].cursor.Some?
      && Select(entries, After(f, page[|page| - 1].cursor.value)) == Select(entries, f)[|page|..]
  {
    PageTruncates(entries, f, n);
    SelectAscending(entries, f);
    var page := Page(entries, f, n);
    if page != [] { SelectAfter(entries, f, |page|); }
  }

  lemma PageTruncates(entries: seq<Entry>, f: Filter, n: nat)
    requires !f.newestFirst
    ensures Page(entries, f, n) == Truncated(Select(entries, f), Some(n))
  {
    SelectIgnoresLimit(entries, f, Some(n));
  }

  lemma {:induction false} SelectIgnoresLimit(entries: seq<Entry>, f: Filter, limit: Option<nat>)
    ensures Select(entries, f.(limit := limit)) == Select(entries, f)
  {
    if entries != [] { SelectIgnoresLimit(entries[1..], f, limit); }
  }

  lemma {:induction false} SelectAscending(entries: seq<Entry>, f: Filter)
    requires Numbered(entries)
    ensures AscendingCursors(Select(entries, f))
    ensures forall e | e in Select(entries, f) ::
        entries != [] && e.cursor.Some? && e.cursor.value >= entries[0].event.cursor.value
  {
    if entries != [] {
      assert Numbered(entries[1..]);
      SelectAscending(entries[1..], f);
      forall e | e in Select(entries[1..], f) ensures e.cursor.Some? && e.cursor.value > entries[0].event.cursor.value {
        assert entries[1..][0] == entries[1];
      }
      AscendingCons(entries[0].event, Select(entries[1..], f));
    }
  }

  lemma AscendingCons(e: Event, rest: seq<Event>)
    requires AscendingCursors(rest) && e.cursor.Some?
    requires forall d | d in rest :: d.cursor.Some? && d.cursor.value > e.cursor.value
    ensures AscendingCursors([e] + rest)
  {
  }

  function Beyond(events: seq<Event>, cursor: u64): seq<Event> {
    if events == [] then [] else
      (if events[0].cursor.Some? && events[0].cursor.value > cursor then [events[0]] else [])
      + Beyond(events[1..], cursor)
  }

  lemma {:induction false} SelectBeyond(entries: seq<Entry>, f: Filter, cursor: u64)
    requires (f.afterCursor.Some? ==> f.afterCursor.value <= cursor) && !f.newestFirst
    ensures Select(entries, After(f, cursor)) == Beyond(Select(entries, f), cursor)
  {
    if entries != [] {
      SelectBeyond(entries[1..], f, cursor);
      var e, t := entries[0].event, Select(entries[1..], f);
      assert Matches(e, After(f, cursor)) <==> Matches(e, f) && e.cursor.Some? && e.cursor.value > cursor;
      if Matches(e, f) {
        assert Select(entries, f) == [e] + t && ([e] + t)[1..] == t;
      } else {
        assert Select(entries, f) == t;
      }
    }
  }

  lemma {:induction false} BeyondAscending(s: seq<Event>, m: nat, cursor: u64)
    requires AscendingCursors(s) && m <= |s|
    requires forall i | 0 <= i < |s| :: s[i].cursor.value > cursor <==> m <= i
    ensures Beyond(s, cursor) == s[m..]
  {
    if s != [] {
      BeyondAscending(s[1..], if m == 0 then 0 else m - 1, cursor);
      assert m > 0 ==> s[1..][m - 1..] == s[m..];
      assert m == 0 ==> s[1..][0..] == s[1..] && s[m..] == [s[0]] + s[1..];
    }
  }

  /** Selecting after the cursor of the m-th match leaves exactly the later matches. */
  lemma SelectAfter(entries: seq<Entry>, f: Filter, m: nat)
    requires Numbered(entries) && !f.newestFirst
    requires AscendingCursors(Select(entries, f)) && 0 < m <= |Select(entries, f)|
    ensures Select(entries, After(f, Select(entries, f)[m - 1].cursor.value)) == Select(entries, f)[m..]
  {
    var s := Select(entries, f);
    SelectAll(entries, f);
    assert s[m - 1] in s;
    SelectBeyond(entries, f, s[m - 1].cursor.value);
    BeyondAscending(s, m, s[m - 1].cursor.value);
  }

  lemma PrefixRest(a: seq<Event>, s: seq<Event>)
    requires a <= s
    ensures a + s[|a|..] == s
  {
  }

  /** Reading page by page returns every matching event exactly once, in order, for every page size. */
  lemma {:induction false} PagesComplete(entries: seq<Entry>, f: Filter, n: nat)
    requires n > 0 && Numbered(entries) && !f.newestFirst
    ensures Pages(entries, f, n) == Select(entries, f)
    decreases |Select(entries, f)|
  {
    PageSplits(entries, f, n);
    var page, s := Page(entries, f, n), Select(entries, f);
    if page != [] {
      var next := After(f, page[|page| - 1].cursor.value);
      PagesComplete(entries, next, n);
      assert Pages(entries, f, n) == page + Pages(entries, next, n);
      PrefixRest(page, s);
    }
  }

  // ----------------------------------------------------------- causal chains

  ghost predicate IsEvent(j: Journal, e: Event) {
    exists i :: 0 <= i < |j.entries| && j.entries[i].event == e
  }

  function Lookup(j: Journal, id: string): Option<Event>
    requires forall i | i in j.byId :: j.byId[i] < |j.entries|
  {
    if id in j.byId then Some(j.entries[j.byId[id]].event) else None
  }

  /** The index answers what a scan would. */
  lemma LookupScans(j: Journal, id: string)
    requires Indexed(j)
    ensures Lookup(j, id).None? <==> !SeenId(j.entries, id)
    ensures forall e | IsEvent(j, e) && e.id == id :: Lookup(j, id) == Some(e)
  {
  }

  /** Each event but the first was caused by the one before it. */
  predicate CausalPath(path: seq<Event>) {
    forall i | 0 < i < |path| :: path[i].causedBy == Some(path[i - 1].id)
  }

  predicate DistinctIds(path: seq<Event>) {
    forall i, k | 0 <= i < k < |path| :: path[i].id != path[k].id
  }

  /** Why a traversal may stop above `e`: no parent, a missing parent, or a parent already on the path. */
  predicate Stops(j: Journal, e: Event, path: seq<Event>)
    requires forall i | i in j.byId :: j.byId[i] < |j.entries|
  {
    || e.causedBy.None?
    || Lookup(j, e.causedBy.value).None?
    || exists i :: 0 <= i < |path| && path[i].id == e.causedBy.value
  }

  /** A walk from child to parent over distinct journal events, ending below `current`. */
  ghost predicate Walk(j: Journal, start: string, walked: seq<Event>, current: Option<Event>)
    requires forall i | i in j.byId :: j.byId[i] < |j.entries|
  {
    && DistinctIds(walked) && (forall e | e in walked :: IsEvent(j, e))
    && (forall i | 0 < i < |walked| :: walked[i - 1].causedBy == Some(walked[i].id))
    && (walked != [] ==> walked[0].id == start)
    && current == if walked == [] then Lookup(j, start) else Parent(j, walked[|walked| - 1])
  }

  function Parent(j: Journal, e: Event): Option<Event>
    requires forall i | i in j.byId :: j.byId[i] < |j.entries|
  {
    if e.causedBy.None? then None else Lookup(j, e.causedBy.value)
  }

  lemma WalkOn(j: Journal, start: string, walked: seq<Event>, event: Event)
    requires Indexed(j) && Walk(j, start, walked, Some(event)) && forall e | e in walked :: e.id != event.id
    ensures Walk(j, start, walked + [event], Parent(j, event)) && event.id in j.byId
  {
    if walked != [] { assert walked[|walked| - 1].causedBy == Some(event.id); }
    assert IsEvent(j, event);
  }

  lemma WalkEnds(j: Journal, start: string, walked: seq<Event>, current: Option<Event>)
    requires Indexed(j) && Walk(j, start, walked, current)
    requires current.Some? ==> exists e :: e in walked && e.id == current.value.id
    ensures var chain := Reversed(walked);
      && (chain == [] <==> start !in j.byId)
      && (chain != [] ==> chain[|chain| - 1].id == start && Stops(j, chain[0], chain))
      && DistinctIds(chain) && CausalPath(chain) && forall e | e in chain :: IsEvent(j, e)
  {
    var chain := Reversed(walked);
    assert forall e | e in chain :: e in walked;
    if walked != [] { assert walked[0] in walked && IsEvent(j, walked[0]); }
    if walked != [] && current.Some? {
      var i :| 0 <= i < |walked| && walked[i].id == current.value.id;
      assert chain[|walked| - 1 - i].id == current.value.id;
    }
  }

  class MemoryJournal {
    const hasher: Hasher
    var entries: seq<Entry>
    var byId: map<string, nat>
    var byKey: map<string, nat>
    var nextCursor: u64
    var head: Option<Hash>

    function View(): Journal
      reads this
    {
      Journal(entries, byId, byKey, nextCursor, head)
    }

    ghost predicate Valid()
      reads this
    {
      Inv(hasher, View())
    }

    constructor (hasher: Hasher)
      ensures Valid() && View() == EMPTY && this.hasher == hasher
    {
      this.hasher := hasher;
      entries, byId, byKey, nextCursor, head := [], map[], map[], 1, None;
    }

    method Append(event: Event) returns (r: Result<Outcome, AppendError>)
      requires Valid()
      modifies this
      ensures Valid()
      ensures (View(), r) == Appended(hasher, old(View()), event)
    {
      AppendKeeps(hasher, View(), event);
      if IdentityFault(event).Some? { return Err(IdentityFault(event).value); }
      if event.id in byId {
        var stored := entries[byId[event.id]];
        var payload := CanonicalJson(Object(event.payload));
        if payload.Err? { return Err(PayloadEncoding(payload.error)); }
        if hasher.content(payload.value) != stored.payloadAddress { return Err(DuplicateIdPayloadMismatch); }
        return Ok(Outcome(stored.event, false));
      }
      if event.idempotencyKey.Some? && event.idempotencyKey.value in byKey {
        return Ok(Outcome(entries[byKey[event.idempotencyKey.value]].event, false));
      }
      if nextCursor == U64_MAX { return Err(CursorExhausted); }
      var minted := NewEntry(hasher, event, nextCursor, head);
      if minted.Err? { return Err(minted.error); }
      Insert(minted.value);
      r := Ok(Outcome(minted.value.event, true));
    }

    method Insert(entry: Entry)
      requires nextCursor < U64_MAX
      modifies this
      ensures View() == Extended(old(View()), entry)
    {
      var index := |entries|;
      byId := byId[entry.event.id := index];
      if entry.event.idempotencyKey.Some? {
        byKey := byKey[entry.event.idempotencyKey.value := index];
      }
      nextCursor := nextCursor + 1;
      head := Some(entry.entryAddress);
      entries := entries + [entry];
    }

    method ListEvents(filter: Filter) returns (events: seq<Event>)
      ensures events == Listed(entries, filter)
    {
      events := [];
      if filter.newestFirst {
        var i := |entries|;
        while i > 0
          invariant 0 <= i <= |entries|
          invariant events == Reversed(Select(entries[i..], filter))
        {
          i := i - 1;
          assert entries[i..][1..] == entries[i + 1..];
          if Matches(entries[i].event, filter) { events := events + [entries[i].event]; }
        }
        assert entries[0..] == entries;
      } else {
        for i := 0 to |entries|
          invariant events == Select(entries[..i], filter)
        {
          assert entries[..i + 1] == entries[..i] + [entries[i]];
          SelectConcat(entries[..i], [entries[i]], filter);
          assert Select([entries[i]], filter) == if Matches(entries[i].event, filter) then [entries[i].event] else [];
          if Matches(entries[i].event, filter) { events := events + [entries[i].event]; }
        }
        assert entries[..|entries|] == entries;
      }
      events := Truncated(events, filter.limit);
    }

    /** Walks to the oldest reachable ancestor; the visited ids bound the walk even on a causal cycle. */
    method CausalChain(eventId: string) returns (chain: seq<Event>)
      requires Indexed(View())
      ensures chain == [] <==> eventId !in byId
      ensures chain != [] ==> chain[|chain| - 1].id == eventId && Stops(View(), chain[0], chain)
      ensures DistinctIds(chain) && CausalPath(chain) && forall e | e in chain :: IsEvent(View(), e)
    {
      var walked: seq<Event> := [];
      var seen: set<string> := {};
      var current := Lookup(View(), eventId);
      while current.Some?
        invariant Walk(View(), eventId, walked, current)
        invariant seen == set e | e in walked :: e.id
        invariant seen <= byId.Keys
        decreases byId.Keys - seen
      {
        var event := current.value;
        if event.id in seen { break; }
        WalkOn(View(), eventId, walked, event);
        walked := walked + [event];
        seen := seen + {event.id};
        if event.causedBy.None? {
          current := None;
          break;
        }
        current := Lookup(View(), event.causedBy.value);
      }
      WalkEnds(View(), eventId, walked, current);
      chain := Reversed(walked);
    }
  }
}
