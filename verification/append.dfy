/** What appending an event to the journal answers, told from what the journal holds. */
module AppendLaws {
  import opened Text
  import opened Json
  import opened Canonical
  import opened Hashing
  import opened Chain
  import opened Memory
  import opened GenuineJournals

  ghost predicate StoredAs(j: Journal, i: nat, e: Event) {
    i < |j.entries| && j.entries[i].event == e
  }

  /** The event is stored: under its id with the same payload, or its idempotency key is taken. */
  ghost predicate Repeats(h: Hasher, j: Journal, e: Event, stored: Event) {
    exists i: nat :: StoredAs(j, i, stored) &&
      if KnownId(j.entries, e.id) then
        stored.id == e.id && Encodable(Object(e.payload))
        && j.entries[i].payloadAddress == h.content(Encode(Object(e.payload)))
      else e.idempotencyKey.Some? && stored.idempotencyKey == e.idempotencyKey
  }

  /** The event is added: nothing stored has its id or its key. */
  ghost predicate Adds(h: Hasher, j: Journal, e: Event, k: Journal, added: Event) {
    && !KnownId(j.entries, e.id) && !KnownKey(j.entries, e.idempotencyKey)
    && |j.entries| < U64_MAX && added == e.(cursor := Some(|j.entries| + 1))
    && |k.entries| == |j.entries| + 1 && k.entries[..|j.entries|] == j.entries
    && k.entries[|j.entries|].event == added && Genuine(h, k.entries) && k.head == Latest(k.entries)
  }

  /** Why an append is refused. */
  ghost predicate Justly(h: Hasher, j: Journal, e: Event, error: AppendError) {
    match error
    case EmptyId => e.id == ""
    case EmptyEventType => e.id != "" && e.eventType == ""
    case EmptySource => e.id != "" && e.eventType != "" && e.source == ""
    case CursorZero => false
    case PayloadEncoding(_) => Named(e) && !Encodable(Object(e.payload))
    case DuplicateIdPayloadMismatch =>
      && Named(e) && Encodable(Object(e.payload))
      && exists i: nat :: i < |j.entries| && j.entries[i].event.id == e.id
                          && j.entries[i].payloadAddress != h.content(Encode(Object(e.payload)))
    case CursorExhausted => Named(e) && |j.entries| == U64_MAX - 1
  }

  lemma KnownIndexed(j: Journal, e: Event)
    requires Indexed(j)
    ensures KnownId(j.entries, e.id) <==> e.id in j.byId
    ensures KnownKey(j.entries, e.idempotencyKey) <==> e.idempotencyKey.Some? && e.idempotencyKey.value in j.byKey
  {
  }

  /** In every journal: an append stores the event once at the next cursor, or answers with the event that is already
    * there and changes nothing, or is refused for a reason and changes nothing. */
  lemma AppendExplained(h: Hasher, j: Journal, e: Event)
    requires Inv(h, j)
    ensures var (k, r) := Appended(h, j, e);
      match r
      case Ok(Outcome(event, true)) => Adds(h, j, e, k, event)
      case Ok(Outcome(event, false)) => k == j && Repeats(h, j, e, event)
      case Err(error) => k == j && Justly(h, j, e, error)
  {
    KnownIndexed(j, e);
    ChainedExactly(h, j.entries);
    if Inserts(h, j, e) {
      AppendAdds(h, j, e);
    } else if Appended(h, j, e).1.Ok? {
      AppendRepeats(h, j, e);
    } else {
      AppendRefuses(h, j, e);
    }
  }

  lemma AppendAdds(h: Hasher, j: Journal, e: Event)
    requires Inv(h, j) && Inserts(h, j, e)
    ensures Adds(h, j, e, Appended(h, j, e).0, Appended(h, j, e).1.value.event)
  {
    KnownIndexed(j, e);
    InsertsMeans(h, j, e);
    AppendKeeps(h, j, e);
    ChainedExactly(h, Appended(h, j, e).0.entries);
  }

  lemma AppendRepeats(h: Hasher, j: Journal, e: Event)
    requires Inv(h, j) && !Inserts(h, j, e) && Appended(h, j, e).1.Ok?
    ensures Appended(h, j, e).0 == j && Repeats(h, j, e, Appended(h, j, e).1.value.event)
  {
    KnownIndexed(j, e);
    var i := if e.id in j.byId then j.byId[e.id] else j.byKey[e.idempotencyKey.value];
    assert StoredAs(j, i, Appended(h, j, e).1.value.event);
  }

  lemma AppendRefuses(h: Hasher, j: Journal, e: Event)
    requires Inv(h, j) && Appended(h, j, e).1.Err?
    ensures Appended(h, j, e).0 == j && Justly(h, j, e, Appended(h, j, e).1.error)
  {
    KnownIndexed(j, e);
    if e.id in j.byId {
      var i := j.byId[e.id];
      assert i < |j.entries| && j.entries[i].event.id == e.id;
    } else if Named(e) && Minted(h, e, j.nextCursor, j.head).Err? {
      MintRefuses(h, e, j.nextCursor, j.head);
    }
  }

  lemma MintRefuses(h: Hasher, e: Event, cursor: u64, previous: Option<Hash>)
    requires cursor > 0 && Minted(h, e, cursor, previous).Err? && Named(e)
    ensures Minted(h, e, cursor, previous).error.PayloadEncoding? && !Encodable(Object(e.payload))
  {
    if Encodable(Object(e.payload)) {
      ChainValueEncodable(e.(cursor := Some(cursor)), h.content(Encode(Object(e.payload))), previous);
      assert false;
    }
  }
}
