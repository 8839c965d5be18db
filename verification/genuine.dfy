/** What a journal is that verifies, and what a reported divergence tells, without the verifier's rules. */
module GenuineJournals {
  import opened Text
  import opened Lexeme
  import opened Json
  import opened Readers
  import opened Canonical
  import opened Hashing
  import opened Chain

  function TextOrNull(t: Option<string>): Value {
    match t
    case Some(text) => String(text)
    case None => Null
  }

  /** The array an entry's address commits to, written out. */
  function Committed(e: Entry): Value {
    var v := e.event;
    Array([Number(Integer(0)), String(v.id), String(v.eventType), String(v.source),
           String("b3:" + HexText(e.payloadAddress)), TextOrNull(v.idempotencyKey), TextOrNull(v.causedBy),
           TextOrNull(v.sessionId), TextOrNull(v.runId), TextOrNull(v.turnId), Number(Integer(v.timestampMs)),
           TextOrNull(if e.previousAddress.Some? then Some("b3:" + HexText(e.previousAddress.value)) else None)])
  }

  predicate Named(e: Event) {
    e.id != "" && e.eventType != "" && e.source != ""
  }

  /** The stored bytes are the canonical JSON of the payload, and the stored address is their content address. */
  ghost predicate Sealed(h: Hasher, e: Entry) {
    && Encodable(Object(e.event.payload)) && e.payloadBytes == Encode(Object(e.event.payload))
    && e.payloadAddress == h.content(e.payloadBytes)
  }

  /** No two events share an id. */
  ghost predicate DistinctIds(entries: seq<Entry>) {
    forall i, j | 0 <= i < j < |entries| :: entries[i].event.id != entries[j].event.id
  }

  /** No two events that have an idempotency key share it. */
  ghost predicate DistinctKeys(entries: seq<Entry>) {
    forall i, j | 0 <= i < j < |entries| && entries[i].event.idempotencyKey.Some? ::
      entries[i].event.idempotencyKey != entries[j].event.idempotencyKey
  }

  predicate Positive(e: Event) {
    e.cursor.Some? && e.cursor.value > 0
  }

  /** Every cursor is present, positive and above every earlier one. */
  ghost predicate Rising(entries: seq<Entry>) {
    && (forall i | 0 <= i < |entries| :: Positive(entries[i].event))
    && (forall i, j | 0 <= i < j < |entries| :: entries[i].event.cursor.value < entries[j].event.cursor.value)
  }

  function Latest(entries: seq<Entry>): Option<Hash> {
    if entries == [] then None else Some(entries[|entries| - 1].entryAddress)
  }

  /** The entry is named and sealed, and its address is the chain hash of what it commits to. */
  ghost predicate Bound(h: Hasher, e: Entry) {
    Named(e.event) && Sealed(h, e) && e.entryAddress == h.chain(Encode(Committed(e)))
  }

  /** Every entry is bound, the first has no predecessor and every other names the address before it. */
  ghost predicate Linked(h: Hasher, entries: seq<Entry>) {
    && (forall i | 0 <= i < |entries| :: Bound(h, entries[i]))
    && (forall i | 0 <= i < |entries| :: entries[i].previousAddress == Latest(entries[..i]))
  }

  /** Each event once, in the order of its cursor, sealed, and linked to its predecessor by the chain hash. */
  ghost predicate Genuine(h: Hasher, entries: seq<Entry>) {
    DistinctIds(entries) && DistinctKeys(entries) && Rising(entries) && Linked(h, entries)
  }

  predicate InOrder(before: seq<Entry>, e: Entry) {
    && Positive(e.event)
    && (before != [] && before[|before| - 1].event.cursor.Some? ==>
          before[|before| - 1].event.cursor.value < e.event.cursor.value)
  }

  ghost predicate KnownId(before: seq<Entry>, id: string) {
    exists i :: 0 <= i < |before| && before[i].event.id == id
  }

  ghost predicate KnownKey(before: seq<Entry>, key: Option<string>) {
    key.Some? && exists i :: 0 <= i < |before| && before[i].event.idempotencyKey == key
  }

  /** One entry after genuine ones. */
  ghost predicate Continues(h: Hasher, before: seq<Entry>, e: Entry) {
    && InOrder(before, e) && !KnownId(before, e.event.id) && !KnownKey(before, e.event.idempotencyKey)
    && Bound(h, e) && e.previousAddress == Latest(before)
  }

  lemma CommittedIs(e: Entry)
    ensures ChainValue(e.event, e.payloadAddress, e.previousAddress) == Committed(e)
  {
    assert HashText(e.payloadAddress) == "b3:" + HexText(e.payloadAddress);
  }

  lemma FaultExactly(h: Hasher, before: seq<Entry>, e: Entry)
    ensures Chain.Fault(h, before, e).None? <==> Continues(h, before, e)
  {
    ChainValueEncodable(e.event, e.payloadAddress, e.previousAddress);
    CommittedIs(e);
    SeenExactly(before, e);
  }

  lemma SeenExactly(before: seq<Entry>, e: Entry)
    ensures SeenId(before, e.event.id) <==> KnownId(before, e.event.id)
    ensures e.event.idempotencyKey.Some? ==>
      (SeenKey(before, e.event.idempotencyKey.value) <==> KnownKey(before, e.event.idempotencyKey))
  {
  }

  lemma IdsSnoc(before: seq<Entry>, e: Entry)
    ensures DistinctIds(before + [e]) <==> DistinctIds(before) && !KnownId(before, e.event.id)
  {
    var all, n := before + [e], |before|;
    assert all[n] == e && forall i | 0 <= i < n :: all[i] == before[i];
  }

  lemma KeysSnoc(before: seq<Entry>, e: Entry)
    ensures DistinctKeys(before + [e]) <==> DistinctKeys(before) && !KnownKey(before, e.event.idempotencyKey)
  {
    var all, n := before + [e], |before|;
    assert all[n] == e && forall i | 0 <= i < n :: all[i] == before[i];
  }

  lemma RisingSnoc(before: seq<Entry>, e: Entry)
    ensures Rising(before + [e]) <==> Rising(before) && InOrder(before, e)
  {
    var all, n := before + [e], |before|;
    assert all[n] == e && forall i | 0 <= i < n :: all[i] == before[i];
    if Rising(all) {
      assert Positive(all[n].event);
      assert n > 0 ==> all[n - 1].event.cursor.value < all[n].event.cursor.value;
    } else if Rising(before) && InOrder(before, e) {
      assert n > 0 ==> Positive(before[n - 1].event);
      assert Rising(all);
    }
  }

  lemma LinkedSnoc(h: Hasher, before: seq<Entry>, e: Entry)
    ensures Linked(h, before + [e]) <==> Linked(h, before) && Bound(h, e) && e.previousAddress == Latest(before)
  {
    var all, n := before + [e], |before|;
    assert all[n] == e && forall i | 0 <= i < n :: all[i] == before[i];
    assert forall i | 0 <= i <= n :: all[..i] == before[..i];
    assert before[..n] == before;
    if Linked(h, all) { assert Bound(h, all[n]); }
  }

  lemma GenuineSnoc(h: Hasher, before: seq<Entry>, e: Entry)
    ensures Genuine(h, before + [e]) <==> Genuine(h, before) && Continues(h, before, e)
  {
    IdsSnoc(before, e);
    KeysSnoc(before, e);
    RisingSnoc(before, e);
    LinkedSnoc(h, before, e);
  }

  lemma ChainedSnoc(h: Hasher, entries: seq<Entry>)
    requires entries != []
    ensures var n := |entries| - 1;
      WellChained(h, entries) <==> WellChained(h, entries[..n]) && Chain.Fault(h, entries[..n], entries[n]).None?
  {
    var n := |entries| - 1;
    assert entries[..n + 1] == entries;
    assert forall k | 0 <= k < n :: entries[..n][..k] == entries[..k];
  }

  /** The verifier accepts exactly the genuine journals. */
  lemma {:induction false} ChainedExactly(h: Hasher, entries: seq<Entry>)
    ensures WellChained(h, entries) <==> Genuine(h, entries)
  {
    if entries != [] {
      var n := |entries| - 1;
      var before, e := entries[..n], entries[n];
      assert entries == before + [e];
      ChainedExactly(h, before);
      GenuineSnoc(h, before, e);
      FaultExactly(h, before, e);
      ChainedSnoc(h, entries);
    }
  }

  /** The bytes an address commits to are a JSON text of the array, and of nothing else. */
  lemma CommitmentReads(h: Hasher, entries: seq<Entry>, i: nat)
    requires Genuine(h, entries) && i < |entries|
    ensures ReadText(Encode(Committed(entries[i]))) == Some(Committed(entries[i]))
    ensures ReadText(entries[i].payloadBytes) == Some(Plain(Object(entries[i].event.payload)))
  {
    var e := entries[i];
    CommittedIs(e);
    ChainValueEncodable(e.event, e.payloadAddress, e.previousAddress);
    ChainValuePlain(e.event, e.payloadAddress, e.previousAddress);
    CanonicalReads(Committed(e));
    CanonicalReads(Object(e.event.payload));
  }

  // --------------------------------------------------------------- divergences

  ghost predicate New(before: seq<Entry>, e: Entry) {
    InOrder(before, e) && !KnownId(before, e.event.id) && !KnownKey(before, e.event.idempotencyKey)
  }

  ghost predicate SealedBytes(e: Entry) {
    Encodable(Object(e.event.payload)) && e.payloadBytes == Encode(Object(e.event.payload))
  }

  /** What is wrong with an entry, and that nothing checked earlier is. */
  ghost predicate Diagnosed(h: Hasher, before: seq<Entry>, e: Entry, kind: Divergence) {
    match kind
    case CursorOrder(previous, actual) =>
      && !InOrder(before, e) && actual == e.event.cursor
      && previous == if before == [] then None else before[|before| - 1].event.cursor
    case DuplicateId => InOrder(before, e) && KnownId(before, e.event.id)
    case DuplicateIdempotencyKey(key) =>
      && InOrder(before, e) && !KnownId(before, e.event.id)
      && e.event.idempotencyKey == Some(key) && KnownKey(before, Some(key))
    case PayloadBytes => New(before, e) && !SealedBytes(e)
    case PayloadAddressMismatch(expected, actual) =>
      New(before, e) && SealedBytes(e) && expected == h.content(e.payloadBytes) != e.payloadAddress == actual
    case PreviousAddressMismatch(expected, actual) =>
      New(before, e) && Sealed(h, e) && expected == Latest(before) != e.previousAddress == actual
    case EntryAddressMismatch(expected, actual) =>
      && New(before, e) && Sealed(h, e) && e.previousAddress == Latest(before) && actual == e.entryAddress
      && expected == (if Named(e.event) then Some(h.chain(Encode(Committed(e)))) else None) != Some(actual)
    case ExpectedHeadMismatch(_, _) => false
  }

  /** The verifier names the first rule that an entry breaks, and says truly what it saw. */
  lemma FaultDiagnosed(h: Hasher, before: seq<Entry>, e: Entry)
    requires Chain.Fault(h, before, e).Some?
    ensures Diagnosed(h, before, e, Chain.Fault(h, before, e).value)
  {
    ChainValueEncodable(e.event, e.payloadAddress, e.previousAddress);
    CommittedIs(e);
  }

  /** A reported failure is at the first entry that does not continue a genuine journal, or at its head. */
  lemma FailureDiagnosed(h: Hasher, entries: seq<Entry>, expectation: HeadExpectation, e: VerificationError)
    requires FailsAt(h, entries, expectation, e)
    ensures e.entriesChecked <= |entries| && Genuine(h, entries[..e.entriesChecked])
    ensures e.entriesChecked < |entries| ==>
      && Diagnosed(h, entries[..e.entriesChecked], entries[e.entriesChecked], e.kind)
      && e.eventId == Some(entries[e.entriesChecked].event.id) && e.cursor == entries[e.entriesChecked].event.cursor
    ensures e.entriesChecked == |entries| ==>
      && expectation.Exact? && Latest(entries) != expectation.head
      && e.kind == ExpectedHeadMismatch(expectation.head, Latest(entries))
  {
    var k := e.entriesChecked;
    ChainedExactly(h, entries[..k]);
    if k < |entries| { FaultDiagnosed(h, entries[..k], entries[k]); } else { assert entries[..k] == entries; }
  }
}
