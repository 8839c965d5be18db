/** Journal events, the hash chain over them, its verifier and its tamper evidence. */
module Chain {
  import opened Text
  import opened Lexeme
  import opened Json
  import opened Canonical
  import opened Hashing

  datatype Event = Event(
    id: string, eventType: string, source: string, payload: map<string, Value>,
    idempotencyKey: Option<string>, causedBy: Option<string>, sessionId: Option<string>,
    runId: Option<string>, turnId: Option<string>, timestampMs: i64, cursor: Option<u64>)

  datatype Entry = Entry(
    event: Event, payloadBytes: seq<byte>, payloadAddress: Hash, previousAddress: Option<Hash>, entryAddress: Hash)

  datatype AppendError =
    | EmptyId | EmptyEventType | EmptySource
    | PayloadEncoding(cause: CanonicalError)
    | DuplicateIdPayloadMismatch | CursorExhausted | CursorZero

  // ---------------------------------------------------------- entry identity

  function IdentityFault(e: Event): Option<AppendError> {
    if e.id == "" then Some(EmptyId)
    else if e.eventType == "" then Some(EmptyEventType)
    else if e.source == "" then Some(EmptySource)
    else None
  }

  function OptionalText(t: Option<string>): Value {
    if t.Some? then String(t.value) else Null
  }

  function OptionalHash(a: Option<Hash>): Value {
    if a.Some? then String(HashText(a.value)) else Null
  }

  /** The positional, version-framed value an entry address commits to. The cursor is not part of it. */
  function ChainValue(e: Event, payloadAddress: Hash, previous: Option<Hash>): Value {
    Array([
      Number(Integer(0)), String(e.id), String(e.eventType), String(e.source), String(HashText(payloadAddress)),
      OptionalText(e.idempotencyKey), OptionalText(e.causedBy), OptionalText(e.sessionId),
      OptionalText(e.runId), OptionalText(e.turnId), Number(Integer(e.timestampMs)), OptionalHash(previous)])
  }

  ghost function ChainBytes(e: Event, payloadAddress: Hash, previous: Option<Hash>): Result<seq<byte>, AppendError> {
    if IdentityFault(e).Some? then Err(IdentityFault(e).value) else
      match CanonicalBytes(ChainValue(e, payloadAddress, previous))
      case Ok(bytes) => Ok(bytes)
      case Err(cause) => Err(PayloadEncoding(cause))
  }

  ghost function Address(h: Hasher, e: Event, payloadAddress: Hash, previous: Option<Hash>): Result<Hash, AppendError> {
    match ChainBytes(e, payloadAddress, previous)
    case Ok(bytes) => Ok(h.chain(bytes))
    case Err(error) => Err(error)
  }

  /** The chain value is always encodable and determines everything about the event but payload and cursor. */
  lemma ChainValueEncodable(e: Event, payloadAddress: Hash, previous: Option<Hash>)
    ensures Encodable(ChainValue(e, payloadAddress, previous))
  {
    EncodableParts(ChainValue(e, payloadAddress, previous));
  }

  /** It holds no float, so it has one spelling. */
  lemma ChainValuePlain(e: Event, payloadAddress: Hash, previous: Option<Hash>)
    ensures Plain(ChainValue(e, payloadAddress, previous)) == ChainValue(e, payloadAddress, previous)
  {
    var v := ChainValue(e, payloadAddress, previous);
    forall i | 0 <= i < |v.items| ensures Plain(v.items[i]) == v.items[i] {}
    assert Plain(v).items == v.items;
  }

  lemma ChainValueInjective(d: Event, p: Hash, a: Option<Hash>, e: Event, q: Hash, b: Option<Hash>)
    requires ChainValue(d, p, a) == ChainValue(e, q, b)
    ensures p == q && a == b && d == e.(payload := d.payload, cursor := d.cursor)
  {
    var x, y := ChainValue(d, p, a).items, ChainValue(e, q, b).items;
    assert x[1] == y[1] && x[2] == y[2] && x[3] == y[3] && x[4] == y[4] && x[5] == y[5] && x[6] == y[6];
    assert x[7] == y[7] && x[8] == y[8] && x[9] == y[9] && x[10] == y[10] && x[11] == y[11];
    HashTextInjective(p, q);
    if a.Some? && b.Some? { HashTextInjective(a.value, b.value); }
  }

  /** Mints one entry: what a journal stores for an event at a cursor after a given predecessor. */
  ghost function Minted(h: Hasher, e: Event, cursor: u64, previous: Option<Hash>): Result<Entry, AppendError> {
    if cursor == 0 then Err(CursorZero)
    else if IdentityFault(e).Some? then Err(IdentityFault(e).value)
    else match CanonicalBytes(Object(e.payload))
      case Err(cause) => Err(PayloadEncoding(cause))
      case Ok(bytes) =>
        var stored := e.(cursor := Some(cursor));
        match Address(h, stored, h.content(bytes), previous)
        case Err(error) => Err(error)
        case Ok(address) => Ok(Entry(stored, bytes, h.content(bytes), previous, address))
  }

  method EntryAddress(h: Hasher, e: Event, payloadAddress: Hash,
                      previous: Option<Hash>) returns (r: Result<Hash, AppendError>)
    ensures r == Address(h, e, payloadAddress, previous)
  {
    if IdentityFault(e).Some? { return Err(IdentityFault(e).value); }
    var bytes := CanonicalJson(ChainValue(e, payloadAddress, previous));
    match bytes
    case Ok(b) => r := Ok(h.chain(b));
    case Err(cause) => r := Err(PayloadEncoding(cause));
  }

  method NewEntry(h: Hasher, e: Event, cursor: u64, previous: Option<Hash>) returns (r: Result<Entry, AppendError>)
    ensures r == Minted(h, e, cursor, previous)
  {
    if cursor == 0 { return Err(CursorZero); }
    if IdentityFault(e).Some? { return Err(IdentityFault(e).value); }
    var payload := CanonicalJson(Object(e.payload));
    if payload.Err? { return Err(PayloadEncoding(payload.error)); }
    var stored := e.(cursor := Some(cursor));
    var address := EntryAddress(h, stored, h.content(payload.value), previous);
    if address.Err? { return Err(address.error); }
    r := Ok(Entry(stored, payload.value, h.content(payload.value), previous, address.value));
  }

  // ------------------------------------------------------------ verification

  datatype Divergence =
    | CursorOrder(previous: Option<u64>, actual: Option<u64>)
    | DuplicateId
    | DuplicateIdempotencyKey(key: string)
    | PayloadBytes
    | PayloadAddressMismatch(expectedPayload: Hash, actualPayload: Hash)
    | PreviousAddressMismatch(expectedPrevious: Option<Hash>, actualPrevious: Option<Hash>)
    | EntryAddressMismatch(expectedEntry: Option<Hash>, actualEntry: Hash)
    | ExpectedHeadMismatch(expectedHead: Option<Hash>, actualHead: Option<Hash>)

  datatype VerificationError =
    VerificationError(entriesChecked: nat, eventId: Option<string>, cursor: Option<u64>, kind: Divergence)

  datatype Report = Report(entriesChecked: nat, head: Option<Hash>)

  datatype HeadExpectation = Unanchored | Exact(head: Option<Hash>)

  function Head(entries: seq<Entry>): Option<Hash> {
    if entries == [] then None else Some(entries[|entries| - 1].entryAddress)
  }

  function LastCursor(entries: seq<Entry>): Option<u64> {
    if entries == [] then None else entries[|entries| - 1].event.cursor
  }

  predicate CursorFollows(previous: Option<u64>, cursor: Option<u64>) {
    cursor.Some? && cursor.value > 0 && (previous.Some? ==> cursor.value > previous.value)
  }

  ghost predicate SeenId(entries: seq<Entry>, id: string) {
    exists j :: 0 <= j < |entries| && entries[j].event.id == id
  }

  ghost predicate SeenKey(entries: seq<Entry>, key: string) {
    exists j :: 0 <= j < |entries| && entries[j].event.idempotencyKey == Some(key)
  }

  /** The first rule that an entry breaks when it follows `before`. */
  ghost function Fault(h: Hasher, before: seq<Entry>, e: Entry): Option<Divergence> {
    if !CursorFollows(LastCursor(before), e.event.cursor) then Some(CursorOrder(LastCursor(before), e.event.cursor))
    else if SeenId(before, e.event.id) then Some(DuplicateId)
    else if e.event.idempotencyKey.Some? && SeenKey(before, e.event.idempotencyKey.value)
      then Some(DuplicateIdempotencyKey(e.event.idempotencyKey.value))
    else if CanonicalBytes(Object(e.event.payload)) != Ok(e.payloadBytes) then Some(PayloadBytes)
    else if e.payloadAddress != h.content(e.payloadBytes)
      then Some(PayloadAddressMismatch(h.content(e.payloadBytes), e.payloadAddress))
    else if e.previousAddress != Head(before) then Some(PreviousAddressMismatch(Head(before), e.previousAddress))
    else var expected := Address(h, e.event, e.payloadAddress, Head(before));
      if expected == Ok(e.entryAddress) then None
      else Some(EntryAddressMismatch(if expected.Ok? then Some(expected.value) else None, e.entryAddress))
  }

  ghost predicate WellChained(h: Hasher, entries: seq<Entry>) {
    forall k | 0 <= k < |entries| :: Fault(h, entries[..k], entries[k]).None?
  }

  predicate HeadMeets(entries: seq<Entry>, expectation: HeadExpectation) {
    expectation.Exact? ==> Head(entries) == expectation.head
  }

  ghost predicate FailsAt(h: Hasher, entries: seq<Entry>, expectation: HeadExpectation, e: VerificationError) {
    if e.entriesChecked < |entries| then
      var k := e.entriesChecked;
      WellChained(h, entries[..k])
      && Fault(h, entries[..k], entries[k]) == Some(e.kind)
      && e.eventId == Some(entries[k].event.id) && e.cursor == entries[k].event.cursor
    else
      e.entriesChecked == |entries| && WellChained(h, entries)
      && expectation.Exact? && Head(entries) != expectation.head
      && e.kind == ExpectedHeadMismatch(expectation.head, Head(entries))
      && e.cursor == LastCursor(entries)
      && e.eventId == if entries == [] then None else Some(entries[|entries| - 1].event.id)
  }

  /** Accepts exactly the well-chained journals with the expected head, and otherwise names the first divergence. */
  method Verify(h: Hasher, entries: seq<Entry>, expectation: HeadExpectation)
    returns (r: Result<Report, VerificationError>)
    ensures r.Ok? <==> WellChained(h, entries) && HeadMeets(entries, expectation)
    ensures r.Ok? ==> r.value == Report(|entries|, Head(entries))
    ensures r.Err? ==> FailsAt(h, entries, expectation, r.error)
  {
    var previousAddress: Option<Hash>, previousCursor: Option<u64> := None, None;
    var seenIds: set<string>, seenKeys: set<string> := {}, {};
    for k := 0 to |entries|
      invariant WellChained(h, entries[..k])
      invariant previousAddress == Head(entries[..k]) && previousCursor == LastCursor(entries[..k])
      invariant forall id :: id in seenIds <==> SeenId(entries[..k], id)
      invariant forall key :: key in seenKeys <==> SeenKey(entries[..k], key)
    {
      var entry := entries[k];
      var fault := CheckEntry(h, entries[..k], entry, previousAddress, previousCursor, seenIds, seenKeys);
      if fault.Some? {
        r := Err(VerificationError(k, Some(entry.event.id), entry.event.cursor, fault.value));
        return;
      }
      WellChainedSnoc(h, entries, k);
      SeenSnoc(entries, k);
      seenIds := seenIds + {entry.event.id};
      if entry.event.idempotencyKey.Some? { seenKeys := seenKeys + {entry.event.idempotencyKey.value}; }
      previousAddress, previousCursor := Some(entry.entryAddress), entry.event.cursor;
    }
    assert entries[..|entries|] == entries;
    if expectation.Exact? && previousAddress != expectation.head {
      var last := if entries == [] then None else Some(entries[|entries| - 1].event.id);
      return Err(VerificationError(|entries|, last, previousCursor,
                                   ExpectedHeadMismatch(expectation.head, previousAddress)));
    }
    r := Ok(Report(|entries|, previousAddress));
  }

  /** The body of the verifier's loop. */
  method CheckEntry(h: Hasher, ghost before: seq<Entry>, entry: Entry, previousAddress: Option<Hash>,
                    previousCursor: Option<u64>, seenIds: set<string>, seenKeys: set<string>)
    returns (fault: Option<Divergence>)
    requires previousAddress == Head(before) && previousCursor == LastCursor(before)
    requires forall id :: id in seenIds <==> SeenId(before, id)
    requires forall key :: key in seenKeys <==> SeenKey(before, key)
    ensures fault == Fault(h, before, entry)
  {
    var event := entry.event;
    if !CursorFollows(previousCursor, event.cursor) { return Some(CursorOrder(previousCursor, event.cursor)); }
    if event.id in seenIds { return Some(DuplicateId); }
    if event.idempotencyKey.Some? && event.idempotencyKey.value in seenKeys {
      return Some(DuplicateIdempotencyKey(event.idempotencyKey.value));
    }
    var payload := CanonicalJson(Object(event.payload));
    if payload != Ok(entry.payloadBytes) { return Some(PayloadBytes); }
    var expectedPayload := h.content(payload.value);
    if entry.payloadAddress != expectedPayload {
      return Some(PayloadAddressMismatch(expectedPayload, entry.payloadAddress));
    }
    if entry.previousAddress != previousAddress {
      return Some(PreviousAddressMismatch(previousAddress, entry.previousAddress));
    }
    var expected := EntryAddress(h, event, expectedPayload, previousAddress);
    if expected != Ok(entry.entryAddress) {
      return Some(EntryAddressMismatch(if expected.Ok? then Some(expected.value) else None, entry.entryAddress));
    }
    fault := None;
  }

  lemma WellChainedSnoc(h: Hasher, entries: seq<Entry>, k: nat)
    requires k < |entries| && WellChained(h, entries[..k]) && Fault(h, entries[..k], entries[k]).None?
    ensures WellChained(h, entries[..k + 1])
  {
    var longer := entries[..k + 1];
    forall j | 0 <= j < |longer| ensures Fault(h, longer[..j], longer[j]).None? {
      assert longer[..j] == entries[..k][..j] || j == k;
      assert j == k ==> longer[..j] == entries[..k];
    }
  }

  lemma WellChainedPrefix(h: Hasher, entries: seq<Entry>, n: nat)
    requires WellChained(h, entries) && n <= |entries|
    ensures WellChained(h, entries[..n])
  {
    forall j | 0 <= j < n ensures Fault(h, entries[..n][..j], entries[..n][j]).None? {
      assert entries[..n][..j] == entries[..j];
    }
  }

  lemma SeenSnoc(entries: seq<Entry>, k: nat)
    requires k < |entries|
    ensures forall id :: SeenId(entries[..k + 1], id) <==> SeenId(entries[..k], id) || id == entries[k].event.id
    ensures forall key :: SeenKey(entries[..k + 1], key)
                          <==> SeenKey(entries[..k], key) || entries[k].event.idempotencyKey == Some(key)
  {
    var before, after := entries[..k], entries[..k + 1];
    assert after[k] == entries[k] && forall j | 0 <= j < k :: after[j] == before[j];
    forall id ensures SeenId(after, id) <==> SeenId(before, id) || id == entries[k].event.id {
      if SeenId(before, id) { var j :| 0 <= j < |before| && before[j].event.id == id; assert after[j].event.id == id; }
    }
    forall key ensures SeenKey(after, key) <==> SeenKey(before, key) || entries[k].event.idempotencyKey == Some(key) {
      if SeenKey(before, key) {
        var j :| 0 <= j < |before| && before[j].event.idempotencyKey == Some(key);
        assert after[j].event.idempotencyKey == Some(key);
      }
    }
  }

  // --------------------------------------------------------- tamper evidence

  /** Equal in everything an entry records except the cursor and the spelling of payload floats, which no address
    * commits to. */
  predicate SameRecord(a: Entry, b: Entry) {
    && a == b.(event := b.event.(cursor := a.event.cursor, payload := a.event.payload))
    && Plain(Object(a.event.payload)) == Plain(Object(b.event.payload))
  }

  /** Two entries with one address record the same event after the same predecessor, or expose a collision. */
  lemma SameAddress(h: Hasher, before: seq<Entry>, a: Entry, other: seq<Entry>, b: Entry) returns (c: Option<Collision>)
    requires Fault(h, before, a).None? && Fault(h, other, b).None?
    requires a.entryAddress == b.entryAddress
    ensures c.None? ==> SameRecord(a, b) && Head(before) == Head(other)
    ensures c.Some? ==> IsCollision(h, c.value)
  {
    var v, w := ChainValue(a.event, a.payloadAddress, Head(before)), ChainValue(b.event, b.payloadAddress, Head(other));
    ChainValueEncodable(a.event, a.payloadAddress, Head(before));
    ChainValueEncodable(b.event, b.payloadAddress, Head(other));
    if Encode(v) != Encode(w) { return Some(ChainCollision(Encode(v), Encode(w))); }
    if a.payloadBytes != b.payloadBytes && a.payloadAddress == b.payloadAddress {
      return Some(ContentCollision(a.payloadBytes, b.payloadBytes));
    }
    EncodeInjective(v, w);
    ChainValuePlain(a.event, a.payloadAddress, Head(before));
    ChainValuePlain(b.event, b.payloadAddress, Head(other));
    ChainValueInjective(a.event, a.payloadAddress, Head(before), b.event, b.payloadAddress, Head(other));
    EncodeInjective(Object(a.event.payload), Object(b.event.payload));
    c := None;
  }

  predicate SameHistory(a: seq<Entry>, b: seq<Entry>) {
    |a| == |b| && forall i | 0 <= i < |a| :: SameRecord(a[i], b[i])
  }

  lemma SameHistorySnoc(a: seq<Entry>, b: seq<Entry>)
    requires a != [] && b != [] && SameRecord(a[|a| - 1], b[|b| - 1])
    requires SameHistory(a[..|a| - 1], b[..|b| - 1])
    ensures SameHistory(a, b)
  {
    var m := |a| - 1;
    assert forall i | 0 <= i < m :: a[..m][i] == a[i] && b[..m][i] == b[i];
  }

  /** Two journals that verify against one head hold the same history, or a hash collision can be exhibited. */
  lemma {:induction false} TamperEvident(h: Hasher, a: seq<Entry>, b: seq<Entry>) returns (c: Option<Collision>)
    requires WellChained(h, a) && WellChained(h, b) && Head(a) == Head(b)
    ensures c.None? ==> SameHistory(a, b)
    ensures c.Some? ==> IsCollision(h, c.value)
  {
    if a == [] { return None; }
    var m, n := |a| - 1, |b| - 1;
    c := SameAddress(h, a[..m], a[m], b[..n], b[n]);
    if c.None? {
      WellChainedPrefix(h, a, m);
      WellChainedPrefix(h, b, n);
      c := TamperEvident(h, a[..m], b[..n]);
      if c.None? { SameHistorySnoc(a, b); }
    }
  }

  predicate CursorsAscend(entries: seq<Entry>) {
    forall k | 0 <= k < |entries| :: CursorFollows(LastCursor(entries[..k]), entries[k].event.cursor)
  }

  /** The evidence is exact: renumbering cursors in order and respelling payload floats are undetectable. */
  lemma SameHistoryUndetected(h: Hasher, a: seq<Entry>, b: seq<Entry>)
    requires WellChained(h, a) && SameHistory(a, b) && CursorsAscend(b)
    ensures WellChained(h, b) && Head(b) == Head(a)
  {
    forall k | 0 <= k < |b| ensures Fault(h, b[..k], b[k]).None? {
      assert Fault(h, a[..k], a[k]).None? && CursorFollows(LastCursor(b[..k]), b[k].event.cursor);
      RenumberedAt(h, a, b, k);
    }
    if a != [] { assert SameRecord(a[|a| - 1], b[|b| - 1]); }
  }

  lemma RenumberedAt(h: Hasher, a: seq<Entry>, b: seq<Entry>, k: nat)
    requires SameHistory(a, b) && k < |b| && Fault(h, a[..k], a[k]).None?
    requires CursorFollows(LastCursor(b[..k]), b[k].event.cursor)
    ensures Fault(h, b[..k], b[k]).None?
  {
    SameSeen(a[..k], b[..k]);
    assert SameRecord(a[k], b[k]);
    assert k > 0 ==> SameRecord(a[..k][k - 1], b[..k][k - 1]);
    RenumberedSound(h, a[..k], a[k], b[..k], b[k]);
  }

  lemma RenumberedSound(h: Hasher, before: seq<Entry>, a: Entry, other: seq<Entry>, b: Entry)
    requires Fault(h, before, a).None? && SameRecord(a, b) && Head(before) == Head(other)
    requires CursorFollows(LastCursor(other), b.event.cursor)
    requires SeenId(other, b.event.id) ==> SeenId(before, b.event.id)
    requires b.event.idempotencyKey.Some? && SeenKey(other, b.event.idempotencyKey.value)
             ==> SeenKey(before, b.event.idempotencyKey.value)
    ensures Fault(h, other, b).None?
  {
    assert ChainValue(a.event, a.payloadAddress, Head(before)) == ChainValue(b.event, b.payloadAddress, Head(other));
    RespelledBytes(Object(a.event.payload), Object(b.event.payload));
  }

  lemma RespelledBytes(v: Value, w: Value)
    requires Plain(v) == Plain(w)
    ensures CanonicalBytes(v) == CanonicalBytes(w)
  {
    PlainEncodes(v);
    PlainEncodes(w);
  }

  lemma SameSeen(a: seq<Entry>, b: seq<Entry>)
    requires |a| == |b| && forall i | 0 <= i < |a| :: SameRecord(a[i], b[i])
    ensures forall id :: SeenId(a, id) <==> SeenId(b, id)
    ensures forall key :: SeenKey(a, key) <==> SeenKey(b, key)
  {
    forall i | 0 <= i < |a|
      ensures a[i].event.id == b[i].event.id && a[i].event.idempotencyKey == b[i].event.idempotencyKey
    {
      assert SameRecord(a[i], b[i]);
    }
  }
}
