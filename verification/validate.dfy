/** Initialization values and the parameter rules of the fixed IPC methods. */
module Validate {
  import opened Text
  import opened Json

  const PROTOCOL_VERSION: u64 := 0
  const MAX_INLINE_PAYLOAD_BYTES: nat := 65536

  datatype Role = Source | Client | Provider

  /** A binary64 interval: every finite one is a fraction. */
  datatype Seconds = Finite(numerator: int, denominator: int) | NotFinite

  datatype Identity = Identity(name: string, version: string)

  datatype EventTypeDecl = EventTypeDecl(eventType: string, schema: string)

  datatype InitializeParams = InitializeParams(
    protocolVersions: seq<u64>, peer: Identity, roles: seq<Role>, eventTypes: Option<seq<EventTypeDecl>>,
    methods: Option<seq<string>>, heartbeat: Option<Seconds>, maxInFlight: Option<u64>)

  datatype InitializeResult = InitializeResult(
    protocolVersion: u64, runtime: Identity, roles: seq<Role>, config: map<string, Value>,
    heartbeat: Seconds, maxInFlight: u64)

  /** What the protocol takes from serde: compact sizes and the JSON form of the initialization values. */
  datatype Serde = Serde(
    compactSize: Value -> nat,
    writeParams: InitializeParams -> map<string, Value>,
    readParams: map<string, Value> -> Option<InitializeParams>,
    writeResult: InitializeResult -> Value,
    readResult: Value -> Option<InitializeResult>)

  /** Initialization values survive their JSON form; a heartbeat that is not finite has none and cannot be read back. */
  ghost predicate Lawful(lib: Serde) {
    && (forall p: InitializeParams | p.heartbeat != Some(NotFinite) :: lib.readParams(lib.writeParams(p)) == Some(p))
    && (forall r: InitializeResult ::
          lib.readResult(lib.writeResult(r)) == if r.heartbeat.Finite? then Some(r) else None)
  }

  // ---------------------------------------------------------- initialization

  predicate InRange(s: Seconds) {
    s.Finite? && 0 < s.denominator <= s.numerator <= 300 * s.denominator
  }

  predicate ValidDecls(decls: seq<EventTypeDecl>) {
    && (forall i | 0 <= i < |decls| :: decls[i].eventType != "" && decls[i].schema != "")
    && (forall i, j | 0 <= i < j < |decls| :: decls[i].eventType != decls[j].eventType)
  }

  predicate ValidMethods(methods: seq<string>) {
    && (forall i | 0 <= i < |methods| :: methods[i] != "" && !Reserved(methods[i]))
    && Distinct(methods)
  }

  predicate ValidParams(p: InitializeParams) {
    && p.protocolVersions != [] && Distinct(p.protocolVersions)
    && p.peer.name != "" && p.peer.version != ""
    && p.roles != [] && Distinct(p.roles)
    && (p.eventTypes.Some? <==> Source in p.roles) && (p.eventTypes.Some? ==> ValidDecls(p.eventTypes.value))
    && (p.methods.Some? <==> Provider in p.roles) && (p.methods.Some? ==> ValidMethods(p.methods.value))
    && (p.heartbeat.Some? ==> InRange(p.heartbeat.value))
    && (p.maxInFlight.Some? ==> 1 <= p.maxInFlight.value <= 1024)
  }

  predicate ValidResult(r: InitializeResult, expected: seq<Role>) {
    && r.protocolVersion == PROTOCOL_VERSION
    && r.runtime.name != "" && r.runtime.version != ""
    && Distinct(r.roles) && |r.roles| == |expected|
    && (forall i | 0 <= i < |expected| :: expected[i] in r.roles)
    && InRange(r.heartbeat)
    && 1 <= r.maxInFlight <= 1024
  }

  /** A loop over a growing set decides distinctness. */
  method IsDistinct<T(==)>(s: seq<T>) returns (b: bool)
    ensures b <==> Distinct(s)
  {
    var seen: set<T> := {};
    for i := 0 to |s|
      invariant seen == set k | 0 <= k < i :: s[k]
      invariant Distinct(s[..i])
    {
      if s[i] in seen {
        assert exists k :: 0 <= k < i && s[k] == s[i];
        return false;
      }
      seen := seen + {s[i]};
      assert forall k | 0 <= k < i :: s[..i + 1][k] == s[..i][k] && s[k] in seen;
    }
    assert s[..|s|] == s;
    b := true;
  }

  predicate Reserved(verb: string) {
    || verb == "initialize" || verb == "event" || verb == "ping" || verb == "shutdown"
    || verb == "agents.list" || verb == "project.reload" || verb == "runtime.status"
    || "events." <= verb || "session." <= verb || "rpc." <= verb
  }

  // -------------------------------------------------------------- parameters

  predicate KeysWithin(params: map<string, Value>, allowed: seq<string>, required: seq<string>) {
    (forall k | k in params :: k in allowed) && (forall k | k in required :: k in params)
  }

  predicate RequiredString(params: map<string, Value>, field: string) {
    field in params && params[field].String? && params[field].s != ""
  }

  predicate OptionalString(params: map<string, Value>, field: string) {
    field in params ==> params[field].Null? || RequiredString(params, field)
  }

  predicate OptionalStrings(params: map<string, Value>, fields: seq<string>) {
    forall f | f in fields :: OptionalString(params, f)
  }

  predicate ValidPublish(lib: Serde, params: map<string, Value>) {
    && KeysWithin(params, ["type", "payload", "idempotency_key", "caused_by", "session_id", "run_id", "turn_id"],
                  ["type", "payload"])
    && RequiredString(params, "type")
    && "payload" in params && params["payload"].Object?
    && lib.compactSize(params["payload"]) <= MAX_INLINE_PAYLOAD_BYTES
    && OptionalStrings(params, ["idempotency_key", "caused_by", "session_id", "run_id", "turn_id"])
  }

  predicate ValidEventsList(params: map<string, Value>) {
    && KeysWithin(params, ["event_type", "event_type_prefix", "session_id", "run_id", "turn_id", "caused_by",
                           "after_cursor", "limit", "newest_first"], [])
    && OptionalStrings(params, ["event_type", "event_type_prefix", "session_id", "run_id", "turn_id", "caused_by"])
    && ("after_cursor" in params ==> AsU64(params["after_cursor"]).Some?)
    && ("limit" in params ==> AsU64(params["limit"]).Some?)
    && ("newest_first" in params ==> params["newest_first"].Bool?)
  }

  /** Every failure of this check carries the code INVALID_PARAMS. */
  predicate ValidFixed(lib: Serde, verb: string, params: map<string, Value>) {
    if verb == "events.publish" then ValidPublish(lib, params)
    else if verb == "events.list" then ValidEventsList(params)
    else if verb in ["agents.list", "project.reload", "runtime.status", "session.list", "ping"] then
      KeysWithin(params, [], [])
    else if verb == "session.start" then
      KeysWithin(params, ["message", "idempotency_key"], ["message"])
      && RequiredString(params, "message") && OptionalString(params, "idempotency_key")
    else if verb == "session.send" then
      KeysWithin(params, ["session_id", "message", "idempotency_key"], ["session_id", "message"])
      && RequiredString(params, "session_id") && RequiredString(params, "message")
      && OptionalString(params, "idempotency_key")
    else if verb == "session.status" then
      KeysWithin(params, ["session_id"], ["session_id"]) && RequiredString(params, "session_id")
    else if verb == "session.cancel" then
      KeysWithin(params, ["run_id", "session_id", "reason"], ["run_id"])
      && RequiredString(params, "run_id") && OptionalString(params, "session_id") && OptionalString(params, "reason")
    else if verb == "shutdown" then KeysWithin(params, ["reason"], []) && OptionalString(params, "reason")
    else verb != "initialize" && verb != "event"
  }

  predicate ValidDirect(params: map<string, Value>) {
    && KeysWithin(params, ["input", "base_dir", "effect_key"], ["input"])
    && "input" in params && params["input"].Object?
    && OptionalString(params, "base_dir") && OptionalString(params, "effect_key")
  }

  predicate ValidEventNotification(params: map<string, Value>) {
    KeysWithin(params, ["event"], ["event"]) && "event" in params && ValidDurableEvent(params["event"])
  }

  predicate ValidDurableEvent(v: Value) {
    v.Object? && var e := v.fields;
    && (forall f | f in ["id", "type", "source"] :: RequiredString(e, f))
    && "payload" in e && e["payload"].Object?
    && (forall f | f in ["idempotency_key", "caused_by", "session_id", "run_id", "turn_id"] ::
          f in e && OptionalString(e, f))
    && (forall f | f in ["timestamp_ms", "cursor"] :: f in e && AsU64(e[f]).Some?)
  }
}
