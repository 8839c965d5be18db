/** One end of an IPC connection: initialization, role gates, correlation, flow window and heartbeats. */
module Sessions {
  import opened Text
  import opened Json
  import opened Messages
  import opened Validate

  datatype Direction = LocalSupervisesRemote | RemoteSupervisesLocal | Disabled

  datatype RuntimeConfig = RuntimeConfig(
    runtime: Identity, config: map<string, Value>, supportedRoles: seq<Role>, heartbeat: Seconds, maxInFlight: u64)

  datatype Outcome = Returned(value: Value) | Failed(error: ErrorObject)

  datatype Action =
    | Send(message: Message)
    | HandleRequest(request: Message)
    | HandleNotification(notification: Message)
    | Resolved(id: RequestId, verb: string, outcome: Outcome)
    | Violation(code: i64)
    | Close(reason: Option<string>)

  datatype Side = Peer | Runtime

  datatype Phase = PeerIdle | PeerAwaiting | RuntimeAwaiting | Initialized | Closed

  datatype Session = Session(
    side: Side, phase: Phase, peerParams: Option<InitializeParams>, runtimeConfig: Option<RuntimeConfig>,
    initializeResult: Option<InitializeResult>, direction: Direction,
    incoming: map<RequestId, string>, outgoing: map<RequestId, string>,
    maxInFlight: u64, activity: bool, missed: byte)

  function NewPeer(params: InitializeParams, direction: Direction): Session {
    Session(Peer, PeerIdle, Some(params), None, None, direction, map[], map[],
            if params.maxInFlight.Some? then params.maxInFlight.value else 64, false, 0)
  }

  function NewRuntime(config: RuntimeConfig, direction: Direction): Session {
    Session(Runtime, RuntimeAwaiting, None, Some(config), None, direction, map[], map[], config.maxInFlight, false, 0)
  }

  // -------------------------------------------------------------- role gates

  predicate HasRole(p: Option<InitializeParams>, role: Role) {
    p.Some? && role in p.value.roles
  }

  predicate Declares(p: Option<InitializeParams>, verb: string) {
    p.Some? && p.value.methods.Some? && verb in p.value.methods.value
  }

  predicate ClientMethod(verb: string) {
    verb in ["events.list", "events.publish", "agents.list", "project.reload", "runtime.status",
             "session.start", "session.send", "session.status", "session.list", "session.cancel"]
  }

  function FixedFault(lib: Serde, verb: string, params: map<string, Value>): Option<i64> {
    if ValidFixed(lib, verb, params) then None else Some(INVALID_PARAMS)
  }

  function DirectFault(params: map<string, Value>): Option<i64> {
    if ValidDirect(params) then None else Some(INVALID_PARAMS)
  }

  /** A source publishes only the event types it declared. */
  function PublishedTypeFault(p: Option<InitializeParams>, params: map<string, Value>): Option<i64> {
    var eventType := AsStr(Get(params, "type"));
    if eventType.None? then Some(INVALID_PARAMS)
    else if p.None? then Some(INTERNAL_ERROR)
    else if p.value.eventTypes.None? then Some(METHOD_NOT_FOUND)
    else if exists i | 0 <= i < |p.value.eventTypes.value| ::
        p.value.eventTypes.value[i].eventType == eventType.value then None
    else Some(METHOD_NOT_FOUND)
  }

  function PeerOutgoingFault(lib: Serde, p: Option<InitializeParams>, verb: string, params: map<string,
                             Value>): Option<i64> {
    if verb == "events.publish" then
      if HasRole(p, Source) then
        if FixedFault(lib, verb, params).Some? then FixedFault(lib, verb, params) else PublishedTypeFault(p, params)
      else if !HasRole(p, Client) then Some(METHOD_NOT_FOUND)
      else FixedFault(lib, verb, params)
    else if ClientMethod(verb) then
      if !HasRole(p, Client) then Some(METHOD_NOT_FOUND) else FixedFault(lib, verb, params)
    else Some(METHOD_NOT_FOUND)
  }

  function RuntimeIncomingFault(lib: Serde, p: Option<InitializeParams>, verb: string, params: map<string,
                                Value>): Option<i64> {
    if verb == "events.publish" then
      if HasRole(p, Source) then
        if FixedFault(lib, verb, params).Some? then FixedFault(lib, verb, params) else PublishedTypeFault(p, params)
      else if !HasRole(p, Client) then Some(METHOD_NOT_FOUND)
      else FixedFault(lib, verb, params)
    else if ClientMethod(verb) then
      if !HasRole(p, Client) then Some(METHOD_NOT_FOUND) else FixedFault(lib, verb, params)
    else Some(METHOD_NOT_FOUND)
  }

  function RuntimeOutgoingFault(p: Option<InitializeParams>, verb: string, params: map<string, Value>): Option<i64> {
    if Reserved(verb) || !Declares(p, verb) then Some(METHOD_NOT_FOUND) else DirectFault(params)
  }

  function PeerIncomingFault(p: Option<InitializeParams>, verb: string, params: map<string, Value>): Option<i64> {
    if !HasRole(p, Provider) || !Declares(p, verb) then Some(METHOD_NOT_FOUND) else DirectFault(params)
  }

  function OutgoingFault(lib: Serde, s: Session, verb: string, params: map<string, Value>): Option<i64> {
    if verb == "ping" then FixedFault(lib, verb, params)
    else if verb == "shutdown" then
      if s.direction != LocalSupervisesRemote then Some(METHOD_NOT_FOUND) else FixedFault(lib, verb, params)
    else if s.side == Peer then PeerOutgoingFault(lib, s.peerParams, verb, params)
    else RuntimeOutgoingFault(s.peerParams, verb, params)
  }

  function IncomingFault(lib: Serde, s: Session, verb: string, params: map<string, Value>): Option<i64> {
    if s.side == Runtime then RuntimeIncomingFault(lib, s.peerParams, verb, params)
    else PeerIncomingFault(s.peerParams, verb, params)
  }

  // ---------------------------------------------------------- specification

  type Answer = Result<seq<Action>, i64>

  function Initialize(lib: Serde, s: Session, id: RequestId): (Session, Answer) {
    if s.side != Peer || s.phase != PeerIdle then (s, Err(INVALID_REQUEST))
    else if s.peerParams.None? then (s, Err(INTERNAL_ERROR))
    else if !ValidParams(s.peerParams.value) then (s, Err(INVALID_PARAMS))
    else if id in s.outgoing then (s, Err(INVALID_REQUEST))
    else (s.(outgoing := s.outgoing[id := "initialize"], phase := PeerAwaiting),
          Ok([Send(Request(id, "initialize", lib.writeParams(s.peerParams.value)))]))
  }

  function SendRequest(lib: Serde, s: Session, id: RequestId, verb: string, params: map<string,
                       Value>): (Session, Answer) {
    if s.phase != Initialized then (s, Err(INVALID_REQUEST))
    else if OutgoingFault(lib, s, verb, params).Some? then (s, Err(OutgoingFault(lib, s, verb, params).value))
    else if id in s.outgoing then (s, Err(INVALID_REQUEST))
    else if |s.outgoing| >= s.maxInFlight then (s, Err(SERVER_ERROR))
    else (s.(outgoing := s.outgoing[id := verb]), Ok([Send(Request(id, verb, params))]))
  }

  function SendNotification(s: Session, verb: string, params: map<string, Value>): Answer {
    if s.phase != Initialized then Err(INVALID_REQUEST)
    else if s.side != Runtime || verb != "event" || !HasRole(s.peerParams, Client) then Err(METHOD_NOT_FOUND)
    else if !ValidEventNotification(params) then Err(INVALID_PARAMS)
    else Ok([Send(Notification(verb, params))])
  }

  function CompleteRequest(s: Session, id: RequestId, result: Value): (Session, Answer) {
    if id !in s.incoming || !result.Object? then (s, Err(INVALID_REQUEST))
    else (s.(incoming := s.incoming - {id}), Ok([Send(Success(id, result))]))
  }

  function FailRequest(s: Session, id: RequestId, error: ErrorObject): (Session, Answer) {
    if id !in s.incoming then (s, Err(INVALID_REQUEST))
    else (s.(incoming := s.incoming - {id}), Ok([Send(Error(Some(id), error))]))
  }

  function OnTick(lib: Serde, s: Session, pingId: RequestId): (Session, seq<Action>) {
    if s.phase != Initialized || s.direction != LocalSupervisesRemote then (s, [])
    else if s.activity then (s.(activity := false, missed := 0), [])
    else
      var t := s.(missed := if s.missed == 255 then 255 else s.missed + 1);
      if t.missed >= 3 then (t.(phase := Closed), [Close(Some("the peer missed three heartbeat intervals"))])
      else match SendRequest(lib, t, pingId, "ping", map[])
        case (u, Ok(actions)) => (u, actions)
        case (u, Err(code)) => (u, [Violation(code)])
  }

  /** The response and the report that refuse a request. Message wording is not modelled. */
  function Reject(id: RequestId, code: i64, data: Option<Value>): seq<Action> {
    [Send(Error(Some(id), ErrorObject(code, "", data))), Violation(code)]
  }

  function Detail(stableCode: string): Option<Value> {
    Some(Object(map["code" := String(stableCode)]))
  }

  function Receive(lib: Serde, s: Session, m: Message): (Session, seq<Action>) {
    if s.phase == Closed then (s, []) else
      var t := s.(activity := true, missed := 0);
      match m
      case Request(_, _, _) => ReceiveRequest(lib, t, m)
      case Notification(_, _) => ReceiveNotification(t, m)
      case Success(_, _) => ReceiveSuccess(lib, t, m)
      case Error(_, _) => ReceiveError(t, m)
  }

  function ReceiveRequest(lib: Serde, s: Session, m: Message): (Session, seq<Action>)
    requires m.Request?
  {
    if m.verb == "initialize" then
      if s.side == Runtime && s.phase == RuntimeAwaiting then ReceiveInitialize(lib, s, m)
      else (s, Reject(m.id, INVALID_REQUEST, Detail("already_initialized")))
    else if s.phase != Initialized then
      (s.(phase := Closed),
       Reject(m.id, INVALID_REQUEST, Detail("not_initialized")) + [Close(Some("traffic before initialization"))])
    else if m.id in s.incoming then (s, Reject(m.id, INVALID_REQUEST, None))
    else if m.verb == "ping" then
      if FixedFault(lib, m.verb, m.params).Some? then (s, Reject(m.id, INVALID_PARAMS, None))
      else (s, [Send(Success(m.id, Object(map[])))])
    else if m.verb == "shutdown" then ReceiveShutdown(lib, s, m)
    else
      var fault := IncomingFault(lib, s, m.verb, m.params);
      if fault.Some? then (s, Reject(m.id, fault.value, None))
      else if |s.incoming| >= s.maxInFlight then (s, Reject(m.id, SERVER_ERROR, None))
      else (s.(incoming := s.incoming[m.id := m.verb]), [HandleRequest(m)])
  }

  const FAILED: Action := Close(Some("initialization failed"))

  function ReceiveInitialize(lib: Serde, s: Session, m: Message): (Session, seq<Action>)
    requires m.Request?
  {
    var p, c := lib.readParams(m.params), s.runtimeConfig;
    if p.None? || !ValidParams(p.value) then (s.(phase := Closed), Reject(m.id, INVALID_PARAMS, None) + [FAILED])
    else if PROTOCOL_VERSION !in p.value.protocolVersions then
      (s.(phase := Closed),
       [Send(Error(Some(m.id), ErrorObject(SERVER_ERROR, "",
          Some(Object(map["code" := String("unsupported_version"), "retryable" := Bool(false)]))))), FAILED])
    else if c.None? then (s.(phase := Closed), Reject(m.id, INTERNAL_ERROR, None))
    else if exists i | 0 <= i < |p.value.roles| :: p.value.roles[i] !in c.value.supportedRoles then
      (s.(phase := Closed), Reject(m.id, INVALID_PARAMS, None) + [FAILED])
    else
      var result := Negotiated(p.value, c.value);
      (s.(peerParams := p, initializeResult := Some(result), maxInFlight := result.maxInFlight,
          phase := Initialized, activity := false),
       [Send(Success(m.id, lib.writeResult(result)))])
  }

  function Negotiated(p: InitializeParams, c: RuntimeConfig): InitializeResult {
    var requested := if p.maxInFlight.Some? then p.maxInFlight.value else c.maxInFlight;
    InitializeResult(PROTOCOL_VERSION, c.runtime, p.roles, c.config,
                     if p.heartbeat.Some? then p.heartbeat.value else c.heartbeat,
                     if requested < c.maxInFlight then requested else c.maxInFlight)
  }

  function ReceiveShutdown(lib: Serde, s: Session, m: Message): (Session, seq<Action>)
    requires m.Request?
  {
    if s.direction != RemoteSupervisesLocal then (s, Reject(m.id, METHOD_NOT_FOUND, None))
    else if FixedFault(lib, m.verb, m.params).Some? then (s, Reject(m.id, INVALID_PARAMS, None))
    else (s.(phase := Closed), [Send(Success(m.id, Object(map[]))), Close(AsStr(Get(m.params, "reason")))])
  }

  function ReceiveNotification(s: Session, m: Message): (Session, seq<Action>)
    requires m.Notification?
  {
    if s.phase != Initialized then
      (s.(phase := Closed), [Violation(INVALID_REQUEST), Close(Some("traffic before initialization"))])
    else if s.side == Peer && HasRole(s.peerParams, Client) && m.verb == "event" then
      (s, [if ValidEventNotification(m.params) then HandleNotification(m) else Violation(INVALID_PARAMS)])
    else if s.side == Runtime && HasRole(s.peerParams, Provider) && m.verb == "model.observation" then
      (s, [HandleNotification(m)])
    else (s, [Violation(METHOD_NOT_FOUND)])
  }

  function ReceiveSuccess(lib: Serde, s: Session, m: Message): (Session, seq<Action>)
    requires m.Success?
  {
    if m.id !in s.outgoing then (s, [Violation(INVALID_REQUEST)])
    else
      var verb, t := s.outgoing[m.id], s.(outgoing := s.outgoing - {m.id});
      if verb == "initialize" then ReceiveInitialized(lib, t, m)
      else if !m.result.Object? then (t, [Violation(INVALID_REQUEST)])
      else (t, [Resolved(m.id, verb, Returned(m.result))])
  }

  function ReceiveInitialized(lib: Serde, s: Session, m: Message): (Session, seq<Action>)
    requires m.Success?
  {
    var r := lib.readResult(m.result);
    if s.side != Peer || s.phase != PeerAwaiting then (s.(phase := Closed), [Violation(INVALID_REQUEST), FAILED])
    else if r.None? then (s.(phase := Closed), [Violation(INVALID_REQUEST), FAILED])
    else if s.peerParams.None? then (s.(phase := Closed), [Violation(INTERNAL_ERROR), FAILED])
    else if !ValidResult(r.value, s.peerParams.value.roles) then
      (s.(phase := Closed), [Violation(INVALID_REQUEST), FAILED])
    else (s.(maxInFlight := r.value.maxInFlight, initializeResult := r, phase := Initialized, activity := false),
          [Resolved(m.id, "initialize", Returned(m.result))])
  }

  function ReceiveError(s: Session, m: Message): (Session, seq<Action>)
    requires m.Error?
  {
    if m.target.None? || m.target.value !in s.outgoing then (s, [Violation(INVALID_REQUEST)])
    else
      var id := m.target.value;
      var verb, t := s.outgoing[id], s.(outgoing := s.outgoing - {id});
      if verb == "initialize" then (t.(phase := Closed), [Resolved(id, verb, Failed(m.error)), FAILED])
      else (t, [Resolved(id, verb, Failed(m.error))])
  }
}
