/** The session object: methods that update its tables in place and keep its books balanced against any remote. */
module Endpoints {
  import opened Text
  import opened Json
  import opened Messages
  import opened Validate
  import opened Sessions
  import opened Ledgers

  /** The books after a message: a request handed to the application is handled, a response to a pending request is
    * consumed. */
  ghost function Booked(s: Session, l: Ledger, m: Message, actions: seq<Action>): Ledger {
    if m.Request? then (if actions == [HandleRequest(m)] then l.(handled := l.handled + 1) else l)
    else if Consumes(s, Ledgers.Heard(m)) then l.(consumed := l.consumed + 1)
    else l
  }

  class Endpoint {
    const lib: Serde
    const side: Side
    const runtimeConfig: Option<RuntimeConfig>
    const direction: Direction
    var phase: Phase
    var peerParams: Option<InitializeParams>
    var initializeResult: Option<InitializeResult>
    var incoming: map<RequestId, string>
    var outgoing: map<RequestId, string>
    var maxInFlight: u64
    var activity: bool
    var missed: byte
    ghost var ledger: Ledger

    function View(): Session
      reads this
    {
      Session(side, phase, peerParams, runtimeConfig, initializeResult, direction, incoming, outgoing, maxInFlight,
              activity, missed)
    }

    /** Handled = answered + being handled, asked = consumed + pending, within the window, and nothing handled too
      * soon. */
    ghost predicate Valid()
      reads this
    {
      Balanced(View(), ledger)
    }

    constructor PeerEnd(lib: Serde, params: InitializeParams, direction: Direction)
      ensures Valid() && ledger == Ledger(0, 0, 0, 0)
      ensures View() == NewPeer(params, direction) && this.lib == lib
    {
      this.lib, side, runtimeConfig, this.direction := lib, Peer, None, direction;
      phase, peerParams, initializeResult := PeerIdle, Some(params), None;
      incoming, outgoing := map[], map[];
      maxInFlight := if params.maxInFlight.Some? then params.maxInFlight.value else 64;
      activity, missed, ledger := false, 0, Ledger(0, 0, 0, 0);
    }

    constructor RuntimeEnd(lib: Serde, config: RuntimeConfig, direction: Direction)
      ensures Valid() && ledger == Ledger(0, 0, 0, 0)
      ensures View() == NewRuntime(config, direction) && this.lib == lib
    {
      this.lib, side, runtimeConfig, this.direction := lib, Runtime, Some(config), direction;
      phase, peerParams, initializeResult := RuntimeAwaiting, None, None;
      incoming, outgoing := map[], map[];
      maxInFlight, activity, missed, ledger := config.maxInFlight, false, 0, Ledger(0, 0, 0, 0);
    }

    method Begin(id: RequestId) returns (r: Answer)
      requires Valid()
      modifies this
      ensures Valid() && ledger == if r.Ok? then old(ledger).(asked := old(ledger).asked + 1) else old(ledger)
      ensures (View(), r) == Initialize(lib, old(View()), id)
    {
      if side != Peer || phase != PeerIdle { return Err(INVALID_REQUEST); }
      if peerParams.None? { return Err(INTERNAL_ERROR); }
      if !ValidParams(peerParams.value) { return Err(INVALID_PARAMS); }
      if id in outgoing { return Err(INVALID_REQUEST); }
      AddSize(outgoing, id, "initialize");
      outgoing, ledger := outgoing[id := "initialize"], ledger.(asked := ledger.asked + 1);
      phase := PeerAwaiting;
      r := Ok([Send(Request(id, "initialize", lib.writeParams(peerParams.value)))]);
    }

    method Ask(id: RequestId, verb: string, params: map<string, Value>) returns (r: Answer)
      requires Valid()
      modifies this
      ensures Valid() && ledger == if r.Ok? then old(ledger).(asked := old(ledger).asked + 1) else old(ledger)
      ensures (View(), r) == SendRequest(lib, old(View()), id, verb, params)
      ensures if r.Ok? then id !in old(outgoing) && id in outgoing && |outgoing| <= maxInFlight
              else View() == old(View())
    {
      if phase != Initialized { return Err(INVALID_REQUEST); }
      var fault := OutgoingFault(lib, View(), verb, params);
      if fault.Some? { return Err(fault.value); }
      if id in outgoing { return Err(INVALID_REQUEST); }
      if |outgoing| >= maxInFlight { return Err(SERVER_ERROR); }
      AddSize(outgoing, id, verb);
      outgoing, ledger := outgoing[id := verb], ledger.(asked := ledger.asked + 1);
      r := Ok([Send(Request(id, verb, params))]);
    }

    method Notify(verb: string, params: map<string, Value>) returns (r: Answer)
      ensures r == SendNotification(View(), verb, params)
    {
      if phase != Initialized { return Err(INVALID_REQUEST); }
      if side != Runtime || verb != "event" || !HasRole(peerParams, Client) { return Err(METHOD_NOT_FOUND); }
      if !ValidEventNotification(params) { return Err(INVALID_PARAMS); }
      r := Ok([Send(Notification(verb, params))]);
    }

    method Complete(id: RequestId, result: Value) returns (r: Answer)
      requires Valid()
      modifies this
      ensures Valid() && ledger == if r.Ok? then old(ledger).(answered := old(ledger).answered + 1) else old(ledger)
      ensures (View(), r) == CompleteRequest(old(View()), id, result)
      ensures if r.Ok? then id in old(incoming) && id !in incoming else View() == old(View())
    {
      if id !in incoming { return Err(INVALID_REQUEST); }
      if !result.Object? { return Err(INVALID_REQUEST); }
      RemoveSize(incoming, id);
      incoming, ledger := incoming - {id}, ledger.(answered := ledger.answered + 1);
      r := Ok([Send(Success(id, result))]);
    }

    method Fail(id: RequestId, error: ErrorObject) returns (r: Answer)
      requires Valid()
      modifies this
      ensures Valid() && ledger == if r.Ok? then old(ledger).(answered := old(ledger).answered + 1) else old(ledger)
      ensures (View(), r) == FailRequest(old(View()), id, error)
      ensures if r.Ok? then id in old(incoming) && id !in incoming else View() == old(View())
    {
      if id !in incoming { return Err(INVALID_REQUEST); }
      RemoveSize(incoming, id);
      incoming, ledger := incoming - {id}, ledger.(answered := ledger.answered + 1);
      r := Ok([Send(Error(Some(id), error))]);
    }

    method Tick(pingId: RequestId) returns (actions: seq<Action>)
      requires Valid()
      modifies this
      ensures Valid()
      ensures ledger == if actions != [] && actions[0].Send? then old(ledger).(asked := old(ledger).asked + 1)
                        else old(ledger)
      ensures (View(), actions) == OnTick(lib, old(View()), pingId)
    {
      if phase != Initialized || direction != LocalSupervisesRemote { return []; }
      if activity {
        activity, missed := false, 0;
        return [];
      }
      missed := if missed == 255 then 255 else missed + 1;
      if missed >= 3 {
        phase := Closed;
        return [Close(Some("the peer missed three heartbeat intervals"))];
      }
      var sent := Ask(pingId, "ping", map[]);
      actions := if sent.Ok? then sent.value else [Violation(sent.error)];
    }

    method Hear(m: Message) returns (actions: seq<Action>)
      requires Valid()
      modifies this
      ensures Valid() && ledger == Booked(old(View()), old(ledger), m, actions)
      ensures (View(), actions) == Receive(lib, old(View()), m)
      ensures old(phase) == Closed ==> actions == [] && View() == old(View())
    {
      if phase == Closed { return []; }
      activity, missed := true, 0;
      match m
      case Request(_, _, _) => actions := HearRequest(m);
      case Notification(_, _) => actions := HearNotification(m);
      case Success(_, _) => actions := HearSuccess(m);
      case Error(_, _) => actions := HearError(m);
    }

    method HearRequest(m: Message) returns (actions: seq<Action>)
      requires m.Request?
      requires Valid() && phase != Closed
      modifies this
      ensures Valid() && ledger == Booked(old(View()), old(ledger), m, actions)
      ensures (View(), actions) == ReceiveRequest(lib, old(View()), m)
    {
      if m.verb == "initialize" {
        if side == Runtime && phase == RuntimeAwaiting { actions := HearInitialize(m); return; }
        return Reject(m.id, INVALID_REQUEST, Detail("already_initialized"));
      }
      if phase != Initialized {
        phase := Closed;
        return Reject(m.id, INVALID_REQUEST, Detail("not_initialized"))
               + [Close(Some("traffic before initialization"))];
      }
      if m.id in incoming { return Reject(m.id, INVALID_REQUEST, None); }
      if m.verb == "ping" {
        if !ValidFixed(lib, m.verb, m.params) { return Reject(m.id, INVALID_PARAMS, None); }
        return [Send(Success(m.id, Object(map[])))];
      }
      if m.verb == "shutdown" { actions := HearShutdown(m); return; }
      var fault := IncomingFault(lib, View(), m.verb, m.params);
      if fault.Some? { return Reject(m.id, fault.value, None); }
      if |incoming| >= maxInFlight { return Reject(m.id, SERVER_ERROR, None); }
      AddSize(incoming, m.id, m.verb);
      incoming, ledger := incoming[m.id := m.verb], ledger.(handled := ledger.handled + 1);
      actions := [HandleRequest(m)];
    }

    method HearInitialize(m: Message) returns (actions: seq<Action>)
      requires m.Request?
      requires Valid() && phase == RuntimeAwaiting
      modifies this
      ensures Valid() && ledger == old(ledger)
      ensures (View(), actions) == ReceiveInitialize(lib, old(View()), m)
    {
      var params := lib.readParams(m.params);
      if params.None? || !ValidParams(params.value) {
        phase := Closed;
        return Reject(m.id, INVALID_PARAMS, None) + [FAILED];
      }
      if PROTOCOL_VERSION !in params.value.protocolVersions {
        phase := Closed;
        return [Send(Error(Some(m.id), ErrorObject(SERVER_ERROR, "",
          Some(Object(map["code" := String("unsupported_version"), "retryable" := Bool(false)]))))), FAILED];
      }
      if runtimeConfig.None? {
        phase := Closed;
        return Reject(m.id, INTERNAL_ERROR, None);
      }
      var config, roles := runtimeConfig.value, params.value.roles;
      for i := 0 to |roles|
        invariant View() == old(View())
        invariant forall j | 0 <= j < i :: roles[j] in config.supportedRoles
      {
        if roles[i] !in config.supportedRoles {
          phase := Closed;
          return Reject(m.id, INVALID_PARAMS, None) + [FAILED];
        }
      }
      var requested := if params.value.maxInFlight.Some? then params.value.maxInFlight.value else config.maxInFlight;
      var limit := if requested < config.maxInFlight then requested else config.maxInFlight;
      var heartbeat := if params.value.heartbeat.Some? then params.value.heartbeat.value else config.heartbeat;
      var result := InitializeResult(PROTOCOL_VERSION, config.runtime, roles, config.config, heartbeat, limit);
      peerParams, initializeResult, maxInFlight := params, Some(result), limit;
      phase, activity := Initialized, false;
      actions := [Send(Success(m.id, lib.writeResult(result)))];
    }

    method HearShutdown(m: Message) returns (actions: seq<Action>)
      requires m.Request?
      requires Valid()
      modifies this
      ensures Valid() && ledger == old(ledger)
      ensures (View(), actions) == ReceiveShutdown(lib, old(View()), m)
    {
      if direction != RemoteSupervisesLocal { return Reject(m.id, METHOD_NOT_FOUND, None); }
      if !ValidFixed(lib, m.verb, m.params) { return Reject(m.id, INVALID_PARAMS, None); }
      phase := Closed;
      actions := [Send(Success(m.id, Object(map[]))), Close(AsStr(Get(m.params, "reason")))];
    }

    method HearNotification(m: Message) returns (actions: seq<Action>)
      requires m.Notification?
      requires Valid() && phase != Closed
      modifies this
      ensures Valid() && ledger == Booked(old(View()), old(ledger), m, actions)
      ensures (View(), actions) == ReceiveNotification(old(View()), m)
    {
      if phase != Initialized {
        phase := Closed;
        return [Violation(INVALID_REQUEST), Close(Some("traffic before initialization"))];
      }
      if side == Peer && HasRole(peerParams, Client) && m.verb == "event" {
        return [if ValidEventNotification(m.params) then HandleNotification(m) else Violation(INVALID_PARAMS)];
      }
      if side == Runtime && HasRole(peerParams, Provider) && m.verb
              == "model.observation" { return [HandleNotification(m)]; }
      actions := [Violation(METHOD_NOT_FOUND)];
    }

    method HearSuccess(m: Message) returns (actions: seq<Action>)
      requires m.Success?
      requires Valid() && phase != Closed
      modifies this
      ensures Valid() && ledger == Booked(old(View()), old(ledger), m, actions)
      ensures (View(), actions) == ReceiveSuccess(lib, old(View()), m)
    {
      if m.id !in outgoing { return [Violation(INVALID_REQUEST)]; }
      var verb := outgoing[m.id];
      RemoveSize(outgoing, m.id);
      outgoing, ledger := outgoing - {m.id}, ledger.(consumed := ledger.consumed + 1);
      if verb == "initialize" { actions := HearInitialized(m); return; }
      if !m.result.Object? { return [Violation(INVALID_REQUEST)]; }
      actions := [Resolved(m.id, verb, Returned(m.result))];
    }

    method HearInitialized(m: Message) returns (actions: seq<Action>)
      requires m.Success?
      requires Valid()
      modifies this
      ensures Valid() && ledger == old(ledger)
      ensures (View(), actions) == ReceiveInitialized(lib, old(View()), m)
    {
      if side != Peer || phase != PeerAwaiting {
        phase := Closed;
        return [Violation(INVALID_REQUEST), FAILED];
      }
      var result := lib.readResult(m.result);
      if result.None? {
        phase := Closed;
        return [Violation(INVALID_REQUEST), FAILED];
      }
      if peerParams.None? {
        phase := Closed;
        return [Violation(INTERNAL_ERROR), FAILED];
      }
      if !ValidResult(result.value, peerParams.value.roles) {
        phase := Closed;
        return [Violation(INVALID_REQUEST), FAILED];
      }
      maxInFlight, initializeResult := result.value.maxInFlight, result;
      phase, activity := Initialized, false;
      actions := [Resolved(m.id, "initialize", Returned(m.result))];
    }

    method HearError(m: Message) returns (actions: seq<Action>)
      requires m.Error?
      requires Valid() && phase != Closed
      modifies this
      ensures Valid() && ledger == Booked(old(View()), old(ledger), m, actions)
      ensures (View(), actions) == ReceiveError(old(View()), m)
    {
      if m.target.None? || m.target.value !in outgoing { return [Violation(INVALID_REQUEST)]; }
      var id := m.target.value;
      var verb := outgoing[id];
      RemoveSize(outgoing, id);
      outgoing, ledger := outgoing - {id}, ledger.(consumed := ledger.consumed + 1);
      actions := [Resolved(id, verb, Failed(m.error))];
      if verb == "initialize" {
        phase := Closed;
        actions := actions + [FAILED];
        assert actions == [Resolved(id, verb, Failed(m.error)), FAILED];
      }
    }
  }
}
