/** What one end keeps to against any remote: the terms it agreed to, the roles it admits, and its heartbeat. */
module SessionTerms {
  import opened Text
  import opened Json
  import opened Messages
  import opened Validate
  import opened Sessions
  import opened Links
  import opened Ledgers

  function Ran(lib: Serde, s: Session, hs: seq<Happening>): Session {
    if hs == [] then s else Happen(lib, Ran(lib, s, hs[..|hs| - 1]), hs[|hs| - 1]).0
  }

  // -------------------------------------------------------------------- terms

  /** The runtime takes over the peer's roles, all of which it supports, its own version and configuration, the peer's
    * heartbeat or else its own, and the smaller window. */
  predicate Terms(p: InitializeParams, c: RuntimeConfig, r: InitializeResult) {
    && ValidParams(p) && 0 in p.protocolVersions && r.protocolVersion == 0
    && r.roles == p.roles && (forall role | role in p.roles :: role in c.supportedRoles)
    && r.runtime == c.runtime && r.config == c.config
    && (p.heartbeat.Some? ==> r.heartbeat == p.heartbeat.value) && (p.heartbeat.None? ==> r.heartbeat == c.heartbeat)
    && r.maxInFlight <= c.maxInFlight && (p.maxInFlight.Some? ==> r.maxInFlight <= p.maxInFlight.value)
    && (r.maxInFlight == c.maxInFlight || Some(r.maxInFlight) == p.maxInFlight)
  }

  /** No initialization is pending. */
  ghost predicate Past(s: Session) {
    forall id | id in s.outgoing :: s.outgoing[id] != "initialize"
  }

  ghost predicate Greeting(s: Session) {
    forall id | id in s.outgoing :: s.outgoing[id] == "initialize"
  }

  ghost predicate Answering(s: Session, c: RuntimeConfig, direction: Direction) {
    && s.side == Runtime && s.runtimeConfig == Some(c) && s.direction == direction
    && s.phase in {RuntimeAwaiting, Initialized, Closed}
    && (s.phase == Initialized ==>
          && s.peerParams.Some? && s.initializeResult.Some? && Terms(s.peerParams.value, c, s.initializeResult.value)
          && s.maxInFlight == s.initializeResult.value.maxInFlight)
    && Past(s)
  }

  ghost predicate Calling(s: Session, p: InitializeParams, direction: Direction) {
    && s.side == Peer && s.peerParams == Some(p) && s.direction == direction
    && s.phase in {PeerIdle, PeerAwaiting, Initialized, Closed}
    && (s.phase == PeerIdle ==> s.outgoing == map[])
    && (s.phase == PeerAwaiting ==> ValidParams(p) && |s.outgoing| == 1 && Greeting(s))
    && (s.phase == Initialized ==>
          && ValidParams(p) && s.initializeResult.Some? && ValidResult(s.initializeResult.value, p.roles)
          && s.maxInFlight == s.initializeResult.value.maxInFlight && Past(s))
  }

  lemma VerbsAsked(lib: Serde, s: Session, id: RequestId, verb: string, params: map<string, Value>)
    requires SendRequest(lib, s, id, verb, params).1.Ok?
    ensures verb != "initialize"
  {
  }

  lemma Performs(lib: Serde, s: Session, c: Call)
    requires Past(s)
    ensures var t := Perform(lib, s, c).0;
      && Past(t) && t.side == s.side && t.peerParams == s.peerParams && t.runtimeConfig == s.runtimeConfig
      && t.direction == s.direction && t.initializeResult == s.initializeResult && t.maxInFlight == s.maxInFlight
      && (t.phase == s.phase || (s.phase == Initialized && t.phase == Closed))
  {
    match c
    case CallSend(id, verb, params) =>
      if SendRequest(lib, s, id, verb, params).1.Ok? { VerbsAsked(lib, s, id, verb, params); }
    case CallTick(id) => Ticks(lib, s, id);
    case _ =>
  }

  lemma Ticks(lib: Serde, s: Session, id: RequestId)
    requires Past(s)
    ensures var t := OnTick(lib, s, id).0;
      && Past(t) && t == s.(phase := t.phase, outgoing := t.outgoing, activity := t.activity, missed := t.missed)
      && (t.phase == s.phase || (s.phase == Initialized && t.phase == Closed))
  {
  }

  lemma AnsweringStep(lib: Serde, s: Session, c: RuntimeConfig, direction: Direction, h: Happening)
    requires Answering(s, c, direction)
    ensures Answering(Happen(lib, s, h).0, c, direction)
  {
    match h
    case Began(_) =>
    case Asked(call) => Performs(lib, s, call);
    case Heard(m) => AnsweringHears(lib, s, c, direction, m);
  }

  lemma AnsweringHears(lib: Serde, s: Session, c: RuntimeConfig, direction: Direction, m: Message)
    requires Answering(s, c, direction)
    ensures Answering(Receive(lib, s, m).0, c, direction)
  {
    if s.phase != Closed && m.Request? && m.verb == "initialize" && s.phase == RuntimeAwaiting {
      AnsweringStarts(lib, s.(activity := true, missed := 0), c, direction, m);
    }
  }

  lemma AnsweringStarts(lib: Serde, s: Session, c: RuntimeConfig, direction: Direction, m: Message)
    requires Answering(s, c, direction) && m.Request?
    ensures Answering(ReceiveInitialize(lib, s, m).0, c, direction)
  {
    var p := lib.readParams(m.params);
    if p.Some? && ReceiveInitialize(lib, s, m).0.phase == Initialized {
      assert forall role | role in p.value.roles :: role in c.supportedRoles;
    }
  }

  /** Before initialization no call does anything but answer. */
  lemma WaitsStill(lib: Serde, s: Session, c: Call)
    requires s.phase != Initialized
    ensures Perform(lib, s, c).0 == s.(incoming := Perform(lib, s, c).0.incoming)
  {
  }

  lemma CallingStep(lib: Serde, s: Session, p: InitializeParams, direction: Direction, h: Happening)
    requires Calling(s, p, direction)
    ensures Calling(Happen(lib, s, h).0, p, direction)
  {
    match h
    case Began(id) =>
      if s.phase == PeerIdle && Initialize(lib, s, id).1.Ok? { AddSize(s.outgoing, id, "initialize"); }
    case Asked(call) => if s.phase == Initialized { Performs(lib, s, call); } else { WaitsStill(lib, s, call); }
    case Heard(m) =>
      if s.phase == Closed { assert Receive(lib, s, m).0 == s; } else { CallingHears(lib, s, p, direction, m); }
  }

  lemma OnlyOne(m: map<RequestId, string>, id: RequestId)
    requires |m| == 1 && id in m
    ensures m - {id} == map[]
  {
    RemoveSize(m, id);
    assert |m - {id}| == 0;
  }

  lemma CallingHears(lib: Serde, s: Session, p: InitializeParams, direction: Direction, m: Message)
    requires Calling(s, p, direction) && s.phase != Closed
    ensures Calling(Receive(lib, s, m).0, p, direction)
  {
    var t := s.(activity := true, missed := 0);
    match m
    case Request(_, _, _) => CallingAsked(lib, t, p, direction, m);
    case Notification(_, _) => CallingAsked(lib, t, p, direction, m);
    case Success(id, _) =>
      if id in s.outgoing && s.phase == PeerAwaiting { OnlyOne(s.outgoing, id); }
      CallingSuccess(lib, t, p, direction, m);
    case Error(_, _) => CallingError(t, p, direction, m);
  }

  /** Requests and notifications leave the tables of pending requests and the terms alone. */
  lemma CallingAsked(lib: Serde, s: Session, p: InitializeParams, direction: Direction, m: Message)
    requires Calling(s, p, direction) && (m.Request? || m.Notification?)
    ensures Calling(if m.Request? then ReceiveRequest(lib, s, m).0 else ReceiveNotification(s, m).0, p, direction)
  {
    var t := if m.Request? then ReceiveRequest(lib, s, m).0 else ReceiveNotification(s, m).0;
    assert t == s.(phase := t.phase, incoming := t.incoming) && (t.phase == s.phase || t.phase == Closed);
  }

  lemma CallingError(s: Session, p: InitializeParams, direction: Direction, m: Message)
    requires Calling(s, p, direction) && m.Error?
    ensures Calling(ReceiveError(s, m).0, p, direction)
  {
  }

  lemma CallingSuccess(lib: Serde, s: Session, p: InitializeParams, direction: Direction, m: Message)
    requires Calling(s, p, direction) && s.phase != Closed && m.Success?
    requires m.id in s.outgoing && s.phase == PeerAwaiting ==> s.outgoing - {m.id} == map[]
    ensures Calling(ReceiveSuccess(lib, s, m).0, p, direction)
  {
  }

  /** Against any remote, an initialized runtime runs on terms it agreed to, within the smaller window. */
  lemma {:induction false} RuntimeTerms(lib: Serde, c: RuntimeConfig, direction: Direction, hs: seq<Happening>)
    ensures Answering(Ran(lib, NewRuntime(c, direction), hs), c, direction)
  {
    if hs != [] {
      var n := |hs| - 1;
      RuntimeTerms(lib, c, direction, hs[..n]);
      AnsweringStep(lib, Ran(lib, NewRuntime(c, direction), hs[..n]), c, direction, hs[n]);
    }
  }

  /** Against any remote, an initialized peer runs within the window of a valid result for its own roles. */
  lemma {:induction false} PeerTerms(lib: Serde, p: InitializeParams, direction: Direction, hs: seq<Happening>)
    ensures Calling(Ran(lib, NewPeer(p, direction), hs), p, direction)
  {
    if hs != [] {
      var n := |hs| - 1;
      PeerTerms(lib, p, direction, hs[..n]);
      CallingStep(lib, Ran(lib, NewPeer(p, direction), hs[..n]), p, direction, hs[n]);
    }
  }

  // -------------------------------------------------------------------- roles

  /** What each role of a peer may ask of the runtime, and the runtime of a peer. */
  predicate Entitled(side: Side, p: InitializeParams, m: Message)
    requires m.Request?
  {
    match side
    case Runtime =>
      if m.verb == "events.publish" then
        if Source in p.roles then DeclaresType(p, m.params) else Client in p.roles
      else
        && Client in p.roles
        && (|| m.verb == "events.list" || m.verb == "agents.list" || m.verb == "project.reload"
            || m.verb == "runtime.status" || m.verb == "session.start" || m.verb == "session.send"
            || m.verb == "session.status" || m.verb == "session.list" || m.verb == "session.cancel")
    case Peer =>
      Provider in p.roles && p.methods.Some? && m.verb in p.methods.value
  }

  predicate DeclaresType(p: InitializeParams, params: map<string, Value>) {
    && p.eventTypes.Some? && "type" in params && params["type"].String?
    && exists i :: 0 <= i < |p.eventTypes.value| && p.eventTypes.value[i].eventType == params["type"].s
  }

  /** A request is handed to the owner only when the peer's roles entitle to it, the window has room, and no request
    * with its id is being handled. */
  lemma HandedEntitled(lib: Serde, s: Session, m: Message, x: Action)
    requires x in Receive(lib, s, m).1 && x.HandleRequest?
    ensures x == HandleRequest(m) && m.Request? && s.phase == Initialized
    ensures m.id !in s.incoming && |s.incoming| < s.maxInFlight
    ensures s.peerParams.Some? && Entitled(s.side, s.peerParams.value, m)
  {
    EntitledRequest(lib, s.(activity := true, missed := 0), m);
  }

  lemma EntitledRequest(lib: Serde, s: Session, m: Message)
    ensures m.Request? && IncomingFault(lib, s, m.verb, m.params).None? ==>
              s.peerParams.Some? && Entitled(s.side, s.peerParams.value, m)
  {
  }

  /** In every history of a runtime against any remote, what its owner is handed keeps to the agreed terms. */
  lemma RuntimeHands(lib: Serde, c: RuntimeConfig, direction: Direction, hs: seq<Happening>, m: Message)
    requires HandleRequest(m) in Happen(lib, Ran(lib, NewRuntime(c, direction), hs), Heard(m)).1
    ensures var s := Ran(lib, NewRuntime(c, direction), hs);
      && m.Request? && s.phase == Initialized && s.peerParams.Some? && Entitled(Runtime, s.peerParams.value, m)
      && s.initializeResult.Some? && Terms(s.peerParams.value, c, s.initializeResult.value)
      && |s.incoming| < s.initializeResult.value.maxInFlight
  {
    RuntimeTerms(lib, c, direction, hs);
    HandedEntitled(lib, Ran(lib, NewRuntime(c, direction), hs), m, HandleRequest(m));
  }

  lemma PeerHands(lib: Serde, p: InitializeParams, direction: Direction, hs: seq<Happening>, m: Message)
    requires HandleRequest(m) in Happen(lib, Ran(lib, NewPeer(p, direction), hs), Heard(m)).1
    ensures var s := Ran(lib, NewPeer(p, direction), hs);
      && m.Request? && s.phase == Initialized && ValidParams(p) && Entitled(Peer, p, m)
      && s.initializeResult.Some? && |s.incoming| < s.initializeResult.value.maxInFlight
  {
    PeerTerms(lib, p, direction, hs);
    HandedEntitled(lib, Ran(lib, NewPeer(p, direction), hs), m, HandleRequest(m));
  }
}
