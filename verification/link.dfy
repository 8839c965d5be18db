/** A peer and a runtime joined by two FIFO channels: no interleaving makes either end report a violation. */
module Links {
  import opened Text
  import opened Json
  import opened Messages
  import opened Validate
  import opened Sessions

  // ------------------------------------------------------ ids in a channel

  function Bit(b: bool): nat {
    if b then 1 else 0
  }

  /** The request that a response answers. */
  function Answered(m: Message): Option<RequestId> {
    if m.Success? then Some(m.id) else if m.Error? then m.target else None
  }

  predicate Asks(m: Message, id: RequestId) {
    m.Request? && m.id == id
  }

  predicate Answers(m: Message, id: RequestId) {
    Answered(m) == Some(id)
  }

  function Requests(ms: seq<Message>, id: RequestId): nat {
    if ms == [] then 0 else Bit(Asks(ms[0], id)) + Requests(ms[1..], id)
  }

  function Responses(ms: seq<Message>, id: RequestId): nat {
    if ms == [] then 0 else Bit(Answers(ms[0], id)) + Responses(ms[1..], id)
  }

  lemma {:induction false} ChannelSnoc(ms: seq<Message>, m: Message, id: RequestId)
    ensures Requests(ms + [m], id) == Requests(ms, id) + Bit(Asks(m, id))
    ensures Responses(ms + [m], id) == Responses(ms, id) + Bit(Answers(m, id))
  {
    if ms == [] {
      assert ms + [m] == [m] && [m][1..] == [];
    } else {
      assert (ms + [m])[1..] == ms[1..] + [m];
      ChannelSnoc(ms[1..], m, id);
    }
  }

  // ----------------------------------------------------------- admission

  /** A message that an end with this side, these parameters and this authority acts on without complaint. */
  predicate Good(lib: Serde, side: Side, p: Option<InitializeParams>, direction: Direction, m: Message) {
    match m
    case Request(_, verb, params) =>
      verb != "initialize" &&
      if verb == "ping" then ValidFixed(lib, verb, params)
      else if verb == "shutdown" then direction == RemoteSupervisesLocal && ValidFixed(lib, verb, params)
      else if side == Runtime then RuntimeIncomingFault(lib, p, verb, params).None?
      else PeerIncomingFault(p, verb, params).None?
    case Notification(verb, params) =>
      side == Peer && HasRole(p, Client) && verb == "event" && ValidEventNotification(params)
    case Success(_, result) => result.Object?
    case Error(target, _) => target.Some?
  }

  type Gate = Message -> bool

  function GateOf(lib: Serde, side: Side, p: Option<InitializeParams>, direction: Direction): Gate {
    m => Good(lib, side, p, direction, m)
  }

  /** An end that may shut the other down faces one that accepts it. */
  predicate Opposed(a: Direction, b: Direction) {
    && (a == LocalSupervisesRemote ==> b == RemoteSupervisesLocal)
    && (b == LocalSupervisesRemote ==> a == RemoteSupervisesLocal)
  }

  /** What one end may send, the other end admits. */
  lemma GatesAgree(lib: Serde, a: Session, side: Side, direction: Direction, id: RequestId, verb: string,
                   params: map<string, Value>)
    requires a.peerParams.Some? && ValidParams(a.peerParams.value) && a.side != side && Opposed(a.direction, direction)
    requires OutgoingFault(lib, a, verb, params).None?
    ensures GateOf(lib, side, a.peerParams, direction)(Request(id, verb, params)) && verb != "initialize"
  {
    if a.side == Runtime && verb != "ping" && verb != "shutdown" {
      var methods := a.peerParams.value.methods.value;
      var i :| 0 <= i < |methods| && methods[i] == verb;
    }
  }

  lemma NoticeAgrees(lib: Serde, a: Session, side: Side, direction: Direction, verb: string, params: map<string, Value>)
    requires a.side != side && SendNotification(a, verb, params).Ok?
    ensures GateOf(lib, side, a.peerParams, direction)(Notification(verb, params))
  {
  }

  // ------------------------------------------------------- one direction

  /** In how many places a request of `a` is: on the way out, being handled by `b`, or on the way back. */
  function Places(b: Session, ab: seq<Message>, ba: seq<Message>, id: RequestId): nat {
    Requests(ab, id) + Bit(id in b.incoming) + Responses(ba, id)
  }

  /** An id in flight is in exactly one place and pending; while both ends are open, pending ids are in flight. */
  predicate Tracked(a: Session, b: Session, ab: seq<Message>, ba: seq<Message>, id: RequestId) {
    var places, pending := Places(b, ab, ba, id), Bit(id in a.outgoing);
    places <= pending && (a.phase == b.phase == Initialized ==> places == pending)
  }

  /** The requests of `a`: tracked, within the window, none of them `initialize`, and welcome at `b`. */
  ghost predicate Half(a: Session, b: Session, ab: seq<Message>, ba: seq<Message>, toB: Gate) {
    && (forall id :: Tracked(a, b, ab, ba, id))
    && |a.outgoing| <= a.maxInFlight
    && (forall id | id in a.outgoing :: a.outgoing[id] != "initialize")
    && (forall m | m in ab :: toB(m))
  }

  ghost predicate Joined(a: Session, b: Session, ab: seq<Message>, ba: seq<Message>, toB: Gate, toA: Gate) {
    && a.maxInFlight == b.maxInFlight
    && a.phase in {Initialized, Closed} && b.phase in {Initialized, Closed}
    && Half(a, b, ab, ba, toB) && Half(b, a, ba, ab, toA)
  }

  predicate Quiet(actions: seq<Action>) {
    forall x | x in actions :: !x.Violation?
  }

  function Sent(actions: seq<Action>): seq<Message> {
    if actions == [] then [] else (if actions[0].Send? then [actions[0].message] else []) + Sent(actions[1..])
  }

  /** Two ends in the same relation except for bookkeeping, or for closing. */
  predicate Settles(b: Session, b': Session) {
    && b' == b.(activity := b'.activity, missed := b'.missed, phase := b'.phase)
    && (b'.phase == b.phase || b'.phase == Closed)
  }

  lemma JoinedSettles(a: Session, b: Session, b': Session, ab: seq<Message>, ba: seq<Message>, toB: Gate, toA: Gate)
    requires Joined(a, b, ab, ba, toB, toA) && Settles(b, b')
    ensures Joined(a, b', ab, ba, toB, toA)
  {
    forall id ensures Tracked(a, b', ab, ba, id) && Tracked(b', a, ba, ab, id) {
      assert Tracked(a, b, ab, ba, id) && Tracked(b, a, ba, ab, id);
    }
  }

  lemma JoinedFlip(a: Session, b: Session, ab: seq<Message>, ba: seq<Message>, toB: Gate, toA: Gate)
    requires Joined(a, b, ab, ba, toB, toA)
    ensures Joined(b, a, ba, ab, toA, toB)
  {
  }

  lemma SendKeeps(a: Session, b: Session, ab: seq<Message>, ba: seq<Message>, toB: Gate, toA: Gate, m: Message)
    requires Joined(a, b, ab, ba, toB, toA)
    requires m.Request? && toB(m) && m.verb != "initialize" && m.id !in a.outgoing && |a.outgoing| < a.maxInFlight
    ensures Joined(a.(outgoing := a.outgoing[m.id := m.verb]), b, ab + [m], ba, toB, toA)
  {
    var a' := a.(outgoing := a.outgoing[m.id := m.verb]);
    forall id ensures Tracked(a', b, ab + [m], ba, id) && Tracked(b, a', ba, ab + [m], id) {
      ChannelSnoc(ab, m, id);
      assert Tracked(a, b, ab, ba, id) && Tracked(b, a, ba, ab, id);
    }
  }

  lemma NotifyKeeps(a: Session, b: Session, ab: seq<Message>, ba: seq<Message>, toB: Gate, toA: Gate, m: Message)
    requires Joined(a, b, ab, ba, toB, toA) && m.Notification? && toB(m)
    ensures Joined(a, b, ab + [m], ba, toB, toA)
  {
    forall id ensures Tracked(a, b, ab + [m], ba, id) && Tracked(b, a, ba, ab + [m], id) {
      ChannelSnoc(ab, m, id);
      assert Tracked(a, b, ab, ba, id) && Tracked(b, a, ba, ab, id);
    }
  }

  /** Answering moves an id from the table of handled requests to the channel back. */
  lemma AnswerKeeps(a: Session, b: Session, ab: seq<Message>, ba: seq<Message>, toB: Gate, toA: Gate, key: RequestId,
                    m: Message)
    requires Joined(a, b, ab, ba, toB, toA)
    requires Answers(m, key) && key in b.incoming && toA(m)
    ensures Joined(a, b.(incoming := b.incoming - {key}), ab, ba + [m], toB, toA)
  {
    var b' := b.(incoming := b.incoming - {key});
    forall id ensures Tracked(a, b', ab, ba + [m], id) && Tracked(b', a, ba + [m], ab, id) {
      ChannelSnoc(ba, m, id);
      assert Tracked(a, b, ab, ba, id) && Tracked(b, a, ba, ab, id);
    }
  }

  // ---------------------------------------------------------------- delivery

  /** A closed end ignores what arrives; a notification touches no table. */
  lemma DropKeeps(a: Session, b: Session, ab: seq<Message>, ba: seq<Message>, toB: Gate, toA: Gate)
    requires Joined(a, b, ab, ba, toB, toA) && ab != [] && (b.phase == Closed || ab[0].Notification?)
    ensures Joined(a, b, ab[1..], ba, toB, toA)
  {
    forall id ensures Tracked(a, b, ab[1..], ba, id) && Tracked(b, a, ba, ab[1..], id) {
      assert Tracked(a, b, ab, ba, id) && Tracked(b, a, ba, ab, id);
    }
    assert forall m | m in ab[1..] :: m in ab;
  }

  lemma {:induction false} SetSize(s: set<RequestId>, t: set<RequestId>)
    requires s <= t
    ensures |s| <= |t|
  {
    if s != {} {
      var x :| x in s;
      SetSize(s - {x}, t - {x});
    }
  }

  /** A delivered request finds its id free and the window open. */
  lemma RequestFits(a: Session, b: Session, ab: seq<Message>, ba: seq<Message>, toB: Gate)
    requires Half(a, b, ab, ba, toB) && ab != [] && ab[0].Request?
    ensures ab[0].id !in b.incoming && |b.incoming| < a.maxInFlight
  {
    var key := ab[0].id;
    assert Tracked(a, b, ab, ba, key);
    forall id | id in b.incoming ensures id in a.outgoing.Keys - {key} {
      assert Tracked(a, b, ab, ba, id);
    }
    SetSize(b.incoming.Keys, a.outgoing.Keys - {key});
    assert |a.outgoing.Keys| == |a.outgoing| && |b.incoming.Keys| == |b.incoming|;
  }

  lemma AcceptKeeps(a: Session, b: Session, ab: seq<Message>, ba: seq<Message>, toB: Gate, toA: Gate)
    requires Joined(a, b, ab, ba, toB, toA) && ab != [] && ab[0].Request?
    ensures Joined(a, b.(incoming := b.incoming[ab[0].id := ab[0].verb]), ab[1..], ba, toB, toA)
  {
    RequestFits(a, b, ab, ba, toB);
    var b' := b.(incoming := b.incoming[ab[0].id := ab[0].verb]);
    forall id ensures Tracked(a, b', ab[1..], ba, id) && Tracked(b', a, ba, ab[1..], id) {
      assert Tracked(a, b, ab, ba, id) && Tracked(b, a, ba, ab, id);
    }
    assert forall m | m in ab[1..] :: m in ab;
  }

  /** A request answered on the spot: the id turns around. */
  lemma EchoKeeps(a: Session, b: Session, ab: seq<Message>, ba: seq<Message>, toB: Gate, toA: Gate, m: Message)
    requires Joined(a, b, ab, ba, toB, toA) && ab != [] && ab[0].Request?
    requires Answers(m, ab[0].id) && toA(m)
    ensures Joined(a, b, ab[1..], ba + [m], toB, toA)
  {
    forall id ensures Tracked(a, b, ab[1..], ba + [m], id) && Tracked(b, a, ba + [m], ab[1..], id) {
      ChannelSnoc(ba, m, id);
      assert Tracked(a, b, ab, ba, id) && Tracked(b, a, ba, ab, id);
    }
    assert forall x | x in ab[1..] :: x in ab;
  }

  /** A delivered response finds its request pending, and frees it. */
  lemma ResponseKeeps(a: Session, b: Session, ab: seq<Message>, ba: seq<Message>, toB: Gate, toA: Gate, key: RequestId)
    requires Joined(a, b, ab, ba, toB, toA) && ab != [] && Answers(ab[0], key)
    ensures key in b.outgoing && b.outgoing[key] != "initialize"
    ensures Joined(a, b.(outgoing := b.outgoing - {key}), ab[1..], ba, toB, toA)
  {
    assert Tracked(b, a, ba, ab, key);
    var b' := b.(outgoing := b.outgoing - {key});
    forall id ensures Tracked(a, b', ab[1..], ba, id) && Tracked(b', a, ba, ab[1..], id) {
      assert Tracked(a, b, ab, ba, id) && Tracked(b, a, ba, ab, id);
    }
    assert b'.outgoing.Keys == b.outgoing.Keys - {key};
    assert |b'.outgoing.Keys| == |b'.outgoing| && |b.outgoing.Keys| == |b.outgoing|;
    assert forall x | x in ab[1..] :: x in ab;
  }

  // ------------------------------------------------------- what an end does

  /** What the owner of an end may ask of it after initialization; a refused call sends nothing. */
  datatype Call =
    | CallSend(id: RequestId, verb: string, params: map<string, Value>)
    | CallNotify(verb: string, params: map<string, Value>)
    | CallComplete(id: RequestId, result: Value)
    | CallFail(id: RequestId, error: ErrorObject)
    | CallTick(id: RequestId)

  function SentBy(r: Answer): seq<Message> {
    if r.Ok? then Sent(r.value) else []
  }

  function Perform(lib: Serde, s: Session, c: Call): (Session, seq<Message>) {
    match c
    case CallSend(id, verb, params) => var (t, r) := SendRequest(lib, s, id, verb, params); (t, SentBy(r))
    case CallNotify(verb, params) => (s, SentBy(SendNotification(s, verb, params)))
    case CallComplete(id, result) => var (t, r) := CompleteRequest(s, id, result); (t, SentBy(r))
    case CallFail(id, error) => var (t, r) := FailRequest(s, id, error); (t, SentBy(r))
    case CallTick(id) => var (t, actions) := OnTick(lib, s, id); (t, Sent(actions))
  }

  predicate SameEnd(s: Session, t: Session) {
    s.side == t.side && s.peerParams == t.peerParams && s.direction == t.direction && s.runtimeConfig == t.runtimeConfig
  }

  /** The gates of two initialized ends with the same parameters and opposed authority. */
  ghost predicate Gated(lib: Serde, a: Session, b: Session, toB: Gate, toA: Gate) {
    && a.side != b.side && Opposed(a.direction, b.direction)
    && a.peerParams.Some? && ValidParams(a.peerParams.value) && b.peerParams == a.peerParams
    && toB == GateOf(lib, b.side, b.peerParams, b.direction)
    && toA == GateOf(lib, a.side, a.peerParams, a.direction)
  }

  lemma SentOne(m: Message)
    ensures Sent([Send(m)]) == [m]
    ensures forall x: Action | !x.Send? :: Sent([Send(m), x]) == [m]
  {
    assert [Send(m)][1..] == [];
    forall x: Action | !x.Send? ensures Sent([Send(m), x]) == [m] {
      assert [Send(m), x][1..] == [x] && [x][1..] == [];
      assert Sent([x]) == [];
    }
  }

  lemma {:induction false} SentNone(actions: seq<Action>)
    requires forall x | x in actions :: !x.Send?
    ensures Sent(actions) == []
  {
    if actions != [] { SentNone(actions[1..]); }
  }

  lemma SendStep(lib: Serde, a: Session, b: Session, ab: seq<Message>, ba: seq<Message>, toB: Gate, toA: Gate,
                 id: RequestId, verb: string, params: map<string, Value>)
    requires Gated(lib, a, b, toB, toA) && Joined(a, b, ab, ba, toB, toA)
    ensures var (t, r) := SendRequest(lib, a, id, verb, params);
      SameEnd(a, t) && Joined(t, b, ab + SentBy(r), ba, toB, toA)
  {
    var (t, r) := SendRequest(lib, a, id, verb, params);
    if r.Ok? {
      var m := Request(id, verb, params);
      GatesAgree(lib, a, b.side, b.direction, id, verb, params);
      SentOne(m);
      SendKeeps(a, b, ab, ba, toB, toA, m);
    } else {
      assert ab + [] == ab;
    }
  }

  lemma TickStep(lib: Serde, a: Session, b: Session, ab: seq<Message>, ba: seq<Message>, toB: Gate, toA: Gate,
                 id: RequestId)
    requires Gated(lib, a, b, toB, toA) && Joined(a, b, ab, ba, toB, toA)
    ensures var (t, actions) := OnTick(lib, a, id); SameEnd(a, t) && Joined(t, b, ab + Sent(actions), ba, toB, toA)
  {
    JoinedFlip(a, b, ab, ba, toB, toA);
    if a.phase == Initialized && a.direction == LocalSupervisesRemote && !a.activity && a.missed < 2 {
      PingStep(lib, a, b, ab, ba, toB, toA, id);
    } else {
      QuietTick(lib, a, b, ab, ba, toB, toA, id);
    }
  }

  lemma PingStep(lib: Serde, a: Session, b: Session, ab: seq<Message>, ba: seq<Message>, toB: Gate, toA: Gate,
                 id: RequestId)
    requires Gated(lib, a, b, toB, toA) && Joined(b, a, ba, ab, toA, toB)
    requires a.phase == Initialized && a.direction == LocalSupervisesRemote && !a.activity && a.missed < 2
    ensures var (t, actions) := OnTick(lib, a, id); SameEnd(a, t) && Joined(t, b, ab + Sent(actions), ba, toB, toA)
  {
    var a' := a.(missed := a.missed + 1);
    TickPings(lib, a, id);
    JoinedSettles(b, a, a', ba, ab, toA, toB);
    JoinedFlip(b, a', ba, ab, toA, toB);
    SendStep(lib, a', b, ab, ba, toB, toA, id, "ping", map[]);
  }

  lemma TickPings(lib: Serde, a: Session, id: RequestId)
    requires a.phase == Initialized && a.direction == LocalSupervisesRemote && !a.activity && a.missed < 2
    ensures var (t, r) := SendRequest(lib, a.(missed := a.missed + 1), id, "ping", map[]);
      OnTick(lib, a, id).0 == t && Sent(OnTick(lib, a, id).1) == SentBy(r)
  {
  }

  lemma QuietTick(lib: Serde, a: Session, b: Session, ab: seq<Message>, ba: seq<Message>, toB: Gate, toA: Gate,
                  id: RequestId)
    requires Gated(lib, a, b, toB, toA) && Joined(b, a, ba, ab, toA, toB)
    requires !(a.phase == Initialized && a.direction == LocalSupervisesRemote && !a.activity && a.missed < 2)
    ensures var (t, actions) := OnTick(lib, a, id); SameEnd(a, t) && Joined(t, b, ab + Sent(actions), ba, toB, toA)
  {
    var (t, actions) := OnTick(lib, a, id);
    assert ab + [] == ab;
    assert Sent(actions) == [];
    JoinedSettles(b, a, t, ba, ab, toA, toB);
    JoinedFlip(b, t, ba, ab, toA, toB);
  }

  lemma AnswerStep(lib: Serde, a: Session, b: Session, ab: seq<Message>, ba: seq<Message>, toB: Gate, toA: Gate,
                   id: RequestId, m: Message)
    requires Gated(lib, a, b, toB, toA) && Joined(a, b, ab, ba, toB, toA)
    requires id in a.incoming && Answers(m, id) && (m.Success? ==> m.result.Object?)
    ensures Joined(a.(incoming := a.incoming - {id}), b, ab + Sent([Send(m)]), ba, toB, toA)
  {
    SentOne(m);
    JoinedFlip(a, b, ab, ba, toB, toA);
    AnswerKeeps(b, a, ba, ab, toA, toB, id, m);
    JoinedFlip(b, a.(incoming := a.incoming - {id}), ba, ab + [m], toA, toB);
  }

  /** Every call keeps two joined ends joined. */
  lemma PerformKeeps(lib: Serde, a: Session, b: Session, ab: seq<Message>, ba: seq<Message>, toB: Gate, toA: Gate,
                     c: Call)
    requires Gated(lib, a, b, toB, toA) && Joined(a, b, ab, ba, toB, toA)
    ensures var (t, sent) := Perform(lib, a, c); SameEnd(a, t) && Joined(t, b, ab + sent, ba, toB, toA)
  {
    assert ab + [] == ab;
    match c
    case CallSend(id, verb, params) => SendStep(lib, a, b, ab, ba, toB, toA, id, verb, params);
    case CallNotify(verb, params) =>
      if SendNotification(a, verb, params).Ok? {
        NoticeAgrees(lib, a, b.side, b.direction, verb, params);
        SentOne(Notification(verb, params));
        NotifyKeeps(a, b, ab, ba, toB, toA, Notification(verb, params));
      }
    case CallComplete(id, result) =>
      if id in a.incoming && result.Object? { AnswerStep(lib, a, b, ab, ba, toB, toA, id, Success(id, result)); }
    case CallFail(id, error) =>
      if id in a.incoming { AnswerStep(lib, a, b, ab, ba, toB, toA, id, Error(Some(id), error)); }
    case CallTick(id) => TickStep(lib, a, b, ab, ba, toB, toA, id);
  }

  // ------------------------------------------------------- what an end hears

  function Heard(s: Session): Session {
    s.(activity := true, missed := 0)
  }

  lemma HearRequest(lib: Serde, b: Session, m: Message)
    requires b.phase == Initialized && m.Request? && Good(lib, b.side, b.peerParams, b.direction, m)
    requires m.id !in b.incoming && |b.incoming| < b.maxInFlight
    ensures var done := Success(m.id, Object(map[]));
      Receive(lib, b, m) ==
        if m.verb == "ping" then (Heard(b), [Send(done)])
        else if m.verb == "shutdown" then
          (Heard(b).(phase := Closed), [Send(done), Close(AsStr(Get(m.params, "reason")))])
        else (Heard(b).(incoming := b.incoming[m.id := m.verb]), [HandleRequest(m)])
  {
  }

  lemma HearOther(lib: Serde, b: Session, m: Message)
    requires b.phase == Initialized && !m.Request? && Good(lib, b.side, b.peerParams, b.direction, m)
    requires !m.Notification? ==> Answered(m).value in b.outgoing && b.outgoing[Answered(m).value] != "initialize"
    ensures var (t, actions) := Receive(lib, b, m); Quiet(actions) && Sent(actions) == []
    ensures Receive(lib, b, m).0 ==
      if m.Notification? then Heard(b) else Heard(b).(outgoing := b.outgoing - {Answered(m).value})
  {
  }

  lemma JoinedHeard(a: Session, b: Session, ab: seq<Message>, ba: seq<Message>, toB: Gate, toA: Gate)
    requires Joined(a, b, ab, ba, toB, toA)
    ensures Joined(a, Heard(b), ab, ba, toB, toA)
  {
    JoinedSettles(a, b, Heard(b), ab, ba, toB, toA);
  }

  lemma DeliverRequest(lib: Serde, a: Session, b: Session, ab: seq<Message>, ba: seq<Message>, toB: Gate, toA: Gate)
    requires Gated(lib, a, b, toB, toA) && Joined(a, b, ab, ba, toB, toA)
    requires ab != [] && ab[0].Request? && b.phase == Initialized
    ensures var (t, actions) := Receive(lib, b, ab[0]);
      SameEnd(b, t) && Quiet(actions) && Joined(a, t, ab[1..], ba + Sent(actions), toB, toA)
  {
    var m := ab[0];
    var done := Success(m.id, Object(map[]));
    RequestFits(a, b, ab, ba, toB);
    assert toB(m);
    HearRequest(lib, b, m);
    JoinedHeard(a, b, ab, ba, toB, toA);
    if m.verb == "ping" || m.verb == "shutdown" {
      EchoKeeps(a, Heard(b), ab, ba, toB, toA, done);
      JoinedSettles(a, Heard(b), Receive(lib, b, m).0, ab[1..], ba + [done], toB, toA);
      SentOne(done);
    } else {
      AcceptKeeps(a, Heard(b), ab, ba, toB, toA);
      assert ba + [] == ba;
    }
  }

  /** Every delivery between joined ends is quiet and keeps them joined. */
  lemma DeliverKeeps(lib: Serde, a: Session, b: Session, ab: seq<Message>, ba: seq<Message>, toB: Gate, toA: Gate)
    requires Gated(lib, a, b, toB, toA) && Joined(a, b, ab, ba, toB, toA) && ab != []
    ensures var (t, actions) := Receive(lib, b, ab[0]);
      SameEnd(b, t) && Quiet(actions) && Joined(a, t, ab[1..], ba + Sent(actions), toB, toA)
  {
    var m := ab[0];
    assert toB(m);
    assert ba + [] == ba;
    if b.phase == Closed {
      DropKeeps(a, b, ab, ba, toB, toA);
    } else if m.Request? {
      DeliverRequest(lib, a, b, ab, ba, toB, toA);
    } else {
      JoinedHeard(a, b, ab, ba, toB, toA);
      if m.Notification? {
        DropKeeps(a, Heard(b), ab, ba, toB, toA);
      } else {
        ResponseKeeps(a, Heard(b), ab, ba, toB, toA, Answered(m).value);
      }
      HearOther(lib, b, m);
    }
  }

  // ----------------------------------------------------------------- the link

  datatype Link = Link(peer: Session, runtime: Session, up: seq<Message>, down: seq<Message>)

  datatype Setup = Setup(
    lib: Serde, params: InitializeParams, config: RuntimeConfig, peerDirection: Direction, runtimeDirection: Direction)

  datatype Step = Begin(id: RequestId) | Act(side: Side, call: Call) | Deliver(to: Side)

  function Start(s: Setup): Link {
    Link(NewPeer(s.params, s.peerDirection), NewRuntime(s.config, s.runtimeDirection), [], [])
  }

  /** One move of the system, and the actions a delivery produced. */
  function Next(lib: Serde, k: Link, step: Step): (Link, seq<Action>) {
    match step
    case Begin(id) =>
      var (t, r) := Initialize(lib, k.peer, id);
      (k.(peer := t, up := k.up + SentBy(r)), [])
    case Act(Peer, c) => var (t, sent) := Perform(lib, k.peer, c); (k.(peer := t, up := k.up + sent), [])
    case Act(Runtime, c) => var (t, sent) := Perform(lib, k.runtime, c); (k.(runtime := t, down := k.down + sent), [])
    case Deliver(Runtime) =>
      if k.up == [] then (k, []) else
        var (t, actions) := Receive(lib, k.runtime, k.up[0]);
        (k.(runtime := t, up := k.up[1..], down := k.down + Sent(actions)), actions)
    case Deliver(Peer) =>
      if k.down == [] then (k, []) else
        var (t, actions) := Receive(lib, k.peer, k.down[0]);
        (k.(peer := t, down := k.down[1..], up := k.up + Sent(actions)), actions)
  }

  function Run(lib: Serde, k: Link, steps: seq<Step>): Link {
    if steps == [] then k else Next(lib, Run(lib, k, steps[..|steps| - 1]), steps[|steps| - 1]).0
  }

  /** The peer passes its own checks and speaks the protocol version. */
  predicate WouldInitialize(s: Setup) {
    ValidParams(s.params) && PROTOCOL_VERSION in s.params.protocolVersions
  }

  predicate RolesSupported(s: Setup) {
    forall i | 0 <= i < |s.params.roles| :: s.params.roles[i] in s.config.supportedRoles
  }

  /** Then the runtime supports its roles, announces a valid result, and their authority fits together. */
  predicate Compatible(s: Setup) {
    WouldInitialize(s) ==>
      && RolesSupported(s)
      && ValidResult(Negotiated(s.params, s.config), s.params.roles)
      && Opposed(s.peerDirection, s.runtimeDirection)
  }

  ghost predicate Ends(s: Setup, k: Link) {
    && k.peer.side == Peer && k.peer.peerParams == Some(s.params) && k.peer.direction == s.peerDirection
    && k.runtime.side == Runtime && k.runtime.runtimeConfig == Some(s.config) && k.runtime.direction
            == s.runtimeDirection
  }

  ghost predicate Untouched(k: Session) {
    k.incoming == map[] && k.outgoing == map[]
  }

  /** Before initialization, and after the runtime refused the peer's versions. */
  ghost predicate Silent(k: Link) {
    && ((k.peer.phase == PeerIdle && k.runtime.phase == RuntimeAwaiting)
        || (k.peer.phase == Closed && k.runtime.phase == Closed))
    && k.up == [] && k.down == [] && Untouched(k.peer) && Untouched(k.runtime)
  }

  ghost predicate Awaiting(peer: Session, id: RequestId) {
    peer.phase == PeerAwaiting && peer.outgoing == map[id := "initialize"] && peer.incoming == map[]
  }

  ghost predicate Asking(s: Setup, k: Link, id: RequestId) {
    && ValidParams(s.params) && Awaiting(k.peer, id)
    && k.runtime.phase == RuntimeAwaiting && Untouched(k.runtime)
    && k.up == [Request(id, "initialize", s.lib.writeParams(s.params))] && k.down == []
  }

  ghost predicate Refusing(k: Link, id: RequestId) {
    && Awaiting(k.peer, id) && k.runtime.phase == Closed && Untouched(k.runtime)
    && k.up == [] && |k.down| == 1 && k.down[0].Error? && k.down[0].target == Some(id)
  }

  ghost predicate Open(s: Setup, k: Link) {
    && k.runtime.peerParams == Some(s.params) && WouldInitialize(s)
    && Joined(k.peer, k.runtime, k.up, k.down, ToRuntime(s), ToPeer(s))
  }

  ghost function ToRuntime(s: Setup): Gate {
    GateOf(s.lib, Runtime, Some(s.params), s.runtimeDirection)
  }

  ghost function ToPeer(s: Setup): Gate {
    GateOf(s.lib, Peer, Some(s.params), s.peerDirection)
  }

  /** The peer as it will be once it has heard the runtime's acceptance. */
  ghost function Promoted(s: Setup, peer: Session): Session {
    peer.(outgoing := map[], maxInFlight := Negotiated(s.params, s.config).maxInFlight, phase := Initialized,
          initializeResult := Some(Negotiated(s.params, s.config)), activity := false, missed := 0)
  }

  /** The acceptance is at the head of the channel; behind it the runtime already talks to an initialized peer. */
  ghost predicate Accepting(s: Setup, k: Link, id: RequestId) {
    && Awaiting(k.peer, id) && k.up == [] && k.down != []
    && k.down[0] == Success(id, s.lib.writeResult(Negotiated(s.params, s.config)))
    && Open(s, Ahead(s, k))
  }

  ghost function Ahead(s: Setup, k: Link): Link
    requires k.down != []
  {
    k.(peer := Promoted(s, k.peer), down := k.down[1..])
  }

  ghost predicate Inv(s: Setup, k: Link) {
    Ends(s, k) &&
    (Silent(k) || Open(s, k) || exists id :: Asking(s, k, id) || Refusing(k, id) || Accepting(s, k, id))
  }

  // -------------------------------------------------------- initialization

  lemma HearInitialize(s: Setup, k: Link, id: RequestId)
    requires Lawful(s.lib) && (WouldInitialize(s) ==> RolesSupported(s)) && Ends(s, k) && Asking(s, k, id)
    ensures var (t, actions) := Receive(s.lib, k.runtime, k.up[0]);
      Quiet(actions) && t.side == Runtime && t.runtimeConfig == Some(s.config) && t.direction == s.runtimeDirection
      && Untouched(t)
      && if PROTOCOL_VERSION in s.params.protocolVersions
         then Sent(actions) == [Success(id, s.lib.writeResult(Negotiated(s.params, s.config)))]
              && t.peerParams == Some(s.params) && t.phase == Initialized
              && t.maxInFlight == Negotiated(s.params, s.config).maxInFlight
         else |Sent(actions)| == 1 && Sent(actions)[0].Error? && Sent(actions)[0].target == Some(id) && t.phase
                 == Closed
  {
    assert s.lib.readParams(s.lib.writeParams(s.params)) == Some(s.params);
    var actions := Receive(s.lib, k.runtime, k.up[0]).1;
    assert actions[0].Send?;
    SentOne(actions[0].message);
  }

  lemma HearAcceptance(s: Setup, k: Link, id: RequestId)
    requires Lawful(s.lib) && Ends(s, k) && Awaiting(k.peer, id) && k.down != []
    requires k.down[0] == Success(id, s.lib.writeResult(Negotiated(s.params, s.config)))
    requires ValidResult(Negotiated(s.params, s.config), s.params.roles)
    ensures Receive(s.lib, k.peer, k.down[0]) ==
            (Promoted(s, k.peer), [Resolved(id, "initialize", Returned(k.down[0].result))])
  {
    var r := Negotiated(s.params, s.config);
    assert s.lib.readResult(s.lib.writeResult(r)) == Some(r);
    assert k.peer.outgoing - {id} == map[];
  }

  lemma FreshJoined(s: Setup, k: Link)
    requires Untouched(k.peer) && Untouched(k.runtime) && k.up == [] && k.down == []
    requires k.peer.phase == k.runtime.phase == Initialized && k.peer.maxInFlight == k.runtime.maxInFlight
    ensures Joined(k.peer, k.runtime, k.up, k.down, ToRuntime(s), ToPeer(s))
  {
  }

  // ------------------------------------------------------------ every step

  /** An end that is not initialized and handles nothing sends nothing and stays as it is. */
  lemma PerformNothing(lib: Serde, t: Session, c: Call)
    requires t.phase != Initialized && t.incoming == map[]
    ensures Perform(lib, t, c) == (t, [])
  {
  }

  ghost predicate Safe(s: Setup, k: Link, step: Step) {
    Inv(s, Next(s.lib, k, step).0) && Quiet(Next(s.lib, k, step).1)
  }

  lemma StepSilent(s: Setup, k: Link, step: Step)
    requires Lawful(s.lib) && Compatible(s) && Ends(s, k) && Silent(k)
    ensures Safe(s, k, step)
  {
    assert k.up + [] == k.up && k.down + [] == k.down;
    match step
    case Begin(id) =>
      if Initialize(s.lib, k.peer, id).1.Ok? {
        SentOne(Request(id, "initialize", s.lib.writeParams(s.params)));
        assert k.peer.outgoing[id := "initialize"] == map[id := "initialize"];
        assert Asking(s, Next(s.lib, k, step).0, id);
      }
    case Act(Peer, c) => PerformNothing(s.lib, k.peer, c);
    case Act(Runtime, c) => PerformNothing(s.lib, k.runtime, c);
    case Deliver(_) =>
  }

  lemma StepAsking(s: Setup, k: Link, step: Step, id: RequestId)
    requires Lawful(s.lib) && Compatible(s) && Ends(s, k) && Asking(s, k, id)
    ensures Safe(s, k, step)
  {
    assert k.up + [] == k.up && k.down + [] == k.down;
    var next := Next(s.lib, k, step).0;
    match step
    case Act(Peer, c) => PerformNothing(s.lib, k.peer, c);
    case Act(Runtime, c) => PerformNothing(s.lib, k.runtime, c);
    case Deliver(Runtime) =>
      HearInitialize(s, k, id);
      if PROTOCOL_VERSION in s.params.protocolVersions {
        FreshJoined(s, Ahead(s, next));
        assert Accepting(s, next, id);
      } else {
        assert Refusing(next, id);
      }
    case _ => assert next == k;
  }

  lemma StepRefusing(s: Setup, k: Link, step: Step, id: RequestId)
    requires Lawful(s.lib) && Compatible(s) && Ends(s, k) && Refusing(k, id)
    ensures Safe(s, k, step)
  {
    assert k.up + [] == k.up && k.down + [] == k.down;
    match step
    case Act(Peer, c) => PerformNothing(s.lib, k.peer, c);
    case Act(Runtime, c) => PerformNothing(s.lib, k.runtime, c);
    case Deliver(Peer) =>
      assert k.peer.outgoing - {id} == map[];
      SentNone(Receive(s.lib, k.peer, k.down[0]).1);
      assert Silent(Next(s.lib, k, step).0);
    case _ => assert Next(s.lib, k, step).0 == k;
  }

  lemma OpenAct(s: Setup, k: Link, c: Call)
    requires Lawful(s.lib) && Compatible(s) && Ends(s, k) && Open(s, k)
    ensures var (t, sent) := Perform(s.lib, k.runtime, c);
      SameEnd(k.runtime, t) && Open(s, k.(runtime := t, down := k.down + sent))
    ensures var (t, sent) := Perform(s.lib, k.peer, c);
      SameEnd(k.peer, t) && Open(s, k.(peer := t, up := k.up + sent))
  {
    PerformKeeps(s.lib, k.peer, k.runtime, k.up, k.down, ToRuntime(s), ToPeer(s), c);
    JoinedFlip(k.peer, k.runtime, k.up, k.down, ToRuntime(s), ToPeer(s));
    PerformKeeps(s.lib, k.runtime, k.peer, k.down, k.up, ToPeer(s), ToRuntime(s), c);
    var (t, sent) := Perform(s.lib, k.runtime, c);
    JoinedFlip(t, k.peer, k.down + sent, k.up, ToPeer(s), ToRuntime(s));
  }

  lemma AcceptingAhead(s: Setup, k: Link, id: RequestId, t: Session, sent: seq<Message>)
    requires Accepting(s, k, id) && Open(s, Ahead(s, k).(runtime := t, down := k.down[1..] + sent))
    ensures Accepting(s, k.(runtime := t, down := k.down + sent), id)
  {
    assert (k.down + sent)[1..] == k.down[1..] + sent;
  }

  lemma AcceptingAct(s: Setup, k: Link, c: Call, id: RequestId)
    requires Lawful(s.lib) && Compatible(s) && Ends(s, k) && Accepting(s, k, id)
    ensures var (t, sent) := Perform(s.lib, k.runtime, c);
      SameEnd(k.runtime, t) && Accepting(s, k.(runtime := t, down := k.down + sent), id)
  {
    OpenAct(s, Ahead(s, k), c);
    AcceptingAhead(s, k, id, Perform(s.lib, k.runtime, c).0, Perform(s.lib, k.runtime, c).1);
  }

  lemma AcceptingHeard(s: Setup, k: Link, id: RequestId)
    requires Lawful(s.lib) && Compatible(s) && Ends(s, k) && Accepting(s, k, id)
    ensures Safe(s, k, Deliver(Peer))
  {
    HearAcceptance(s, k, id);
    SentNone(Receive(s.lib, k.peer, k.down[0]).1);
    assert k.up + [] == k.up;
    var next := Next(s.lib, k, Deliver(Peer)).0;
    assert next == Ahead(s, k);
    assert Open(s, next);
  }

  lemma StepAccepting(s: Setup, k: Link, step: Step, id: RequestId)
    requires Lawful(s.lib) && Compatible(s) && Ends(s, k) && Accepting(s, k, id)
    ensures Safe(s, k, step)
  {
    assert k.up + [] == k.up;
    match step
    case Act(Peer, c) => PerformNothing(s.lib, k.peer, c);
    case Act(Runtime, c) => AcceptingAct(s, k, c, id);
    case Deliver(Peer) => AcceptingHeard(s, k, id);
    case _ => assert Next(s.lib, k, step).0 == k;
  }

  lemma StepOpen(s: Setup, k: Link, step: Step)
    requires Lawful(s.lib) && Compatible(s) && Ends(s, k) && Open(s, k)
    ensures Safe(s, k, step)
  {
    var next := Next(s.lib, k, step).0;
    match step
    case Begin(id) => assert k.up + [] == k.up;
    case Act(_, c) => OpenAct(s, k, c);
    case Deliver(Runtime) =>
      if k.up != [] { DeliverKeeps(s.lib, k.peer, k.runtime, k.up, k.down, ToRuntime(s), ToPeer(s)); }
    case Deliver(Peer) =>
      if k.down != [] {
        JoinedFlip(k.peer, k.runtime, k.up, k.down, ToRuntime(s), ToPeer(s));
        DeliverKeeps(s.lib, k.runtime, k.peer, k.down, k.up, ToPeer(s), ToRuntime(s));
        JoinedFlip(k.runtime, next.peer, next.down, next.up, ToPeer(s), ToRuntime(s));
      }
  }

  /** The invariant is inductive, and under it no delivery reports a violation. */
  lemma StepSafe(s: Setup, k: Link, step: Step)
    requires Lawful(s.lib) && Compatible(s) && Inv(s, k)
    ensures Safe(s, k, step)
  {
    if Silent(k) {
      StepSilent(s, k, step);
    } else if Open(s, k) {
      StepOpen(s, k, step);
    } else {
      var id :| Asking(s, k, id) || Refusing(k, id) || Accepting(s, k, id);
      if Asking(s, k, id) {
        StepAsking(s, k, step, id);
      } else if Refusing(k, id) {
        StepRefusing(s, k, step, id);
      } else {
        StepAccepting(s, k, step, id);
      }
    }
  }

  /** In every interleaving of calls, ticks and deliveries, no delivery ever produces a violation. */
  lemma {:induction false} NoViolations(s: Setup, steps: seq<Step>, step: Step)
    requires Lawful(s.lib) && Compatible(s)
    ensures Inv(s, Run(s.lib, Start(s), steps))
    ensures Quiet(Next(s.lib, Run(s.lib, Start(s), steps), step).1)
  {
    if steps == [] {
      assert Silent(Start(s));
    } else {
      NoViolations(s, steps[..|steps| - 1], steps[|steps| - 1]);
      StepSafe(s, Run(s.lib, Start(s), steps[..|steps| - 1]), steps[|steps| - 1]);
    }
    StepSafe(s, Run(s.lib, Start(s), steps), step);
  }

  /** Between two initialized ends every pending request is in exactly one place. */
  lemma ExactlyOnePlace(s: Setup, steps: seq<Step>, id: RequestId)
    requires Lawful(s.lib) && Compatible(s)
    ensures var k := Run(s.lib, Start(s), steps);
      k.peer.phase == Initialized && k.runtime.phase == Initialized ==>
        (id in k.peer.outgoing <==> Places(k.runtime, k.up, k.down, id) == 1)
        && (id in k.runtime.outgoing <==> Places(k.peer, k.down, k.up, id) == 1)
        && Places(k.runtime, k.up, k.down, id) <= 1 && Places(k.peer, k.down, k.up, id) <= 1
        && k.peer.maxInFlight == k.runtime.maxInFlight
        && |k.peer.outgoing| <= k.peer.maxInFlight && |k.runtime.outgoing| <= k.runtime.maxInFlight
  {
    NoViolations(s, steps, Deliver(Peer));
    var k := Run(s.lib, Start(s), steps);
    if k.peer.phase == Initialized && k.runtime.phase == Initialized {
      assert Open(s, k);
      assert Tracked(k.peer, k.runtime, k.up, k.down, id) && Tracked(k.runtime, k.peer, k.down, k.up, id);
    }
  }
}
