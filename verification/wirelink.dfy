/** A link whose messages cross as JSON text: what arrives is what the text of a message parses to. */
module WireLinks {
  import opened Text
  import opened Json
  import opened Messages
  import opened Validate
  import opened Sessions
  import opened Links
  import Frames
  import Wire

  /** A message as the other end reads it. */
  function Landed(m: Message): Message {
    var parsed := ParseValue(ToValue(m));
    if parsed.Ok? then parsed.value else m
  }

  /** Any writer and reader that agree on the value, on one line within the limit, deliver exactly this message. */
  lemma LandedIsRead(limit: nat, write: Wire.JsonWriter, read: Frames.JsonReader, m: Message)
    requires Wire.Carries(write, read, ToValue(m)) && |write(ToValue(m))| <= limit && ParseValue(ToValue(m)).Ok?
    ensures Frames.FrameOf(limit, read, write(ToValue(m))) == Frames.Decoded(Landed(m))
  {
  }

  /** The ids of a message survive the wire. */
  predicate Tidy(m: Message) {
    match m
    case Request(id, _, _) => CanonicalId(id)
    case Notification(_, _) => true
    case Success(id, _) => CanonicalId(id)
    case Error(target, _) => target.Some? ==> CanonicalId(target.value)
  }

  predicate TidyAll(ms: seq<Message>) {
    forall m | m in ms :: Tidy(m)
  }

  predicate TidyEnd(s: Session) {
    forall id | id in s.incoming :: CanonicalId(id)
  }

  predicate TidyLink(k: Link) {
    TidyAll(k.up) && TidyAll(k.down) && TidyEnd(k.peer) && TidyEnd(k.runtime)
  }

  /** The two messages mean the same to the tables and to every gate. */
  predicate Alike(m: Message, n: Message) {
    n == m || (m.Error? && n.Error? && n.target == m.target)
  }

  lemma LandedAlike(m: Message)
    requires Tidy(m) && ((m.Request? || m.Notification?) ==> m.verb != "")
    ensures Alike(m, Landed(m)) && Tidy(Landed(m)) && ParseValue(ToValue(m)).Ok?
  {
    MessageRoundTrip(m);
    if m.Error? {
      ErrorLands(m.target, m.error);
    }
  }

  lemma ErrorLands(target: Option<RequestId>, error: ErrorObject)
    requires target.Some? ==> CanonicalId(target.value)
    ensures ParseValue(ToValue(Error(target, error))).Ok?
    ensures Landed(Error(target, error)).Error? && Landed(Error(target, error)).target == target
  {
    var fields := ToValue(Error(target, error)).fields;
    ErrorRoundTrip(error);
    if target.Some? { IdRoundTrip(target.value); }
    assert fields["jsonrpc"] == String("2.0") && fields["error"] == ErrorValue(error);
    assert fields["id"] == if target.Some? then IdValue(target.value) else Null;
    assert ParseValue(Object(fields)) == ParseError(fields);
  }

  function WithHead(ms: seq<Message>, m: Message): seq<Message>
    requires ms != []
  {
    [m] + ms[1..]
  }

  /** The link as a delivery to this side finds it. */
  function Arrived(k: Link, step: Step): Link {
    match step
    case Deliver(Runtime) => if k.up == [] then k else k.(up := WithHead(k.up, Landed(k.up[0])))
    case Deliver(Peer) => if k.down == [] then k else k.(down := WithHead(k.down, Landed(k.down[0])))
    case _ => k
  }

  function WireNext(lib: Serde, k: Link, step: Step): (Link, seq<Action>) {
    Next(lib, Arrived(k, step), step)
  }

  function WireRun(lib: Serde, k: Link, steps: seq<Step>): Link {
    if steps == [] then k else WireNext(lib, WireRun(lib, k, steps[..|steps| - 1]), steps[|steps| - 1]).0
  }

  // ---------------------------------------------------------- what ids are used

  /** The id a step makes up. */
  function Coined(step: Step): Option<RequestId> {
    match step
    case Begin(id) => Some(id)
    case Act(_, CallSend(id, _, _)) => Some(id)
    case Act(_, CallTick(id)) => Some(id)
    case _ => None
  }

  predicate Canonically(step: Step) {
    Coined(step).Some? ==> CanonicalId(Coined(step).value)
  }

  // ----------------------------------------------------------------- tidiness

  lemma {:induction false} SentMembers(actions: seq<Action>)
    requires forall x | x in actions && x.Send? :: Tidy(x.message)
    ensures TidyAll(Sent(actions))
  {
    if actions != [] { SentMembers(actions[1..]); }
  }

  lemma ReceiveTidy(lib: Serde, s: Session, m: Message)
    requires Tidy(m) && TidyEnd(s)
    ensures TidyEnd(Receive(lib, s, m).0) && TidyAll(Sent(Receive(lib, s, m).1))
  {
    var (t, actions) := Receive(lib, s, m);
    forall x | x in actions && x.Send? ensures Tidy(x.message) {
    }
    SentMembers(actions);
  }

  lemma PerformTidy(lib: Serde, s: Session, c: Call)
    requires TidyEnd(s) && ((c.CallSend? || c.CallTick?) ==> CanonicalId(c.id))
    ensures TidyEnd(Perform(lib, s, c).0) && TidyAll(Perform(lib, s, c).1)
  {
    match c
    case CallSend(id, verb, params) => SentOne(Request(id, verb, params));
    case CallNotify(verb, params) => SentOne(Notification(verb, params));
    case CallComplete(id, result) => SentOne(Success(id, result));
    case CallFail(id, error) => SentOne(Error(Some(id), error));
    case CallTick(id) =>
      var actions := OnTick(lib, s, id).1;
      forall x | x in actions && x.Send? ensures Tidy(x.message) {
      }
      SentMembers(actions);
  }

  lemma NextTidy(lib: Serde, k: Link, step: Step)
    requires TidyLink(k) && Canonically(step)
    ensures TidyLink(Next(lib, k, step).0)
  {
    match step
    case Begin(id) =>
      if Initialize(lib, k.peer, id).1.Ok? {
        SentOne(Request(id, "initialize", lib.writeParams(k.peer.peerParams.value)));
      }
    case Act(Peer, c) => PerformTidy(lib, k.peer, c);
    case Act(Runtime, c) => PerformTidy(lib, k.runtime, c);
    case Deliver(Runtime) => if k.up != [] { ReceiveTidy(lib, k.runtime, k.up[0]); }
    case Deliver(Peer) => if k.down != [] { ReceiveTidy(lib, k.peer, k.down[0]); }
  }

  // ------------------------------------------------------------------ arrivals

  lemma GoodNamed(lib: Serde, side: Side, p: InitializeParams, direction: Direction, m: Message)
    requires ValidParams(p) && Good(lib, side, Some(p), direction, m) && (m.Request? || m.Notification?)
    ensures m.verb != ""
  {
  }

  lemma LandedSame(m: Message)
    requires Tidy(m) && !m.Error? && ((m.Request? || m.Notification?) ==> m.verb != "")
    ensures Landed(m) == m
  {
    MessageRoundTrip(m);
  }

  lemma {:induction false} HeadCounts(ms: seq<Message>, m: Message, id: RequestId)
    requires ms != [] && Alike(ms[0], m)
    ensures Requests(WithHead(ms, m), id) == Requests(ms, id) && Responses(WithHead(ms, m), id) == Responses(ms, id)
  {
    assert WithHead(ms, m)[1..] == ms[1..];
  }

  /** Joined ends do not tell a message from one alike. */
  lemma JoinedHead(a: Session, b: Session, ab: seq<Message>, ba: seq<Message>, toB: Gate, toA: Gate, m: Message)
    requires Joined(a, b, ab, ba, toB, toA) && ab != [] && Alike(ab[0], m) && toB(m)
    ensures Joined(a, b, WithHead(ab, m), ba, toB, toA)
  {
    forall id ensures Tracked(a, b, WithHead(ab, m), ba, id) && Tracked(b, a, ba, WithHead(ab, m), id) {
      HeadCounts(ab, m, id);
      assert Tracked(a, b, ab, ba, id) && Tracked(b, a, ba, ab, id);
    }
    assert forall x | x in WithHead(ab, m) :: x == m || x in ab;
  }

  lemma TidyHead(ms: seq<Message>, m: Message)
    requires ms != [] && TidyAll(ms) && Tidy(m)
    ensures TidyAll(WithHead(ms, m))
  {
  }

  lemma GateNamed(lib: Serde, side: Side, p: InitializeParams, direction: Direction, m: Message)
    requires ValidParams(p) && GateOf(lib, side, Some(p), direction)(m) && Tidy(m)
    ensures Alike(m, Landed(m)) && Tidy(Landed(m)) && GateOf(lib, side, Some(p), direction)(Landed(m))
    ensures ParseValue(ToValue(m)).Ok?
  {
    if m.Request? || m.Notification? { GoodNamed(lib, side, p, direction, m); }
    LandedAlike(m);
  }

  lemma ArrivalUp(s: Setup, k: Link)
    requires Open(s, k) && TidyLink(k) && k.up != []
    ensures Open(s, Arrived(k, Deliver(Runtime))) && TidyLink(Arrived(k, Deliver(Runtime)))
  {
    assert k.up[0] in k.up;
    GateNamed(s.lib, Runtime, s.params, s.runtimeDirection, k.up[0]);
    TidyHead(k.up, Landed(k.up[0]));
    JoinedHead(k.peer, k.runtime, k.up, k.down, ToRuntime(s), ToPeer(s), Landed(k.up[0]));
  }

  lemma ArrivalDown(s: Setup, k: Link)
    requires Open(s, k) && TidyLink(k) && k.down != []
    ensures Open(s, Arrived(k, Deliver(Peer))) && TidyLink(Arrived(k, Deliver(Peer)))
  {
    assert k.down[0] in k.down;
    GateNamed(s.lib, Peer, s.params, s.peerDirection, k.down[0]);
    TidyHead(k.down, Landed(k.down[0]));
    JoinedFlip(k.peer, k.runtime, k.up, k.down, ToRuntime(s), ToPeer(s));
    JoinedHead(k.runtime, k.peer, k.down, k.up, ToPeer(s), ToRuntime(s), Landed(k.down[0]));
    JoinedFlip(k.runtime, k.peer, WithHead(k.down, Landed(k.down[0])), k.up, ToPeer(s), ToRuntime(s));
  }

  lemma OpenArrival(s: Setup, k: Link, step: Step)
    requires Open(s, k) && TidyLink(k)
    ensures Open(s, Arrived(k, step)) && TidyLink(Arrived(k, step))
  {
    if Arrived(k, step) != k {
      if step.to == Runtime { ArrivalUp(s, k); } else { ArrivalDown(s, k); }
    }
  }

  lemma SameArrival(k: Link, step: Step)
    requires TidyLink(k)
    requires k.up != [] ==> k.up[0].Request? && k.up[0].verb != ""
    requires k.down != [] ==> k.down[0].Success?
    ensures Arrived(k, step) == k
  {
    if step == Deliver(Runtime) && k.up != [] {
      LandedSame(k.up[0]);
      assert WithHead(k.up, k.up[0]) == k.up;
    } else if step == Deliver(Peer) && k.down != [] {
      LandedSame(k.down[0]);
      assert WithHead(k.down, k.down[0]) == k.down;
    }
  }

  lemma RefusalArrival(k: Link, step: Step, id: RequestId)
    requires TidyLink(k) && Refusing(k, id)
    ensures TidyLink(Arrived(k, step)) && Refusing(Arrived(k, step), id)
  {
    assert k.down[0] in k.down;
    LandedAlike(k.down[0]);
    TidyHead(k.down, Landed(k.down[0]));
  }

  lemma ArrivalKeeps(s: Setup, k: Link, step: Step)
    requires Inv(s, k) && TidyLink(k)
    ensures Inv(s, Arrived(k, step)) && TidyLink(Arrived(k, step))
  {
    if Open(s, k) {
      OpenArrival(s, k, step);
    } else if !Silent(k) {
      var id :| Asking(s, k, id) || Refusing(k, id) || Accepting(s, k, id);
      if Refusing(k, id) {
        RefusalArrival(k, step, id);
        assert Refusing(Arrived(k, step), id);
      } else {
        SameArrival(k, step);
      }
    }
  }

  ghost predicate WireInv(s: Setup, k: Link) {
    Inv(s, k) && TidyLink(k)
  }

  /** Whatever is on the wire can be read. */
  lemma HeadsRead(s: Setup, k: Link)
    requires WireInv(s, k)
    ensures k.up != [] ==> ParseValue(ToValue(k.up[0])).Ok?
    ensures k.down != [] ==> ParseValue(ToValue(k.down[0])).Ok?
  {
    if Open(s, k) {
      if k.up != [] { GateNamed(s.lib, Runtime, s.params, s.runtimeDirection, k.up[0]); }
      if k.down != [] { GateNamed(s.lib, Peer, s.params, s.peerDirection, k.down[0]); }
    } else if !Silent(k) {
      var id :| Asking(s, k, id) || Refusing(k, id) || Accepting(s, k, id);
      if k.up != [] { LandedAlike(k.up[0]); }
      if k.down != [] { LandedAlike(k.down[0]); }
    }
  }

  lemma WireStep(s: Setup, k: Link, step: Step)
    requires Lawful(s.lib) && Compatible(s) && WireInv(s, k) && Canonically(step)
    ensures WireInv(s, WireNext(s.lib, k, step).0) && Quiet(WireNext(s.lib, k, step).1)
  {
    ArrivalKeeps(s, k, step);
    StepSafe(s, Arrived(k, step), step);
    NextTidy(s.lib, Arrived(k, step), step);
  }

  lemma WireStart(s: Setup)
    ensures WireInv(s, Start(s))
  {
    assert Silent(Start(s));
  }

  /** In every interleaving over the wire whose ids are canonical, no delivery produces a violation. */
  lemma {:induction false} WireNoViolations(s: Setup, steps: seq<Step>, step: Step)
    requires Lawful(s.lib) && Compatible(s) && Canonically(step) && forall x | x in steps :: Canonically(x)
    ensures WireInv(s, WireRun(s.lib, Start(s), steps))
    ensures Quiet(WireNext(s.lib, WireRun(s.lib, Start(s), steps), step).1)
  {
    if steps == [] {
      WireStart(s);
    } else {
      var n := |steps| - 1;
      WireNoViolations(s, steps[..n], steps[n]);
      WireStep(s, WireRun(s.lib, Start(s), steps[..n]), steps[n]);
    }
    WireStep(s, WireRun(s.lib, Start(s), steps), step);
  }

  // ------------------------------------------------------------------ converse

  ghost predicate Uses(steps: seq<Step>, ids: iset<RequestId>) {
    forall x | x in steps :: Coined(x).Some? ==> Coined(x).value in ids
  }

  /** No run that makes up its ids from these reports a violation. */
  ghost predicate WireQuiet(s: Setup, ids: iset<RequestId>) {
    forall steps, step | Uses(steps + [step], ids) :: Quiet(WireNext(s.lib, WireRun(s.lib, Start(s), steps), step).1)
  }

  lemma WireRunSnoc(lib: Serde, k: Link, steps: seq<Step>, step: Step)
    ensures WireRun(lib, k, steps + [step]) == WireNext(lib, WireRun(lib, k, steps), step).0
  {
    assert (steps + [step])[..|steps|] == steps;
  }

  lemma Strayed(id: RequestId, params: map<string, Value>)
    requires !CanonicalId(id)
    ensures Landed(Request(id, "initialize", params)) == Request(Unsigned(id.i), "initialize", params)
  {
    var fields := ToValue(Request(id, "initialize", params)).fields;
    assert fields["jsonrpc"] == String("2.0") && fields["method"] == String("initialize");
    assert fields["params"] == Object(params) && fields["id"] == IdValue(id);
    assert ParseValue(Object(fields)) == ParseCall(fields);
  }

  lemma StrayBegun(s: Setup, id: RequestId)
    requires WouldInitialize(s)
    ensures var k := WireRun(s.lib, Start(s), [Begin(id)]); Ends(s, k) && Asking(s, k, id)
  {
    WireRunSnoc(s.lib, Start(s), [], Begin(id));
    assert [] + [Begin(id)] == [Begin(id)];
    SentOne(Request(id, "initialize", s.lib.writeParams(s.params)));
    assert (map[])[id := "initialize"] == map[id := "initialize"];
  }

  /** The runtime answers the id it read, which is not the one the peer sent. */
  lemma StrayAnswered(s: Setup, id: RequestId)
    requires Lawful(s.lib) && Compatible(s) && WouldInitialize(s) && !CanonicalId(id)
    ensures var k := WireRun(s.lib, Start(s), [Begin(id), Deliver(Runtime)]);
      && Awaiting(k.peer, id) && |k.down| == 1 && k.down[0].Success? && k.down[0].id == Unsigned(id.i)
  {
    var k, read := WireRun(s.lib, Start(s), [Begin(id)]), Unsigned(id.i);
    StrayBegun(s, id);
    Strayed(id, s.lib.writeParams(s.params));
    WireRunSnoc(s.lib, Start(s), [Begin(id)], Deliver(Runtime));
    assert [Begin(id)] + [Deliver(Runtime)] == [Begin(id), Deliver(Runtime)];
    var t := Arrived(k, Deliver(Runtime));
    var told := t.(peer := t.peer.(outgoing := map[read := "initialize"]));
    assert told.up == [Request(read, "initialize", s.lib.writeParams(s.params))];
    HearInitialize(s, told, read);
  }

  lemma StrayViolates(s: Setup, id: RequestId)
    requires Lawful(s.lib) && Compatible(s) && WouldInitialize(s) && !CanonicalId(id)
    ensures !Quiet(WireNext(s.lib, WireRun(s.lib, Start(s), [Begin(id), Deliver(Runtime)]), Deliver(Peer)).1)
  {
    StrayAnswered(s, id);
    var k := WireRun(s.lib, Start(s), [Begin(id), Deliver(Runtime)]);
    LandedSame(k.down[0]);
    var actions := WireNext(s.lib, k, Deliver(Peer)).1;
    assert actions == [Violation(INVALID_REQUEST)] && actions[0] in actions;
  }

  /** Over the wire a link that can be initialized is quiet exactly when every id it uses comes back as it was sent. */
  lemma WireQuietExactly(s: Setup, ids: iset<RequestId>)
    requires Lawful(s.lib) && Compatible(s) && WouldInitialize(s)
    ensures WireQuiet(s, ids) <==> forall id | id in ids :: CanonicalId(id)
  {
    if id :| id in ids && !CanonicalId(id) {
      StrayViolates(s, id);
      assert Uses([Begin(id), Deliver(Runtime)] + [Deliver(Peer)], ids);
    } else {
      forall steps, step | Uses(steps + [step], ids)
        ensures Quiet(WireNext(s.lib, WireRun(s.lib, Start(s), steps), step).1)
      {
        assert forall x | x in steps :: x in steps + [step];
        assert step in steps + [step];
        WireNoViolations(s, steps, step);
      }
    }
  }
}
