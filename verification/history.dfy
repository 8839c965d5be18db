/** The reasons of a whole run, from the first step on. */
module Histories {
  import opened Text
  import opened Json
  import opened Messages
  import opened Validate
  import opened Sessions
  import opened Links
  import opened WireLinks
  import opened Outcomes
  import opened Origins
  import opened Reasons

  ghost predicate KnownLink(wire: bool, s: Setup, steps: seq<Step>, k: Link) {
    KnownBoth(wire, s, steps, k.peer, k.runtime, k.up, k.down)
  }

  ghost predicate Starting(wire: bool, s: Setup, steps: seq<Step>, k: Link, id: RequestId) {
    && Begin(id) in steps
    && (|| Links.Asking(s, k, id)
        || (Refusing(k, id) && PROTOCOL_VERSION !in s.params.protocolVersions)
        || (Accepting(s, k, id) && KnownLink(wire, s, steps, Ahead(s, k))))
  }

  ghost predicate History(wire: bool, s: Setup, steps: seq<Step>, k: Link) {
    Ends(s, k) && (Silent(k) || (Open(s, k) && KnownLink(wire, s, steps, k))
                   || exists id :: Starting(wire, s, steps, k, id))
  }

  ghost predicate AllExplained(wire: bool, s: Setup, steps: seq<Step>, step: Step, actions: seq<Action>) {
    if step.Deliver? then forall x | x in actions :: Explained(wire, s, steps, step.to, x) else actions == []
  }

  /** A step keeps the history, and what it reports has its reason. */
  ghost predicate Continues(wire: bool, s: Setup, steps: seq<Step>, k: Link, step: Step) {
    && History(wire, s, steps + [step], Next(s.lib, k, step).0)
    && AllExplained(wire, s, steps, step, Next(s.lib, k, step).1)
  }

  // --------------------------------------------------------- before it is open

  lemma LinkLater(wire: bool, s: Setup, steps: seq<Step>, step: Step, k: Link)
    requires KnownLink(wire, s, steps, k)
    ensures KnownLink(wire, s, steps + [step], k)
  {
    BothLater(wire, s, steps, step, k.peer, k.runtime, k.up, k.down);
  }

  lemma StartingLater(wire: bool, s: Setup, steps: seq<Step>, step: Step, k: Link, id: RequestId)
    requires Starting(wire, s, steps, k, id)
    ensures Starting(wire, s, steps + [step], k, id)
  {
    if Accepting(s, k, id) && KnownLink(wire, s, steps, Ahead(s, k)) { LinkLater(wire, s, steps, step, Ahead(s, k)); }
  }

  lemma SilentContinues(wire: bool, s: Setup, steps: seq<Step>, k: Link, step: Step)
    requires Lawful(s.lib) && Compatible(s) && Ends(s, k) && Silent(k)
    ensures Continues(wire, s, steps, k, step)
  {
    assert k.up + [] == k.up && k.down + [] == k.down;
    match step
    case Begin(id) =>
      if Initialize(s.lib, k.peer, id).1.Ok? {
        SentOne(Request(id, "initialize", s.lib.writeParams(s.params)));
        assert k.peer.outgoing[id := "initialize"] == map[id := "initialize"];
        assert (steps + [step])[|steps|] == step;
        assert Starting(wire, s, steps + [step], Next(s.lib, k, step).0, id);
      }
    case Act(Peer, c) => PerformNothing(s.lib, k.peer, c);
    case Act(Runtime, c) => PerformNothing(s.lib, k.runtime, c);
    case Deliver(_) =>
  }

  lemma FreshKnown(wire: bool, s: Setup, steps: seq<Step>, k: Link)
    requires Untouched(k.peer) && Untouched(k.runtime) && k.up == [] && k.down == []
    ensures KnownLink(wire, s, steps, k)
  {
  }

  lemma AskingContinues(wire: bool, s: Setup, steps: seq<Step>, k: Link, step: Step, id: RequestId)
    requires Lawful(s.lib) && Compatible(s) && Ends(s, k) && Links.Asking(s, k, id) && Begin(id) in steps
    ensures Continues(wire, s, steps, k, step)
  {
    assert k.up + [] == k.up && k.down + [] == k.down;
    var next := Next(s.lib, k, step).0;
    StepAsking(s, k, step, id);
    if step == Deliver(Runtime) {
      AskingHeard(wire, s, steps, k, id);
    } else {
      assert next == k by {
        match step
        case Act(Peer, c) => PerformNothing(s.lib, k.peer, c);
        case Act(Runtime, c) => PerformNothing(s.lib, k.runtime, c);
        case _ =>
      }
      assert Starting(wire, s, steps + [step], next, id);
    }
  }

  lemma AskingHeard(wire: bool, s: Setup, steps: seq<Step>, k: Link, id: RequestId)
    requires Lawful(s.lib) && Compatible(s) && Ends(s, k) && Links.Asking(s, k, id) && Begin(id) in steps
    ensures Continues(wire, s, steps, k, Deliver(Runtime))
  {
    var next := Next(s.lib, k, Deliver(Runtime)).0;
    HearInitialize(s, k, id);
    InitializeExplained(wire, s, steps, k, id);
    if PROTOCOL_VERSION in s.params.protocolVersions {
      FreshJoined(s, Ahead(s, next));
      FreshKnown(wire, s, steps + [Deliver(Runtime)], Ahead(s, next));
    }
    assert Starting(wire, s, steps + [Deliver(Runtime)], next, id);
  }

  lemma InitializeExplained(wire: bool, s: Setup, steps: seq<Step>, k: Link, id: RequestId)
    requires Lawful(s.lib) && Compatible(s) && Ends(s, k) && Links.Asking(s, k, id)
    ensures forall x | x in Receive(s.lib, k.runtime, k.up[0]).1 :: Explained(wire, s, steps, Runtime, x)
  {
    assert s.lib.readParams(s.lib.writeParams(s.params)) == Some(s.params);
  }

  lemma RefusingContinues(wire: bool, s: Setup, steps: seq<Step>, k: Link, step: Step, id: RequestId)
    requires Lawful(s.lib) && Compatible(s) && Ends(s, k) && Refusing(k, id) && Begin(id) in steps
    requires PROTOCOL_VERSION !in s.params.protocolVersions
    ensures Continues(wire, s, steps, k, step)
  {
    assert k.up + [] == k.up && k.down + [] == k.down;
    match step
    case Deliver(Peer) =>
      assert k.peer.outgoing - {id} == map[];
      SentNone(Receive(s.lib, k.peer, k.down[0]).1);
      assert Silent(Next(s.lib, k, step).0);
    case Act(Peer, c) =>
      PerformNothing(s.lib, k.peer, c);
      assert Starting(wire, s, steps + [step], k, id);
    case Act(Runtime, c) =>
      PerformNothing(s.lib, k.runtime, c);
      assert Starting(wire, s, steps + [step], k, id);
    case _ => assert Starting(wire, s, steps + [step], k, id);
  }

  lemma AcceptingContinues(wire: bool, s: Setup, steps: seq<Step>, k: Link, step: Step, id: RequestId)
    requires Lawful(s.lib) && Compatible(s) && Ends(s, k) && Accepting(s, k, id)
    requires Begin(id) in steps && KnownLink(wire, s, steps, Ahead(s, k))
    ensures Continues(wire, s, steps, k, step)
  {
    assert k.up + [] == k.up;
    match step
    case Act(Runtime, c) => AcceptingActs(wire, s, steps, k, c, id);
    case Deliver(Peer) =>
      HearAcceptance(s, k, id);
      SentNone(Receive(s.lib, k.peer, k.down[0]).1);
      assert Next(s.lib, k, step).0 == Ahead(s, k);
      LinkLater(wire, s, steps, step, Ahead(s, k));
    case Act(Peer, c) =>
      PerformNothing(s.lib, k.peer, c);
      StartingLater(wire, s, steps, step, k, id);
    case _ => StartingLater(wire, s, steps, step, k, id);
  }

  lemma AcceptingActs(wire: bool, s: Setup, steps: seq<Step>, k: Link, c: Call, id: RequestId)
    requires Lawful(s.lib) && Compatible(s) && Ends(s, k) && Accepting(s, k, id)
    requires Begin(id) in steps && KnownLink(wire, s, steps, Ahead(s, k))
    ensures Continues(wire, s, steps, k, Act(Runtime, c))
  {
    var (t, sent) := Perform(s.lib, k.runtime, c);
    AcceptingAct(s, k, c, id);
    AheadActs(wire, s, steps, Ahead(s, k), c);
    AheadGrows(s, k, t, sent);
    StillAccepting(wire, s, steps + [Act(Runtime, c)], k.(runtime := t, down := k.down + sent), id);
  }

  lemma AheadGrows(s: Setup, k: Link, t: Session, sent: seq<Message>)
    requires k.down != []
    ensures Ahead(s, k.(runtime := t, down := k.down + sent))
            == Ahead(s, k).(runtime := t, down := Ahead(s, k).down + sent)
  {
    assert (k.down + sent)[1..] == k.down[1..] + sent;
  }

  lemma StillAccepting(wire: bool, s: Setup, steps: seq<Step>, k: Link, id: RequestId)
    requires Ends(s, k) && Accepting(s, k, id) && Begin(id) in steps && KnownLink(wire, s, steps, Ahead(s, k))
    ensures History(wire, s, steps, k)
  {
    assert Starting(wire, s, steps, k, id);
  }

  lemma AheadActs(wire: bool, s: Setup, steps: seq<Step>, k: Link, c: Call)
    requires KnownLink(wire, s, steps, k) && k.runtime.side == Runtime && k.peer.side == Peer
    ensures var (t, sent) := Perform(s.lib, k.runtime, c);
      KnownLink(wire, s, steps + [Act(Runtime, c)], k.(runtime := t, down := k.down + sent))
  {
    PerformKnown(wire, s, steps, k.runtime, k.peer, k.down, k.up, c);
  }

  // ------------------------------------------------------------------ open

  lemma OpenContinues(wire: bool, s: Setup, steps: seq<Step>, k: Link, step: Step)
    requires Lawful(s.lib) && Compatible(s) && Ends(s, k) && Open(s, k) && KnownLink(wire, s, steps, k)
    requires Next(s.lib, k, step) == Moved(wire, s.lib, Played(wire, s, steps), step)
    ensures Continues(wire, s, steps, k, step)
  {
    StepOpen(s, k, step);
    match step
    case Begin(id) =>
      assert k.up + [] == k.up;
      LinkLater(wire, s, steps, step, k);
    case Act(Peer, c) =>
      OpenAct(s, k, c);
      PerformKnown(wire, s, steps, k.peer, k.runtime, k.up, k.down, c);
    case Act(Runtime, c) =>
      OpenAct(s, k, c);
      PerformKnown(wire, s, steps, k.runtime, k.peer, k.down, k.up, c);
    case Deliver(Runtime) =>
      if k.up == [] { LinkLater(wire, s, steps, step, k); } else {
        DeliverKeeps(s.lib, k.peer, k.runtime, k.up, k.down, ToRuntime(s), ToPeer(s));
        DeliverReasoned(wire, s, steps, k.peer, k.runtime, k.up, k.down, ToRuntime(s), ToPeer(s));
      }
    case Deliver(Peer) =>
      if k.down == [] { LinkLater(wire, s, steps, step, k); } else { OpenDown(wire, s, steps, k); }
  }

  lemma OpenDown(wire: bool, s: Setup, steps: seq<Step>, k: Link)
    requires Lawful(s.lib) && Compatible(s) && Ends(s, k) && Open(s, k) && KnownLink(wire, s, steps, k)
    requires Next(s.lib, k, Deliver(Peer)) == Moved(wire, s.lib, Played(wire, s, steps), Deliver(Peer))
    requires k.down != []
    ensures Continues(wire, s, steps, k, Deliver(Peer))
  {
    var next := Next(s.lib, k, Deliver(Peer)).0;
    JoinedFlip(k.peer, k.runtime, k.up, k.down, ToRuntime(s), ToPeer(s));
    DeliverKeeps(s.lib, k.runtime, k.peer, k.down, k.up, ToPeer(s), ToRuntime(s));
    DeliverReasoned(wire, s, steps, k.runtime, k.peer, k.down, k.up, ToPeer(s), ToRuntime(s));
    JoinedFlip(k.runtime, next.peer, next.down, next.up, ToPeer(s), ToRuntime(s));
  }

  lemma HistoryContinues(wire: bool, s: Setup, steps: seq<Step>, k: Link, step: Step)
    requires Lawful(s.lib) && Compatible(s) && History(wire, s, steps, k)
    requires Next(s.lib, k, step) == Moved(wire, s.lib, Played(wire, s, steps), step)
    ensures Continues(wire, s, steps, k, step)
  {
    if Silent(k) {
      SilentContinues(wire, s, steps, k, step);
    } else if Open(s, k) && KnownLink(wire, s, steps, k) {
      OpenContinues(wire, s, steps, k, step);
    } else {
      var id :| Starting(wire, s, steps, k, id);
      if Links.Asking(s, k, id) {
        AskingContinues(wire, s, steps, k, step, id);
      } else if Refusing(k, id) && PROTOCOL_VERSION !in s.params.protocolVersions {
        RefusingContinues(wire, s, steps, k, step, id);
      } else {
        AcceptingContinues(wire, s, steps, k, step, id);
      }
    }
  }

  // ----------------------------------------------------------------- the wire

  lemma ErrorReads(target: Option<RequestId>, e: ErrorObject)
    requires target.Some? ==> CanonicalId(target.value)
    ensures Landed(Error(target, e)).Error? && Landed(Error(target, e)).target == target
    ensures ReadAs(true, e, Landed(Error(target, e)).error)
  {
    var fields := ToValue(Error(target, e)).fields;
    ErrorRoundTrip(e);
    if target.Some? { IdRoundTrip(target.value); }
    assert fields["jsonrpc"] == String("2.0") && fields["error"] == ErrorValue(e);
    assert fields["id"] == if target.Some? then IdValue(target.value) else Null;
    assert ParseValue(Object(fields)) == ParseError(fields);
  }

  /** A message that arrived has the reasons of the one that was sent. */
  lemma BackRead(s: Setup, steps: seq<Step>, a: Session, m: Message)
    requires Back(true, s, steps, a, m) && Tidy(m) && m.Error?
    ensures Back(true, s, steps, a, Landed(m))
  {
    ErrorReads(m.target, m.error);
    if m.target.Some? {
      var id, read := m.target.value, Landed(m).error;
      var j: nat, params: map<string, Value> :|
        j < |steps| && AnsweredAt(true, s, steps, j, a.side, Request(id, a.outgoing[id], params), Failed(m.error));
      assert AnsweredAt(true, s, steps, j, a.side, Request(id, a.outgoing[id], params), Failed(read));
    }
  }

  lemma HeadKnown(s: Setup, steps: seq<Step>, a: Session, b: Session, ab: seq<Message>, ba: seq<Message>)
    requires KnownBoth(true, s, steps, a, b, ab, ba) && ab != [] && Tidy(ab[0])
    requires (ab[0].Request? || ab[0].Notification?) ==> ab[0].verb != ""
    ensures KnownBoth(true, s, steps, a, b, WithHead(ab, Landed(ab[0])), ba)
  {
    var m := ab[0];
    if m.Error? {
      ErrorReads(m.target, m.error);
      assert Back(true, s, steps, b, m);
      BackRead(s, steps, b, m);
      forall x | x in WithHead(ab, Landed(m)) ensures Out(steps, a, x) && Back(true, s, steps, b, x) {
        assert x == Landed(m) || x in ab;
      }
    } else {
      LandedSame(m);
      assert WithHead(ab, m) == ab;
    }
  }

  lemma OpenRead(s: Setup, steps: seq<Step>, k: Link, step: Step)
    requires Open(s, k) && TidyLink(k) && KnownLink(true, s, steps, k)
    ensures KnownLink(true, s, steps, Arrived(k, step))
  {
    if step == Deliver(Runtime) && k.up != [] {
      GateVerb(s.lib, Runtime, s.params, s.runtimeDirection, ToRuntime(s), k.up);
      HeadKnown(s, steps, k.peer, k.runtime, k.up, k.down);
    } else if step == Deliver(Peer) && k.down != [] {
      GateVerb(s.lib, Peer, s.params, s.peerDirection, ToPeer(s), k.down);
      HeadKnown(s, steps, k.runtime, k.peer, k.down, k.up);
    }
  }

  lemma GateVerb(lib: Serde, side: Side, p: InitializeParams, direction: Direction, gate: Gate, ms: seq<Message>)
    requires ValidParams(p) && gate == GateOf(lib, side, Some(p), direction)
    requires ms != [] && forall m | m in ms :: gate(m)
    ensures (ms[0].Request? || ms[0].Notification?) ==> ms[0].verb != ""
  {
    assert gate(ms[0]);
    if ms[0].Request? || ms[0].Notification? { GoodNamed(lib, side, p, direction, ms[0]); }
  }

  lemma HistoryRead(s: Setup, steps: seq<Step>, k: Link, step: Step)
    requires History(true, s, steps, k) && TidyLink(k)
    ensures History(true, s, steps, Arrived(k, step))
  {
    if Open(s, k) && KnownLink(true, s, steps, k) {
      OpenArrival(s, k, step);
      OpenRead(s, steps, k, step);
    } else if !Silent(k) {
      var id :| Starting(true, s, steps, k, id);
      if Refusing(k, id) {
        RefusalArrival(k, step, id);
        assert Starting(true, s, steps, Arrived(k, step), id);
      } else {
        SameArrival(k, step);
      }
    }
  }

  // ----------------------------------------------------------------- all runs

  predicate Permitted(wire: bool, steps: seq<Step>) {
    wire ==> forall x | x in steps :: Canonically(x)
  }

  lemma RunHistory(wire: bool, s: Setup, steps: seq<Step>, step: Step)
    requires Lawful(s.lib) && Compatible(s) && Permitted(wire, steps) && History(wire, s, steps, Played(wire, s, steps))
    ensures Continues(wire, s, steps, Found(wire, Played(wire, s, steps), step), step)
  {
    var k := Played(wire, s, steps);
    if wire {
      PlayedRuns(s, steps);
      WireNoViolations(s, steps, Deliver(Peer));
      HistoryRead(s, steps, k, step);
    }
    HistoryContinues(wire, s, steps, Found(wire, k, step), step);
  }

  lemma {:induction false} HistoryHolds(wire: bool, s: Setup, steps: seq<Step>)
    requires Lawful(s.lib) && Compatible(s) && Permitted(wire, steps)
    ensures History(wire, s, steps, Played(wire, s, steps))
  {
    if steps != [] {
      var before, step := steps[..|steps| - 1], steps[|steps| - 1];
      assert steps == before + [step];
      HistoryHolds(wire, s, before);
      RunHistory(wire, s, before, step);
      PlayedSnoc(wire, s, before, step);
    } else {
      assert Silent(Start(s));
    }
  }

  /** In every interleaving of calls, ticks and deliveries, what an end reports has its reason in the steps before. */
  lemma ReportsExplained(s: Setup, steps: seq<Step>, side: Side, x: Action)
    requires Lawful(s.lib) && Compatible(s) && x in Next(s.lib, Run(s.lib, Start(s), steps), Deliver(side)).1
    ensures Explained(false, s, steps, side, x)
  {
    HistoryHolds(false, s, steps);
    RunHistory(false, s, steps, Deliver(side));
    PlayedRuns(s, steps);
  }

  /** The same over the wire. */
  lemma WireReportsExplained(s: Setup, steps: seq<Step>, side: Side, x: Action)
    requires Lawful(s.lib) && Compatible(s) && forall step | step in steps :: Canonically(step)
    requires x in WireNext(s.lib, WireRun(s.lib, Start(s), steps), Deliver(side)).1
    ensures Explained(true, s, steps, side, x)
  {
    HistoryHolds(true, s, steps);
    RunHistory(true, s, steps, Deliver(side));
    PlayedRuns(s, steps);
  }

  /** A request is resolved with what the owner of the other end answered to it: the owner of this end asked, the owner
    * of the other end was handed just that request, and then gave just that answer. */
  lemma ResolvedWithAnswer(s: Setup, steps: seq<Step>, side: Side, id: RequestId, verb: string, outcome: Outcome)
    returns (i: nat, h: nat, j: nat, params: map<string, Value>)
    requires Lawful(s.lib) && Compatible(s) && verb != "initialize" && verb != "ping" && verb != "shutdown"
    requires Resolved(id, verb, outcome) in Next(s.lib, Run(s.lib, Start(s), steps), Deliver(side)).1
    ensures i < h < j < |steps| && steps[i] == Act(side, CallSend(id, verb, params))
    ensures steps[h] == Deliver(Other(side))
    ensures HandleRequest(Request(id, verb, params)) in Next(s.lib, Run(s.lib, Start(s), steps[..h]), steps[h]).1
    ensures steps[j] == Act(Other(side), match outcome
                                         case Returned(value) => CallComplete(id, value)
                                         case Failed(error) => CallFail(id, error))
  {
    ReportsExplained(s, steps, side, Resolved(id, verb, outcome));
    j, params :| j < |steps| && AnsweredAt(false, s, steps, j, side, Request(id, verb, params), outcome);
    h :| h < j && HandedAt(false, s, steps, h, side, Request(id, verb, params));
    i :| i < h && steps[i] == Act(side, CallSend(id, verb, params));
    PlayedRuns(s, steps[..h]);
  }

  /** A request handed to an owner is one that the owner of the other end asked for, with these parameters. */
  lemma HandedWasAsked(s: Setup, steps: seq<Step>, side: Side, m: Message) returns (i: nat)
    requires Lawful(s.lib) && Compatible(s)
    requires HandleRequest(m) in Next(s.lib, Run(s.lib, Start(s), steps), Deliver(side)).1
    ensures m.Request? && i < |steps| && steps[i] == Act(Other(side), CallSend(m.id, m.verb, m.params))
  {
    ReportsExplained(s, steps, side, HandleRequest(m));
    i :| i < |steps| && steps[i] == Act(Other(side), CallSend(m.id, m.verb, m.params));
  }
}
