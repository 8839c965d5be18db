/** Where the reports of a connection come from: what its owners are told is what the owner of the other end did. */
module Outcomes {
  import opened Text
  import opened Json
  import opened Messages
  import opened Validate
  import opened Sessions
  import opened Links
  import opened WireLinks

  // --------------------------------------------------------------------- runs

  /** The ends hold each other's messages, or read them from JSON. */
  function Found(wire: bool, k: Link, step: Step): Link {
    if wire then Arrived(k, step) else k
  }

  function Moved(wire: bool, lib: Serde, k: Link, step: Step): (Link, seq<Action>) {
    Next(lib, Found(wire, k, step), step)
  }

  function Played(wire: bool, s: Setup, steps: seq<Step>): Link {
    if steps == [] then Start(s) else Moved(wire, s.lib, Played(wire, s, steps[..|steps| - 1]), steps[|steps| - 1]).0
  }

  /** What a step of a run reported. */
  function Report(wire: bool, s: Setup, steps: seq<Step>, h: nat): seq<Action>
    requires h < |steps|
  {
    Moved(wire, s.lib, Played(wire, s, steps[..h]), steps[h]).1
  }

  lemma {:induction false} PlayedRuns(s: Setup, steps: seq<Step>)
    ensures Played(false, s, steps) == Run(s.lib, Start(s), steps)
    ensures Played(true, s, steps) == WireRun(s.lib, Start(s), steps)
  {
    if steps != [] { PlayedRuns(s, steps[..|steps| - 1]); }
  }

  lemma PlayedSnoc(wire: bool, s: Setup, steps: seq<Step>, step: Step)
    ensures Played(wire, s, steps + [step]) == Moved(wire, s.lib, Played(wire, s, steps), step).0
    ensures Report(wire, s, steps + [step], |steps|) == Moved(wire, s.lib, Played(wire, s, steps), step).1
  {
    assert (steps + [step])[..|steps|] == steps;
  }

  // ------------------------------------------------------------------ reasons

  function Other(side: Side): Side {
    if side == Peer then Runtime else Peer
  }

  predicate Plainly(verb: string) {
    verb != "initialize" && verb != "ping" && verb != "shutdown"
  }

  /** Before the step `n`, the owner of this side asked for the request. */
  ghost predicate Asked(steps: seq<Step>, n: nat, side: Side, m: Message)
    requires m.Request?
  {
    exists i :: 0 <= i < n && n <= |steps| && steps[i] == Act(side, CallSend(m.id, m.verb, m.params))
  }

  /** Before the step `n`, the owner of the other side was handed the request that the owner of this side had asked
    * for. */
  ghost predicate Handed(wire: bool, s: Setup, steps: seq<Step>, n: nat, side: Side, m: Message)
    requires m.Request?
  {
    exists h: nat :: h < n && n <= |steps| && HandedAt(wire, s, steps, h, side, m)
  }

  ghost predicate HandedAt(wire: bool, s: Setup, steps: seq<Step>, h: nat, side: Side, m: Message)
    requires m.Request? && h < |steps|
  {
    Asked(steps, h, side, m) && steps[h] == Deliver(Other(side)) && HandleRequest(m) in Report(wire, s, steps, h)
  }

  /** An error as it is read; JSON does not tell null data from none. */
  predicate ReadAs(wire: bool, e: ErrorObject, read: ErrorObject) {
    read == e || (wire && e.data == Some(Null) && read == e.(data := None))
  }

  /** The call by which an owner answers a request with this outcome. */
  predicate Gives(wire: bool, call: Call, id: RequestId, outcome: Outcome) {
    match outcome
    case Returned(value) => call == CallComplete(id, value)
    case Failed(error) => call.CallFail? && call.id == id && ReadAs(wire, call.error, error)
  }

  /** The owner of the other side gave this outcome, after it was handed the request. */
  ghost predicate Answered(wire: bool, s: Setup, steps: seq<Step>, side: Side, id: RequestId, verb: string,
                           outcome: Outcome) {
    exists j: nat, params: map<string, Value> ::
      j < |steps| && AnsweredAt(wire, s, steps, j, side, Request(id, verb, params), outcome)
  }

  ghost predicate AnsweredAt(wire: bool, s: Setup, steps: seq<Step>, j: nat, side: Side, m: Message, outcome: Outcome)
    requires m.Request? && j < |steps|
  {
    && steps[j].Act? && steps[j].side == Other(side) && Gives(wire, steps[j].call, m.id, outcome)
    && Handed(wire, s, steps, j, side, m)
  }

  /** The owner asked for the request, or a tick of its own made it. */
  ghost predicate Meant(steps: seq<Step>, side: Side, m: Message)
    requires m.Request?
  {
    Asked(steps, |steps|, side, m) || (m.verb == "ping" && m.params == map[] && Act(side, CallTick(m.id)) in steps)
  }

  ghost predicate MeantSome(steps: seq<Step>, side: Side, id: RequestId, verb: string) {
    exists params: map<string, Value> :: Meant(steps, side, Request(id, verb, params))
  }

  /** What the owner of an end is told has its reason in the steps before. */
  ghost predicate Explained(wire: bool, s: Setup, steps: seq<Step>, side: Side, x: Action) {
    match x
    case Send(_) => true
    case HandleRequest(m) => m.Request? && Plainly(m.verb) && Asked(steps, |steps|, Other(side), m)
    case HandleNotification(m) => m.Notification? && Act(Other(side), CallNotify(m.verb, m.params)) in steps
    case Resolved(id, verb, outcome) =>
      if verb == "initialize" then side == Peer && Begin(id) in steps && Greeted(s, outcome)
      else if verb == "ping" || verb == "shutdown" then
        outcome == Returned(Object(map[])) && MeantSome(steps, side, id, verb)
      else Answered(wire, s, steps, side, id, verb, outcome)
    case Violation(_) => false
    case Close(reason) => reason == Some("initialization failed") || Dismissed(steps, Other(side), reason)
  }

  /** The runtime's own result, or its refusal of a peer that speaks another version. */
  predicate Greeted(s: Setup, outcome: Outcome) {
    match outcome
    case Returned(value) => value == s.lib.writeResult(Negotiated(s.params, s.config))
    case Failed(_) => PROTOCOL_VERSION !in s.params.protocolVersions
  }

  ghost predicate Dismissed(steps: seq<Step>, side: Side, reason: Option<string>) {
    exists m: Message :: m.Request? && m.verb == "shutdown" && Asked(steps, |steps|, side, m)
                         && reason == AsStr(Get(m.params, "reason"))
  }

  // ---------------------------------------------------------------- invariant

  function OutcomeOf(m: Message): Outcome
    requires m.Success? || m.Error?
  {
    if m.Success? then Returned(m.result) else Failed(m.error)
  }

  /** A message on its way out is meant, and a request of it pending. */
  ghost predicate Out(steps: seq<Step>, a: Session, m: Message) {
    && (m.Request? ==> m.id in a.outgoing && a.outgoing[m.id] == m.verb && Meant(steps, a.side, m))
    && (m.Notification? ==> Act(a.side, CallNotify(m.verb, m.params)) in steps)
  }

  /** A request being handled was handed over and is pending. */
  ghost predicate In(wire: bool, s: Setup, steps: seq<Step>, a: Session, id: RequestId, verb: string) {
    && id in a.outgoing && a.outgoing[id] == verb && Plainly(verb)
    && exists params: map<string, Value> :: Handed(wire, s, steps, |steps|, a.side, Request(id, verb, params))
  }

  /** A response on its way back is the answer that the owner gave, or the answer to a ping or a shutdown. */
  ghost predicate Back(wire: bool, s: Setup, steps: seq<Step>, a: Session, m: Message) {
    Links.Answered(m).Some? ==>
      var id := Links.Answered(m).value;
      && id in a.outgoing
      && if Plainly(a.outgoing[id]) then Answered(wire, s, steps, a.side, id, a.outgoing[id], OutcomeOf(m))
         else m == Success(id, Object(map[])) && MeantSome(steps, a.side, id, a.outgoing[id])
  }

  ghost predicate Known(wire: bool, s: Setup, steps: seq<Step>, a: Session, b: Session, ab: seq<Message>,
                        ba: seq<Message>) {
    && (forall m | m in ab :: Out(steps, a, m))
    && (forall id | id in b.incoming :: In(wire, s, steps, a, id, b.incoming[id]))
    && (forall m | m in ba :: Back(wire, s, steps, a, m))
  }

  ghost predicate KnownBoth(wire: bool, s: Setup, steps: seq<Step>, a: Session, b: Session, ab: seq<Message>,
                            ba: seq<Message>) {
    Known(wire, s, steps, a, b, ab, ba) && Known(wire, s, steps, b, a, ba, ab)
  }

  // -------------------------------------------------------------- later steps

  lemma AskedLater(steps: seq<Step>, x: Step, n: nat, side: Side, m: Message)
    requires m.Request? && Asked(steps, n, side, m)
    ensures Asked(steps + [x], n, side, m)
  {
    var i :| 0 <= i < n && n <= |steps| && steps[i] == Act(side, CallSend(m.id, m.verb, m.params));
    assert (steps + [x])[i] == steps[i];
  }

  lemma AskedWithin(steps: seq<Step>, n: nat, more: nat, side: Side, m: Message)
    requires m.Request? && Asked(steps, n, side, m) && n <= more <= |steps|
    ensures Asked(steps, more, side, m)
  {
  }

  lemma HandedLater(wire: bool, s: Setup, steps: seq<Step>, x: Step, n: nat, side: Side, m: Message)
    requires m.Request? && Handed(wire, s, steps, n, side, m)
    ensures Handed(wire, s, steps + [x], n, side, m) && Handed(wire, s, steps + [x], |steps| + 1, side, m)
  {
    var h: nat :| h < n && n <= |steps| && HandedAt(wire, s, steps, h, side, m);
    AskedLater(steps, x, h, side, m);
    assert (steps + [x])[..h] == steps[..h] && (steps + [x])[h] == steps[h];
    assert HandedAt(wire, s, steps + [x], h, side, m);
  }

  lemma AnsweredLater(wire: bool, s: Setup, steps: seq<Step>, x: Step, side: Side, id: RequestId, verb: string,
                      outcome: Outcome)
    requires Answered(wire, s, steps, side, id, verb, outcome)
    ensures Answered(wire, s, steps + [x], side, id, verb, outcome)
  {
    var j: nat, params: map<string, Value> :|
      j < |steps| && AnsweredAt(wire, s, steps, j, side, Request(id, verb, params), outcome);
    HandedLater(wire, s, steps, x, j, side, Request(id, verb, params));
    assert (steps + [x])[j] == steps[j];
    assert AnsweredAt(wire, s, steps + [x], j, side, Request(id, verb, params), outcome);
  }

  lemma MeantLater(steps: seq<Step>, x: Step, side: Side, m: Message)
    requires m.Request? && Meant(steps, side, m)
    ensures Meant(steps + [x], side, m)
  {
    if Asked(steps, |steps|, side, m) {
      AskedLater(steps, x, |steps|, side, m);
      AskedWithin(steps + [x], |steps|, |steps| + 1, side, m);
    }
  }

  lemma MeantSomeLater(steps: seq<Step>, x: Step, side: Side, id: RequestId, verb: string)
    requires MeantSome(steps, side, id, verb)
    ensures MeantSome(steps + [x], side, id, verb)
  {
    var params: map<string, Value> :| Meant(steps, side, Request(id, verb, params));
    MeantLater(steps, x, side, Request(id, verb, params));
  }

  lemma OutLater(steps: seq<Step>, x: Step, a: Session, m: Message)
    requires Out(steps, a, m)
    ensures Out(steps + [x], a, m)
  {
    if m.Request? { MeantLater(steps, x, a.side, m); }
  }

  lemma InLater(wire: bool, s: Setup, steps: seq<Step>, x: Step, a: Session, id: RequestId, verb: string)
    requires In(wire, s, steps, a, id, verb)
    ensures In(wire, s, steps + [x], a, id, verb)
  {
    var params: map<string, Value> :| Handed(wire, s, steps, |steps|, a.side, Request(id, verb, params));
    HandedLater(wire, s, steps, x, |steps|, a.side, Request(id, verb, params));
  }

  lemma BackLater(wire: bool, s: Setup, steps: seq<Step>, x: Step, a: Session, m: Message)
    requires Back(wire, s, steps, a, m)
    ensures Back(wire, s, steps + [x], a, m)
  {
    if Links.Answered(m).Some? {
      var id := Links.Answered(m).value;
      if Plainly(a.outgoing[id]) {
        AnsweredLater(wire, s, steps, x, a.side, id, a.outgoing[id], OutcomeOf(m));
      } else {
        MeantSomeLater(steps, x, a.side, id, a.outgoing[id]);
      }
    }
  }

  lemma KnownLater(wire: bool, s: Setup, steps: seq<Step>, x: Step, a: Session, b: Session, ab: seq<Message>,
                   ba: seq<Message>)
    requires Known(wire, s, steps, a, b, ab, ba)
    ensures Known(wire, s, steps + [x], a, b, ab, ba)
  {
    forall m | m in ab ensures Out(steps + [x], a, m) { OutLater(steps, x, a, m); }
    forall id | id in b.incoming ensures In(wire, s, steps + [x], a, id, b.incoming[id]) {
      InLater(wire, s, steps, x, a, id, b.incoming[id]);
    }
    forall m | m in ba ensures Back(wire, s, steps + [x], a, m) { BackLater(wire, s, steps, x, a, m); }
  }
}
