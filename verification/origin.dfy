/** Every step of a connection keeps its reasons. */
module Origins {
  import opened Text
  import opened Json
  import opened Messages
  import opened Sessions
  import opened Links
  import opened Outcomes

  // ------------------------------------------------------------------- tables

  predicate SameTables(a: Session, a': Session) {
    a'.side == a.side && a'.outgoing == a.outgoing && a'.incoming == a.incoming
  }

  lemma KnownSame(wire: bool, s: Setup, steps: seq<Step>, a: Session, a': Session, b: Session, ab: seq<Message>,
                  ba: seq<Message>)
    requires KnownBoth(wire, s, steps, a, b, ab, ba) && SameTables(a, a')
    ensures KnownBoth(wire, s, steps, a', b, ab, ba)
  {
    forall m | m in ab ensures Out(steps, a', m) && Back(wire, s, steps, b, m) {
      assert Out(steps, a, m);
    }
    forall m | m in ba ensures Back(wire, s, steps, a', m) { assert Back(wire, s, steps, a, m); }
    forall id | id in b.incoming ensures In(wire, s, steps, a', id, b.incoming[id]) {
      assert In(wire, s, steps, a, id, b.incoming[id]);
    }
  }

  lemma BothLater(wire: bool, s: Setup, steps: seq<Step>, x: Step, a: Session, b: Session, ab: seq<Message>,
                  ba: seq<Message>)
    requires KnownBoth(wire, s, steps, a, b, ab, ba)
    ensures KnownBoth(wire, s, steps + [x], a, b, ab, ba)
  {
    KnownLater(wire, s, steps, x, a, b, ab, ba);
    KnownLater(wire, s, steps, x, b, a, ba, ab);
  }

  function Requesting(a: Session, m: Message): Session
    requires m.Request?
  {
    a.(outgoing := a.outgoing[m.id := m.verb])
  }

  lemma KnownSend(wire: bool, s: Setup, steps: seq<Step>, a: Session, b: Session, ab: seq<Message>, ba: seq<Message>,
                  m: Message)
    requires KnownBoth(wire, s, steps, a, b, ab, ba)
    requires m.Request? && m.id !in a.outgoing && Meant(steps, a.side, m)
    ensures KnownBoth(wire, s, steps, Requesting(a, m), b, ab + [m], ba)
  {
    var a' := Requesting(a, m);
    forall x | x in ab + [m] ensures Out(steps, a', x) && Back(wire, s, steps, b, x) {
      if x in ab { assert Out(steps, a, x); } else { assert x == m; }
    }
    forall x | x in ba ensures Back(wire, s, steps, a', x) { assert Back(wire, s, steps, a, x); }
    forall id | id in b.incoming ensures In(wire, s, steps, a', id, b.incoming[id]) {
      assert In(wire, s, steps, a, id, b.incoming[id]);
    }
  }

  lemma KnownNotify(wire: bool, s: Setup, steps: seq<Step>, a: Session, b: Session, ab: seq<Message>,
                    ba: seq<Message>, m: Message)
    requires KnownBoth(wire, s, steps, a, b, ab, ba)
    requires m.Notification? && Act(a.side, CallNotify(m.verb, m.params)) in steps
    ensures KnownBoth(wire, s, steps, a, b, ab + [m], ba)
  {
  }

  lemma KnownDrop(wire: bool, s: Setup, steps: seq<Step>, a: Session, b: Session, ab: seq<Message>, ba: seq<Message>)
    requires KnownBoth(wire, s, steps, a, b, ab, ba) && ab != []
    ensures KnownBoth(wire, s, steps, a, b, ab[1..], ba)
  {
    assert forall m | m in ab[1..] :: m in ab;
  }

  function Answering(a: Session, id: RequestId): Session {
    a.(incoming := a.incoming - {id})
  }

  /** The owner answers a request it was handed. */
  lemma AnsweredNow(wire: bool, s: Setup, steps: seq<Step>, a: Session, b: Session, id: RequestId, verb: string,
                    call: Call, outcome: Outcome)
    requires In(wire, s, steps, b, id, verb) && a.side == Other(b.side) && Gives(wire, call, id, outcome)
    ensures Outcomes.Answered(wire, s, steps + [Act(a.side, call)], b.side, id, verb, outcome)
  {
    var step := Act(a.side, call);
    var params: map<string, Value> :| Handed(wire, s, steps, |steps|, b.side, Request(id, verb, params));
    HandedLater(wire, s, steps, step, |steps|, b.side, Request(id, verb, params));
    assert (steps + [step])[|steps|] == step;
    assert AnsweredAt(wire, s, steps + [step], |steps|, b.side, Request(id, verb, params), outcome);
  }

  lemma KnownAnswer(wire: bool, s: Setup, steps: seq<Step>, a: Session, b: Session, ab: seq<Message>,
                    ba: seq<Message>, id: RequestId, call: Call, m: Message)
    requires KnownBoth(wire, s, steps, a, b, ab, ba) && a.side == Other(b.side)
    requires id in a.incoming && Links.Answered(m) == Some(id) && Gives(wire, call, id, OutcomeOf(m))
    ensures KnownBoth(wire, s, steps + [Act(a.side, call)], Answering(a, id), b, ab + [m], ba)
  {
    var step, verb := Act(a.side, call), a.incoming[id];
    assert In(wire, s, steps, b, id, verb);
    AnsweredNow(wire, s, steps, a, b, id, verb, call, OutcomeOf(m));
    BothLater(wire, s, steps, step, a, b, ab, ba);
    AnswerTables(wire, s, steps + [step], a, b, ab, ba, id, m);
  }

  lemma AnswerTables(wire: bool, s: Setup, steps: seq<Step>, a: Session, b: Session, ab: seq<Message>,
                     ba: seq<Message>, id: RequestId, m: Message)
    requires KnownBoth(wire, s, steps, a, b, ab, ba) && Links.Answered(m) == Some(id)
    requires id in b.outgoing && Plainly(b.outgoing[id])
    requires Outcomes.Answered(wire, s, steps, b.side, id, b.outgoing[id], OutcomeOf(m))
    ensures KnownBoth(wire, s, steps, Answering(a, id), b, ab + [m], ba)
  {
    var a' := Answering(a, id);
    forall x | x in ab + [m] ensures Out(steps, a', x) && Back(wire, s, steps, b, x) {
      if x in ab { assert Out(steps, a, x); } else { assert x == m; }
    }
    forall x | x in ba ensures Back(wire, s, steps, a', x) { assert Back(wire, s, steps, a, x); }
    forall i | i in b.incoming ensures In(wire, s, steps, a', i, b.incoming[i]) {
      assert In(wire, s, steps, a, i, b.incoming[i]);
    }
  }

  // ---------------------------------------------------------------- arrivals

  /** A ping or a shutdown is answered on the spot. */
  lemma KnownEcho(wire: bool, s: Setup, steps: seq<Step>, a: Session, b: Session, ab: seq<Message>, ba: seq<Message>)
    requires KnownBoth(wire, s, steps, a, b, ab, ba)
    requires ab != [] && ab[0].Request? && (ab[0].verb == "ping" || ab[0].verb == "shutdown")
    ensures KnownBoth(wire, s, steps, a, b, ab[1..], ba + [Success(ab[0].id, Object(map[]))])
  {
    var m, reply := ab[0], Success(ab[0].id, Object(map[]));
    assert Out(steps, a, m);
    assert Meant(steps, a.side, Request(m.id, m.verb, m.params));
    assert Back(wire, s, steps, a, reply);
    KnownDrop(wire, s, steps, a, b, ab, ba);
    forall x | x in ba + [reply] ensures Out(steps, b, x) && Back(wire, s, steps, a, x) {
      if x !in ba { assert x == reply; }
    }
  }

  function Taking(b: Session, m: Message): Session
    requires m.Request?
  {
    b.(incoming := b.incoming[m.id := m.verb])
  }

  /** A request is handed to the owner. */
  lemma KnownAccept(wire: bool, s: Setup, steps: seq<Step>, a: Session, b: Session, ab: seq<Message>,
                    ba: seq<Message>)
    requires KnownBoth(wire, s, steps, a, b, ab, ba) && b.side == Other(a.side)
    requires ab != [] && ab[0].Request? && Plainly(ab[0].verb)
    requires HandleRequest(ab[0]) in Moved(wire, s.lib, Played(wire, s, steps), Deliver(b.side)).1
    ensures KnownBoth(wire, s, steps + [Deliver(b.side)], a, Taking(b, ab[0]), ab[1..], ba)
  {
    var m, later := ab[0], steps + [Deliver(b.side)];
    assert Out(steps, a, m);
    AskedLater(steps, Deliver(b.side), |steps|, a.side, m);
    PlayedSnoc(wire, s, steps, Deliver(b.side));
    assert later[|steps|] == Deliver(b.side);
    assert HandedAt(wire, s, later, |steps|, a.side, m);
    assert Handed(wire, s, later, |later|, a.side, Request(m.id, m.verb, m.params));
    assert In(wire, s, later, a, m.id, m.verb);
    BothLater(wire, s, steps, Deliver(b.side), a, b, ab, ba);
    KnownDrop(wire, s, later, a, b, ab, ba);
    TakenTables(wire, s, later, a, b, ab[1..], ba, m);
  }

  lemma TakenTables(wire: bool, s: Setup, steps: seq<Step>, a: Session, b: Session, ab: seq<Message>,
                    ba: seq<Message>, m: Message)
    requires KnownBoth(wire, s, steps, a, b, ab, ba) && m.Request? && In(wire, s, steps, a, m.id, m.verb)
    ensures KnownBoth(wire, s, steps, a, Taking(b, m), ab, ba)
  {
    var b' := Taking(b, m);
    forall x | x in ba ensures Out(steps, b', x) && Back(wire, s, steps, a, x) { assert Out(steps, b, x); }
    forall x | x in ab ensures Back(wire, s, steps, b', x) { assert Back(wire, s, steps, b, x); }
    forall i | i in a.incoming ensures In(wire, s, steps, b', i, a.incoming[i]) {
      assert In(wire, s, steps, b, i, a.incoming[i]);
    }
  }

  lemma {:induction false} CountedRequest(ms: seq<Message>, m: Message)
    requires m in ms && m.Request?
    ensures Requests(ms, m.id) >= 1
  {
    if ms[0] != m { CountedRequest(ms[1..], m); }
  }

  lemma {:induction false} CountedResponse(ms: seq<Message>, m: Message)
    requires m in ms && Links.Answered(m).Some?
    ensures Responses(ms, Links.Answered(m).value) >= 1
  {
    if ms[0] != m { CountedResponse(ms[1..], m); }
  }

  function Freeing(b: Session, key: RequestId): Session {
    b.(outgoing := b.outgoing - {key})
  }

  /** A response frees its id, which is in no other place. */
  lemma KnownResponse(wire: bool, s: Setup, steps: seq<Step>, a: Session, b: Session, ab: seq<Message>,
                      ba: seq<Message>, key: RequestId)
    requires KnownBoth(wire, s, steps, a, b, ab, ba) && Tracked(b, a, ba, ab, key)
    requires ab != [] && Links.Answered(ab[0]) == Some(key)
    ensures KnownBoth(wire, s, steps, a, Freeing(b, key), ab[1..], ba)
  {
    var b' := Freeing(b, key);
    KnownDrop(wire, s, steps, a, b, ab, ba);
    forall m | m in ba ensures Out(steps, b', m) && Back(wire, s, steps, a, m) {
      assert Out(steps, b, m);
      if m.Request? { CountedRequest(ba, m); }
    }
    forall m | m in ab[1..] ensures Back(wire, s, steps, b', m) {
      assert Back(wire, s, steps, b, m);
      if Links.Answered(m).Some? { CountedResponse(ab[1..], m); }
    }
    forall i | i in a.incoming ensures In(wire, s, steps, b', i, a.incoming[i]) {
      assert In(wire, s, steps, b, i, a.incoming[i]);
    }
  }
}
