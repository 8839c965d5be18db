/** In every run, over the wire or not, every report of an end has its reason in the steps before. */
module Reasons {
  import opened Text
  import opened Json
  import opened Messages
  import opened Validate
  import opened Sessions
  import opened Links
  import opened Outcomes
  import opened Origins

  // ----------------------------------------------------------------- one call

  lemma JustMeant(steps: seq<Step>, side: Side, id: RequestId, verb: string, params: map<string, Value>, call: Call)
    requires call == CallSend(id, verb, params) || (call == CallTick(id) && verb == "ping" && params == map[])
    ensures Meant(steps + [Act(side, call)], side, Request(id, verb, params))
  {
    assert (steps + [Act(side, call)])[|steps|] == Act(side, call);
  }

  lemma SendKnown(wire: bool, s: Setup, steps: seq<Step>, a: Session, b: Session, ab: seq<Message>, ba: seq<Message>,
                  id: RequestId, verb: string, params: map<string, Value>, call: Call)
    requires KnownBoth(wire, s, steps, a, b, ab, ba)
    requires call == CallSend(id, verb, params) || (call == CallTick(id) && verb == "ping" && params == map[])
    ensures var (t, r) := SendRequest(s.lib, a, id, verb, params);
      KnownBoth(wire, s, steps + [Act(a.side, call)], t, b, ab + SentBy(r), ba)
  {
    BothLater(wire, s, steps, Act(a.side, call), a, b, ab, ba);
    JustMeant(steps, a.side, id, verb, params, call);
    SentKnown(wire, s, steps + [Act(a.side, call)], a, b, ab, ba, id, verb, params);
  }

  lemma SentKnown(wire: bool, s: Setup, steps: seq<Step>, a: Session, b: Session, ab: seq<Message>, ba: seq<Message>,
                  id: RequestId, verb: string, params: map<string, Value>)
    requires KnownBoth(wire, s, steps, a, b, ab, ba) && Meant(steps, a.side, Request(id, verb, params))
    ensures var (t, r) := SendRequest(s.lib, a, id, verb, params); KnownBoth(wire, s, steps, t, b, ab + SentBy(r), ba)
  {
    if SendRequest(s.lib, a, id, verb, params).1.Ok? {
      SentOne(Request(id, verb, params));
      KnownSend(wire, s, steps, a, b, ab, ba, Request(id, verb, params));
    } else {
      assert ab + [] == ab;
    }
  }

  lemma TickKnown(wire: bool, s: Setup, steps: seq<Step>, a: Session, b: Session, ab: seq<Message>, ba: seq<Message>,
                  id: RequestId)
    requires KnownBoth(wire, s, steps, a, b, ab, ba)
    ensures var (t, actions) := OnTick(s.lib, a, id);
      KnownBoth(wire, s, steps + [Act(a.side, CallTick(id))], t, b, ab + Sent(actions), ba)
  {
    if a.phase == Initialized && a.direction == LocalSupervisesRemote && !a.activity && a.missed < 2 {
      var a' := a.(missed := a.missed + 1);
      TickPings(s.lib, a, id);
      KnownSame(wire, s, steps, a, a', b, ab, ba);
      SendKnown(wire, s, steps, a', b, ab, ba, id, "ping", map[], CallTick(id));
    } else {
      var (t, actions) := OnTick(s.lib, a, id);
      assert Sent(actions) == [] && ab + [] == ab;
      KnownSame(wire, s, steps, a, t, b, ab, ba);
      BothLater(wire, s, steps, Act(a.side, CallTick(id)), t, b, ab, ba);
    }
  }

  lemma NotifyKnown(wire: bool, s: Setup, steps: seq<Step>, a: Session, b: Session, ab: seq<Message>,
                    ba: seq<Message>, verb: string, params: map<string, Value>)
    requires KnownBoth(wire, s, steps, a, b, ab, ba)
    ensures KnownBoth(wire, s, steps + [Act(a.side, CallNotify(verb, params))], a, b,
                      ab + SentBy(SendNotification(a, verb, params)), ba)
  {
    var step := Act(a.side, CallNotify(verb, params));
    BothLater(wire, s, steps, step, a, b, ab, ba);
    if SendNotification(a, verb, params).Ok? {
      SentOne(Notification(verb, params));
      assert (steps + [step])[|steps|] == step;
      KnownNotify(wire, s, steps + [step], a, b, ab, ba, Notification(verb, params));
    } else {
      assert ab + [] == ab;
    }
  }

  /** Every call keeps the reasons. */
  lemma PerformKnown(wire: bool, s: Setup, steps: seq<Step>, a: Session, b: Session, ab: seq<Message>,
                     ba: seq<Message>, c: Call)
    requires KnownBoth(wire, s, steps, a, b, ab, ba) && a.side == Other(b.side)
    ensures var (t, sent) := Perform(s.lib, a, c);
      KnownBoth(wire, s, steps + [Act(a.side, c)], t, b, ab + sent, ba)
  {
    match c
    case CallSend(id, verb, params) => SendKnown(wire, s, steps, a, b, ab, ba, id, verb, params, c);
    case CallNotify(verb, params) => NotifyKnown(wire, s, steps, a, b, ab, ba, verb, params);
    case CallComplete(id, result) =>
      if id in a.incoming && result.Object? {
        SentOne(Success(id, result));
        KnownAnswer(wire, s, steps, a, b, ab, ba, id, c, Success(id, result));
      } else {
        assert ab + [] == ab;
        BothLater(wire, s, steps, Act(a.side, c), a, b, ab, ba);
      }
    case CallFail(id, error) =>
      if id in a.incoming {
        SentOne(Error(Some(id), error));
        KnownAnswer(wire, s, steps, a, b, ab, ba, id, c, Error(Some(id), error));
      } else {
        assert ab + [] == ab;
        BothLater(wire, s, steps, Act(a.side, c), a, b, ab, ba);
      }
    case CallTick(id) => TickKnown(wire, s, steps, a, b, ab, ba, id);
  }

  // ------------------------------------------------------------- one delivery

  /** What a delivery does when both ends are joined. */
  ghost predicate Reasoned(wire: bool, s: Setup, steps: seq<Step>, a: Session, b: Session, ab: seq<Message>,
                           ba: seq<Message>)
    requires ab != []
  {
    var (t, actions) := Receive(s.lib, b, ab[0]);
    && KnownBoth(wire, s, steps + [Deliver(b.side)], a, t, ab[1..], ba + Sent(actions))
    && forall x | x in actions :: Explained(wire, s, steps, b.side, x)
  }

  lemma DropReasoned(wire: bool, s: Setup, steps: seq<Step>, a: Session, b: Session, ab: seq<Message>,
                     ba: seq<Message>)
    requires KnownBoth(wire, s, steps, a, b, ab, ba) && ab != [] && b.phase == Closed
    ensures Reasoned(wire, s, steps, a, b, ab, ba)
  {
    assert ba + [] == ba;
    KnownDrop(wire, s, steps, a, b, ab, ba);
    BothLater(wire, s, steps, Deliver(b.side), a, b, ab[1..], ba);
  }

  lemma EchoReasoned(wire: bool, s: Setup, steps: seq<Step>, a: Session, b: Session, ab: seq<Message>,
                     ba: seq<Message>, t: Session, reply: Message)
    requires KnownBoth(wire, s, steps, a, b, ab, ba) && ab != [] && ab[0].Request? && SameTables(b, t)
    requires (ab[0].verb == "ping" || ab[0].verb == "shutdown") && reply == Success(ab[0].id, Object(map[]))
    ensures KnownBoth(wire, s, steps + [Deliver(b.side)], a, t, ab[1..], ba + [reply])
  {
    KnownEcho(wire, s, steps, a, b, ab, ba);
    KnownSame(wire, s, steps, b, t, a, ba + [reply], ab[1..]);
    BothLater(wire, s, steps, Deliver(b.side), a, t, ab[1..], ba + [reply]);
  }

  /** What a ping or a shutdown reports. */
  lemma EchoExplained(wire: bool, s: Setup, steps: seq<Step>, a: Session, b: Session, m: Message)
    requires b.side == Other(a.side) && m.Request? && Out(steps, a, m) && m.verb == "shutdown"
    ensures Explained(wire, s, steps, b.side, Close(AsStr(Get(m.params, "reason"))))
  {
    assert Asked(steps, |steps|, a.side, m);
  }

  lemma SpotReasoned(wire: bool, s: Setup, steps: seq<Step>, a: Session, b: Session, ab: seq<Message>,
                     ba: seq<Message>)
    requires KnownBoth(wire, s, steps, a, b, ab, ba) && b.side == Other(a.side)
    requires ab != [] && ab[0].Request? && (ab[0].verb == "ping" || ab[0].verb == "shutdown")
    requires b.phase == Initialized && Good(s.lib, b.side, b.peerParams, b.direction, ab[0])
    requires ab[0].id !in b.incoming && |b.incoming| < b.maxInFlight
    ensures Reasoned(wire, s, steps, a, b, ab, ba)
  {
    var m, reply := ab[0], Success(ab[0].id, Object(map[]));
    HearRequest(s.lib, b, m);
    SentOne(reply);
    if m.verb == "shutdown" { EchoExplained(wire, s, steps, a, b, m); }
    EchoReasoned(wire, s, steps, a, b, ab, ba, Receive(s.lib, b, m).0, reply);
  }

  lemma HandReasoned(wire: bool, s: Setup, steps: seq<Step>, a: Session, b: Session, ab: seq<Message>,
                     ba: seq<Message>)
    requires KnownBoth(wire, s, steps, a, b, ab, ba) && b.side == Other(a.side)
    requires ab != [] && ab[0].Request? && Plainly(ab[0].verb)
    requires b.phase == Initialized && Good(s.lib, b.side, b.peerParams, b.direction, ab[0])
    requires ab[0].id !in b.incoming && |b.incoming| < b.maxInFlight
    requires Receive(s.lib, b, ab[0]).1 == Moved(wire, s.lib, Played(wire, s, steps), Deliver(b.side)).1
    ensures Reasoned(wire, s, steps, a, b, ab, ba)
  {
    var m := ab[0];
    HearRequest(s.lib, b, m);
    assert Out(steps, a, m);
    KnownAccept(wire, s, steps, a, b, ab, ba);
    KnownSame(wire, s, steps + [Deliver(b.side)], Taking(b, m), Receive(s.lib, b, m).0, a, ba, ab[1..]);
    SentNone([HandleRequest(m)]);
    assert ba + [] == ba;
  }

  lemma RequestReasoned(wire: bool, s: Setup, steps: seq<Step>, a: Session, b: Session, ab: seq<Message>,
                        ba: seq<Message>, toB: Gate, toA: Gate)
    requires KnownBoth(wire, s, steps, a, b, ab, ba) && b.side == Other(a.side)
    requires Gated(s.lib, a, b, toB, toA) && Joined(a, b, ab, ba, toB, toA)
    requires ab != [] && ab[0].Request? && b.phase == Initialized
    requires Receive(s.lib, b, ab[0]).1 == Moved(wire, s.lib, Played(wire, s, steps), Deliver(b.side)).1
    ensures Reasoned(wire, s, steps, a, b, ab, ba)
  {
    RequestFits(a, b, ab, ba, toB);
    assert toB(ab[0]);
    if Plainly(ab[0].verb) {
      HandReasoned(wire, s, steps, a, b, ab, ba);
    } else {
      SpotReasoned(wire, s, steps, a, b, ab, ba);
    }
  }

  lemma HearsNotice(lib: Serde, b: Session, m: Message)
    requires b.phase == Initialized && m.Notification? && Good(lib, b.side, b.peerParams, b.direction, m)
    ensures Receive(lib, b, m) == (Heard(b), [HandleNotification(m)])
  {
  }

  lemma HearsResponse(lib: Serde, b: Session, m: Message, key: RequestId)
    requires b.phase == Initialized && Good(lib, b.side, b.peerParams, b.direction, m) && Links.Answered(m) == Some(key)
    requires key in b.outgoing && b.outgoing[key] != "initialize"
    ensures Receive(lib, b, m) == (Heard(Freeing(b, key)), [Resolved(key, b.outgoing[key], OutcomeOf(m))])
  {
  }

  lemma NoticeReasoned(wire: bool, s: Setup, steps: seq<Step>, a: Session, b: Session, ab: seq<Message>,
                       ba: seq<Message>)
    requires KnownBoth(wire, s, steps, a, b, ab, ba) && b.side == Other(a.side)
    requires ab != [] && ab[0].Notification? && b.phase == Initialized
    requires Good(s.lib, b.side, b.peerParams, b.direction, ab[0])
    ensures Reasoned(wire, s, steps, a, b, ab, ba)
  {
    HearsNotice(s.lib, b, ab[0]);
    assert Out(steps, a, ab[0]);
    SentNone([HandleNotification(ab[0])]);
    assert ba + [] == ba;
    KnownDrop(wire, s, steps, a, b, ab, ba);
    KnownSame(wire, s, steps, b, Heard(b), a, ba, ab[1..]);
    BothLater(wire, s, steps, Deliver(b.side), a, Heard(b), ab[1..], ba);
  }

  lemma ResponseReasoned(wire: bool, s: Setup, steps: seq<Step>, a: Session, b: Session, ab: seq<Message>,
                         ba: seq<Message>, toB: Gate, toA: Gate, key: RequestId)
    requires KnownBoth(wire, s, steps, a, b, ab, ba)
    requires Gated(s.lib, a, b, toB, toA) && Joined(a, b, ab, ba, toB, toA)
    requires ab != [] && Links.Answered(ab[0]) == Some(key) && b.phase == Initialized
    ensures Reasoned(wire, s, steps, a, b, ab, ba)
  {
    ResponseKeeps(a, b, ab, ba, toB, toA, key);
    assert toB(ab[0]) && Back(wire, s, steps, b, ab[0]) && Tracked(b, a, ba, ab, key);
    HearsResponse(s.lib, b, ab[0], key);
    var t, x := Heard(Freeing(b, key)), Resolved(key, b.outgoing[key], OutcomeOf(ab[0]));
    assert Explained(wire, s, steps, b.side, x);
    SentNone([x]);
    assert ba + [] == ba;
    KnownResponse(wire, s, steps, a, b, ab, ba, key);
    KnownSame(wire, s, steps, Freeing(b, key), t, a, ba, ab[1..]);
    BothLater(wire, s, steps, Deliver(b.side), a, t, ab[1..], ba);
  }

  /** Every delivery between joined ends keeps the reasons, and what it reports has one. */
  lemma DeliverReasoned(wire: bool, s: Setup, steps: seq<Step>, a: Session, b: Session, ab: seq<Message>,
                        ba: seq<Message>, toB: Gate, toA: Gate)
    requires KnownBoth(wire, s, steps, a, b, ab, ba) && b.side == Other(a.side)
    requires Gated(s.lib, a, b, toB, toA) && Joined(a, b, ab, ba, toB, toA) && ab != []
    requires Receive(s.lib, b, ab[0]).1 == Moved(wire, s.lib, Played(wire, s, steps), Deliver(b.side)).1
    ensures Reasoned(wire, s, steps, a, b, ab, ba)
  {
    assert toB(ab[0]);
    if b.phase == Closed {
      DropReasoned(wire, s, steps, a, b, ab, ba);
    } else if ab[0].Request? {
      RequestReasoned(wire, s, steps, a, b, ab, ba, toB, toA);
    } else if ab[0].Notification? {
      NoticeReasoned(wire, s, steps, a, b, ab, ba);
    } else {
      ResponseReasoned(wire, s, steps, a, b, ab, ba, toB, toA, Links.Answered(ab[0]).value);
    }
  }
}
