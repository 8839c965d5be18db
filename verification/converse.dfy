/** The hypothesis of quiet links is exact: any other setup has a run with a violation. */
module LinkConverse {
  import opened Text
  import opened Messages
  import opened Validate
  import opened Sessions
  import opened Links

  const ID: RequestId := Unsigned(0)

  /** The setup never makes a delivery report a violation, whatever the interleaving. */
  ghost predicate AlwaysQuiet(s: Setup) {
    forall steps, step :: Quiet(Next(s.lib, Run(s.lib, Start(s), steps), step).1)
  }

  lemma RunSnoc(lib: Serde, k: Link, steps: seq<Step>, step: Step)
    ensures Run(lib, k, steps + [step]) == Next(lib, Run(lib, k, steps), step).0
  {
    assert (steps + [step])[..|steps|] == steps;
  }

  lemma Asked(s: Setup)
    requires WouldInitialize(s)
    ensures var k := Run(s.lib, Start(s), [Begin(ID)]); Ends(s, k) && Asking(s, k, ID)
  {
    RunSnoc(s.lib, Start(s), [], Begin(ID));
    assert [] + [Begin(ID)] == [Begin(ID)];
    SentOne(Request(ID, "initialize", s.lib.writeParams(s.params)));
    assert (map[])[ID := "initialize"] == map[ID := "initialize"];
  }

  lemma UnsupportedRole(s: Setup)
    requires Lawful(s.lib) && WouldInitialize(s) && !RolesSupported(s)
    ensures !AlwaysQuiet(s)
  {
    Asked(s);
    var k := Run(s.lib, Start(s), [Begin(ID)]);
    assert s.lib.readParams(s.lib.writeParams(s.params)) == Some(s.params);
    var actions := Next(s.lib, k, Deliver(Runtime)).1;
    assert actions[1] == Violation(INVALID_PARAMS) && actions[1] in actions;
  }

  /** After the runtime has answered: its acceptance is on the way, it may talk to the peer. */
  lemma Granted(s: Setup)
    requires Lawful(s.lib) && WouldInitialize(s) && RolesSupported(s)
    ensures var k := Run(s.lib, Start(s), [Begin(ID), Deliver(Runtime)]);
      && Ends(s, k) && Awaiting(k.peer, ID) && k.up == []
      && k.down == [Success(ID, s.lib.writeResult(Negotiated(s.params, s.config)))]
      && k.runtime.peerParams == Some(s.params) && k.runtime.phase == Initialized && Untouched(k.runtime)
      && k.runtime.maxInFlight == Negotiated(s.params, s.config).maxInFlight
  {
    Asked(s);
    RunSnoc(s.lib, Start(s), [Begin(ID)], Deliver(Runtime));
    assert [Begin(ID)] + [Deliver(Runtime)] == [Begin(ID), Deliver(Runtime)];
    HearInitialize(s, Run(s.lib, Start(s), [Begin(ID)]), ID);
  }

  lemma InvalidResult(s: Setup)
    requires Lawful(s.lib) && WouldInitialize(s) && RolesSupported(s)
    requires !ValidResult(Negotiated(s.params, s.config), s.params.roles)
    ensures !AlwaysQuiet(s)
  {
    Granted(s);
    var k := Run(s.lib, Start(s), [Begin(ID), Deliver(Runtime)]);
    var r := Negotiated(s.params, s.config);
    assert s.lib.readResult(s.lib.writeResult(r)) == if r.heartbeat.Finite? then Some(r) else None;
    var actions := Next(s.lib, k, Deliver(Peer)).1;
    assert actions[0] == Violation(INVALID_REQUEST) && actions[0] in actions;
  }

  const HANDSHAKE := [Begin(ID), Deliver(Runtime), Deliver(Peer)]

  lemma Greeted(s: Setup)
    requires Lawful(s.lib) && WouldInitialize(s) && RolesSupported(s)
    requires ValidResult(Negotiated(s.params, s.config), s.params.roles)
    ensures var k := Run(s.lib, Start(s), HANDSHAKE);
      && Ends(s, k) && k.up == [] && k.down == [] && k.peer.phase == k.runtime.phase == Initialized
      && Untouched(k.peer) && Untouched(k.runtime) && k.peer.maxInFlight >= 1 && k.runtime.maxInFlight >= 1
  {
    Granted(s);
    var k := Run(s.lib, Start(s), [Begin(ID), Deliver(Runtime)]);
    RunSnoc(s.lib, Start(s), [Begin(ID), Deliver(Runtime)], Deliver(Peer));
    assert [Begin(ID), Deliver(Runtime)] + [Deliver(Peer)] == HANDSHAKE;
    HearAcceptance(s, k, ID);
    SentNone(Receive(s.lib, k.peer, k.down[0]).1);
  }

  const STOP: Call := CallSend(ID, "shutdown", map[])

  /** An order to shut down that the other end does not take. */
  lemma UnwelcomeShutdown(lib: Serde, a: Session, b: Session)
    requires a.phase == b.phase == Initialized && Untouched(a) && Untouched(b) && a.maxInFlight >= 1
    requires a.direction == LocalSupervisesRemote && b.direction != RemoteSupervisesLocal
    ensures Perform(lib, a, STOP).1 == [Request(ID, "shutdown", map[])]
    ensures !Quiet(Receive(lib, b, Request(ID, "shutdown", map[])).1)
  {
    SentOne(Request(ID, "shutdown", map[]));
    var actions := Receive(lib, b, Request(ID, "shutdown", map[])).1;
    assert actions[1] == Violation(METHOD_NOT_FOUND) && actions[1] in actions;
  }

  lemma UnopposedAuthority(s: Setup)
    requires Lawful(s.lib) && WouldInitialize(s) && RolesSupported(s)
    requires ValidResult(Negotiated(s.params, s.config), s.params.roles)
    requires !Opposed(s.peerDirection, s.runtimeDirection)
    ensures !AlwaysQuiet(s)
  {
    Greeted(s);
    var k := Run(s.lib, Start(s), HANDSHAKE);
    var side :=
      if s.peerDirection == LocalSupervisesRemote && s.runtimeDirection != RemoteSupervisesLocal then Peer else Runtime;
    RunSnoc(s.lib, Start(s), HANDSHAKE, Act(side, STOP));
    if side == Peer {
      UnwelcomeShutdown(s.lib, k.peer, k.runtime);
      assert !Quiet(Next(s.lib, Run(s.lib, Start(s), HANDSHAKE + [Act(side, STOP)]), Deliver(Runtime)).1);
    } else {
      UnwelcomeShutdown(s.lib, k.runtime, k.peer);
      assert !Quiet(Next(s.lib, Run(s.lib, Start(s), HANDSHAKE + [Act(side, STOP)]), Deliver(Peer)).1);
    }
  }

  /** A setup is always quiet if and only if it is compatible. */
  lemma QuietExactlyWhenCompatible(s: Setup)
    requires Lawful(s.lib)
    ensures AlwaysQuiet(s) <==> Compatible(s)
  {
    if Compatible(s) {
      forall steps, step ensures Quiet(Next(s.lib, Run(s.lib, Start(s), steps), step).1) {
        NoViolations(s, steps, step);
      }
    } else if !RolesSupported(s) {
      UnsupportedRole(s);
    } else if !ValidResult(Negotiated(s.params, s.config), s.params.roles) {
      InvalidResult(s);
    } else {
      UnopposedAuthority(s);
    }
  }
}
