/** When an initialized end closes: on a shutdown by its supervisor, or after silence that it counts in ticks. */
module Heartbeats {
  import opened Text
  import opened Messages
  import opened Validate
  import opened Sessions
  import opened Links
  import opened Ledgers
  import opened SessionTerms

  predicate Watching(s: Session) {
    s.phase == Initialized && s.direction == LocalSupervisesRemote && s.missed <= 2
  }

  /** How many more ticks an end waits for the other to say something. */
  function Patience(s: Session): nat
    requires s.missed <= 2
  {
    (if s.activity then 1 else 0) + 3 - s.missed
  }

  function TickCount(calls: seq<Call>): nat {
    if calls == [] then 0 else
      TickCount(calls[..|calls| - 1]) + if calls[|calls| - 1].CallTick? then 1 else 0
  }

  /** An end after calls of its owner, while it hears nothing. */
  function Called(lib: Serde, s: Session, calls: seq<Call>): Session {
    if calls == [] then s else Perform(lib, Called(lib, s, calls[..|calls| - 1]), calls[|calls| - 1]).0
  }

  const MISSED := Some("the peer missed three heartbeat intervals")

  /** Each tick uses up one unit of patience, and the last one closes the end. */
  lemma TickCounts(lib: Serde, s: Session, id: RequestId)
    requires Watching(s) && (s.activity ==> s.missed == 0)
    ensures var (t, actions) := OnTick(lib, s, id);
      && t.direction == s.direction && (t.activity ==> t.missed == 0)
      && (t.phase == Closed <==> Patience(s) == 1) && (t.phase == Closed ==> actions == [Close(MISSED)])
      && (t.phase != Closed ==> Watching(t) && Patience(t) == Patience(s) - 1 && forall x | x in actions :: !x.Close?)
  {
  }

  /** Silence is met with a ping at every tick but the first, as far as the window and the id allow. */
  lemma TickPings(lib: Serde, s: Session, id: RequestId)
    requires Watching(s) && Patience(s) > 1 && (s.activity ==> s.missed == 0)
    ensures Sent(OnTick(lib, s, id).1) ==
            if s.activity || id in s.outgoing || |s.outgoing| >= s.maxInFlight then []
            else [Request(id, "ping", map[])]
  {
    SentOne(Request(id, "ping", map[]));
  }

  /** No other call touches the heartbeat. */
  lemma CallKeeps(lib: Serde, s: Session, c: Call)
    requires !c.CallTick?
    ensures var t := Perform(lib, s, c).0;
      t.phase == s.phase && t.direction == s.direction && t.activity == s.activity && t.missed == s.missed
  {
  }

  /** While nothing is heard, an end that watches the other stays open for exactly as many ticks as it has patience. */
  lemma {:induction false} SilenceCloses(lib: Serde, s: Session, calls: seq<Call>)
    requires Watching(s) && (s.activity ==> s.missed == 0)
    ensures var t := Called(lib, s, calls);
      && (t.activity ==> t.missed == 0)
      && (if TickCount(calls) < Patience(s) then Watching(t) && Patience(t) == Patience(s) - TickCount(calls)
          else t.phase == Closed)
  {
    if calls != [] {
      var n := |calls| - 1;
      var t, c := Called(lib, s, calls[..n]), calls[n];
      SilenceCloses(lib, s, calls[..n]);
      if c.CallTick? {
        if t.phase != Closed { TickCounts(lib, t, c.id); }
      } else {
        CallKeeps(lib, t, c);
      }
    }
  }

  /** Any message restores all patience: four ticks, of which the first only notes that something was heard. */
  lemma MessageRestores(lib: Serde, s: Session, m: Message)
    requires s.phase == Initialized && Past(s)
    ensures var t := Receive(lib, s, m).0;
      t.phase == Initialized ==> t.activity && t.missed == 0 && Patience(t) == 4 && t.direction == s.direction
  {
  }

  /** After initialization an end has patience for three ticks. */
  lemma StartPatience(lib: Serde, s: Session, m: Message)
    requires s.phase == PeerAwaiting || s.phase == RuntimeAwaiting
    ensures var t := Receive(lib, s, m).0; t.phase == Initialized ==> !t.activity && t.missed == 0 && Patience(t) == 3
  {
  }

  /** An end that does not supervise the other ignores ticks. */
  lemma UnwatchedTicks(lib: Serde, s: Session, id: RequestId)
    requires s.direction != LocalSupervisesRemote
    ensures OnTick(lib, s, id) == (s, [])
  {
  }

  /** The only message that closes an initialized end is a shutdown by its supervisor. */
  lemma ShutdownCloses(lib: Serde, s: Session, m: Message)
    requires s.phase == Initialized && Past(s)
    ensures Receive(lib, s, m).0.phase == Closed <==>
            && s.direction == RemoteSupervisesLocal && m.Request? && m.verb == "shutdown" && m.id !in s.incoming
            && ValidFixed(lib, "shutdown", m.params)
    ensures Receive(lib, s, m).0.phase == Initialized || Receive(lib, s, m).0.phase == Closed
  {
  }

  /** Whatever happens to an initialized end, it closes only at the last tick of its patience or on that shutdown. */
  lemma ClosesOnlyWhen(lib: Serde, s: Session, h: Happening)
    requires s.phase == Initialized && Past(s) && s.missed <= 2 && (s.activity ==> s.missed == 0)
    ensures Happen(lib, s, h).0.phase == Closed <==>
            || (h.Asked? && h.call.CallTick? && Watching(s) && Patience(s) == 1)
            || (h.Heard? && s.direction == RemoteSupervisesLocal && h.message.Request? && h.message.verb == "shutdown"
                && h.message.id !in s.incoming && ValidFixed(lib, "shutdown", h.message.params))
  {
    match h
    case Began(_) =>
    case Asked(CallTick(id)) => if Watching(s) { TickCounts(lib, s, id); } else { UnwatchedTicks(lib, s, id); }
    case Asked(c) => CallKeeps(lib, s, c);
    case Heard(m) => ShutdownCloses(lib, s, m);
  }
}
