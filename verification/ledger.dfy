/** One end against an arbitrary remote: what its tables count, and that a closed end stays closed. */
module Ledgers {
  import opened Text
  import opened Json
  import opened Messages
  import opened Validate
  import opened Sessions
  import opened Links

  /** Anything that can happen to one end; the remote may send any message at all. */
  datatype Happening = Began(id: RequestId) | Asked(call: Call) | Heard(message: Message)

  /** Requests handed to the application and answered by it; requests sent and responses consumed. */
  datatype Ledger = Ledger(handled: nat, answered: nat, asked: nat, consumed: nat)

  function Happen(lib: Serde, s: Session, h: Happening): (Session, seq<Action>, seq<Message>) {
    match h
    case Began(id) => var (t, r) := Initialize(lib, s, id); (t, [], SentBy(r))
    case Asked(c) => var (t, sent) := Perform(lib, s, c); (t, [], sent)
    case Heard(m) => var (t, actions) := Receive(lib, s, m); (t, actions, [])
  }

  function Handled(actions: seq<Action>): nat {
    if actions == [] then 0 else Bit(actions[0].HandleRequest?) + Handled(actions[1..])
  }

  function Calls(ms: seq<Message>): nat {
    if ms == [] then 0 else Bit(ms[0].Request?) + Calls(ms[1..])
  }

  function Replies(ms: seq<Message>): nat {
    if ms == [] then 0 else Bit(Answered(ms[0]).Some?) + Replies(ms[1..])
  }

  predicate Consumes(s: Session, h: Happening) {
    h.Heard? && s.phase != Closed && Answered(h.message).Some? && Answered(h.message).value in s.outgoing
  }

  function Entered(lib: Serde, s: Session, l: Ledger, h: Happening): Ledger {
    var (_, actions, sent) := Happen(lib, s, h);
    Ledger(l.handled + Handled(actions), l.answered + Replies(sent), l.asked + Calls(sent),
           l.consumed + Bit(Consumes(s, h)))
  }

  /** The books balance, the window holds, and nothing is handled before initialization. */
  predicate Balanced(s: Session, l: Ledger) {
    && l.handled == l.answered + |s.incoming|
    && l.asked == l.consumed + |s.outgoing|
    && |s.incoming| <= s.maxInFlight
    && (s.phase != Initialized && s.phase != Closed ==> s.incoming == map[])
  }

  lemma RemoveSize(m: map<RequestId, string>, id: RequestId)
    requires id in m
    ensures |m - {id}| == |m| - 1
  {
    assert (m - {id}).Keys == m.Keys - {id};
    assert |(m - {id}).Keys| == |m - {id}| && |m.Keys| == |m|;
  }

  lemma AddSize(m: map<RequestId, string>, id: RequestId, verb: string)
    requires id !in m
    ensures |m[id := verb]| == |m| + 1
  {
    assert m[id := verb].Keys == m.Keys + {id};
    assert |m[id := verb].Keys| == |m[id := verb]| && |m.Keys| == |m|;
  }

  lemma One(m: Message)
    ensures Calls([m]) == Bit(m.Request?) && Replies([m]) == Bit(Answered(m).Some?)
  {
    assert [m][1..] == [];
  }

  lemma {:induction false} NoneHandled(actions: seq<Action>)
    requires forall x | x in actions :: !x.HandleRequest?
    ensures Handled(actions) == 0
  {
    if actions != [] { NoneHandled(actions[1..]); }
  }

  lemma SendBalanced(lib: Serde, s: Session, l: Ledger, id: RequestId, verb: string, params: map<string, Value>)
    requires Balanced(s, l)
    ensures var (t, r) := SendRequest(lib, s, id, verb, params);
      Balanced(t, l.(asked := l.asked + Calls(SentBy(r)))) && Replies(SentBy(r)) == 0
  {
    var (t, r) := SendRequest(lib, s, id, verb, params);
    if r.Ok? {
      SentOne(Request(id, verb, params));
      One(Request(id, verb, params));
      AddSize(s.outgoing, id, verb);
    }
  }

  lemma AnswerBalanced(s: Session, l: Ledger, id: RequestId, m: Message)
    requires Balanced(s, l) && id in s.incoming && Answers(m, id)
    ensures Sent([Send(m)]) == [m] && Replies([m]) == 1 && Calls([m]) == 0
    ensures Balanced(s.(incoming := s.incoming - {id}), l.(answered := l.answered + 1))
  {
    SentOne(m);
    One(m);
    RemoveSize(s.incoming, id);
  }

  /** The books after a call. */
  ghost predicate Books(lib: Serde, s: Session, l: Ledger, c: Call) {
    var (t, sent) := Perform(lib, s, c);
    Balanced(t, l.(answered := l.answered + Replies(sent), asked := l.asked + Calls(sent)))
  }

  lemma AskBooks(lib: Serde, s: Session, l: Ledger, c: Call)
    requires Balanced(s, l) && (c.CallSend? || c.CallTick?)
    ensures Books(lib, s, l, c)
  {
    if c.CallSend? { SendBalanced(lib, s, l, c.id, c.verb, c.params); } else { TickBalanced(lib, s, l, c.id); }
  }

  lemma AnswerBooks(lib: Serde, s: Session, l: Ledger, c: Call)
    requires Balanced(s, l) && (c.CallComplete? || c.CallFail?)
    ensures Books(lib, s, l, c)
  {
    if c.CallComplete? { CompleteBooks(lib, s, l, c); } else { FailBooks(lib, s, l, c); }
  }

  lemma CompleteBooks(lib: Serde, s: Session, l: Ledger, c: Call)
    requires Balanced(s, l) && c.CallComplete?
    ensures Books(lib, s, l, c)
  {
    if c.id in s.incoming { AnswerBalanced(s, l, c.id, Success(c.id, c.result)); }
  }

  lemma FailBooks(lib: Serde, s: Session, l: Ledger, c: Call)
    requires Balanced(s, l) && c.CallFail?
    ensures Books(lib, s, l, c)
  {
    if c.id in s.incoming { AnswerBalanced(s, l, c.id, Error(Some(c.id), c.error)); }
  }

  lemma PerformBalanced(lib: Serde, s: Session, l: Ledger, c: Call)
    requires Balanced(s, l)
    ensures Books(lib, s, l, c)
  {
    if c.CallNotify? {
      SentOne(Notification(c.verb, c.params));
      One(Notification(c.verb, c.params));
    } else if c.CallSend? || c.CallTick? {
      AskBooks(lib, s, l, c);
    } else {
      AnswerBooks(lib, s, l, c);
    }
  }

  lemma TickBalanced(lib: Serde, s: Session, l: Ledger, id: RequestId)
    requires Balanced(s, l)
    ensures var (t, actions) := OnTick(lib, s, id);
      Balanced(t, l.(asked := l.asked + Calls(Sent(actions)))) && Replies(Sent(actions)) == 0
  {
    var (t, actions) := OnTick(lib, s, id);
    if s.phase == Initialized && s.direction == LocalSupervisesRemote && !s.activity && s.missed < 2 {
      var u := s.(missed := s.missed + 1);
      SendBalanced(lib, u, l, id, "ping", map[]);
      if SendRequest(lib, u, id, "ping", map[]).1.Err? { SentNone(actions); }
    } else {
      SentNone(actions);
    }
  }

  /** A request either enters the table, once and within the window, or leaves the tables alone. */
  lemma RequestTables(lib: Serde, s: Session, m: Message)
    requires m.Request? && s.phase != Closed
    ensures var (t, actions) := Receive(lib, s, m);
      if actions == [HandleRequest(m)] then
        m.id !in s.incoming && |s.incoming| < s.maxInFlight && s.phase == Initialized
        && t == Links.Heard(s).(incoming := s.incoming[m.id := m.verb])
      else
        (forall x | x in actions :: !x.HandleRequest?) && t.incoming == s.incoming && t.outgoing == s.outgoing
        && (t.maxInFlight == s.maxInFlight || s.phase == RuntimeAwaiting)
        && (t.phase == s.phase || t.phase == Closed || s.phase == RuntimeAwaiting)
  {
  }

  lemma RequestBalanced(lib: Serde, s: Session, l: Ledger, m: Message)
    requires Balanced(s, l) && m.Request? && s.phase != Closed
    ensures var (t, actions) := Receive(lib, s, m); Balanced(t, l.(handled := l.handled + Handled(actions)))
  {
    RequestTables(lib, s, m);
    var actions := Receive(lib, s, m).1;
    if actions == [HandleRequest(m)] {
      assert [HandleRequest(m)][1..] == [];
      AddSize(s.incoming, m.id, m.verb);
    } else {
      NoneHandled(actions);
    }
  }

  /** A response that is consumed leaves the table of pending requests; any other leaves the tables alone. */
  lemma ResponseTables(lib: Serde, s: Session, m: Message)
    requires !m.Request? && s.phase != Closed
    ensures var (t, actions) := Receive(lib, s, m);
      && (forall x | x in actions :: !x.HandleRequest?)
      && t.incoming == s.incoming
      && t.outgoing == (if Consumes(s, Heard(m)) then s.outgoing - {Answered(m).value} else s.outgoing)
      && (t.maxInFlight == s.maxInFlight || s.phase == PeerAwaiting)
      && (t.phase == s.phase || t.phase == Closed || s.phase == PeerAwaiting)
  {
  }

  lemma ResponseBalanced(lib: Serde, s: Session, l: Ledger, m: Message)
    requires Balanced(s, l) && !m.Request? && s.phase != Closed
    ensures var (t, actions) := Receive(lib, s, m);
      Handled(actions) == 0 && Balanced(t, l.(consumed := l.consumed + Bit(Consumes(s, Heard(m)))))
  {
    ResponseTables(lib, s, m);
    NoneHandled(Receive(lib, s, m).1);
    if Consumes(s, Heard(m)) { RemoveSize(s.outgoing, Answered(m).value); }
  }

  lemma HappenBalanced(lib: Serde, s: Session, l: Ledger, h: Happening)
    requires Balanced(s, l)
    ensures Balanced(Happen(lib, s, h).0, Entered(lib, s, l, h))
  {
    match h
    case Began(id) =>
      if Initialize(lib, s, id).1.Ok? {
        var m := Request(id, "initialize", lib.writeParams(s.peerParams.value));
        SentOne(m);
        One(m);
        AddSize(s.outgoing, id, "initialize");
      }
    case Asked(c) => PerformBalanced(lib, s, l, c);
    case Heard(m) =>
      if s.phase != Closed {
        if m.Request? { RequestBalanced(lib, s, l, m); } else { ResponseBalanced(lib, s, l, m); }
      }
  }

  function History(lib: Serde, s: Session, l: Ledger, hs: seq<Happening>): (Session, Ledger)
    decreases hs
  {
    if hs == [] then (s, l) else History(lib, Happen(lib, s, hs[0]).0, Entered(lib, s, l, hs[0]), hs[1..])
  }

  /** Over every history: handled = answered + incoming, sent = consumed + outgoing, and the window is never
    * exceeded. */
  lemma {:induction false} BooksBalance(lib: Serde, s: Session, l: Ledger, hs: seq<Happening>)
    requires Balanced(s, l)
    ensures Balanced(History(lib, s, l, hs).0, History(lib, s, l, hs).1)
    decreases hs
  {
    if hs != [] {
      HappenBalanced(lib, s, l, hs[0]);
      BooksBalance(lib, Happen(lib, s, hs[0]).0, Entered(lib, s, l, hs[0]), hs[1..]);
    }
  }

  lemma NewEndsBalanced(params: InitializeParams, config: RuntimeConfig, direction: Direction)
    ensures Balanced(NewPeer(params, direction), Ledger(0, 0, 0, 0))
    ensures Balanced(NewRuntime(config, direction), Ledger(0, 0, 0, 0))
  {
  }

  /** A closed end never reopens, never asks again and never acts on a message. */
  lemma {:induction false} ClosedForever(lib: Serde, s: Session, l: Ledger, hs: seq<Happening>)
    requires s.phase == Closed
    ensures var (t, k) := History(lib, s, l, hs);
      t.phase == Closed && t.outgoing == s.outgoing && k.asked == l.asked && k.handled == l.handled && k.consumed
              == l.consumed
    decreases hs
  {
    if hs != [] {
      ClosedStep(lib, s, hs[0]);
      ClosedForever(lib, Happen(lib, s, hs[0]).0, Entered(lib, s, l, hs[0]), hs[1..]);
    }
  }

  lemma ClosedStep(lib: Serde, s: Session, h: Happening)
    requires s.phase == Closed
    ensures var (t, actions, sent) := Happen(lib, s, h);
      t.phase == Closed && t.outgoing == s.outgoing && actions == [] && Calls(sent) == 0 && !Consumes(s, h)
      && (h.Heard? ==> t == s && sent == [])
  {
    match h
    case Asked(CallComplete(id, result)) => SentOne(Success(id, result)); One(Success(id, result));
    case Asked(CallFail(id, error)) => SentOne(Error(Some(id), error)); One(Error(Some(id), error));
    case _ =>
  }
}
