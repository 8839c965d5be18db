/** Two session objects joined by two queues: every delivery keeps the invariant and reports no violation. */
module Connections {
  import opened Text
  import opened Messages
  import opened Validate
  import opened Sessions
  import opened Links
  import opened WireLinks
  import opened Outcomes
  import opened Histories
  import opened Endpoints

  /** One call of the owner of an end, and the messages it puts on the wire. */
  method Do(end: Endpoint, c: Call) returns (sent: seq<Message>)
    requires end.Valid()
    modifies end
    ensures end.Valid() && (end.View(), sent) == Perform(end.lib, old(end.View()), c)
  {
    var r: Answer;
    match c {
      case CallSend(id, verb, params) => r := end.Ask(id, verb, params);
      case CallNotify(verb, params) => r := end.Notify(verb, params);
      case CallComplete(id, result) => r := end.Complete(id, result);
      case CallFail(id, error) => r := end.Fail(id, error);
      case CallTick(id) =>
        var actions := end.Tick(id);
        r := Ok(actions);
    }
    sent := SentBy(r);
  }

  /** What the delivery at a step of a run told the owner of an end has its reason in the steps before. */
  ghost predicate FoundedAt(s: Setup, steps: seq<Step>, i: nat, actions: seq<Action>)
    requires i < |steps|
  {
    steps[i].Deliver? ==> forall x | x in actions :: Explained(true, s, steps[..i], steps[i].to, x)
  }

  ghost predicate Founded(s: Setup, steps: seq<Step>, reports: seq<seq<Action>>) {
    |reports| == |steps| && forall i | 0 <= i < |steps| :: FoundedAt(s, steps, i, reports[i])
  }

  lemma FoundedNext(s: Setup, steps: seq<Step>, reports: seq<seq<Action>>, actions: seq<Action>)
    requires Lawful(s.lib) && Compatible(s) && forall x | x in steps :: Canonically(x)
    requires steps != [] && Founded(s, steps[..|steps| - 1], reports)
    requires var n := |steps| - 1; actions == WireNext(s.lib, WireRun(s.lib, Start(s), steps[..n]), steps[n]).1
    ensures Founded(s, steps, reports + [actions])
  {
    var n := |steps| - 1;
    forall i | 0 <= i < n ensures FoundedAt(s, steps, i, reports[i]) {
      assert FoundedAt(s, steps[..n], i, reports[i]);
      assert steps[..n][..i] == steps[..i];
    }
    if steps[n].Deliver? {
      forall x | x in actions ensures Explained(true, s, steps[..n], steps[n].to, x) {
        WireReportsExplained(s, steps[..n], steps[n].to, x);
      }
    }
  }

  class Connection {
    ghost const setup: Setup
    const peer: Endpoint
    const runtime: Endpoint
    var up: seq<Message>
    var down: seq<Message>

    ghost function View(): Link
      reads this, peer, runtime
    {
      Link(peer.View(), runtime.View(), up, down)
    }

    /** The books of both ends balance, and the ends and queues satisfy the invariant of a link over the wire. */
    ghost predicate Valid()
      reads this, peer, runtime
    {
      && peer != runtime && peer.lib == setup.lib && runtime.lib == setup.lib
      && peer.Valid() && runtime.Valid()
      && Lawful(setup.lib) && Compatible(setup) && WireInv(setup, View())
    }

    constructor (lib: Serde, params: InitializeParams, config: RuntimeConfig, peerDirection: Direction,
                 runtimeDirection: Direction)
      requires Lawful(lib) && Compatible(Setup(lib, params, config, peerDirection, runtimeDirection))
      ensures Valid() && View() == Start(setup) && fresh(peer) && fresh(runtime)
      ensures setup == Setup(lib, params, config, peerDirection, runtimeDirection)
    {
      var p := new Endpoint.PeerEnd(lib, params, peerDirection);
      var r := new Endpoint.RuntimeEnd(lib, config, runtimeDirection);
      setup := Setup(lib, params, config, peerDirection, runtimeDirection);
      peer, runtime, up, down := p, r, [], [];
      new;
      WireStart(setup);
    }

    method Begin(id: RequestId)
      requires Valid() && CanonicalId(id)
      modifies this, peer
      ensures Valid() && View() == WireNext(setup.lib, old(View()), Links.Begin(id)).0
    {
      WireStep(setup, View(), Links.Begin(id));
      var r := peer.Begin(id);
      if r.Ok? { up := up + Sent(r.value); } else { assert up == up + []; }
    }

    method Act(side: Side, c: Call)
      requires Valid() && Canonically(Links.Act(side, c))
      modifies this, peer, runtime
      ensures Valid() && View() == WireNext(setup.lib, old(View()), Links.Act(side, c)).0
    {
      WireStep(setup, View(), Links.Act(side, c));
      match side
      case Peer =>
        var sent := Do(peer, c);
        up := up + sent;
      case Runtime =>
        var sent := Do(runtime, c);
        down := down + sent;
    }

    method Deliver(to: Side) returns (actions: seq<Action>)
      requires Valid()
      modifies this, peer, runtime
      ensures Valid() && (View(), actions) == WireNext(setup.lib, old(View()), Links.Deliver(to))
      ensures Quiet(actions)
    {
      HeadsRead(setup, View());
      WireStep(setup, View(), Links.Deliver(to));
      actions := [];
      match to
      case Runtime =>
        if up != [] {
          var parsed := ParseValue(ToValue(up[0]));
          up := up[1..];
          actions := runtime.Hear(parsed.value);
          down := down + Sent(actions);
        }
      case Peer =>
        if down != [] {
          var parsed := ParseValue(ToValue(down[0]));
          down := down[1..];
          actions := peer.Hear(parsed.value);
          up := up + Sent(actions);
        }
    }

    method Move(step: Step) returns (actions: seq<Action>)
      requires Valid() && Canonically(step)
      modifies this, peer, runtime
      ensures Valid() && (View(), actions) == WireNext(setup.lib, old(View()), step) && Quiet(actions)
    {
      actions := [];
      match step
      case Begin(id) => Begin(id);
      case Act(side, c) => Act(side, c);
      case Deliver(to) => actions := Deliver(to);
    }

    /** Any interleaving of calls, ticks and deliveries: the objects end where the steps lead, and every report is
      * quiet. */
    method Drive(steps: seq<Step>) returns (reports: seq<seq<Action>>)
      requires Valid() && forall x | x in steps :: Canonically(x)
      modifies this, peer, runtime
      ensures Valid() && View() == WireRun(setup.lib, old(View()), steps)
      ensures |reports| == |steps| && forall actions | actions in reports :: Quiet(actions)
      ensures old(View()) == Start(setup) ==> Founded(setup, steps, reports)
    {
      if steps == [] { return []; }
      var n := |steps| - 1;
      reports := Drive(steps[..n]);
      ghost var before := reports;
      var actions := Move(steps[n]);
      reports := reports + [actions];
      if old(View()) == Start(setup) { FoundedNext(setup, steps, before, actions); }
    }
  }
}
