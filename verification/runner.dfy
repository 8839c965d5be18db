/** The agent run loop: model turns, tool batches, aborts and durable records. */
module Runners {
  import opened Text
  import opened Json
  import opened Hashing
  import opened ToolResults
  import opened RunLogs
  import opened RunStatuses
  import opened Follows
  import opened Worlds

  class Runner {
    const world: World
    const invocation: Invocation
    var moment: nat
    var events: seq<Draft>
    var proposals: seq<Proposal>
    var pending: seq<ToolCall>
    var modelCalls: nat
    var nextPosition: nat
    ghost var actions: seq<Action>
    ghost var turns: seq<Turn>
    /** The recorded replies, the moments they were given at, and how many calls of the last one are worked through. */
    ghost var replies: seq<seq<ToolCall>>
    ghost var asked: seq<nat>
    ghost var done: nat

    constructor (world: World, invocation: Invocation)
      ensures this.world == world && this.invocation == invocation && Ready() && actions == [] && events == []
    {
      this.world, this.invocation := world, invocation;
      moment, events, proposals, pending, modelCalls, nextPosition := 0, [], [], [], 0, 0;
      actions, turns, replies, asked, done := [], [], [], [], 0;
    }

    ghost predicate SafeLog()
      reads `actions, `events
    {
      Safe(actions, events, invocation.maxModelCalls)
    }

    ghost predicate SafeProposals()
      reads `proposals, `nextPosition
    {
      Proper(world, invocation, proposals, nextPosition)
    }

    ghost predicate AlwaysSafe()
      reads `actions, `events, `proposals, `nextPosition
    {
      SafeLog() && SafeProposals()
    }

    /** Between steps the log is a sequence of whole turns and every executed call has its result. */
    ghost predicate WholeLog()
      reads `actions, `events, `turns, `modelCalls
    {
      && SafeLog() && events == Flatten(turns) && |turns| == modelCalls <= Generations(actions)
      && Settled(ExecutedIds(actions), ResultIds(events))
    }

    /** The turns serve the replies, the replies are what the gateway answered, and every group answers its call. */
    ghost predicate Follows()
      reads `turns, `replies, `done, `asked, `actions, `proposals
    {
      && Followed(turns, replies, done) && Heard(world, replies, asked)
      && Just(world, invocation, turns, replies, done, actions, proposals)
    }

    // ---------------------------------------------------------------- records

    /** Offers a draft to the recorder and keeps it when it is accepted. */
    method RecordDraft(d: Draft) returns (id: Option<string>)
      requires SafeLog()
      requires d.ToolResult? ==> d.id !in ResultIds(events) && Terminal(d.status)
      modifies `moment, `events, `actions
      ensures SafeLog()
      ensures id.Some? ==> events == old(events) + [d] && actions == old(actions) + [Record(d)]
      ensures id.None? ==> events == old(events) && actions == old(actions)
      ensures moment == old(moment) + 1 && (id.None? ==> Refused(world, moment))
      ensures Later(old(actions), actions) && Generations(actions) == old(Generations(actions))
      ensures id.Some? ==> ResultIds(events) == old(ResultIds(events)) + if d.ToolResult? then [d.id] else []
    {
      id := world.record(moment);
      moment := moment + 1;
      assert id.None? ==> Refuses(world, moment - 1);
      if id.Some? {
        SafeRecord(actions, events, invocation.maxModelCalls, d);
        LaterRecord(actions, d);
        events := events + [d];
        actions := actions + [Record(d)];
      }
    }

    method RecordTrace() returns (ok: bool)
      modifies `moment
      ensures moment == old(moment) + 1 && (!ok ==> Refused(world, moment))
    {
      ok := world.trace(moment);
      moment := moment + 1;
      assert !ok ==> Refuses(world, moment - 1);
    }

    /** Asks for an event id; an empty one is no id. */
    method NewId() returns (ok: bool)
      modifies `moment
      ensures moment == old(moment) + 1 && (!ok ==> Refused(world, moment))
    {
      var id := world.newId(moment);
      moment := moment + 1;
      ok := id.Some? && id.value != "";
      assert !ok ==> Refuses(world, moment - 1);
    }

    method AbortReason() returns (reason: Option<Reason>)
      modifies `moment
      ensures moment == old(moment) + 1 && reason == world.abort(old(moment))
    {
      reason := world.abort(moment);
      moment := moment + 1;
    }

    /** Whether a call already has a terminal result in the log. */
    method HasTerminalResult(id: string) returns (found: bool)
      ensures found <==>
              exists i :: 0 <= i < |events| && events[i].ToolResult? && events[i].id == id && Terminal(events[i].status)
    {
      var i := |events|;
      while i > 0
        invariant 0 <= i <= |events|
        invariant forall j | i <= j < |events| ::
            !(events[j].ToolResult? && events[j].id == id && Terminal(events[j].status))
      {
        i := i - 1;
        if events[i].ToolResult? && events[i].id == id && Terminal(events[i].status) { return true; }
      }
      return false;
    }

    /** A call without a result was not executed either. */
    lemma Unexecuted(id: string)
      requires WholeLog() && id !in ResultIds(events)
      ensures id !in ExecutedIds(actions)
    {
    }

    // ------------------------------------------------------------------ tools

    /** Records that an effect is planned and started before anything happens. */
    method AnnounceEffect(effect: Option<Effect>) returns (ok: bool)
      requires SafeLog()
      modifies `moment, `events, `actions
      ensures SafeLog()
      ensures Later(old(actions), actions) && Generations(actions) == old(Generations(actions))
      ensures ok ==> events == old(events) + Before(effect) && ResultIds(events) == old(ResultIds(events))
      ensures moment >= old(moment) && (!ok ==> Refused(world, moment))
      ensures ok && effect.Some? ==>
                |actions| >= 2 && actions[|actions| - 2] == Record(EffectPlanned(effect.value.key))
                && actions[|actions| - 1] == Record(EffectStarted(effect.value.key))
    {
      if effect.None? { return true; }
      var planned := RecordDraft(EffectPlanned(effect.value.key));
      if planned.None? { return false; }
      ok := BeginEffect(effect.value.key);
      LaterRecord(old(actions), EffectPlanned(effect.value.key));
      LaterTrans(old(actions), old(actions) + [Record(EffectPlanned(effect.value.key))], actions);
      EffectAnnounced(old(events), effect);
    }

    method BeginEffect(key: string) returns (ok: bool)
      requires SafeLog()
      modifies `moment, `events, `actions
      ensures SafeLog() && Later(old(actions), actions) && Generations(actions) == old(Generations(actions))
      ensures ok ==> events == old(events) + [EffectStarted(key)] && ResultIds(events) == old(ResultIds(events))
      ensures ok ==> actions == old(actions) + [Record(EffectStarted(key))]
      ensures moment == old(moment) + 1 && (!ok ==> Refused(world, moment))
    {
      var started := RecordDraft(EffectStarted(key));
      ok := started.Some?;
    }

    method ExecuteExternal(capability: string, params: Fields, id: string, key: Option<string>) returns (result: Fields)
      requires SafeLog() && id !in ExecutedIds(actions)
      requires key.Some? ==> |actions| >= 2 && actions[|actions| - 2] == Record(EffectPlanned(key.value))
                             && actions[|actions| - 1] == Record(EffectStarted(key.value))
      modifies `moment, `actions
      ensures SafeLog()
      ensures ExecutedIds(actions) == old(ExecutedIds(actions)) + [id]
      ensures Generations(actions) == old(Generations(actions))
      ensures actions == old(actions) + [Execute(id, capability, params, key, old(moment))]
      ensures Added(old(actions), actions, id)
      ensures result == RawResult(world, capability, old(moment))
      ensures moment >= old(moment)
    {
      SafeExecute(actions, events, invocation.maxModelCalls, Execute(id, capability, params, key, moment));
      AddedExecution(actions, Execute(id, capability, params, key, moment));
      actions := actions + [Execute(id, capability, params, key, moment)];
      var answer := world.execute(moment);
      moment := moment + 1;
      if answer.Some? {
        result := Validated(answer.value, capability);
      } else {
        var reason := AbortReason();
        result := ToolError(if reason.Some? then "tool-aborted" else "tool-crashed", "");
      }
    }

    /** Announces the effect of an external call, executes it once and takes the executor's answer for its result. */
    method RunExternal(kind: Kind, id: string, name: string, params: Fields) returns (r: Option<Execution>)
      requires SafeLog() && id !in ExecutedIds(actions) && kind.External?
      modifies `moment, `events, `actions
      ensures SafeLog() && Added(old(actions), actions, id)
      ensures r.Some? ==> events == old(events) + Before(r.value.effect) && ResultIds(events) == old(ResultIds(events))
      ensures r.Some? ==>
                ExecutedIds(actions) == old(ExecutedIds(actions)) + [id] && Generations(actions)
                        == old(Generations(actions))
      ensures r.Some? ==> r.value.stop == Stops(r.value.result)
      ensures r.Some? ==> Performed(world, invocation, name, kind, params, Group(id, r.value.effect, r.value.result),
                                    actions)
      ensures moment >= old(moment) && (r.None? ==> Refused(world, moment))
    {
      var effect: Option<Effect> := None;
      if kind.semantics.Some? {
        var key := world.effectKey(ScopeOf(invocation, id), kind.capability, params);
        if key.None? { return None; }
        effect := Some(Effect(key.value, kind.semantics.value == UnsafeToRetry));
      }
      var announced := AnnounceEffect(effect);
      LaterAdded(old(actions), actions, id);
      if !announced { return None; }
      ghost var announcedBy := actions;
      PerformedNow(world, invocation, name, kind, params, id, effect, actions, moment);
      var result := ExecuteExternal(kind.capability, params, id, KeyOf(effect));
      AddedLater(old(actions), announcedBy, actions, id);
      result := Normalized(result, name, world.text);
      return Some(Execution(result, Stops(result), effect));
    }

    /** The built-in tools propose and never reach the executor. */
    method RunControl(kind: Kind, params: Fields, position: nat) returns (e: Execution)
      requires !kind.External? && Proper(world, invocation, proposals, position) && NoWait(proposals)
      requires position < nextPosition
      modifies `proposals
      ensures Proper(world, invocation, proposals, nextPosition) && e.effect.None?
      ensures e.result == ControlResult(world, invocation, kind, params, position) && e.stop == Stops(e.result)
      ensures proposals == match ControlProposal(world, invocation, kind, params, position)
                           case Some(p) => old(proposals) + [p]
                           case None => old(proposals)
      ensures e.stop <==> !NoWait(proposals)
    {
      var done: Fields := map["ok" := Bool(true)];
      if kind.ContextBudget? { return Execution(done, false, None); }
      if kind.Cancel? {
        if invocation.agent.None? || invocation.session.None? {
          return Execution(ToolError("missing-cancel-source", ""), false, None);
        }
        var target := HandleParam(params);
        Propose(CancelProposal(target, position));
        return Execution(done["handle" := String(target)]["status" := String("requested")], false, None);
      }
      e := RunQueued(kind, params, position);
    }

    /** Waiting and publishing need the queue item the run comes from. */
    method RunQueued(kind: Kind, params: Fields, position: nat) returns (e: Execution)
      requires kind.Wait? || kind.Publish?
      requires Proper(world, invocation, proposals, position) && NoWait(proposals) && position < nextPosition
      modifies `proposals
      ensures Proper(world, invocation, proposals, nextPosition) && e.effect.None?
      ensures e.result == ControlResult(world, invocation, kind, params, position) && e.stop == Stops(e.result)
      ensures proposals == match ControlProposal(world, invocation, kind, params, position)
                           case Some(p) => old(proposals) + [p]
                           case None => old(proposals)
      ensures e.stop <==> !NoWait(proposals)
    {
      if invocation.queueItem.None? {
        return Execution(ToolError(if kind.Wait? then "missing-wait-source" else "missing-publish-source", ""), false,
                         None);
      }
      var fault := world.controlFault(kind, params);
      if fault.Some? { return Execution(ToolError(fault.value, ""), false, None); }
      var handle := ControlHandle(world.hasher, if kind.Wait? then "wait_" else "pub_", invocation.queueItem.value,
                                  position);
      var done: Fields := map["ok" := Bool(true), "handle" := String(handle)];
      if kind.Wait? {
        Propose(WaitProposal(handle, position));
        return Execution(done["stop" := Bool(true)], true, None);
      }
      Propose(PublishProposal(handle, position));
      return Execution(done, false, None);
    }

    method Propose(p: Proposal)
      requires Proper(world, invocation, proposals, p.position) && NoWait(proposals)
      requires Derived(world, invocation, [p]) && p.position < nextPosition
      modifies `proposals
      ensures proposals == old(proposals) + [p] && Proper(world, invocation, proposals, nextPosition)
      ensures NoWait(proposals) <==> !p.WaitProposal?
    {
      ProposalsGrow(world, invocation, proposals, p, nextPosition);
      proposals := proposals + [p];
      assert proposals[|proposals| - 1] == p;
    }

    method RunTool(call: ToolCall, id: string, position: nat) returns (r: Option<Execution>)
      requires AlwaysSafe() && NoWait(proposals) && id !in ExecutedIds(actions)
      requires Proper(world, invocation, proposals, position) && position < nextPosition
      modifies `moment, `events, `actions, `proposals
      ensures AlwaysSafe() && Added(old(actions), actions, id) && old(proposals) <= proposals
      ensures r.Some? ==> events == old(events) + Before(r.value.effect) && ResultIds(events) == old(ResultIds(events))
      ensures r.Some? ==> Generations(actions) == old(Generations(actions))
      ensures r.Some? ==>
                ExecutedIds(actions) == old(ExecutedIds(actions)) || ExecutedIds(actions)
                        == old(ExecutedIds(actions)) + [id]
      ensures r.Some? ==> r.value.stop == Stops(r.value.result) && (!r.value.stop ==> NoWait(proposals))
      ensures r.Some? ==> Answers(world, invocation, call, Group(id, r.value.effect, r.value.result), actions,
                                  proposals)
      ensures moment >= old(moment) && (r.None? ==> Refused(world, moment))
    {
      match world.validate(call)
      case Rejected(code) =>
        r := Some(Execution(ToolError(code, ""), false, None));
      case Accepted(kind, params) =>
        if kind.External? {
          r := RunExternal(kind, id, call.name, params);
        } else {
          var e := RunControl(kind, params, position);
          ControlAnswers(world, invocation, call, kind, params, id, position, actions, proposals);
          r := Some(e);
        }
    }

    /** Records the result of a call and the end of its effect. */
    method FinishCall(id: string, e: Execution) returns (ok: bool)
      requires SafeLog() && id !in ResultIds(events)
      modifies `moment, `events, `actions
      ensures SafeLog()
      ensures Later(old(actions), actions) && Generations(actions) == old(Generations(actions))
      ensures ok ==> events == old(events) + [ResultDraft(id, e.result)] + After(e.effect, e.result)
      ensures ok ==> ResultIds(events) == old(ResultIds(events)) + [id]
      ensures ok ==> TellsResult(Group(id, e.effect, e.result), events[|old(events)|])
      ensures ok && e.effect.Some? ==> TellsEnd(Group(id, e.effect, e.result), events[|old(events)| + 1])
      ensures moment >= old(moment) && (!ok ==> Refused(world, moment))
    {
      ResultTold(Group(id, e.effect, e.result));
      if e.effect.Some? { EndTold(Group(id, e.effect, e.result)); }
      ok := NewId();
      if !ok { return; }
      ok := RecordTrace();
      if !ok { return; }
      StatusTerminal(e.result);
      var ended := RecordDraft(ResultDraft(id, e.result));
      if ended.None? { return false; }
      if e.effect.None? { return true; }
      ghost var middle := actions;
      var closed := RecordDraft(EffectEnded(e.effect.value.key, EndStatus(e.effect.value, e.result)));
      LaterTrans(old(actions), middle, actions);
      ok := closed.Some?;
    }

    method StartCall(id: string) returns (ok: bool)
      requires SafeLog()
      modifies `moment, `events, `actions
      ensures SafeLog()
      ensures Later(old(actions), actions) && Generations(actions) == old(Generations(actions))
      ensures ok ==> events == old(events) + [ToolStarted(id)] && ResultIds(events) == old(ResultIds(events))
      ensures moment >= old(moment) && (!ok ==> Refused(world, moment))
    {
      ok := RecordTrace();
      if !ok { return; }
      var started := RecordDraft(ToolStarted(id));
      ok := started.Some?;
    }

    /** The records of one tool call, in order. */
    method RunCall(call: ToolCall, id: string, position: nat) returns (r: Option<Execution>)
      requires AlwaysSafe() && NoWait(proposals) && id !in ExecutedIds(actions) && id !in ResultIds(events)
      requires Proper(world, invocation, proposals, position) && position < nextPosition
      modifies `moment, `events, `actions, `proposals
      ensures AlwaysSafe() && Added(old(actions), actions, id) && old(proposals) <= proposals
      ensures r.Some? ==> events == old(events) + GroupDrafts(Group(id, r.value.effect, r.value.result))
      ensures r.Some? ==>
                ResultIds(events) == old(ResultIds(events)) + [id] && Generations(actions) == old(Generations(actions))
      ensures r.Some? ==>
                ExecutedIds(actions) == old(ExecutedIds(actions)) || ExecutedIds(actions)
                        == old(ExecutedIds(actions)) + [id]
      ensures r.Some? ==> r.value.stop == Stops(r.value.result) && (!r.value.stop ==> NoWait(proposals))
      ensures r.Some? ==> Answers(world, invocation, call, Group(id, r.value.effect, r.value.result), actions,
                                  proposals)
      ensures moment >= old(moment) && (r.None? ==> Refused(world, moment))
    {
      ghost var log := events;
      var started := StartCall(id);
      LaterAdded(old(actions), actions, id);
      if !started { return None; }
      ghost var begun := actions;
      r := RunTool(call, id, position);
      AddedLater(old(actions), begun, actions, id);
      if r.None? { return; }
      ghost var g, ran := Group(id, r.value.effect, r.value.result), actions;
      var ended := FinishCall(id, r.value);
      AddedLater(old(actions), ran, actions, id);
      if !ended { return None; }
      GroupAssembled(log, g);
      AnswersGrow(world, invocation, call, g, ran, actions, proposals, proposals);
    }

    /** One tool call from its start record to its terminal records; a refused record or a missing id fails the run. */
    method ProcessToolCall(call: ToolCall, index: nat, position: nat) returns (stop: Option<bool>)
      requires WholeLog() && SafeProposals() && turns != [] && NoWait(proposals)
      requires CallId(call, index) !in ResultIds(events)
      requires Proper(world, invocation, proposals, position) && position < nextPosition
      modifies `moment, `events, `actions, `proposals, `turns
      ensures AlwaysSafe() && Added(old(actions), actions, CallId(call, index)) && old(proposals) <= proposals
      ensures stop.Some? ==> WholeLog() && Generations(actions) == old(Generations(actions))
      ensures stop.Some? ==> Grown(world, invocation, call, CallId(call, index), old(turns), turns, actions, proposals,
                                   stop.value)
      ensures stop == Some(false) ==> NoWait(proposals)
      ensures moment >= old(moment) && (stop.None? ==> turns == old(turns) && Refused(world, moment))
    {
      var id := CallId(call, index);
      Unexecuted(id);
      var r := RunCall(call, id, position);
      if r.None? { return None; }
      ghost var g := Group(id, r.value.effect, r.value.result);
      AddGroup(g, old(ExecutedIds(actions)), old(ResultIds(events)));
      GrownBy(world, invocation, call, g, old(turns), actions, proposals);
      stop := Some(r.value.stop);
    }

    /** Adds the group of a call whose records are in the log to the last turn. */
    ghost method AddGroup(g: Group, executed: seq<string>, answered: seq<string>)
      requires SafeLog() && turns != [] && events == Flatten(turns) + GroupDrafts(g)
      requires |turns| == modelCalls <= Generations(actions)
      requires Settled(executed, answered) && ResultIds(events) == answered + [g.id]
      requires ExecutedIds(actions) == executed || ExecutedIds(actions) == executed + [g.id]
      modifies `turns
      ensures WholeLog() && turns == WithGroup(old(turns), g)
    {
      SettledGrows(executed, ExecutedIds(actions), answered, g.id);
      FlattenGroup(turns, g);
      turns := WithGroup(turns, g);
    }

    // ------------------------------------------------------------------- loop

    /** Between steps the log has a terminal result of exactly the calls with a group. */
    method HasResult(id: string) returns (known: bool)
      requires WholeLog()
      ensures (known <==> id in ResultIds(events)) && (known <==> id in AllIds(turns))
    {
      known := HasTerminalResult(id);
      ResultIn(events, id);
      FlattenResults(turns);
    }

    /** One pending call: abort checks around it, a group in the last turn unless the call already has its result. */
    method StepBatch(call: ToolCall, index: nat) returns (c: Control)
      requires WholeLog() && SafeProposals() && turns != [] && NoWait(proposals)
      modifies `moment, `events, `actions, `proposals, `turns, `nextPosition
      ensures AlwaysSafe() && Added(old(actions), actions, CallId(call, index)) && old(proposals) <= proposals
      ensures !c.Fail? ==> WholeLog() && Generations(actions) == old(Generations(actions))
      ensures c.Continue? ==> NoWait(proposals)
      ensures c.Finish? ==> c.stop == ToolStop
      ensures Stepped(world, invocation, call, CallId(call, index), AllIds(old(turns)), old(turns), turns, actions,
                      proposals, c)
      ensures CallId(call, index) in AllIds(old(turns)) ==> actions == old(actions)
      ensures moment >= old(moment) && (c.Fail? ==> Refused(world, moment))
      ensures c.Abort? ==> Signalled(world, moment, c.reason)
    {
      var reason := AbortReason();
      if reason.Some? { return Abort(reason.value); }
      var position := TakePosition();
      var known := HasResult(CallId(call, index));
      if known { return Continue; }
      c := RunStep(call, index, position);
    }

    method TakePosition() returns (position: nat)
      requires SafeProposals()
      modifies `nextPosition
      ensures position == old(nextPosition) && nextPosition == position + 1
      ensures SafeProposals() && Proper(world, invocation, proposals, position)
    {
      position := nextPosition;
      nextPosition := nextPosition + 1;
    }

    /** A call without a result: its group, and then the abort check before its word to stop. */
    method RunStep(call: ToolCall, index: nat, position: nat) returns (c: Control)
      requires WholeLog() && SafeProposals() && turns != [] && NoWait(proposals)
      requires CallId(call, index) !in ResultIds(events) && CallId(call, index) !in AllIds(turns)
      requires Proper(world, invocation, proposals, position) && position < nextPosition
      modifies `moment, `events, `actions, `proposals, `turns
      ensures AlwaysSafe() && Added(old(actions), actions, CallId(call, index)) && old(proposals) <= proposals
      ensures !c.Fail? ==> WholeLog() && Generations(actions) == old(Generations(actions))
      ensures c.Continue? ==> NoWait(proposals)
      ensures c.Finish? ==> c.stop == ToolStop
      ensures Stepped(world, invocation, call, CallId(call, index), AllIds(old(turns)), old(turns), turns, actions,
                      proposals, c)
      ensures moment >= old(moment) && (c.Fail? ==> Refused(world, moment))
      ensures c.Abort? ==> Signalled(world, moment, c.reason)
    {
      var stop := ProcessToolCall(call, index, position);
      if stop.None? { return Fail; }
      var reason := AbortReason();
      c := if reason.Some? then Abort(reason.value) else if stop.value then Finish(ToolStop) else Continue;
      SteppedBy(world, invocation, call, CallId(call, index), AllIds(old(turns)), old(turns), turns, actions, proposals,
                stop.value, c);
    }

    /** Works through the pending tool calls of the last reply. */
    method RunBatch() returns (c: Control)
      requires WholeLog() && SafeProposals() && NoWait(proposals) && Follows() && Unstopped(turns)
      requires turns != [] && done == 0 && pending == replies[|replies| - 1]
      modifies `moment, `events, `actions, `proposals, `turns, `pending, `nextPosition, `done
      ensures AlwaysSafe()
      ensures !c.Fail? ==> WholeLog() && Follows() && pending == [] && Generations(actions) == old(Generations(actions))
      ensures LastOnly(old(turns), turns)
      ensures c.Continue? ==> NoWait(proposals) && done == |replies[|replies| - 1]|
      ensures Halting(turns, c) && (c.Finish? ==> c.stop == ToolStop)
      ensures moment >= old(moment) && (c.Fail? ==> Refused(world, moment))
      ensures c.Abort? ==> Signalled(world, moment, c.reason)
    {
      var calls := pending;
      pending := [];
      var index := 0;
      while index < |calls|
        invariant index <= |calls| && WholeLog() && SafeProposals() && NoWait(proposals) && pending == []
        invariant Follows() && done == index && Unstopped(turns)
        invariant turns != [] && LastOnly(old(turns), turns)
        invariant Generations(actions) == old(Generations(actions)) && moment >= old(moment)
      {
        c := ServeCall(calls[index], index);
        if !c.Continue? { return; }
        index := index + 1;
      }
      return Continue;
    }

    /** One call of the last reply, in its order. */
    method ServeCall(call: ToolCall, index: nat) returns (c: Control)
      requires WholeLog() && SafeProposals() && NoWait(proposals) && Follows() && done == index && turns != []
      requires Unstopped(turns)
      requires index < |replies[|replies| - 1]| && call == replies[|replies| - 1][index]
      modifies `moment, `events, `actions, `proposals, `turns, `nextPosition, `done
      ensures AlwaysSafe() && Follows()
      ensures !c.Fail? ==> WholeLog() && Generations(actions) == old(Generations(actions))
      ensures LastOnly(old(turns), turns)
      ensures c.Continue? ==> NoWait(proposals) && done == index + 1
      ensures Halting(turns, c) && (c.Finish? ==> c.stop == ToolStop && done == index + 1)
      ensures moment >= old(moment) && (c.Fail? ==> Refused(world, moment))
      ensures c.Abort? ==> Signalled(world, moment, c.reason)
    {
      c := StepBatch(call, index);
      Advance(call, index, c, old(turns), old(actions), old(proposals));
    }

    /** Counts the call as worked through unless the run ended before it. */
    ghost method Advance(call: ToolCall, index: nat, c: Control, before: seq<Turn>, earlier: seq<Action>,
                         proposed: seq<Proposal>)
      requires Followed(before, replies, index) && Heard(world, replies, asked) && before != [] && Unstopped(before)
      requires Just(world, invocation, before, replies, index, earlier, proposed)
      requires index < |replies[|replies| - 1]| && call == replies[|replies| - 1][index]
      requires Added(earlier, actions, CallId(call, index)) && proposed <= proposals
      requires (CallId(call, index) in AllIds(before) ==> actions == earlier) && (c.Finish? ==> c.stop == ToolStop)
      requires Stepped(world, invocation, call, CallId(call, index), AllIds(before), before, turns, actions, proposals,
                       c)
      modifies `done
      ensures Follows() && LastOnly(before, turns) && (c.Continue? || c.Finish? ==> done == index + 1)
      ensures Halting(turns, c)
    {
      done := Served(world, invocation, before, replies, index, call, turns, actions, proposals, c);
      ServedJust(world, invocation, before, replies, index, done, call, turns, earlier, actions, proposed, proposals,
                 c);
    }

    /** Calls the gateway and allots the answer its event id; any failure ends the run. */
    method AskModel() returns (c: Control, reply: seq<ToolCall>, ghost at: nat)
      requires WholeLog() && Generations(actions) < invocation.maxModelCalls
      modifies `moment, `actions
      ensures WholeLog() && (c.Continue? ==> Generations(actions) == old(Generations(actions)) + 1) && !c.Finish?
      ensures Later(old(actions), actions)
      ensures c.Continue? ==> old(moment) <= at < moment && world.generate(at) == Some(reply)
      ensures moment >= old(moment) && (c.Fail? ==> Refused(world, moment))
      ensures c.Abort? ==> Signalled(world, moment, c.reason)
    {
      reply, at := [], 0;
      var built := world.prompt(moment);
      moment := moment + 1;
      assert !built ==> Refuses(world, moment - 1);
      if !built { return Fail, reply, at; }
      var traced := RecordTrace();
      if !traced { return Fail, reply, at; }
      c, reply, at := CallGateway();
      if !c.Continue? { return; }
      var numbered := NewId();
      if !numbered { return Fail, reply, at; }
      traced := RecordTrace();
      if !traced { return Fail, reply, at; }
    }

    /** One gateway call; an abort signalled meanwhile takes precedence over a failure. */
    method CallGateway() returns (c: Control, reply: seq<ToolCall>, ghost at: nat)
      requires WholeLog() && Generations(actions) < invocation.maxModelCalls
      modifies `moment, `actions
      ensures WholeLog() && Generations(actions) == old(Generations(actions)) + 1 && !c.Finish?
      ensures Later(old(actions), actions)
      ensures at == old(moment) < moment && (c.Continue? ==> world.generate(at) == Some(reply))
      ensures c.Fail? ==> Refused(world, moment)
      ensures c.Abort? ==> Signalled(world, moment, c.reason)
    {
      SafeGenerate(actions, events, invocation.maxModelCalls);
      LaterGenerate(actions);
      actions := actions + [Generate];
      reply, at := [], moment;
      var answer := world.generate(moment);
      moment := moment + 1;
      if answer.None? {
        assert Refuses(world, moment - 1);
        var reason := AbortReason();
        c := if reason.Some? then Abort(reason.value) else Fail;
        return;
      }
      var cancelled := world.cancelled(moment);
      moment := moment + 1;
      if cancelled { return Abort(Cancelled), reply, at; }
      c, reply := Continue, answer.value;
    }

    /** Asks the model once and records its answer. */
    method RunTurn() returns (c: Control)
      requires WholeLog() && Follows() && Timely(asked, moment) && WorkedThrough(replies, done) && Unstopped(turns)
      requires pending == [] && Generations(actions) == modelCalls < invocation.maxModelCalls
      modifies `moment, `events, `actions, `turns, `pending, `modelCalls, `replies, `asked, `done
      ensures SafeLog()
      ensures !c.Fail? ==> WholeLog() && Follows() && Timely(asked, moment)
      ensures c.Continue? || c.Finish? ==>
                && turns == old(turns) + [[]] && replies == old(replies) + [pending] && done == 0
                && modelCalls == old(modelCalls) + 1 == Generations(actions)
                && |asked| == |replies| && world.generate(asked[|asked| - 1]) == Some(pending)
      ensures c.Abort? ==> turns == old(turns) && replies == old(replies) && done == old(done)
      ensures c.Continue? ==> pending != []
      ensures !c.Fail? ==> Unstopped(turns)
      ensures c.Finish? ==> c.stop == Stop.Finished && pending == []
      ensures moment >= old(moment) && (c.Fail? ==> Refused(world, moment))
      ensures c.Abort? ==> Signalled(world, moment, c.reason)
    {
      var reply;
      ghost var at;
      c, reply, at := HearModel();
      if c.Continue? { c := TakeTurn(reply, at, old(moment)); }
    }

    /** One model call; what was told of the turns so far stays true. */
    method HearModel() returns (c: Control, reply: seq<ToolCall>, ghost at: nat)
      requires WholeLog() && Follows() && Generations(actions) < invocation.maxModelCalls
      modifies `moment, `actions
      ensures WholeLog() && Follows() && (c.Continue? ==> Generations(actions) == old(Generations(actions)) + 1)
      ensures !c.Finish?
      ensures c.Continue? ==> old(moment) <= at < moment && world.generate(at) == Some(reply)
      ensures moment >= old(moment) && (c.Fail? ==> Refused(world, moment))
      ensures c.Abort? ==> Signalled(world, moment, c.reason)
    {
      c, reply, at := AskModel();
      TurnsServed(turns, replies, done);
      JustLater(world, invocation, turns, replies, done, old(actions), actions, proposals);
    }

    /** Records the answer of the model and takes it up. */
    method TakeTurn(reply: seq<ToolCall>, ghost at: nat, ghost since: nat) returns (c: Control)
      requires WholeLog() && Follows() && Timely(asked, since) && WorkedThrough(replies, done)
      requires modelCalls < Generations(actions)
      requires since <= at < moment && world.generate(at) == Some(reply) && Unstopped(turns)
      modifies `moment, `events, `actions, `turns, `pending, `modelCalls, `replies, `asked, `done
      ensures SafeLog() && Generations(actions) == old(Generations(actions))
      ensures !c.Fail? ==> WholeLog() && Follows() && Timely(asked, moment) && Unstopped(turns)
      ensures !c.Fail? ==> turns == old(turns) + [[]] && replies == old(replies) + [pending] && done == 0
      ensures !c.Fail? ==> modelCalls == old(modelCalls) + 1 && pending == reply
      ensures !c.Fail? ==> |asked| == |replies| && world.generate(asked[|asked| - 1]) == Some(pending)
      ensures !c.Fail? ==> c == if reply == [] then Finish(Stop.Finished) else Continue
      ensures moment >= old(moment) && (c.Fail? ==> Refused(world, moment))
    {
      var begun := BeginTurn();
      if !begun { return Fail; }
      Enter(reply, at, old(turns), since, old(actions));
      c := if reply == [] then Finish(Stop.Finished) else Continue;
    }

    /** Takes up a recorded reply. */
    method Enter(reply: seq<ToolCall>, ghost at: nat, ghost before: seq<Turn>, ghost since: nat,
                 ghost earlier: seq<Action>)
      requires turns == before + [[]] && Followed(before, replies, done) && WorkedThrough(replies, done)
      requires Heard(world, replies, asked) && Timely(asked, since) && since <= at < moment
      requires world.generate(at) == Some(reply)
      requires Just(world, invocation, before, replies, done, earlier, proposals) && Later(earlier, actions)
      requires Unstopped(before)
      modifies `replies, `asked, `done, `pending
      ensures Unstopped(turns)
      ensures Follows() && Timely(asked, moment) && replies == old(replies) + [reply] && done == 0 && pending == reply
      ensures |asked| == |replies| && asked[|asked| - 1] == at
    {
      FollowReply(before, replies, done, reply);
      HeardNext(world, replies, asked, reply, at, since);
      UnstoppedTurn(before);
      TurnsServed(before, replies, done);
      JustLater(world, invocation, before, replies, done, earlier, actions, proposals);
      JustReply(world, invocation, before, replies, done, reply, actions, proposals);
      replies, asked, done, pending := replies + [reply], asked + [at], 0, reply;
    }

    method BeginTurn() returns (ok: bool)
      requires WholeLog() && modelCalls < Generations(actions)
      modifies `moment, `events, `actions, `turns, `modelCalls
      ensures SafeLog() && Later(old(actions), actions) && Generations(actions) == old(Generations(actions))
      ensures ok ==> WholeLog() && modelCalls == old(modelCalls) + 1 && turns == old(turns) + [[]]
      ensures moment >= old(moment) && (!ok ==> Refused(world, moment))
    {
      var kept := RecordDraft(ModelCompleted);
      if kept.None? { return false; }
      FlattenTurn(turns);
      turns := turns + [[]];
      modelCalls := modelCalls + 1;
      return true;
    }

    /** Closes an aborted run with its own record. */
    method AbortRun(reason: Reason) returns (o: Outcome)
      requires WholeLog()
      modifies `moment, `events, `actions
      ensures SafeLog() && Later(old(actions), actions) && |turns| <= invocation.maxModelCalls
      ensures moment == old(moment) + 1
      ensures o == Failed || (o == Aborted(reason) && events == Flatten(turns) + [TurnFailed(reason)])
      ensures o == Failed ==> Refused(world, moment)
    {
      var kept := RecordDraft(TurnFailed(reason));
      o := if kept.Some? then Aborted(reason) else Failed;
    }

    /** Either a reply waits untouched or the last one is worked through. */
    ghost predicate Between()
      reads `turns, `replies, `done, `pending
    {
      if pending == [] then WorkedThrough(replies, done)
      else turns != [] && |replies| == |turns| && done == 0 && pending == replies[|replies| - 1]
    }

    /** The loop may go on: whole turns, no wait proposed, and one turn for each model call made. */
    ghost predicate Ready()
      reads `actions, `events, `turns, `modelCalls, `proposals, `nextPosition, `pending, `replies, `asked, `done
      reads `moment
    {
      && WholeLog() && SafeProposals() && NoWait(proposals) && Follows() && Unstopped(turns) && Timely(asked, moment)
      && Between()
      && Generations(actions) == modelCalls <= invocation.maxModelCalls
    }

    /** What a run leaves behind, by how it ended. */
    ghost predicate Ended(o: Outcome)
      reads `actions, `events, `turns, `proposals, `nextPosition, `replies, `asked, `done, `moment
    {
      AlwaysSafe() && EndsAs(world, invocation, o, events, turns, replies, asked, done, actions, proposals, moment)
    }

    /** What a step that does not continue leaves for the end. */
    ghost predicate Ending(c: Control)
      reads `actions, `events, `turns, `proposals, `nextPosition, `replies, `asked, `done, `moment, `modelCalls
    {
      && AlwaysSafe()
      && (c.Fail? ==> Refused(world, moment))
      && (!c.Fail? ==> WholeLog() && Follows())
      && (c.Abort? ==> Signalled(world, moment, c.reason))
      && (c == Finish(MaxModelCalls) ==> modelCalls == invocation.maxModelCalls && WorkedThrough(replies, done))
      && (c == Finish(Stop.Finished) ==> replies != [] && replies[|replies| - 1] == [])
      && (!c.Fail? ==> Halting(turns, c))
    }

    method BatchStep() returns (c: Control)
      requires Ready() && pending != []
      modifies `moment, `events, `actions, `proposals, `turns, `pending, `nextPosition, `done
      ensures if c.Continue? then Ready() && pending == [] else Ending(c)
    {
      c := RunBatch();
    }

    /** Asks the model again unless the budget is used up or an abort is signalled. */
    method ModelStep() returns (c: Control)
      requires Ready() && pending == []
      modifies `moment, `events, `actions, `turns, `pending, `modelCalls, `replies, `asked, `done
      ensures if c.Continue? then Ready() && modelCalls == old(modelCalls) + 1 else Ending(c)
    {
      if modelCalls >= invocation.maxModelCalls { return Finish(MaxModelCalls); }
      var reason := AbortReason();
      if reason.Some? { return Abort(reason.value); }
      c := RunTurn();
    }

    /** The outcome of a step that does not continue; an abort is recorded first. */
    method Conclude(c: Control) returns (o: Outcome)
      requires !c.Continue? && Ending(c)
      modifies `moment, `events, `actions
      ensures Ended(o)
      ensures o.Aborted? ==> c == Abort(o.reason)
      ensures o.Completed? ==> c == Finish(o.stop)
    {
      if c.Fail? { return Failed; }
      if c.Finish? { return Completed(c.stop); }
      o := AbortRun(c.reason);
      TurnsServed(turns, replies, done);
      JustLater(world, invocation, turns, replies, done, old(actions), actions, proposals);
    }

    /** Runs an invocation to its end. */
    method Run() returns (o: Outcome)
      requires Ready()
      modifies `moment, `events, `actions, `proposals, `turns, `pending, `nextPosition, `modelCalls, `replies, `asked
      modifies `done
      ensures Ended(o) && (!o.Failed? ==> Truthful(events, AllGroups(turns)))
    {
      while true
        invariant Ready()
        decreases invocation.maxModelCalls - modelCalls, |pending|
      {
        var c: Control;
        if pending != [] { c := BatchStep(); } else { c := ModelStep(); }
        if !c.Continue? {
          o := Conclude(c);
          if o.Completed? { TurnsTold(turns); } else if o.Aborted? { AbortTold(turns, o.reason); }
          return;
        }
      }
    }
  }

  /** The last turn got one more group, the answer to this call. */
  ghost predicate Grown(w: World, v: Invocation, call: ToolCall, id: string, before: seq<Turn>, after: seq<Turn>,
                        actions: seq<Action>, proposals: seq<Proposal>, stop: bool)
  {
    before != [] && exists g: Group ::
      g.id == id && after == WithGroup(before, g) && Answers(w, v, call, g, actions, proposals) && stop
              == Stops(g.result)
  }

  lemma GrownBy(w: World, v: Invocation, call: ToolCall, g: Group, before: seq<Turn>, actions: seq<Action>,
                proposals: seq<Proposal>)
    requires before != [] && Answers(w, v, call, g, actions, proposals)
    ensures Grown(w, v, call, g.id, before, WithGroup(before, g), actions, proposals, Stops(g.result))
  {
  }

  lemma GrownDiffers(w: World, v: Invocation, call: ToolCall, id: string, before: seq<Turn>, after: seq<Turn>,
                     actions: seq<Action>, proposals: seq<Proposal>, stop: bool)
    requires Grown(w, v, call, id, before, after, actions, proposals, stop)
    ensures after != before
  {
    var g: Group :| g.id == id && after == WithGroup(before, g);
    assert |after[|before| - 1]| == |before[|before| - 1]| + 1;
  }

  /** A call that has a result changes no turn; any other gets its group, unless the run ends before. The run stops on
    * the group's word only. */
  ghost predicate Stepped(w: World, v: Invocation, call: ToolCall, id: string, answered: seq<string>,
                          before: seq<Turn>, after: seq<Turn>,
                          actions: seq<Action>, proposals: seq<Proposal>, c: Control)
  {
    if id in answered then after == before && !c.Finish?
    else if after == before then c.Abort? || c.Fail?
    else (Grown(w, v, call, id, before, after, actions, proposals, true) && !c.Continue?)
         || (Grown(w, v, call, id, before, after, actions, proposals, false) && !c.Finish?)
  }

  lemma SteppedBy(w: World, v: Invocation, call: ToolCall, id: string, answered: seq<string>, before: seq<Turn>,
                  after: seq<Turn>,
                  actions: seq<Action>, proposals: seq<Proposal>, stop: bool, c: Control)
    requires Grown(w, v, call, id, before, after, actions, proposals, stop) && id !in answered
    requires if stop then !c.Continue? else !c.Finish?
    ensures Stepped(w, v, call, id, answered, before, after, actions, proposals, c)
  {
    GrownDiffers(w, v, call, id, before, after, actions, proposals, stop);
  }

  /** How far the run was asked to stop by its groups: by the last one when a tool stopped it, by none when the loop
    * goes on. */
  ghost predicate Halting(turns: seq<Turn>, c: Control) {
    match c
    case Continue => Unstopped(turns)
    case Finish(stop) => if stop == ToolStop then StoppedLast(turns) else Unstopped(turns)
    case Abort(_) => Unstopped(turns) || StoppedLast(turns)
    case Fail => true
  }

  /** How a run's log, turns and replies hang together at its end, by how it ended. */
  ghost predicate EndsAs(w: World, v: Invocation, o: Outcome, events: seq<Draft>, turns: seq<Turn>,
                         replies: seq<seq<ToolCall>>,
                         asked: seq<nat>, done: nat, actions: seq<Action>, proposals: seq<Proposal>, moment: nat)
  {
    && (o.Completed? ==> events == Flatten(turns) && Halting(turns, Finish(o.stop)))
    && (o.Aborted? ==> events == Flatten(turns) + [TurnFailed(o.reason)] && Signalled(w, moment, o.reason)
                       && Halting(turns, Abort(o.reason)))
    && (o.Failed? ==> Refused(w, moment))
    && (!o.Failed? ==> |turns| <= v.maxModelCalls && Followed(turns, replies, done) && Heard(w, replies, asked)
                       && Just(w, v, turns, replies, done, actions, proposals))
    && (o == Completed(MaxModelCalls) ==> |turns| == v.maxModelCalls && WorkedThrough(replies, done))
    && (o == Completed(Stop.Finished) ==> replies != [] && replies[|replies| - 1] == [])
  }

  /** No turn but the last changed. */
  predicate LastOnly(before: seq<Turn>, after: seq<Turn>) {
    before != [] && |after| == |before| && after[..|after| - 1] == before[..|before| - 1]
  }

  lemma Served(w: World, v: Invocation, before: seq<Turn>, replies: seq<seq<ToolCall>>, index: nat, call: ToolCall,
               after: seq<Turn>,
               actions: seq<Action>, proposals: seq<Proposal>, c: Control)
    returns (served: nat)
    requires Followed(before, replies, index) && before != [] && index < |replies[|replies| - 1]|
    requires call == replies[|replies| - 1][index]
    requires Stepped(w, v, call, CallId(call, index), AllIds(before), before, after, actions, proposals, c)
    ensures LastOnly(before, after)
    ensures Followed(after, replies, served) && (c.Continue? || c.Finish? ==> served == index + 1)
    ensures served == index + 1 || (served == index && after == before)
  {
    if after == before && (c.Abort? || c.Fail?) { return index; }
    if after != before {
      var g := SteppedGroup(w, v, call, CallId(call, index), AllIds(before), before, after, actions, proposals, c);
      GroupIds(before, g);
    }
    FollowCall(before, replies, index, after);
    served := index + 1;
  }

  /** A call that gets a group is the first of its reply by its id. */
  lemma ServedFirst(before: seq<Turn>, replies: seq<seq<ToolCall>>, index: nat)
    requires Followed(before, replies, index) && before != [] && index < |replies[|replies| - 1]|
    requires CallId(replies[|replies| - 1][index], index) !in AllIds(before)
    ensures FirstBy(replies[|replies| - 1], index, CallId(replies[|replies| - 1][index], index))
  {
    LastServed(before, replies, index);
    FreshExactly(CallIds(replies[|replies| - 1])[..index], AllIds(before[..|before| - 1]));
  }

  lemma SteppedGroup(w: World, v: Invocation, call: ToolCall, id: string, answered: seq<string>, before: seq<Turn>,
                     after: seq<Turn>,
                     actions: seq<Action>, proposals: seq<Proposal>, c: Control)
    returns (g: Group)
    requires Stepped(w, v, call, id, answered, before, after, actions, proposals, c) && after != before
    ensures id !in answered && before != [] && g.id == id && after == WithGroup(before, g)
    ensures Answers(w, v, call, g, actions, proposals) && if Stops(g.result) then !c.Continue? else !c.Finish?
  {
    if Grown(w, v, call, id, before, after, actions, proposals, true) && !c.Continue? {
      g :| g.id == id && after == WithGroup(before, g) && Stops(g.result) && Answers(w, v, call, g, actions, proposals);
    } else {
      g :| g.id == id && after == WithGroup(before, g) && !Stops(g.result)
           && Answers(w, v, call, g, actions, proposals);
    }
  }

  lemma ServedJust(w: World, v: Invocation, before: seq<Turn>, replies: seq<seq<ToolCall>>, index: nat, served: nat,
                   call: ToolCall, after: seq<Turn>, earlier: seq<Action>, actions: seq<Action>,
                   proposed: seq<Proposal>, proposals: seq<Proposal>, c: Control)
    requires Followed(before, replies, index) && before != [] && index < |replies[|replies| - 1]| && Unstopped(before)
    requires call == replies[|replies| - 1][index] && Just(w, v, before, replies, index, earlier, proposed)
    requires Added(earlier, actions, CallId(call, index)) && proposed <= proposals
    requires CallId(call, index) in AllIds(before) ==> actions == earlier
    requires Stepped(w, v, call, CallId(call, index), AllIds(before), before, after, actions, proposals, c)
    requires (served == index + 1 || (served == index && after == before)) && (c.Finish? ==> c.stop == ToolStop)
    ensures Just(w, v, after, replies, served, actions, proposals) && Halting(after, c)
  {
    var id := CallId(call, index);
    JustKept(w, v, before, replies, index, served, id, earlier, actions, proposed, proposals);
    if after != before {
      var g := SteppedGroup(w, v, call, id, AllIds(before), before, after, actions, proposals, c);
      ServedFirst(before, replies, index);
      JustGroup(w, v, before, replies, index, g, actions, proposals);
      UnstoppedGroup(before, g);
    }
  }

  lemma TurnsServed(turns: seq<Turn>, replies: seq<seq<ToolCall>>, done: nat)
    requires Followed(turns, replies, done)
    ensures turns != [] ==> done <= |replies[|turns| - 1]|
  {
    if turns != [] { LastServed(turns, replies, done); }
  }

  lemma JustLater(w: World, v: Invocation, turns: seq<Turn>, replies: seq<seq<ToolCall>>, done: nat,
                  actions: seq<Action>, later: seq<Action>, proposals: seq<Proposal>)
    requires Just(w, v, turns, replies, done, actions, proposals) && Later(actions, later)
    requires turns != [] ==> done <= |replies[|turns| - 1]|
    ensures Just(w, v, turns, replies, done, later, proposals)
  {
    JustKept(w, v, turns, replies, done, done, "", actions, later, proposals, proposals);
  }

  /** The replies are the gateway's answers at rising moments. */
  predicate Heard(w: World, replies: seq<seq<ToolCall>>, asked: seq<nat>) {
    && |asked| == |replies|
    && (forall t | 0 <= t < |asked| :: w.generate(asked[t]) == Some(replies[t]))
    && (forall s, t | 0 <= s < t < |asked| :: asked[s] < asked[t])
  }

  predicate Timely(asked: seq<nat>, moment: nat) {
    forall t | 0 <= t < |asked| :: asked[t] < moment
  }

  lemma HeardNext(w: World, replies: seq<seq<ToolCall>>, asked: seq<nat>, reply: seq<ToolCall>, at: nat, before: nat)
    requires Heard(w, replies, asked) && Timely(asked, before) && before <= at && w.generate(at) == Some(reply)
    ensures Heard(w, replies + [reply], asked + [at])
  {
  }

  /** Some boundary refused something so far: a record, a trace, a prompt, an id, an answer or an effect key. */
  ghost predicate Refused(w: World, moment: nat) {
    || (exists m: nat :: m < moment && Refuses(w, m))
    || exists scope, operation, params :: w.effectKey(scope, operation, params).None?
  }

  predicate Refuses(w: World, m: nat) {
    || w.record(m).None? || !w.trace(m) || !w.prompt(m) || w.newId(m).None? || w.newId(m) == Some("")
    || w.generate(m).None?
  }

  /** Some abort check made so far gave this reason. */
  ghost predicate Signalled(w: World, moment: nat, reason: Reason) {
    exists m: nat :: m < moment && (w.abort(m) == Some(reason) || (reason == Cancelled && w.cancelled(m)))
  }

  predicate Settled(executed: seq<string>, answered: seq<string>) {
    forall id | id in executed :: id in answered
  }

  lemma SettledGrows(before: seq<string>, after: seq<string>, answered: seq<string>, id: string)
    requires Settled(before, answered) && (after == before || after == before + [id])
    ensures Settled(after, answered + [id])
  {
  }

  lemma EffectAnnounced(log: seq<Draft>, effect: Option<Effect>)
    requires effect.Some?
    ensures (log + [EffectPlanned(effect.value.key)]) + [EffectStarted(effect.value.key)] == log + Before(effect)
  {
  }

  lemma GroupAssembled(log: seq<Draft>, g: Group)
    ensures ((log + [ToolStarted(g.id)]) + Before(g.effect)) + [ResultDraft(g.id, g.result)] + After(g.effect, g.result)
            == log + GroupDrafts(g)
  {
  }

  // ------------------------------------------------------ a call passed over

  const NAMELESS: ToolCall := ToolCall("", "", Null)

  /** A model that always asks for one tool without an id, no tool that exists, and boundaries that accept
    * everything. */
  function Insistent(h: Hasher): World {
    World(h, _ => Some([NAMELESS]), _ => None, _ => Some("event"), _ => true, _ => true, _ => Some("id"), _ => None,
          _ => false, _ => Rejected("unknown-tool"), (_, _, _) => Some("key"), (_, _) => None, _ => "")
  }

  lemma InsistentAccepts(h: Hasher, moment: nat)
    ensures !Refused(Insistent(h), moment)
    ensures forall reason :: !Signalled(Insistent(h), moment, reason)
  {
    var w := Insistent(h);
    forall m: nat ensures !Refuses(w, m) {}
    forall scope, operation, params ensures w.effectKey(scope, operation, params).Some? {}
  }

  /** A run in which the second call is never started: it goes by the id of the first. */
  method PassedOver(h: Hasher) returns (r: Runner, o: Outcome)
    ensures fresh(r) && r.world == Insistent(h) && o == Completed(MaxModelCalls)
    ensures r.replies == [[NAMELESS], [NAMELESS]] && |r.turns| == 2 && |r.turns[0]| == 1 && r.turns[1] == []
    ensures r.events == [ModelCompleted, ToolStarted("call-0"), ToolResult("call-0", "refused", true), ModelCompleted]
  {
    r := new Runner(Insistent(h), Invocation(2, None, None, None, None));
    o := r.Run();
    InsistentOutcome(h, r.invocation, o, r.events, r.turns, r.replies, r.asked, r.done, r.actions, r.proposals,
                     r.moment);
  }

  lemma InsistentOutcome(h: Hasher, v: Invocation, o: Outcome, events: seq<Draft>, turns: seq<Turn>,
                         replies: seq<seq<ToolCall>>,
                         asked: seq<nat>, done: nat, actions: seq<Action>, proposals: seq<Proposal>, moment: nat)
    requires v.maxModelCalls == 2
    requires EndsAs(Insistent(h), v, o, events, turns, replies, asked, done, actions, proposals, moment)
    ensures o == Completed(MaxModelCalls)
    ensures events == [ModelCompleted, ToolStarted("call-0"), ToolResult("call-0", "refused", true), ModelCompleted]
    ensures replies == [[NAMELESS], [NAMELESS]] && |turns| == 2 && |turns[0]| == 1 && turns[1] == []
  {
    InsistentAccepts(h, moment);
    assert o.Completed?;
    InsistentNeverStops(h, v, turns, replies, done, actions, proposals);
    assert o.stop != ToolStop;
    InsistentReplies(h, replies, asked);
    assert replies != [] ==> |replies[|replies| - 1]| == 1;
    assert o == Completed(MaxModelCalls);
    assert replies == [[NAMELESS], [NAMELESS]];
    SecondCallPassedOver(turns, replies, done);
    InsistentLog(h, v, turns, replies, done, actions, proposals);
  }

  lemma InsistentLog(h: Hasher, v: Invocation, turns: seq<Turn>, replies: seq<seq<ToolCall>>, done: nat,
                     actions: seq<Action>, proposals: seq<Proposal>)
    requires Just(Insistent(h), v, turns, replies, done, actions, proposals) && replies == [[NAMELESS], [NAMELESS]]
    requires |turns| == 2 && |turns[0]| == 1 && turns[1] == []
    ensures Flatten(turns)
            == [ModelCompleted, ToolStarted("call-0"), ToolResult("call-0", "refused", true), ModelCompleted]
  {
    var g := turns[0][0];
    assert Justified(Insistent(h), v, replies[0], UpTo(turns, replies, done, 0), g, actions, proposals);
    assert g == Group("call-0", None, ToolError("unknown-tool", ""));
    assert turns[0] == [g];
    assert turns == [[g]] + [[]];
    OneGroupLog(g);
    RefusedDrafts(g);
  }

  /** The log of a turn with one group and a turn without any. */
  lemma OneGroupLog(g: Group)
    ensures Flatten([[g]] + [[]]) == [ModelCompleted] + GroupDrafts(g) + [ModelCompleted]
  {
    var none: seq<Turn>, asked: seq<Turn> := [], [[]];
    FlattenTurn(none);
    assert none + [[]] == asked;
    FlattenGroup(asked, g);
    assert WithGroup(asked, g) == [[g]];
    FlattenTurn([[g]]);
  }

  lemma RefusedDrafts(g: Group)
    requires g == Group("call-0", None, ToolError("unknown-tool", ""))
    ensures GroupDrafts(g) == [ToolStarted("call-0"), ToolResult("call-0", "refused", true)]
  {
  }

  /** Every call is rejected, so no group asks the run to stop. */
  lemma InsistentNeverStops(h: Hasher, v: Invocation, turns: seq<Turn>, replies: seq<seq<ToolCall>>, done: nat,
                            actions: seq<Action>, proposals: seq<Proposal>)
    requires Just(Insistent(h), v, turns, replies, done, actions, proposals)
    ensures !StoppedLast(turns)
  {
    forall t, j | 0 <= t < |turns| && 0 <= j < |turns[t]| ensures !Stops(turns[t][j].result) {
      assert Justified(Insistent(h), v, replies[t], if t == |turns| - 1 then done else |replies[t]|, turns[t][j],
                       actions, proposals);
    }
    if StoppedLast(turns) { StoppedStops(turns); }
  }

  lemma InsistentReplies(h: Hasher, replies: seq<seq<ToolCall>>, asked: seq<nat>)
    requires Heard(Insistent(h), replies, asked)
    ensures forall t | 0 <= t < |replies| :: replies[t] == [NAMELESS]
  {
    forall t | 0 <= t < |replies| ensures replies[t] == [NAMELESS] {
      assert Insistent(h).generate(asked[t]) == Some(replies[t]);
    }
  }
}
