/** What the statuses in the log of a run say of the answers its executor gave. */
module RunReports {
  import opened Text
  import opened ToolResults
  import opened RunLogs
  import opened RunStatuses
  import opened Follows
  import opened Worlds
  import opened Runners

  /** The executor answered this execution, and its answer says that it succeeded. */
  predicate AnsweredOk(w: World, a: Action)
    requires a.Execute?
  {
    w.execute(a.at).Some? && Succeeded(w.execute(a.at).value)
  }

  lemma {:induction false} ExecutedIn(actions: seq<Action>, id: string)
    ensures id in ExecutedIds(actions) <==> exists a :: a in actions && a.Execute? && a.id == id
  {
    if actions != [] {
      var n := |actions| - 1;
      ExecutedIn(actions[..n], id);
      assert actions == actions[..n] + [actions[n]];
      assert forall a | a in actions :: a in actions[..n] || a == actions[n];
      if id in ExecutedIds(actions[..n]) {
        var a :| a in actions[..n] && a.Execute? && a.id == id;
        assert a in actions;
      } else if id in ExecutedIds(actions) {
        assert actions[n] in actions;
      }
    }
  }

  /** Distinct execution ids mean one execution for each. */
  lemma {:induction false} OneExecution(actions: seq<Action>, a: Action, b: Action)
    requires Distinct(ExecutedIds(actions)) && a in actions && b in actions && a.Execute? && b.Execute? && a.id == b.id
    ensures a == b
  {
    var n := |actions| - 1;
    var ids := ExecutedIds(actions[..n]);
    DistinctPrefix(ExecutedIds(actions), |ids|);
    assert ExecutedIds(actions)[..|ids|] == ids;
    assert actions == actions[..n] + [actions[n]];
    if a in actions[..n] && b in actions[..n] {
      OneExecution(actions[..n], a, b);
    } else if a != b {
      ExecutedIn(actions[..n], a.id);
      assert actions[n].Execute? && actions[n].id == a.id && a.id in ids;
      LastApart(ids, a.id);
      assert false;
    }
  }

  lemma DistinctPrefix(ids: seq<string>, n: nat)
    requires Distinct(ids) && n <= |ids|
    ensures Distinct(ids[..n])
  {
  }

  lemma LastApart(ids: seq<string>, id: string)
    requires Distinct(ids + [id])
    ensures id !in ids
  {
    var all := ids + [id];
    forall k | 0 <= k < |ids| ensures ids[k] != id { assert all[k] != all[|ids|]; }
  }

  /** Completing an answer does not change whether it says that it succeeded; no answer is no success. */
  lemma SuccessKept(w: World, capability: string, at: nat, name: string)
    ensures Succeeded(Normalized(RawResult(w, capability, at), name, w.text))
            <==> w.execute(at).Some? && Succeeded(w.execute(at).value)
  {
  }

  /** The log of a run that did not fail tells truly of its calls. */
  lemma RunTold(w: World, v: Invocation, o: Outcome, events: seq<Draft>, turns: seq<Turn>,
                replies: seq<seq<ToolCall>>, asked: seq<nat>, done: nat, actions: seq<Action>,
                proposals: seq<Proposal>, moment: nat)
    requires EndsAs(w, v, o, events, turns, replies, asked, done, actions, proposals, moment) && !o.Failed?
    ensures Truthful(events, AllGroups(turns))
  {
    if o.Completed? { TurnsTold(turns); } else { AbortTold(turns, o.reason); }
  }

  /** A call of a reply that the group answers. */
  lemma CallOf(w: World, v: Invocation, turns: seq<Turn>, replies: seq<seq<ToolCall>>, done: nat,
               actions: seq<Action>, proposals: seq<Proposal>, g: Group)
    returns (t: nat, c: nat)
    requires Just(w, v, turns, replies, done, actions, proposals) && g in AllGroups(turns)
    ensures t < |replies| && c < |replies[t]| && Answers(w, v, replies[t][c], g, actions, proposals)
  {
    GroupOfTurn(turns, g);
    t :| t < |turns| && g in turns[t];
    var j :| 0 <= j < |turns[t]| && turns[t][j] == g;
    var upTo := UpTo(turns, replies, done, t);
    assert Justified(w, v, replies[t], upTo, turns[t][j], actions, proposals);
    c :| c < upTo <= |replies[t]| && FirstBy(replies[t], c, g.id)
         && Answers(w, v, replies[t][c], g, actions, proposals);
  }

  /** The execution behind a group whose call was executed. */
  lemma ExecutionOf(w: World, v: Invocation, call: ToolCall, g: Group, actions: seq<Action>, proposals: seq<Proposal>)
    returns (a: Action)
    requires Answers(w, v, call, g, actions, proposals) && (g.effect.Some? || g.id in ExecutedIds(actions))
    ensures a in actions && a.Execute? && a.id == g.id && a.key == KeyOf(g.effect)
    ensures w.validate(call).Accepted? && w.validate(call).kind.External?
    ensures a.capability == w.validate(call).kind.capability && a.params == w.validate(call).params
    ensures g.effect == EffectOf(w, v, g.id, a.capability, w.validate(call).kind.semantics, a.params)
    ensures Succeeded(g.result) <==> AnsweredOk(w, a)
  {
    var kind, params := w.validate(call).kind, w.validate(call).params;
    var at: nat :| Execute(g.id, kind.capability, params, KeyOf(g.effect), at) in actions
                   && g.result == Normalized(RawResult(w, kind.capability, at), call.name, w.text);
    a := Execute(g.id, kind.capability, params, KeyOf(g.effect), at);
    SuccessKept(w, kind.capability, at, call.name);
  }

  lemma TellerOf(events: seq<Draft>, groups: seq<Group>, i: nat) returns (g: Group)
    requires Truthful(events, groups) && i < |events| && (events[i].ToolResult? || events[i].EffectEnded?)
    ensures g in groups && TellsOf(g, events[i])
  {
    assert ToldBySome(groups, events[i]);
    var j :| 0 <= j < |groups| && TellsOf(groups[j], events[i]);
    g := groups[j];
  }

  /** The recorded result of an executed call is "completed" exactly when the executor's answer says so. */
  lemma CompletedExactly(w: World, v: Invocation, o: Outcome, events: seq<Draft>, turns: seq<Turn>,
                         replies: seq<seq<ToolCall>>, asked: seq<nat>, done: nat, actions: seq<Action>,
                         proposals: seq<Proposal>, moment: nat, i: nat, a: Action)
    requires EndsAs(w, v, o, events, turns, replies, asked, done, actions, proposals, moment) && !o.Failed?
    requires Distinct(ExecutedIds(actions)) && a in actions && a.Execute?
    requires i < |events| && events[i].ToolResult? && events[i].id == a.id
    ensures events[i].status == "completed" <==> AnsweredOk(w, a)
  {
    RunTold(w, v, o, events, turns, replies, asked, done, actions, proposals, moment);
    var g := TellerOf(events, AllGroups(turns), i);
    var t, c := CallOf(w, v, turns, replies, done, actions, proposals, g);
    ExecutedIn(actions, g.id);
    var b := ExecutionOf(w, v, replies[t][c], g, actions, proposals);
    OneExecution(actions, a, b);
  }

  /** The end of an effect belongs to an execution under its key, of a call with delivery semantics, and tells whether
    * the answer was good and, if not, whether the capability may be tried again. */
  predicate Closes(w: World, call: ToolCall, a: Action, d: Draft)
    requires d.EffectEnded?
  {
    && w.validate(call).Accepted? && w.validate(call).kind.External? && w.validate(call).kind.semantics.Some?
    && a.Execute? && a.capability == w.validate(call).kind.capability && a.params == w.validate(call).params
    && a.key == Some(d.key)
    && var unsafe := w.validate(call).kind.semantics == Some(UnsafeToRetry);
    && (d.status == "completed" <==> AnsweredOk(w, a))
    && (d.status == "ambiguous" <==> !AnsweredOk(w, a) && unsafe)
    && (d.status == "failed" <==> !AnsweredOk(w, a) && !unsafe)
  }

  lemma ClosedBy(w: World, v: Invocation, call: ToolCall, g: Group, d: Draft, actions: seq<Action>,
                 proposals: seq<Proposal>)
    returns (a: Action)
    requires Answers(w, v, call, g, actions, proposals) && TellsEnd(g, d)
    ensures a in actions && Closes(w, call, a, d)
  {
    a := ExecutionOf(w, v, call, g, actions, proposals);
  }

  lemma EffectEndExplained(w: World, v: Invocation, o: Outcome, events: seq<Draft>, turns: seq<Turn>,
                           replies: seq<seq<ToolCall>>, asked: seq<nat>, done: nat, actions: seq<Action>,
                           proposals: seq<Proposal>, moment: nat, i: nat)
    returns (t: nat, c: nat, a: Action)
    requires EndsAs(w, v, o, events, turns, replies, asked, done, actions, proposals, moment) && !o.Failed?
    requires i < |events| && events[i].EffectEnded?
    ensures t < |replies| && c < |replies[t]| && a in actions && Closes(w, replies[t][c], a, events[i])
  {
    RunTold(w, v, o, events, turns, replies, asked, done, actions, proposals, moment);
    var g := TellerOf(events, AllGroups(turns), i);
    t, c := CallOf(w, v, turns, replies, done, actions, proposals, g);
    a := ClosedBy(w, v, replies[t][c], g, events[i], actions, proposals);
  }

  /** Without a good answer from the executor, no executed call and no effect is recorded as completed. */
  lemma NothingCompleted(w: World, v: Invocation, o: Outcome, events: seq<Draft>, turns: seq<Turn>,
                         replies: seq<seq<ToolCall>>, asked: seq<nat>, done: nat, actions: seq<Action>,
                         proposals: seq<Proposal>, moment: nat)
    requires EndsAs(w, v, o, events, turns, replies, asked, done, actions, proposals, moment) && !o.Failed?
    requires Distinct(ExecutedIds(actions))
    requires forall at: nat :: w.execute(at).Some? ==> !Succeeded(w.execute(at).value)
    ensures forall i | 0 <= i < |events| && events[i].ToolResult? && events[i].id in ExecutedIds(actions) ::
              events[i].status != "completed"
    ensures forall i | 0 <= i < |events| && events[i].EffectEnded? :: events[i].status != "completed"
  {
    forall i | 0 <= i < |events| && events[i].ToolResult? && events[i].id in ExecutedIds(actions)
      ensures events[i].status != "completed"
    {
      ExecutedIn(actions, events[i].id);
      var a :| a in actions && a.Execute? && a.id == events[i].id;
      CompletedExactly(w, v, o, events, turns, replies, asked, done, actions, proposals, moment, i, a);
    }
    forall i | 0 <= i < |events| && events[i].EffectEnded? ensures events[i].status != "completed" {
      var t, c, a := EffectEndExplained(w, v, o, events, turns, replies, asked, done, actions, proposals, moment, i);
    }
  }

  /** An effect keeps its key when a call is tried again: under the same scope, else for the same queue item, whatever
    * the id of the call; only without either does the id decide. */
  lemma EffectRetried(w: World, v: Invocation, again: Invocation, id: string, other: string, capability: string,
                      semantics: Option<Semantics>, params: Fields)
    requires again.effectScope == v.effectScope
    requires v.effectScope.None? ==> again.queueItem == v.queueItem && (v.queueItem.None? ==> other == id)
    ensures EffectOf(w, v, id, capability, semantics, params)
            == EffectOf(w, again, other, capability, semantics, params)
  {
  }

  /** Otherwise the key is that of another scope. */
  lemma EffectScoped(w: World, v: Invocation, id: string, capability: string, semantics: Option<Semantics>,
                     params: Fields)
    requires EffectOf(w, v, id, capability, semantics, params).Some?
    ensures semantics.Some?
    ensures var scope := match v.effectScope
                         case Some(given) => given
                         case None => match v.queueItem case Some(item) => item case None => id;
      Some(EffectOf(w, v, id, capability, semantics, params).value.key) == w.effectKey(scope, capability, params)
  {
  }
}
