/** The shape of a run's event log and of its dealings with the outside. */
module RunLogs {
  import opened Text
  import opened ToolResults

  datatype Reason = Cancelled | DeadlineExceeded

  datatype Draft =
    | ModelCompleted
    | ToolStarted(id: string)
    | EffectPlanned(key: string)
    | EffectStarted(key: string)
    | ToolResult(id: string, status: string, failed: bool)
    | EffectEnded(key: string, status: string)
    | TurnFailed(reason: Reason)

  /** What a run asks of the outside, in order: drafts the recorder accepted, executor calls with the moment they were
    * made at, and model calls. */
  datatype Action =
    | Record(draft: Draft)
    | Execute(id: string, capability: string, params: Fields, key: Option<string>, at: nat)
    | Generate

  datatype Effect = Effect(key: string, unsafeToRetry: bool)

  /** One tool call from start to end. */
  datatype Group = Group(id: string, effect: Option<Effect>, result: Fields)

  /** One model call and the tool calls that followed it. */
  type Turn = seq<Group>

  // ------------------------------------------------------------------ grammar

  function EndStatus(effect: Effect, result: Fields): string {
    if OkIs(result, true) then "completed" else if effect.unsafeToRetry then "ambiguous" else "failed"
  }

  function ResultDraft(id: string, result: Fields): Draft {
    ToolResult(id, StatusOf(result), OkIs(result, false))
  }

  function Before(effect: Option<Effect>): seq<Draft> {
    if effect.Some? then [EffectPlanned(effect.value.key), EffectStarted(effect.value.key)] else []
  }

  function After(effect: Option<Effect>, result: Fields): seq<Draft> {
    if effect.Some? then [EffectEnded(effect.value.key, EndStatus(effect.value, result))] else []
  }

  function GroupDrafts(g: Group): seq<Draft> {
    [ToolStarted(g.id)] + Before(g.effect) + [ResultDraft(g.id, g.result)] + After(g.effect, g.result)
  }

  function TurnDrafts(turn: Turn): seq<Draft> {
    if turn == [] then [ModelCompleted] else TurnDrafts(turn[..|turn| - 1]) + GroupDrafts(turn[|turn| - 1])
  }

  function Flatten(turns: seq<Turn>): seq<Draft> {
    if turns == [] then [] else Flatten(turns[..|turns| - 1]) + TurnDrafts(turns[|turns| - 1])
  }

  /** The turns with one more group in the last one. */
  function WithGroup(turns: seq<Turn>, g: Group): seq<Turn>
    requires turns != []
  {
    turns[..|turns| - 1] + [turns[|turns| - 1] + [g]]
  }

  lemma FlattenGroup(turns: seq<Turn>, g: Group)
    requires turns != []
    ensures Flatten(WithGroup(turns, g)) == Flatten(turns) + GroupDrafts(g) && |WithGroup(turns, g)| == |turns|
  {
    var n := |turns| - 1;
    var last := turns[n];
    assert (last + [g])[..|last|] == last;
    assert WithGroup(turns, g)[..n] == turns[..n];
  }

  lemma FlattenTurn(turns: seq<Turn>)
    ensures Flatten(turns + [[]]) == Flatten(turns) + [ModelCompleted]
  {
    assert (turns + [[]])[..|turns|] == turns;
  }

  lemma {:induction false} TurnNotFailed(turn: Turn)
    ensures forall d | d in TurnDrafts(turn) :: !d.TurnFailed?
  {
    if turn != [] { TurnNotFailed(turn[..|turn| - 1]); }
  }

  /** Whole turns contain no failure record, so a log ends in one exactly when the run was aborted. */
  lemma {:induction false} FlattenNotFailed(turns: seq<Turn>)
    ensures forall d | d in Flatten(turns) :: !d.TurnFailed?
  {
    if turns != [] {
      FlattenNotFailed(turns[..|turns| - 1]);
      TurnNotFailed(turns[|turns| - 1]);
    }
  }

  /** A log has one model-completed record for each of its turns. */
  lemma {:induction false} ModelRecords(turns: seq<Turn>)
    ensures Completions(Flatten(turns)) == |turns|
  {
    if turns != [] {
      var n := |turns| - 1;
      ModelRecords(turns[..n]);
      TurnCompletions(turns[n]);
      CompletionsConcat(Flatten(turns[..n]), TurnDrafts(turns[n]));
    }
  }

  function Completions(drafts: seq<Draft>): nat {
    if drafts == [] then 0 else
      Completions(drafts[..|drafts| - 1]) + if drafts[|drafts| - 1].ModelCompleted? then 1 else 0
  }

  lemma {:induction false} CompletionsConcat(a: seq<Draft>, b: seq<Draft>)
    ensures Completions(a + b) == Completions(a) + Completions(b)
  {
    if b == [] {
      assert a + b == a;
    } else {
      CompletionsConcat(a, b[..|b| - 1]);
      assert (a + b)[..|a + b| - 1] == a + b[..|b| - 1];
    }
  }

  lemma {:induction false} NoCompletions(drafts: seq<Draft>)
    requires forall d | d in drafts :: !d.ModelCompleted?
    ensures Completions(drafts) == 0
  {
    if drafts != [] { NoCompletions(drafts[..|drafts| - 1]); }
  }

  lemma GroupCompletions(g: Group)
    ensures Completions(GroupDrafts(g)) == 0
  {
    NoCompletions(GroupDrafts(g));
  }

  lemma {:induction false} TurnCompletions(turn: Turn)
    ensures Completions(TurnDrafts(turn)) == 1
  {
    if turn == [] {
      assert [ModelCompleted][..0] == [];
    } else {
      var n := |turn| - 1;
      TurnCompletions(turn[..n]);
      GroupCompletions(turn[n]);
      CompletionsConcat(TurnDrafts(turn[..n]), GroupDrafts(turn[n]));
    }
  }

  // ------------------------------------------------------------------ results

  function ResultIds(drafts: seq<Draft>): seq<string> {
    if drafts == [] then [] else
      var n := |drafts| - 1;
      ResultIds(drafts[..n]) + if drafts[n].ToolResult? then [drafts[n].id] else []
  }

  lemma ResultSnoc(drafts: seq<Draft>, d: Draft)
    ensures ResultIds(drafts + [d]) == ResultIds(drafts) + if d.ToolResult? then [d.id] else []
  {
    assert (drafts + [d])[..|drafts|] == drafts;
  }

  lemma {:induction false} ResultConcat(a: seq<Draft>, b: seq<Draft>)
    ensures ResultIds(a + b) == ResultIds(a) + ResultIds(b)
  {
    if b == [] {
      assert a + b == a;
    } else {
      var n := |b| - 1;
      ResultConcat(a, b[..n]);
      assert (a + b)[..|a + b| - 1] == a + b[..n];
    }
  }

  function TurnIds(turn: Turn): seq<string> {
    seq(|turn|, i requires 0 <= i < |turn| => turn[i].id)
  }

  function AllIds(turns: seq<Turn>): seq<string> {
    if turns == [] then [] else AllIds(turns[..|turns| - 1]) + TurnIds(turns[|turns| - 1])
  }

  lemma GroupResult(g: Group)
    ensures ResultIds(GroupDrafts(g)) == [g.id]
  {
    var before, after := [ToolStarted(g.id)] + Before(g.effect), After(g.effect, g.result);
    EffectsSilent(g);
    ResultSnoc([], ToolStarted(g.id));
    assert [] + [ToolStarted(g.id)] == [ToolStarted(g.id)];
    ResultConcat([ToolStarted(g.id)], Before(g.effect));
    ResultSnoc(before, ResultDraft(g.id, g.result));
    ResultConcat(before + [ResultDraft(g.id, g.result)], after);
  }

  lemma EffectsSilent(g: Group)
    ensures ResultIds(Before(g.effect)) == [] && ResultIds(After(g.effect, g.result)) == []
  {
    if g.effect.Some? {
      var planned, started := EffectPlanned(g.effect.value.key), EffectStarted(g.effect.value.key);
      ResultSnoc([], planned);
      ResultSnoc([] + [planned], started);
      assert Before(g.effect) == ([] + [planned]) + [started];
    }
  }

  lemma {:induction false} TurnResults(turn: Turn)
    ensures ResultIds(TurnDrafts(turn)) == TurnIds(turn)
  {
    if turn == [] {
      ResultSnoc([], ModelCompleted);
      assert [] + [ModelCompleted] == [ModelCompleted];
    } else {
      var n := |turn| - 1;
      TurnResults(turn[..n]);
      GroupResult(turn[n]);
      ResultConcat(TurnDrafts(turn[..n]), GroupDrafts(turn[n]));
      assert TurnIds(turn) == TurnIds(turn[..n]) + [turn[n].id];
    }
  }

  /** The results in a log are those of its groups, in order. */
  lemma {:induction false} FlattenResults(turns: seq<Turn>)
    ensures ResultIds(Flatten(turns)) == AllIds(turns)
  {
    if turns != [] {
      var n := |turns| - 1;
      FlattenResults(turns[..n]);
      TurnResults(turns[n]);
      ResultConcat(Flatten(turns[..n]), TurnDrafts(turns[n]));
    }
  }

  lemma {:induction false} ResultIn(drafts: seq<Draft>, id: string)
    ensures id in ResultIds(drafts) <==> exists i :: 0 <= i < |drafts| && drafts[i].ToolResult? && drafts[i].id == id
  {
    if drafts != [] {
      var n := |drafts| - 1;
      ResultIn(drafts[..n], id);
      if id in ResultIds(drafts[..n]) {
        var i :| 0 <= i < n && drafts[..n][i].ToolResult? && drafts[..n][i].id == id;
        assert drafts[i].ToolResult? && drafts[i].id == id;
      } else if i :| 0 <= i < |drafts| && drafts[i].ToolResult? && drafts[i].id == id {
        assert i < n ==> drafts[..n][i].ToolResult? && drafts[..n][i].id == id;
      }
    }
  }

  /** Distinct result ids mean that no two log entries are results of the same call. */
  lemma {:induction false} OneResultEach(drafts: seq<Draft>, i: nat, j: nat)
    requires Distinct(ResultIds(drafts)) && i < j < |drafts| && drafts[i].ToolResult? && drafts[j].ToolResult?
    ensures drafts[i].id != drafts[j].id
  {
    var n := |drafts| - 1;
    var before, ids := drafts[..n], ResultIds(drafts[..n]);
    assert ResultIds(drafts)[..|ids|] == ids;
    forall k, l | 0 <= k < l < |ids| ensures ids[k] != ids[l] {
      assert ResultIds(drafts)[k] == ids[k] && ResultIds(drafts)[l] == ids[l];
    }
    if j < n {
      OneResultEach(before, i, j);
    } else {
      assert before[i] == drafts[i];
      ResultIn(before, drafts[i].id);
      var k :| 0 <= k < |ids| && ids[k] == drafts[i].id;
      assert ResultIds(drafts)[k] == ids[k] && ResultIds(drafts)[|ids|] == drafts[n].id;
    }
  }

  lemma DistinctSnoc(ids: seq<string>, id: string)
    requires Distinct(ids) && id !in ids
    ensures Distinct(ids + [id])
  {
  }

  // ------------------------------------------------------------------ actions

  function Recorded(actions: seq<Action>): seq<Draft> {
    if actions == [] then [] else
      var n := |actions| - 1;
      Recorded(actions[..n]) + if actions[n].Record? then [actions[n].draft] else []
  }

  function ExecutedIds(actions: seq<Action>): seq<string> {
    if actions == [] then [] else
      var n := |actions| - 1;
      ExecutedIds(actions[..n]) + if actions[n].Execute? then [actions[n].id] else []
  }

  function Generations(actions: seq<Action>): nat {
    if actions == [] then 0 else
      Generations(actions[..|actions| - 1]) + if actions[|actions| - 1].Generate? then 1 else 0
  }

  /** An executor call with an effect key comes right after the recorder accepted that the effect is planned and
    * started. */
  predicate WriteAhead(actions: seq<Action>) {
    forall i | 0 <= i < |actions| && actions[i].Execute? && actions[i].key.Some? ::
      i >= 2 && actions[i - 2] == Record(EffectPlanned(actions[i].key.value))
      && actions[i - 1] == Record(EffectStarted(actions[i].key.value))
  }

  lemma ActionSnoc(actions: seq<Action>, a: Action)
    ensures Recorded(actions + [a]) == Recorded(actions) + if a.Record? then [a.draft] else []
    ensures ExecutedIds(actions + [a]) == ExecutedIds(actions) + if a.Execute? then [a.id] else []
    ensures Generations(actions + [a]) == Generations(actions) + if a.Generate? then 1 else 0
  {
    assert (actions + [a])[..|actions|] == actions;
  }

  lemma WriteAheadSnoc(actions: seq<Action>, a: Action)
    requires WriteAhead(actions)
    requires a.Execute? && a.key.Some? ==>
               |actions| >= 2 && actions[|actions| - 2] == Record(EffectPlanned(a.key.value))
               && actions[|actions| - 1] == Record(EffectStarted(a.key.value))
    ensures WriteAhead(actions + [a])
  {
  }

  /** What holds at every moment of a run, also of one that fails. */
  predicate Safe(actions: seq<Action>, events: seq<Draft>, maxModelCalls: nat) {
    && Recorded(actions) == events && WriteAhead(actions)
    && Distinct(ExecutedIds(actions)) && Distinct(ResultIds(events))
    && Generations(actions) <= maxModelCalls
    && forall i | 0 <= i < |events| && events[i].ToolResult? :: Terminal(events[i].status)
  }

  lemma SafeRecord(actions: seq<Action>, events: seq<Draft>, max: nat, d: Draft)
    requires Safe(actions, events, max) && (d.ToolResult? ==> d.id !in ResultIds(events) && Terminal(d.status))
    ensures Safe(actions + [Record(d)], events + [d], max)
    ensures ExecutedIds(actions + [Record(d)]) == ExecutedIds(actions)
    ensures Generations(actions + [Record(d)]) == Generations(actions)
    ensures ResultIds(events + [d]) == ResultIds(events) + if d.ToolResult? then [d.id] else []
  {
    ActionSnoc(actions, Record(d));
    WriteAheadSnoc(actions, Record(d));
    ResultSnoc(events, d);
    if d.ToolResult? { DistinctSnoc(ResultIds(events), d.id); }
  }

  lemma SafeExecute(actions: seq<Action>, events: seq<Draft>, max: nat, a: Action)
    requires a.Execute? && Safe(actions, events, max) && a.id !in ExecutedIds(actions)
    requires a.key.Some? ==> |actions| >= 2 && actions[|actions| - 2] == Record(EffectPlanned(a.key.value))
                             && actions[|actions| - 1] == Record(EffectStarted(a.key.value))
    ensures Safe(actions + [a], events, max)
    ensures ExecutedIds(actions + [a]) == ExecutedIds(actions) + [a.id]
    ensures Generations(actions + [a]) == Generations(actions)
  {
    ActionSnoc(actions, a);
    WriteAheadSnoc(actions, a);
    DistinctSnoc(ExecutedIds(actions), a.id);
  }

  lemma SafeGenerate(actions: seq<Action>, events: seq<Draft>, max: nat)
    requires Safe(actions, events, max) && Generations(actions) < max
    ensures Safe(actions + [Generate], events, max)
    ensures ExecutedIds(actions + [Generate]) == ExecutedIds(actions)
    ensures Generations(actions + [Generate]) == Generations(actions) + 1
  {
    ActionSnoc(actions, Generate);
    WriteAheadSnoc(actions, Generate);
  }
}
