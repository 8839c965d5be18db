/** What the records of a run say of its tool calls, told from the calls' results alone. */
module RunStatuses {
  import opened Text
  import opened Json
  import opened ToolResults
  import opened RunLogs

  predicate Succeeded(result: Fields) {
    "ok" in result && result["ok"] == Bool(true)
  }

  predicate ErrorIs(result: Fields, code: string) {
    && "error" in result && result["error"].Object?
    && "code" in result["error"].fields && result["error"].fields["code"] == String(code)
  }

  /** The result did not come from running the tool: the call was turned away with one of seven codes. */
  predicate TurnedAway(result: Fields) {
    && !Succeeded(result)
    && (|| ErrorIs(result, "direct-execution-disallowed") || ErrorIs(result, "disallowed-tool")
        || ErrorIs(result, "invalid-json-args") || ErrorIs(result, "invalid-tool-call")
        || ErrorIs(result, "schema-mismatch") || ErrorIs(result, "staging-unsupported")
        || ErrorIs(result, "unknown-tool"))
  }

  /** The record of a call's result. */
  predicate TellsResult(g: Group, d: Draft) {
    && d.ToolResult? && d.id == g.id
    && (d.status == "completed" <==> Succeeded(g.result))
    && (d.status == "refused" <==> TurnedAway(g.result))
    && (d.status == "failed" <==> !Succeeded(g.result) && !TurnedAway(g.result))
    && (d.failed <==> "ok" in g.result && g.result["ok"] == Bool(false))
  }

  /** The record of how a call's effect ended. */
  predicate TellsEnd(g: Group, d: Draft) {
    && d.EffectEnded? && g.effect.Some? && d.key == g.effect.value.key
    && (d.status == "completed" <==> Succeeded(g.result))
    && (d.status == "ambiguous" <==> !Succeeded(g.result) && g.effect.value.unsafeToRetry)
    && (d.status == "failed" <==> !Succeeded(g.result) && !g.effect.value.unsafeToRetry)
  }

  predicate TellsOf(g: Group, d: Draft) {
    TellsResult(g, d) || TellsEnd(g, d)
  }

  /** The records of one call stand together: started, the effect planned and started, the result, the effect's end. */
  predicate BlockAt(log: seq<Draft>, p: nat, g: Group) {
    && p < |log| && log[p] == ToolStarted(g.id)
    && if g.effect.None? then p + 1 < |log| && TellsResult(g, log[p + 1])
       else
         && p + 4 < |log| && log[p + 1] == EffectPlanned(g.effect.value.key)
         && log[p + 2] == EffectStarted(g.effect.value.key)
         && TellsResult(g, log[p + 3]) && TellsEnd(g, log[p + 4])
  }

  /** Every result and every end of an effect is told of some call, and every call has its block. */
  ghost predicate Truthful(log: seq<Draft>, groups: seq<Group>) {
    && (forall i | 0 <= i < |log| && (log[i].ToolResult? || log[i].EffectEnded?) :: ToldBySome(groups, log[i]))
    && (forall j | 0 <= j < |groups| :: HasBlock(log, groups[j]))
  }

  ghost predicate ToldBySome(groups: seq<Group>, d: Draft) {
    exists j :: 0 <= j < |groups| && TellsOf(groups[j], d)
  }

  ghost predicate HasBlock(log: seq<Draft>, g: Group) {
    exists p: nat :: BlockAt(log, p, g)
  }

  /** The calls of all turns, in order. */
  function AllGroups(turns: seq<Turn>): seq<Group> {
    if turns == [] then [] else AllGroups(turns[..|turns| - 1]) + turns[|turns| - 1]
  }

  lemma {:induction false} GroupOfTurn(turns: seq<Turn>, g: Group)
    ensures g in AllGroups(turns) <==> exists t :: 0 <= t < |turns| && g in turns[t]
  {
    if turns != [] {
      var n := |turns| - 1;
      GroupOfTurn(turns[..n], g);
      if t :| 0 <= t < |turns| && g in turns[t] {
        assert t < n ==> g in turns[..n][t];
      }
    }
  }

  // ------------------------------------------------------------------- proofs

  lemma CodeIs(result: Fields, code: string)
    requires code != ""
    ensures CodeOf(result) == code <==> ErrorIs(result, code)
  {
  }

  lemma ResultTold(g: Group)
    ensures TellsResult(g, ResultDraft(g.id, g.result))
  {
    forall code | code in REFUSED ensures CodeOf(g.result) == code <==> ErrorIs(g.result, code) {
      CodeIs(g.result, code);
    }
    if !Succeeded(g.result) { RefusedCodes(g.result); }
  }

  lemma RefusedCodes(result: Fields)
    requires forall code | code in REFUSED :: CodeOf(result) == code <==> ErrorIs(result, code)
    requires !Succeeded(result)
    ensures CodeOf(result) in REFUSED <==> TurnedAway(result)
  {
  }

  lemma EndTold(g: Group)
    requires g.effect.Some?
    ensures TellsEnd(g, EffectEnded(g.effect.value.key, EndStatus(g.effect.value, g.result)))
  {
  }

  lemma GroupTold(g: Group)
    ensures Truthful(GroupDrafts(g), [g])
  {
    var log := GroupDrafts(g);
    ResultTold(g);
    if g.effect.Some? { EndTold(g); }
    assert BlockAt(log, 0, g);
    assert [g][0] == g;
  }

  lemma BlockMoves(a: seq<Draft>, b: seq<Draft>, g: Group)
    ensures HasBlock(a, g) ==> HasBlock(a + b, g)
    ensures HasBlock(b, g) ==> HasBlock(a + b, g)
  {
    if HasBlock(a, g) {
      var p: nat :| BlockAt(a, p, g);
      assert BlockAt(a + b, p, g);
    }
    if HasBlock(b, g) {
      var p: nat :| BlockAt(b, p, g);
      assert BlockAt(a + b, |a| + p, g);
    }
  }

  lemma ToldMoves(x: seq<Group>, y: seq<Group>, d: Draft)
    ensures ToldBySome(x, d) || ToldBySome(y, d) ==> ToldBySome(x + y, d)
  {
    if ToldBySome(x, d) {
      var j :| 0 <= j < |x| && TellsOf(x[j], d);
      assert TellsOf((x + y)[j], d);
    } else if ToldBySome(y, d) {
      var j :| 0 <= j < |y| && TellsOf(y[j], d);
      assert TellsOf((x + y)[|x| + j], d);
    }
  }

  lemma TruthfulConcat(a: seq<Draft>, x: seq<Group>, b: seq<Draft>, y: seq<Group>)
    requires Truthful(a, x) && Truthful(b, y)
    ensures Truthful(a + b, x + y)
  {
    var log, groups := a + b, x + y;
    forall i | 0 <= i < |log| && (log[i].ToolResult? || log[i].EffectEnded?) ensures ToldBySome(groups, log[i]) {
      ToldMoves(x, y, log[i]);
      assert log[i] == if i < |a| then a[i] else b[i - |a|];
    }
    forall j | 0 <= j < |groups| ensures HasBlock(log, groups[j]) {
      BlockMoves(a, b, groups[j]);
      assert groups[j] == if j < |x| then x[j] else y[j - |x|];
    }
  }

  lemma SilentTold(d: Draft)
    requires !d.ToolResult? && !d.EffectEnded?
    ensures Truthful([d], [])
  {
  }

  lemma {:induction false} TurnTold(turn: Turn)
    ensures Truthful(TurnDrafts(turn), turn)
  {
    if turn == [] {
      SilentTold(ModelCompleted);
    } else {
      var n := |turn| - 1;
      assert turn == turn[..n] + [turn[n]];
      TurnTold(turn[..n]);
      GroupTold(turn[n]);
      TruthfulConcat(TurnDrafts(turn[..n]), turn[..n], GroupDrafts(turn[n]), [turn[n]]);
    }
  }

  /** The log of whole turns tells truly of their calls. */
  lemma {:induction false} TurnsTold(turns: seq<Turn>)
    ensures Truthful(Flatten(turns), AllGroups(turns))
  {
    if turns != [] {
      var n := |turns| - 1;
      TurnsTold(turns[..n]);
      TurnTold(turns[n]);
      TruthfulConcat(Flatten(turns[..n]), AllGroups(turns[..n]), TurnDrafts(turns[n]), turns[n]);
    }
  }

  /** So does the log of an aborted run. */
  lemma AbortTold(turns: seq<Turn>, reason: Reason)
    ensures Truthful(Flatten(turns) + [TurnFailed(reason)], AllGroups(turns))
  {
    TurnsTold(turns);
    SilentTold(TurnFailed(reason));
    TruthfulConcat(Flatten(turns), AllGroups(turns), [TurnFailed(reason)], []);
    assert AllGroups(turns) + [] == AllGroups(turns);
  }
}
