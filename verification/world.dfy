/** Everything outside the run loop, and what a call of the model owes to it. */
module Worlds {
  import opened Text
  import opened Json
  import opened Hashing
  import opened ToolResults
  import opened RunLogs
  import opened Follows

  datatype Kind = External(capability: string, semantics: Option<Semantics>) | Publish | Wait | Cancel | ContextBudget

  datatype Semantics = IdempotentWithKey | ConnectorDeduplicated | AtLeastOnce | UnsafeToRetry

  datatype Validation = Rejected(code: string) | Accepted(kind: Kind, params: Fields)

  datatype Proposal =
    | WaitProposal(handle: string, position: nat)
    | PublishProposal(handle: string, position: nat)
    | CancelProposal(handle: string, position: nat)

  datatype Stop = Finished | ToolStop | MaxModelCalls

  datatype Outcome = Completed(stop: Stop) | Aborted(reason: Reason) | Failed

  datatype Control = Continue | Finish(stop: Stop) | Abort(reason: Reason) | Fail

  datatype Invocation = Invocation(
    maxModelCalls: nat, effectScope: Option<string>, queueItem: Option<string>, agent: Option<string>,
    session: Option<string>)

  datatype Execution = Execution(result: Fields, stop: bool, effect: Option<Effect>)

  /** Everything outside the loop. Each call happens at its own moment, so a function of the moment can answer
    * anything. */
  datatype World = World(
    hasher: Hasher,
    generate: nat -> Option<seq<ToolCall>>,
    execute: nat -> Option<Fields>,
    record: nat -> Option<string>,
    trace: nat -> bool,
    prompt: nat -> bool,
    newId: nat -> Option<string>,
    abort: nat -> Option<Reason>,
    cancelled: nat -> bool,
    validate: ToolCall -> Validation,
    effectKey: (string, string, Fields) -> Option<string>,
    controlFault: (Kind, Fields) -> Option<string>,
    text: Fields -> string)

  function HandleParam(params: Fields): string {
    match AsStr(Get(params, "handle"))
    case Some(handle) => handle
    case None => ""
  }

  /** A retry-stable scope: the caller's, else the queue item's, else the call's own. */
  function ScopeOf(v: Invocation, id: string): string {
    if v.effectScope.Some? then v.effectScope.value else if v.queueItem.Some? then v.queueItem.value else id
  }

  predicate Stops(result: Fields) {
    OkIs(result, true) && "stop" in result && result["stop"] == Bool(true)
  }

  /** Positions rise and stay below the next one; only the last proposal can be a wait. */
  predicate Ordered(proposals: seq<Proposal>, next: nat) {
    && (forall i, j | 0 <= i < j < |proposals| :: proposals[i].position < proposals[j].position)
    && (forall i | 0 <= i < |proposals| :: proposals[i].position < next)
    && (forall i | 0 <= i < |proposals| - 1 :: !proposals[i].WaitProposal?)
  }

  predicate NoWait(proposals: seq<Proposal>) {
    forall i | 0 <= i < |proposals| :: !proposals[i].WaitProposal?
  }

  /** Handles of waits and publications are derived from the run's queue item and their position. */
  predicate Derived(w: World, v: Invocation, proposals: seq<Proposal>) {
    forall i | 0 <= i < |proposals| ::
      match proposals[i]
      case WaitProposal(handle, position) =>
        v.queueItem.Some? && handle == ControlHandle(w.hasher, "wait_", v.queueItem.value, position)
      case PublishProposal(handle, position) =>
        v.queueItem.Some? && handle == ControlHandle(w.hasher, "pub_", v.queueItem.value, position)
      case CancelProposal(_, _) => true
  }

  predicate Proper(w: World, v: Invocation, proposals: seq<Proposal>, next: nat) {
    Ordered(proposals, next) && Derived(w, v, proposals)
  }

  lemma HandleHeads(h: Hasher, queueItem: string, position: nat)
    ensures ControlHandle(h, "wait_", queueItem, position)[..1] == "w"
    ensures ControlHandle(h, "pub_", queueItem, position)[..1] == "p"
  {
  }

  /** Two waits or publications of one run share a handle only by a hash collision. */
  lemma ProposalHandles(w: World, v: Invocation, proposals: seq<Proposal>, next: nat, i: nat, j: nat)
    requires Proper(w, v, proposals, next) && i < j < |proposals|
    requires !proposals[i].CancelProposal? && !proposals[j].CancelProposal?
    requires proposals[i].handle == proposals[j].handle
    ensures v.queueItem.Some?
            && IsCollision(w.hasher, HandleCollision(v.queueItem.value, proposals[i].position, proposals[j].position))
  {
    var q := v.queueItem.value;
    HandleHeads(w.hasher, q, proposals[i].position);
    HandleHeads(w.hasher, q, proposals[j].position);
    assert proposals[i].PublishProposal? && proposals[j].PublishProposal?;
    HandlesDistinct(w.hasher, "pub_", q, proposals[i].position, proposals[j].position);
  }

  /** The handle of every wait and publication of a run is the one Dispatch derives for the same queue item and
    * position. */
  lemma HandlesAgree(w: World, v: Invocation, proposals: seq<Proposal>, next: nat, i: nat)
    requires Proper(w, v, proposals, next) && i < |proposals| && !proposals[i].CancelProposal?
    requires proposals[i].position <= U64_MAX
    ensures v.queueItem.Some?
    ensures proposals[i].WaitProposal? ==>
              proposals[i].handle == DispatchWaitHandle(w.hasher, v.queueItem.value, proposals[i].position)
    ensures proposals[i].PublishProposal? ==>
              proposals[i].handle == DispatchPublishHandle(w.hasher, v.queueItem.value, proposals[i].position)
  {
  }

  lemma ProposalsGrow(w: World, v: Invocation, proposals: seq<Proposal>, p: Proposal, next: nat)
    requires Proper(w, v, proposals, p.position) && NoWait(proposals) && Derived(w, v, [p]) && p.position < next
    ensures Proper(w, v, proposals + [p], next)
  {
    assert [p][0] == p;
  }

  // ------------------------------------------------------- answers to tool calls

  /** What the executor's answer at a moment counts as; without one, an abort signalled right after tells why. */
  function RawResult(w: World, capability: string, at: nat): Fields {
    match w.execute(at)
    case Some(answer) => Validated(answer, capability)
    case None => ToolError(if w.abort(at + 1).Some? then "tool-aborted" else "tool-crashed", "")
  }

  function KeyOf(effect: Option<Effect>): Option<string> {
    if effect.Some? then Some(effect.value.key) else None
  }

  /** The effect a capability with delivery semantics has in this run. */
  function EffectOf(w: World, v: Invocation, id: string, capability: string, semantics: Option<Semantics>,
                    params: Fields): Option<Effect> {
    if semantics.None? then None else
      match w.effectKey(ScopeOf(v, id), capability, params)
      case Some(key) => Some(Effect(key, semantics.value == UnsafeToRetry))
      case None => None
  }

  /** The group of an external call: it was executed with these parameters, its effect is the one of its semantics, and
    * its result is what became of the executor's answer. */
  ghost predicate Performed(w: World, v: Invocation, name: string, kind: Kind, params: Fields, g: Group,
                            actions: seq<Action>)
    requires kind.External?
  {
    && g.effect == EffectOf(w, v, g.id, kind.capability, kind.semantics, params) && g.effect.Some?
            == kind.semantics.Some?
    && exists at: nat :: Execute(g.id, kind.capability, params, KeyOf(g.effect), at) in actions
                         && g.result == Normalized(RawResult(w, kind.capability, at), name, w.text)
  }

  /** What a built-in tool proposes from a position, if it proposes anything. */
  function ControlProposal(w: World, v: Invocation, kind: Kind, params: Fields, position: nat): Option<Proposal> {
    match kind
    case Cancel =>
      if v.agent.None? || v.session.None? then None else Some(CancelProposal(HandleParam(params), position))
    case Wait =>
      if v.queueItem.None? || w.controlFault(kind, params).Some? then None
      else Some(WaitProposal(ControlHandle(w.hasher, "wait_", v.queueItem.value, position), position))
    case Publish =>
      if v.queueItem.None? || w.controlFault(kind, params).Some? then None
      else Some(PublishProposal(ControlHandle(w.hasher, "pub_", v.queueItem.value, position), position))
    case _ => None
  }

  function ControlResult(w: World, v: Invocation, kind: Kind, params: Fields, position: nat): Fields {
    match ControlProposal(w, v, kind, params, position)
    case Some(WaitProposal(handle, _)) => map["ok" := Bool(true), "handle" := String(handle), "stop" := Bool(true)]
    case Some(PublishProposal(handle, _)) => map["ok" := Bool(true), "handle" := String(handle)]
    case Some(CancelProposal(handle, _)) => map["ok" := Bool(true), "handle" := String(handle),
                                                "status" := String("requested")]
    case None =>
      if kind.Cancel? then ToolError("missing-cancel-source", "")
      else if (kind.Wait? || kind.Publish?) && v.queueItem.None? then
        ToolError(if kind.Wait? then "missing-wait-source" else "missing-publish-source", "")
      else if (kind.Wait? || kind.Publish?) && w.controlFault(kind, params).Some? then
        ToolError(w.controlFault(kind, params).value, "")
      else map["ok" := Bool(true)]
  }

  /** The group of a built-in tool: its result, and its proposal among those of the run. */
  ghost predicate Controlled(w: World, v: Invocation, kind: Kind, params: Fields, g: Group, proposals: seq<Proposal>) {
    g.effect.None? && exists position: nat ::
      && g.result == ControlResult(w, v, kind, params, position)
      && Within(ControlProposal(w, v, kind, params, position), proposals)
  }

  predicate Within(p: Option<Proposal>, proposals: seq<Proposal>) {
    p.Some? ==> p.value in proposals
  }

  /** The group answers the call: a rejected call gets its error, an external one is executed, a built-in one never
    * is. */
  ghost predicate Answers(w: World, v: Invocation, call: ToolCall, g: Group, actions: seq<Action>,
                          proposals: seq<Proposal>) {
    match w.validate(call)
    case Rejected(code) => g.result == ToolError(code, "") && g.effect.None? && g.id !in ExecutedIds(actions)
    case Accepted(kind, params) =>
      if kind.External? then Performed(w, v, call.name, kind, params, g, actions)
      else g.id !in ExecutedIds(actions) && Controlled(w, v, kind, params, g, proposals)
  }

  /** The second sequence comes about from the first by appending. */
  predicate Grows<T(==)>(a: seq<T>, b: seq<T>) {
    a == b || (b != [] && Grows(a, b[..|b| - 1]))
  }

  lemma GrowsSnoc<T>(a: seq<T>, x: T)
    ensures Grows(a, a + [x])
  {
    assert (a + [x])[..|a|] == a;
  }

  lemma {:induction false} GrowsTrans<T>(a: seq<T>, b: seq<T>, c: seq<T>)
    requires Grows(a, b) && Grows(b, c)
    ensures Grows(a, c)
  {
    if b != c { GrowsTrans(a, b, c[..|c| - 1]); }
  }

  lemma {:induction false} GrowsPrefix<T>(a: seq<T>, b: seq<T>)
    requires Grows(a, b)
    ensures a <= b
  {
    if a != b { GrowsPrefix(a, b[..|b| - 1]); }
  }

  /** More actions, among them executions of this id only. */
  predicate Added(before: seq<Action>, after: seq<Action>, id: string) {
    Grows(before, after) && forall x | x in ExecutedIds(after) :: x in ExecutedIds(before) || x == id
  }

  /** More actions and no more executions. */
  predicate Later(before: seq<Action>, after: seq<Action>) {
    Grows(before, after) && ExecutedIds(after) == ExecutedIds(before)
  }

  lemma LaterTrans(a: seq<Action>, b: seq<Action>, c: seq<Action>)
    requires Later(a, b) && Later(b, c)
    ensures Later(a, c)
  {
    GrowsTrans(a, b, c);
  }

  lemma LaterRecord(actions: seq<Action>, d: Draft)
    ensures Later(actions, actions + [Record(d)])
  {
    ActionSnoc(actions, Record(d));
    GrowsSnoc(actions, Record(d));
  }

  lemma LaterGenerate(actions: seq<Action>)
    ensures Later(actions, actions + [Generate])
  {
    ActionSnoc(actions, Generate);
    GrowsSnoc(actions, Generate);
  }

  lemma LaterAdded(a: seq<Action>, b: seq<Action>, id: string)
    requires Later(a, b)
    ensures Added(a, b, id)
  {
  }

  lemma AddedLater(a: seq<Action>, b: seq<Action>, c: seq<Action>, id: string)
    requires (Added(a, b, id) && Later(b, c)) || (Later(a, b) && Added(b, c, id))
    ensures Added(a, c, id)
  {
    GrowsTrans(a, b, c);
  }

  lemma AddedExecution(actions: seq<Action>, a: Action)
    requires a.Execute?
    ensures Added(actions, actions + [a], a.id)
  {
    ActionSnoc(actions, a);
    GrowsSnoc(actions, a);
  }

  /** An execution just made, and what became of its answer. */
  lemma PerformedNow(w: World, v: Invocation, name: string, kind: Kind, params: Fields, id: string,
                     effect: Option<Effect>,
                     actions: seq<Action>, at: nat)
    requires kind.External? && effect == EffectOf(w, v, id, kind.capability, kind.semantics, params)
    requires effect.Some? == kind.semantics.Some?
    ensures var result := Normalized(RawResult(w, kind.capability, at), name, w.text);
      Performed(w, v, name, kind, params, Group(id, effect, result),
                actions + [Execute(id, kind.capability, params, KeyOf(effect), at)])
  {
    var a := Execute(id, kind.capability, params, KeyOf(effect), at);
    assert (actions + [a])[|actions|] == a;
  }

  lemma ControlAnswers(w: World, v: Invocation, call: ToolCall, kind: Kind, params: Fields, id: string, position: nat,
                       actions: seq<Action>, proposals: seq<Proposal>)
    requires w.validate(call) == Accepted(kind, params) && !kind.External? && id !in ExecutedIds(actions)
    requires Within(ControlProposal(w, v, kind, params, position), proposals)
    ensures Answers(w, v, call, Group(id, None, ControlResult(w, v, kind, params, position)), actions, proposals)
  {
  }

  /** Later actions and proposals do not undo an answer, unless its id is executed after all. */
  lemma AnswersGrow(w: World, v: Invocation, call: ToolCall, g: Group, actions: seq<Action>, later: seq<Action>,
                    proposals: seq<Proposal>, further: seq<Proposal>)
    requires Answers(w, v, call, g, actions, proposals) && Grows(actions, later) && proposals <= further
    requires g.id in ExecutedIds(later) ==> g.id in ExecutedIds(actions)
    ensures Answers(w, v, call, g, later, further)
  {
    GrowsPrefix(actions, later);
    match w.validate(call)
    case Rejected(_) =>
    case Accepted(kind, params) =>
      if kind.External? { PerformedGrow(w, v, call.name, kind, params, g, actions, later); } else {
        ControlledGrow(w, v, kind, params, g, proposals, further);
      }
  }

  lemma PerformedGrow(w: World, v: Invocation, name: string, kind: Kind, params: Fields, g: Group,
                      actions: seq<Action>, later: seq<Action>)
    requires kind.External? && Performed(w, v, name, kind, params, g, actions) && actions <= later
    ensures Performed(w, v, name, kind, params, g, later)
  {
    var at: nat :| Execute(g.id, kind.capability, params, KeyOf(g.effect), at) in actions
                   && g.result == Normalized(RawResult(w, kind.capability, at), name, w.text);
    assert Execute(g.id, kind.capability, params, KeyOf(g.effect), at) in later;
  }

  lemma ControlledGrow(w: World, v: Invocation, kind: Kind, params: Fields, g: Group, proposals: seq<Proposal>,
                       further: seq<Proposal>)
    requires Controlled(w, v, kind, params, g, proposals) && proposals <= further
    ensures Controlled(w, v, kind, params, g, further)
  {
    var position: nat :| g.result == ControlResult(w, v, kind, params, position)
                         && Within(ControlProposal(w, v, kind, params, position), proposals);
    assert Within(ControlProposal(w, v, kind, params, position), further);
  }

  // ------------------------------------------------------------- whole runs

  /** The group answers the first of the worked-through calls of the reply that goes by its id. */
  ghost predicate Justified(w: World, v: Invocation, reply: seq<ToolCall>, upTo: nat, g: Group, actions: seq<Action>,
                            proposals: seq<Proposal>) {
    exists i: nat :: i < upTo <= |reply| && FirstBy(reply, i, g.id) && Answers(w, v, reply[i], g, actions, proposals)
  }

  predicate FirstBy(reply: seq<ToolCall>, i: nat, id: string) {
    i < |reply| && CallId(reply[i], i) == id && id !in CallIds(reply)[..i]
  }

  /** Every group of every turn answers a call of its reply. */
  ghost predicate Just(w: World, v: Invocation, turns: seq<Turn>, replies: seq<seq<ToolCall>>, done: nat,
                       actions: seq<Action>, proposals: seq<Proposal>)
  {
    && |turns| == |replies|
    && forall t, j | 0 <= t < |turns| && 0 <= j < |turns[t]| ::
         Justified(w, v, replies[t], UpTo(turns, replies, done, t), turns[t][j], actions, proposals)
  }

  /** Every call with a result of its own is answered by the group it added. */
  lemma OwnCallAnswered(w: World, v: Invocation, turns: seq<Turn>, replies: seq<seq<ToolCall>>, done: nat,
                        actions: seq<Action>, proposals: seq<Proposal>, t: nat, i: nat)
    requires Followed(turns, replies, done) && Just(w, v, turns, replies, done, actions, proposals)
    requires t < |turns| && i < UpTo(turns, replies, done, t) <= |replies[t]| && OwnResult(turns, replies, t, i)
    ensures var k := GroupsBefore(turns, replies, t, i);
      && k < |turns[t]| && turns[t][k].id == CallId(replies[t][i], i)
      && Answers(w, v, replies[t][i], turns[t][k], actions, proposals)
  {
    CallAnswered(turns, replies, done, t, i);
    var k, reply := GroupsBefore(turns, replies, t, i), replies[t];
    assert Justified(w, v, reply, UpTo(turns, replies, done, t), turns[t][k], actions, proposals);
    var j: nat :| j < |reply| && FirstBy(reply, j, turns[t][k].id)
                  && Answers(w, v, reply[j], turns[t][k], actions, proposals);
    assert FirstBy(reply, i, turns[t][k].id);
    OneFirst(reply, i, j, turns[t][k].id);
  }

  lemma OneFirst(reply: seq<ToolCall>, i: nat, j: nat, id: string)
    requires FirstBy(reply, i, id) && FirstBy(reply, j, id)
    ensures i == j
  {
    var ids := CallIds(reply);
    forall m | 0 <= m < i ensures ids[m] != id { assert ids[m] in ids[..i]; }
    forall m | 0 <= m < j ensures ids[m] != id { assert ids[m] in ids[..j]; }
    assert ids[i] == id && ids[j] == id;
  }

  lemma JustifiedGrow(w: World, v: Invocation, reply: seq<ToolCall>, upTo: nat, more: nat, g: Group,
                      actions: seq<Action>, later: seq<Action>, proposals: seq<Proposal>, further: seq<Proposal>)
    requires Justified(w, v, reply, upTo, g, actions, proposals) && Grows(actions, later) && proposals <= further
    requires upTo <= more <= |reply| && (g.id in ExecutedIds(later) ==> g.id in ExecutedIds(actions))
    ensures Justified(w, v, reply, more, g, later, further)
  {
    var i: nat :| i < upTo <= |reply| && FirstBy(reply, i, g.id) && Answers(w, v, reply[i], g, actions, proposals);
    AnswersGrow(w, v, reply[i], g, actions, later, proposals, further);
  }

  lemma GroupId(turns: seq<Turn>, t: nat, j: nat)
    requires t < |turns| && j < |turns[t]|
    ensures turns[t][j].id in AllIds(turns)
  {
    assert TurnIds(turns[t])[j] == turns[t][j].id;
    InTurn(turns, t, turns[t][j].id);
  }

  /** Executing an id without a result, and working through more calls, keeps every group justified. */
  lemma JustKept(w: World, v: Invocation, turns: seq<Turn>, replies: seq<seq<ToolCall>>, done: nat, more: nat,
                 id: string,
                 actions: seq<Action>, later: seq<Action>, proposals: seq<Proposal>, further: seq<Proposal>)
    requires Just(w, v, turns, replies, done, actions, proposals) && proposals <= further
    requires Added(actions, later, id) && (id in AllIds(turns) ==> ExecutedIds(later) == ExecutedIds(actions))
    requires turns != [] ==> done <= more <= |replies[|turns| - 1]|
    ensures Just(w, v, turns, replies, more, later, further)
  {
    forall t, j | 0 <= t < |turns| && 0 <= j < |turns[t]|
      ensures Justified(w, v, replies[t], if t == |turns| - 1 then more else |replies[t]|, turns[t][j], later, further)
    {
      GroupId(turns, t, j);
      JustifiedGrow(w, v, replies[t], UpTo(turns, replies, done, t), UpTo(turns, replies, more, t), turns[t][j],
                    actions, later, proposals, further);
    }
  }

  /** The next call gets a group that answers it. */
  lemma JustGroup(w: World, v: Invocation, turns: seq<Turn>, replies: seq<seq<ToolCall>>, done: nat, g: Group,
                  actions: seq<Action>, proposals: seq<Proposal>)
    requires turns != [] && Just(w, v, turns, replies, done + 1, actions, proposals) && done < |replies[|turns| - 1]|
    requires FirstBy(replies[|turns| - 1], done, g.id)
    requires Answers(w, v, replies[|turns| - 1][done], g, actions, proposals)
    ensures Just(w, v, WithGroup(turns, g), replies, done + 1, actions, proposals)
  {
    var after, n := WithGroup(turns, g), |turns| - 1;
    forall t, j | 0 <= t < |after| && 0 <= j < |after[t]|
      ensures Justified(w, v, replies[t], if t == |after| - 1 then done + 1 else |replies[t]|, after[t][j], actions,
                        proposals)
    {
      if t < n || j < |turns[n]| {
        assert after[t][j] == turns[t][j];
      } else {
        assert after[t][j] == g;
      }
    }
  }

  lemma JustReply(w: World, v: Invocation, turns: seq<Turn>, replies: seq<seq<ToolCall>>, done: nat,
                  reply: seq<ToolCall>,
                  actions: seq<Action>, proposals: seq<Proposal>)
    requires Just(w, v, turns, replies, done, actions, proposals) && WorkedThrough(replies, done)
    ensures Just(w, v, turns + [[]], replies + [reply], 0, actions, proposals)
  {
    var longer, heard := turns + [[]], replies + [reply];
    forall t, j | 0 <= t < |turns| && 0 <= j < |longer[t]|
      ensures Justified(w, v, heard[t], |heard[t]|, longer[t][j], actions, proposals)
    {
      assert longer[t][j] == turns[t][j] && heard[t] == replies[t];
    }
  }

  // ------------------------------------------------------------------- stopping

  predicate Unstopped(turns: seq<Turn>) {
    forall t, j | 0 <= t < |turns| && 0 <= j < |turns[t]| :: !Stops(turns[t][j].result)
  }

  /** The very last group asks the run to stop, and no other does. */
  ghost predicate StoppedLast(turns: seq<Turn>) {
    exists before: seq<Turn>, g: Group ::
        before != [] && Unstopped(before) && turns == WithGroup(before, g) && Stops(g.result)
  }

  lemma UnstoppedTurn(turns: seq<Turn>)
    requires Unstopped(turns)
    ensures Unstopped(turns + [[]])
  {
  }

  lemma StoppedStops(turns: seq<Turn>)
    requires StoppedLast(turns)
    ensures !Unstopped(turns)
  {
    var before: seq<Turn>,
        g: Group :| before != [] && Unstopped(before) && turns == WithGroup(before, g) && Stops(g.result);
    var last: Turn := before[|before| - 1];
    assert |turns| == |before| && turns[|before| - 1] == last + [g];
    assert turns[|before| - 1][|last|] == g;
  }

  lemma UnstoppedGroup(turns: seq<Turn>, g: Group)
    requires turns != [] && Unstopped(turns)
    ensures if Stops(g.result) then StoppedLast(WithGroup(turns, g)) else Unstopped(WithGroup(turns, g))
  {
    var after: seq<Turn>, n := WithGroup(turns, g), |turns| - 1;
    if !Stops(g.result) {
      forall t, j | 0 <= t < |after| && 0 <= j < |after[t]| ensures !Stops(after[t][j].result) {
        assert after[t][j] == if t < n || j < |turns[n]| then turns[t][j] else g;
      }
    }
  }
}
