/** What the turns of a run owe to the model's replies. */
module Follows {
  import opened Text
  import opened Json
  import opened RunLogs

  datatype ToolCall = ToolCall(id: string, name: string, payload: Value)

  /** The id a call goes by: its own, or one made from its position in the reply. */
  function CallId(call: ToolCall, index: nat): string {
    if call.id == "" then "call-" + NatString(index) else call.id
  }

  function CallIds(calls: seq<ToolCall>): seq<string> {
    seq(|calls|, i requires 0 <= i < |calls| => CallId(calls[i], i))
  }

  /** The first occurrences of the ids that are not answered yet. */
  function Fresh(ids: seq<string>, answered: seq<string>): seq<string> {
    if ids == [] then [] else
      var n := |ids| - 1;
      var before := Fresh(ids[..n], answered);
      if ids[n] in answered || ids[n] in before then before else before + [ids[n]]
  }

  /** Exactly the unanswered ids get a place, each once. */
  lemma {:induction false} FreshExactly(ids: seq<string>, answered: seq<string>)
    ensures forall id :: id in Fresh(ids, answered) <==> id in ids && id !in answered
    ensures Distinct(Fresh(ids, answered))
  {
    if ids != [] {
      var n := |ids| - 1;
      FreshExactly(ids[..n], answered);
      assert ids == ids[..n] + [ids[n]];
    }
  }

  /** The groups of a turn are those of the fresh ids among the first `done` calls of its reply. */
  predicate Serves(turns: seq<Turn>, replies: seq<seq<ToolCall>>, t: nat, done: nat)
    requires t < |turns| && t < |replies|
  {
    done <= |replies[t]| && TurnIds(turns[t]) == Fresh(CallIds(replies[t])[..done], AllIds(turns[..t]))
  }

  /** Every turn but the last served its whole reply, and the last one its first `done` calls. */
  predicate Followed(turns: seq<Turn>, replies: seq<seq<ToolCall>>, done: nat) {
    && |turns| == |replies|
    && (turns == [] ==> done == 0)
    && forall t | 0 <= t < |turns| :: Serves(turns, replies, t, if t == |turns| - 1 then done else |replies[t]|)
  }

  /** The last reply has been worked through. */
  predicate WorkedThrough(replies: seq<seq<ToolCall>>, done: nat) {
    replies == [] || done == |replies[|replies| - 1]|
  }

  lemma FollowReply(turns: seq<Turn>, replies: seq<seq<ToolCall>>, done: nat, reply: seq<ToolCall>)
    requires Followed(turns, replies, done) && WorkedThrough(replies, done)
    ensures Followed(turns + [[]], replies + [reply], 0)
  {
    var longer, heard := turns + [[]], replies + [reply];
    forall t | 0 <= t < |longer| ensures Serves(longer, heard, t, if t == |longer| - 1 then 0 else |heard[t]|) {
      assert longer[..t] == turns[..t];
      if t < |turns| {
        assert Serves(turns, replies, t, if t == |turns| - 1 then done else |replies[t]|);
      } else {
        assert CallIds(reply)[..0] == [] && TurnIds([]) == [];
      }
    }
  }

  lemma GroupIds(turns: seq<Turn>, g: Group)
    requires turns != []
    ensures var n := |turns| - 1;
      && WithGroup(turns, g)[..n] == turns[..n] && |WithGroup(turns, g)| == |turns|
      && TurnIds(WithGroup(turns, g)[n]) == TurnIds(turns[n]) + [g.id]
  {
  }

  /** Serving one more call: it gets a group exactly when its id has no result yet. */
  lemma FollowCall(turns: seq<Turn>, replies: seq<seq<ToolCall>>, done: nat, after: seq<Turn>)
    requires Followed(turns, replies, done) && turns != [] && done < |replies[|replies| - 1]|
    requires var id := CallId(replies[|replies| - 1][done], done);
      if id in AllIds(turns) then after == turns else exists g: Group :: g.id == id && after == WithGroup(turns, g)
    ensures Followed(after, replies, done + 1)
  {
    var n := |turns| - 1;
    var ids, before := CallIds(replies[n]), AllIds(turns[..n]);
    LastServed(turns, replies, done);
    FreshNext(ids, done, before);
    if ids[done] !in AllIds(turns) {
      var g: Group :| g.id == ids[done] && after == WithGroup(turns, g);
      GroupIds(turns, g);
    }
    EarlierServed(turns, replies, done, after);
    assert Serves(after, replies, n, done + 1);
  }

  lemma LastServed(turns: seq<Turn>, replies: seq<seq<ToolCall>>, done: nat)
    requires Followed(turns, replies, done) && turns != []
    ensures var n := |turns| - 1;
      && done <= |replies[n]| && TurnIds(turns[n]) == Fresh(CallIds(replies[n])[..done], AllIds(turns[..n]))
      && AllIds(turns) == AllIds(turns[..n]) + TurnIds(turns[n])
  {
    assert Serves(turns, replies, |turns| - 1, done);
  }

  lemma FreshNext(ids: seq<string>, k: nat, answered: seq<string>)
    requires k < |ids|
    ensures var before := Fresh(ids[..k], answered);
      Fresh(ids[..k + 1], answered) == if ids[k] in answered + before then before else before + [ids[k]]
  {
    assert ids[..k + 1][..k] == ids[..k];
  }

  lemma EarlierServed(turns: seq<Turn>, replies: seq<seq<ToolCall>>, done: nat, after: seq<Turn>)
    requires Followed(turns, replies, done) && turns != [] && |after| == |turns|
    requires after[..|turns| - 1] == turns[..|turns| - 1]
    ensures forall t | 0 <= t < |turns| - 1 :: Serves(after, replies, t, |replies[t]|)
  {
    var n := |turns| - 1;
    forall t | 0 <= t < n ensures Serves(after, replies, t, |replies[t]|) {
      assert Serves(turns, replies, t, |replies[t]|);
      assert after[..t] == after[..n][..t] && turns[..t] == turns[..n][..t];
      assert after[t] == after[..n][t];
    }
  }

  // ------------------------------------------------------------- consequences

  /** How many calls of a reply were worked through when its turn has reached a given point. */
  function UpTo(turns: seq<Turn>, replies: seq<seq<ToolCall>>, done: nat, t: nat): nat
    requires |turns| == |replies| && t < |turns|
  {
    if t == |turns| - 1 then done else |replies[t]|
  }

  /** How many groups a turn has before a call of its reply is worked through. */
  function GroupsBefore(turns: seq<Turn>, replies: seq<seq<ToolCall>>, t: nat, i: nat): nat
    requires |turns| == |replies| && t < |turns| && i <= |replies[t]|
  {
    |Fresh(CallIds(replies[t])[..i], AllIds(turns[..t]))|
  }

  /** No earlier turn and no earlier call of the same reply went by the id of this call. */
  predicate OwnResult(turns: seq<Turn>, replies: seq<seq<ToolCall>>, t: nat, i: nat)
    requires |turns| == |replies| && t < |turns| && i < |replies[t]|
  {
    var id := CallId(replies[t][i], i);
    id !in AllIds(turns[..t]) && id !in CallIds(replies[t])[..i]
  }

  /** Every call that was worked through has its result in the log. It adds a group of its own exactly when no earlier
    * turn and no earlier call of its reply went by its id, and that group is the next one of its turn. */
  lemma CallAnswered(turns: seq<Turn>, replies: seq<seq<ToolCall>>, done: nat, t: nat, i: nat)
    requires Followed(turns, replies, done) && t < |turns| && i < UpTo(turns, replies, done, t)
    ensures i < |replies[t]| && CallId(replies[t][i], i) in AllIds(turns)
    ensures CallId(replies[t][i], i) in TurnIds(turns[t]) <==> CallId(replies[t][i], i) !in AllIds(turns[..t])
    ensures var k := GroupsBefore(turns, replies, t, i);
      && GroupsBefore(turns, replies, t, i + 1) == (if OwnResult(turns, replies, t, i) then k + 1 else k)
      && (OwnResult(turns, replies, t, i) ==> k < |turns[t]| && turns[t][k].id == CallId(replies[t][i], i))
  {
    var upTo, ids, before := UpTo(turns, replies, done, t), CallIds(replies[t]), AllIds(turns[..t]);
    assert Serves(turns, replies, t, upTo);
    FreshCall(ids, i, upTo, before);
    if ids[i] in before { InEarlier(turns, t, ids[i]); } else { InTurn(turns, t, ids[i]); }
    if OwnResult(turns, replies, t, i) {
      assert turns[t][GroupsBefore(turns, replies, t, i)].id == TurnIds(turns[t])[GroupsBefore(turns, replies, t, i)];
    }
  }

  /** An id gets the next place exactly when it is neither answered nor an earlier id. */
  lemma FreshCall(ids: seq<string>, i: nat, upTo: nat, answered: seq<string>)
    requires i < upTo <= |ids|
    ensures ids[i] in Fresh(ids[..upTo], answered) <==> ids[i] !in answered
    ensures var k, own := |Fresh(ids[..i], answered)|, ids[i] !in answered && ids[i] !in ids[..i];
      && |Fresh(ids[..i + 1], answered)| == (if own then k + 1 else k)
      && (own ==> k < |Fresh(ids[..upTo], answered)| && Fresh(ids[..upTo], answered)[k] == ids[i])
  {
    FreshExactly(ids[..i], answered);
    FreshNext(ids, i, answered);
    assert ids[..upTo][..i + 1] == ids[..i + 1];
    FreshPrefix(ids[..upTo], i + 1, answered);
    FreshExactly(ids[..upTo], answered);
    assert ids[..upTo][i] == ids[i];
  }

  /** A turn has exactly the groups its calls added. */
  lemma GroupsCounted(turns: seq<Turn>, replies: seq<seq<ToolCall>>, done: nat, t: nat)
    requires Followed(turns, replies, done) && t < |turns|
    ensures UpTo(turns, replies, done, t) <= |replies[t]|
    ensures GroupsBefore(turns, replies, t, 0) == 0
    ensures GroupsBefore(turns, replies, t, UpTo(turns, replies, done, t)) == |turns[t]|
  {
    assert Serves(turns, replies, t, UpTo(turns, replies, done, t));
    assert CallIds(replies[t])[..0] == [];
  }

  /** What is fresh at some point stays in front. */
  lemma {:induction false} FreshPrefix(ids: seq<string>, k: nat, answered: seq<string>)
    requires k <= |ids|
    ensures Fresh(ids[..k], answered) <= Fresh(ids, answered)
  {
    if k < |ids| {
      FreshPrefix(ids[..|ids| - 1], k, answered);
      assert ids[..|ids| - 1][..k] == ids[..k];
    } else {
      assert ids[..k] == ids;
    }
  }

  lemma {:induction false} InTurn(turns: seq<Turn>, t: nat, id: string)
    requires t < |turns| && id in TurnIds(turns[t])
    ensures id in AllIds(turns)
  {
    if t < |turns| - 1 { InTurn(turns[..|turns| - 1], t, id); }
  }

  lemma {:induction false} InEarlier(turns: seq<Turn>, t: nat, id: string)
    requires t <= |turns| && id in AllIds(turns[..t])
    ensures id in AllIds(turns)
  {
    if t < |turns| {
      var n := |turns| - 1;
      assert turns[..n][..t] == turns[..t];
      InEarlier(turns[..n], t, id);
    } else {
      assert turns[..t] == turns;
    }
  }

  /** A call that goes by the id of an earlier call of the same reply is passed over. */
  lemma RepeatedCallPassedOver(turns: seq<Turn>, replies: seq<seq<ToolCall>>, done: nat, t: nat, i: nat, j: nat)
    requires Followed(turns, replies, done) && t < |turns| && i < j < UpTo(turns, replies, done, t)
    requires j < |replies[t]| && CallId(replies[t][i], i) == CallId(replies[t][j], j)
    ensures !OwnResult(turns, replies, t, j)
    ensures GroupsBefore(turns, replies, t, j + 1) == GroupsBefore(turns, replies, t, j)
  {
    assert CallIds(replies[t])[..j][i] == CallId(replies[t][j], j);
    CallAnswered(turns, replies, done, t, j);
  }

  /** The same call twice in one reply, or a call without an id behind one named like its fallback, leaves one group. */
  lemma TwiceInOneReply(turns: seq<Turn>, reply: seq<ToolCall>)
    requires Followed(turns, [reply], 2) && |reply| == 2
    requires (reply[0] == reply[1] && reply[0].id != "") || (reply[0].id == "call-" + NatString(1) && reply[1].id == "")
    ensures |turns[0]| == 1
  {
    CallAnswered(turns, [reply], 2, 0, 0);
    RepeatedCallPassedOver(turns, [reply], 2, 0, 0, 1);
    GroupsCounted(turns, [reply], 2, 0);
    assert OwnResult(turns, [reply], 0, 0) by { assert turns[..0] == [] && CallIds(reply)[..0] == []; }
  }

  /** Two replies with one call each and no ids: the second call goes by the id of the first and is passed over. */
  lemma SecondCallPassedOver(turns: seq<Turn>, replies: seq<seq<ToolCall>>, done: nat)
    requires Followed(turns, replies, done) && |turns| >= 2 && (|turns| == 2 ==> done == 1)
    requires |replies[0]| == 1 && |replies[1]| == 1 && replies[0][0].id == "" && replies[1][0].id == ""
    ensures |turns[0]| == 1 && turns[1] == []
  {
    var id := "call-" + NatString(0);
    assert Serves(turns, replies, 0, 1) && Serves(turns, replies, 1, 1);
    assert CallIds(replies[0])[..1] == [id] && CallIds(replies[1])[..1] == [id];
    assert turns[..0] == [] && turns[..1][..0] == [] && AllIds(turns[..1]) == [] + TurnIds(turns[0]);
    assert [id][..0] == [];
    assert Fresh([id], []) == [id];
    assert TurnIds(turns[0]) == [id] && |turns[0]| == |TurnIds(turns[0])|;
    assert Fresh([id], [id]) == [] && |turns[1]| == |TurnIds(turns[1])|;
  }
}
