/** What a prompt component knows of the tool behind it, and how long its text counts. */
module Naming {
  import opened Text
  import opened Prompts
  import opened Compaction

  /** The call names the tool behind an id. */
  predicate Introduces(call: Call, id: string) {
    call.id == id && call.id != "" && call.name != ""
  }

  ghost predicate NamedBy(calls: seq<Call>, id: string, name: string) {
    exists i :: 0 <= i < |calls| && Introduces(calls[i], id) && calls[i].name == name
                && forall j | i < j < |calls| :: !Introduces(calls[j], id)
  }

  ghost predicate Unnamed(calls: seq<Call>, id: string) {
    forall i | 0 <= i < |calls| :: !Introduces(calls[i], id)
  }

  /** All calls of the assistant messages, in order. */
  function AllCalls(messages: seq<Message>): seq<Call> {
    if messages == [] then [] else
      var n := |messages| - 1;
      AllCalls(messages[..n]) + if messages[n].Assistant? then messages[n].calls else []
  }

  lemma {:induction false} RecordedNames(calls: seq<Call>, before: seq<Call>, names: map<string, string>, id: string)
    requires if id in names then NamedBy(before, id, names[id]) else Unnamed(before, id)
    ensures var r := RecordNames(calls, names);
      if id in r then NamedBy(before + calls, id, r[id]) else Unnamed(before + calls, id)
  {
    if calls == [] {
      assert before + calls == before;
    } else {
      var n := |calls| - 1;
      RecordedNames(calls[..n], before, names, id);
      assert before + calls == (before + calls[..n]) + [calls[n]];
      NamedNext(before + calls[..n], calls[n], id, RecordNames(calls[..n], names));
    }
  }

  lemma NamedNext(calls: seq<Call>, call: Call, id: string, names: map<string, string>)
    requires if id in names then NamedBy(calls, id, names[id]) else Unnamed(calls, id)
    ensures if Introduces(call, id) then NamedBy(calls + [call], id, call.name)
            else if id in names then NamedBy(calls + [call], id, names[id])
            else Unnamed(calls + [call], id)
  {
    var all := calls + [call];
    assert all[|calls|] == call;
    if !Introduces(call, id) && id in names {
      var i :| 0 <= i < |calls| && Introduces(calls[i], id) && calls[i].name == names[id]
               && forall j | i < j < |calls| :: !Introduces(calls[j], id);
      assert Introduces(all[i], id) && all[i].name == names[id];
    }
  }

  lemma {:induction false} NamesExactly(messages: seq<Message>, id: string)
    ensures var names, calls := NamesOf(messages), AllCalls(messages);
      if id in names then NamedBy(calls, id, names[id]) else Unnamed(calls, id)
  {
    if messages != [] {
      var n := |messages| - 1;
      NamesExactly(messages[..n], id);
      if messages[n].Assistant? {
        RecordedNames(messages[n].calls, AllCalls(messages[..n]), NamesOf(messages[..n]), id);
      } else {
        assert AllCalls(messages) == AllCalls(messages[..n]);
      }
    }
  }

  /** A projected result goes by the name of the last call before it with its id. */
  lemma ResultNamed(entries: seq<Entry>, i: nat, historical: bool)
    requires i < |entries| && entries[i].event.kind != "tool_call"
    ensures var c, calls := ComponentsOf(entries, historical)[i], AllCalls(MessagesOf(entries[..i]));
      var id := entries[i].event.toolCallId;
      (Unnamed(calls, id) && c.toolName == "") || NamedBy(calls, id, c.toolName)
  {
    NamesExactly(MessagesOf(entries[..i]), entries[i].event.toolCallId);
  }

  /** A token stands for up to four characters of the text the model is shown. */
  lemma TokensCover(encode: Component -> string, c: Component)
    ensures 4 * Tokens(encode, c) - 4 < |TextOf(encode, c)| <= 4 * Tokens(encode, c)
    ensures c.message.Some? && !c.message.value.Assistant? ==> TextOf(encode, c) == c.message.value.content
    ensures c.message.None? ==> TextOf(encode, c) == encode(c)
  {
  }
}
