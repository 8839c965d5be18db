/** What a compiled project gives its agents, told from the declarations. */
module Selections {
  import opened Text
  import opened Json
  import opened Keyed
  import opened Registries
  import opened Projects

  /** The tool name stands for the capability: by its id, or by an alias that is nobody's id and nobody else's alias. */
  ghost predicate StandsFor(capabilities: seq<Capability>, name: string, c: Capability) {
    && c in capabilities
    && (c.id == name
        || (c.name == name && forall d | d in capabilities :: d.id != name && (d.name == name ==> d == c)))
  }

  ghost predicate NamesSkill(input: Input, name: string) {
    (exists x :: x in input.resources && x.name == name) || exists x :: x in input.skills && x.name == name
  }

  /** An agent may use a capability that has no owner, or that it owns. */
  ghost predicate OffersTool(input: Input, slug: string, id: string) {
    exists c :: c in input.capabilities && c.id == id && (c.owner.None? || c.owner == Some(slug))
  }

  ghost predicate OwnTool(input: Input, slug: string, id: string) {
    exists c :: c in input.capabilities && c.id == id && c.owner == Some(slug)
  }

  ghost predicate ListedTool(input: Input, agent: Agent, id: string) {
    exists c, name :: name in agent.tools && StandsFor(input.capabilities, name, c) && c.id == id
  }

  lemma KeysAre<T>(items: seq<T>, key: T -> string, k: string)
    requires UniqueKeys(items, key)
    ensures k in ById(items, key) <==> exists x :: x in items && key(x) == k
    ensures k in ById(items, key) ==> ById(items, key)[k] in items && key(ById(items, key)[k]) == k
  {
    ByIdIndexes(items, key);
  }

  lemma InSorted(s: set<string>, x: string)
    ensures x in Sorted(s) <==> x in s
  {
    assert x in Sorted(s) <==> x in Elements(Sorted(s));
  }

  /** An agent that inherits skills has every resource and every skill, in order; any other has what it lists. */
  lemma CompiledSkills(rules: Rules, input: Input, agent: Agent)
    requires Compilable(rules, input) && agent in input.agents
    ensures agent.slug in Compiled(input).agents
    ensures var skills := Compiled(input).agents[agent.slug].skills;
      if agent.inheritsSkills then Ascending(skills) && forall name :: name in skills <==> NamesSkill(input, name)
      else skills == agent.skills
  {
    ByIdIndexes(input.agents, AgentKey);
    if agent.inheritsSkills {
      forall name ensures name in Compiled(input).agents[agent.slug].skills <==> NamesSkill(input, name) {
        InSorted(ContextOf(input).names, name);
        KeysAre(input.resources, ResourceKey, name);
        KeysAre(input.skills, SkillKey, name);
      }
    }
  }

  lemma ResolveMeans(capabilities: seq<Capability>, name: string)
    requires UniqueKeys(capabilities, CapabilityKey) && Resolve(ById(capabilities, CapabilityKey), name).Ok?
    ensures StandsFor(capabilities, name, Resolve(ById(capabilities, CapabilityKey), name).value)
  {
    var index := ById(capabilities, CapabilityKey);
    var c := Resolve(index, name).value;
    ByIdIndexes(capabilities, CapabilityKey);
    if name !in index {
      forall d | d in capabilities ensures d.id != name && (d.name == name ==> d == c) {
        if d.name == name {
          assert d.id in Aliased(index, name) && c.id in Aliased(index, name);
          OnlyElement(Aliased(index, name), c.id);
        }
      }
    }
  }

  lemma StandsOnce(capabilities: seq<Capability>, name: string, c: Capability, d: Capability)
    requires UniqueKeys(capabilities, CapabilityKey)
    requires StandsFor(capabilities, name, c) && StandsFor(capabilities, name, d)
    ensures c == d
  {
    ByIdIndexes(capabilities, CapabilityKey);
  }

  lemma ToolMeans(input: Input, agent: Agent, i: nat)
    requires UniqueKeys(input.capabilities, CapabilityKey) && i < |agent.tools|
    requires ToolsSelectable(agent, ContextOf(input).capabilities) && !agent.inheritsTools
    ensures ListedTool(input, agent, ToolIds(ContextOf(input).capabilities, agent.tools)[i])
    ensures forall c | StandsFor(input.capabilities, agent.tools[i], c) ::
              c.id == ToolIds(ContextOf(input).capabilities, agent.tools)[i]
  {
    var capabilities, name := ContextOf(input).capabilities, agent.tools[i];
    assert Selectable(agent, name, capabilities);
    ResolveMeans(input.capabilities, name);
    var c := Resolve(capabilities, name).value;
    assert StandsFor(input.capabilities, name, c) && name in agent.tools;
    forall d | StandsFor(input.capabilities, name, d) ensures d.id == c.id {
      StandsOnce(input.capabilities, name, c, d);
    }
  }

  /** Which tools an agent that lists its own gets: those it names, and those it owns. */
  lemma ListedTools(input: Input, agent: Agent, id: string)
    requires UniqueKeys(input.capabilities, CapabilityKey)
    requires ToolsSelectable(agent, ContextOf(input).capabilities) && !agent.inheritsTools
    ensures id in NormalTools(agent, ContextOf(input).capabilities)
            <==> ListedTool(input, agent, id) || OwnTool(input, agent.slug, id)
  {
    var capabilities := ContextOf(input).capabilities;
    var ids, own := ToolIds(capabilities, agent.tools), Owned(capabilities, agent.slug);
    InSorted(own, id);
    OwnedMeans(input, agent.slug, id);
    assert id in ids + Sorted(own) <==> id in ids || id in Sorted(own);
    if id in ids {
      var i :| 0 <= i < |ids| && ids[i] == id;
      ToolMeans(input, agent, i);
    }
    if ListedTool(input, agent, id) {
      var c, name :| name in agent.tools && StandsFor(input.capabilities, name, c) && c.id == id;
      var i :| 0 <= i < |agent.tools| && agent.tools[i] == name;
      ToolMeans(input, agent, i);
      assert ids[i] == id;
    }
  }

  lemma OwnedMeans(input: Input, slug: string, id: string)
    requires UniqueKeys(input.capabilities, CapabilityKey)
    ensures id in Owned(ContextOf(input).capabilities, slug) <==> OwnTool(input, slug, id)
    ensures id in Shared(ContextOf(input).capabilities) + Owned(ContextOf(input).capabilities, slug)
            <==> OffersTool(input, slug, id)
  {
    ByIdIndexes(input.capabilities, CapabilityKey);
  }

  /** An agent that inherits tools has every capability it may use, in order; any other has those it names and those it
    * owns. Nothing else of an agent changes. */
  lemma CompiledTools(rules: Rules, input: Input, agent: Agent)
    requires Compilable(rules, input) && agent in input.agents
    ensures agent.slug in Compiled(input).agents
    ensures var tools := Compiled(input).agents[agent.slug].tools;
      if agent.inheritsTools
      then Ascending(tools) && forall id :: id in tools <==> OffersTool(input, agent.slug, id)
      else forall id :: id in tools <==> ListedTool(input, agent, id) || OwnTool(input, agent.slug, id)
    ensures var a := Compiled(input).agents[agent.slug];
      a == agent.(skills := a.skills, tools := a.tools, inheritsSkills := false, inheritsTools := false)
  {
    ByIdIndexes(input.agents, AgentKey);
    var capabilities := ContextOf(input).capabilities;
    assert Fits(rules, agent, ContextOf(input));
    forall id ensures agent.inheritsTools ==>
                        (id in NormalTools(agent, capabilities) <==> OffersTool(input, agent.slug, id)) {
      OwnedMeans(input, agent.slug, id);
      InSorted(Shared(capabilities) + Owned(capabilities, agent.slug), id);
    }
    if !agent.inheritsTools {
      forall id ensures id in NormalTools(agent, capabilities)
                        <==> ListedTool(input, agent, id) || OwnTool(input, agent.slug, id) {
        ListedTools(input, agent, id);
      }
    }
  }

  // ---------------------------------------------------------------- tool order

  /** Where a string is first mentioned; past the end when it is not. */
  function Mention(s: seq<string>, x: string): (i: nat)
    ensures i <= |s| && (i < |s| <==> x in s) && (i < |s| ==> s[i] == x) && forall j | 0 <= j < i :: s[j] != x
  {
    if s == [] || s[0] == x then 0 else 1 + Mention(s[1..], x)
  }

  lemma MentionPrefix(s: seq<string>, t: seq<string>, x: string)
    requires x in s
    ensures Mention(s + t, x) == Mention(s, x)
  {
    var i, j := Mention(s, x), Mention(s + t, x);
    assert (s + t)[i] == s[i];
    assert forall k | 0 <= k < |s| :: (s + t)[k] == s[k];
  }

  /** Without repetitions the strings stay in the order in which they are first mentioned. */
  lemma {:induction false} KeptInOrder(s: seq<string>, i: nat, j: nat)
    requires i < j < |KeepFirst(s)|
    ensures Mention(s, KeepFirst(s)[i]) < Mention(s, KeepFirst(s)[j])
  {
    var n := |s| - 1;
    var before, last := KeepFirst(s[..n]), s[n];
    assert s == s[..n] + [last];
    if j < |before| {
      KeptInOrder(s[..n], i, j);
      MentionPrefix(s[..n], [last], before[i]);
      MentionPrefix(s[..n], [last], before[j]);
    } else {
      assert before[i] in s[..n];
      MentionPrefix(s[..n], [last], before[i]);
      assert forall k | 0 <= k < n :: s[k] == s[..n][k];
    }
  }

  /** The tools an agent names come first, in the order it names them; the others it owns follow in ascending order. */
  lemma ToolsInOrder(rules: Rules, input: Input, agent: Agent, i: nat, j: nat)
    requires Compilable(rules, input) && agent in input.agents && !agent.inheritsTools
    requires agent.slug in Compiled(input).agents && i < j < |Compiled(input).agents[agent.slug].tools|
    ensures var tools := Compiled(input).agents[agent.slug].tools;
      var ids := ToolIds(ContextOf(input).capabilities, agent.tools);
      && (tools[j] in ids ==> tools[i] in ids && Mention(ids, tools[i]) < Mention(ids, tools[j]))
      && (tools[i] !in ids ==> tools[j] !in ids && Less(tools[i], tools[j]))
  {
    ByIdIndexes(input.agents, AgentKey);
    var ids := ToolIds(ContextOf(input).capabilities, agent.tools);
    var own := Sorted(Owned(ContextOf(input).capabilities, agent.slug));
    var tools := KeepFirst(ids + own);
    KeptInOrder(ids + own, i, j);
    MentionParts(ids, own, tools[i]);
    MentionParts(ids, own, tools[j]);
    assert tools[i] in ids + own && tools[j] in ids + own;
  }

  lemma MentionParts(s: seq<string>, t: seq<string>, x: string)
    ensures Mention(s + t, x) == if x in s then Mention(s, x) else |s| + Mention(t, x)
  {
    if x in s {
      MentionPrefix(s, t, x);
    } else {
      var i, j := Mention(t, x), Mention(s + t, x);
      assert forall k | 0 <= k < |t| :: (s + t)[|s| + k] == t[k];
      assert forall k | 0 <= k < |s| :: (s + t)[k] == s[k];
    }
  }

  // ------------------------------------------------------------------- events

  ghost predicate FromConnector(connectors: seq<Connector>, t: string, schema: Option<Fields>) {
    exists c :: c in connectors && t in c.events && c.events[t] == schema
  }

  ghost predicate FromSchedule(agents: seq<Agent>, t: string, schema: Option<Fields>) {
    exists a :: a in agents && a.schedules != [] && t == "agent." + a.slug + ".scheduled"
                && schema == Some(ScheduledSchema())
  }

  lemma {:induction false} ConnectorEvents(connectors: seq<Connector>, t: string, schema: Option<Fields>)
    requires OneOwner(connectors)
    ensures t in EventsOf(connectors) && EventsOf(connectors)[t] == schema <==> FromConnector(connectors, t, schema)
  {
    if connectors != [] {
      var n := |connectors| - 1;
      var before, last := connectors[..n], connectors[n];
      ConnectorEvents(before, t, schema);
      assert connectors == before + [last];
      assert forall c | c in connectors :: c in before || c == last;
      forall c | c in before ensures c.events.Keys !! last.events.Keys {
        var i :| 0 <= i < n && connectors[i] == c;
      }
    }
  }

  lemma ScheduleEvents(agents: seq<Agent>, t: string, schema: Option<Fields>)
    requires UniqueKeys(agents, AgentKey)
    ensures var events := Scheduled(ById(agents, AgentKey));
      t in events && events[t] == schema <==> FromSchedule(agents, t, schema)
  {
    ByIdIndexes(agents, AgentKey);
    var index := ById(agents, AgentKey);
    if FromSchedule(agents, t, schema) {
      var a :| a in agents && a.schedules != [] && t == "agent." + a.slug + ".scheduled";
      assert a.slug in index && index[a.slug] == a && t == ScheduledType(a.slug);
    }
  }

  /** The vocabulary of a project is what its connectors, the project itself and its schedules declare. */
  lemma CompiledEvents(rules: Rules, input: Input, t: string, schema: Option<Fields>)
    requires Compilable(rules, input)
    ensures t in Compiled(input).events && Compiled(input).events[t] == schema
            <==> FromConnector(input.connectors, t, schema) || (t in input.events && input.events[t] == schema)
                 || FromSchedule(input.agents, t, schema)
  {
    ConnectorEvents(input.connectors, t, schema);
    ScheduleEvents(input.agents, t, schema);
    UnionAgrees(EventsOf(input.connectors), input.events, Scheduled(ById(input.agents, AgentKey)), t, schema);
  }

  lemma UnionAgrees(a: Registry, b: Registry, c: Registry, t: string, schema: Option<Fields>)
    requires Agree(a, b) && Agree(a + b, c)
    ensures t in a + b + c && (a + b + c)[t] == schema <==>
            (t in a && a[t] == schema) || (t in b && b[t] == schema) || (t in c && c[t] == schema)
  {
  }
}
