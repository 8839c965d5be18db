/** The compiler itself: the loops that check, index, merge and normalize declarations. */
module Compilation {
  import opened Text
  import opened Keyed
  import opened Registries
  import opened Projects

  // -------------------------------------------------------------- connectors

  lemma {:induction false} EventsOfMembers(connectors: seq<Connector>, t: string)
    ensures t in EventsOf(connectors) <==> exists i :: 0 <= i < |connectors| && t in connectors[i].events
  {
    if connectors != [] {
      var n := |connectors| - 1;
      EventsOfMembers(connectors[..n], t);
      if t in EventsOf(connectors[..n]) {
        var i :| 0 <= i < n && t in connectors[..n][i].events;
        assert t in connectors[i].events;
      } else if i :| 0 <= i < |connectors| && t in connectors[i].events {
        assert i < n ==> t in connectors[..n][i].events;
      }
    }
  }

  lemma OneOwnerNext(connectors: seq<Connector>, i: nat)
    requires i < |connectors| && OneOwner(connectors[..i])
    ensures connectors[i].events.Keys !! EventsOf(connectors[..i]).Keys <==> OneOwner(connectors[..i + 1])
  {
    var before, after := connectors[..i], connectors[..i + 1];
    if connectors[i].events.Keys !! EventsOf(before).Keys {
      forall j, k | 0 <= j < k < |after| ensures after[j].events.Keys !! after[k].events.Keys {
        if k < i {
          assert before[j] == after[j] && before[k] == after[k];
        } else {
          forall t | t in after[j].events ensures t !in after[k].events {
            assert before[j] == after[j];
            EventsOfMembers(before, t);
          }
        }
      }
    } else {
      var t :| t in connectors[i].events && t in EventsOf(before);
      EventsOfMembers(before, t);
      var j :| 0 <= j < i && t in before[j].events;
      assert t in after[j].events && t in after[i].events;
    }
  }

  /** Claims and registers the events of one connector; an event somebody else owns stops it. */
  method ClaimEvents(rules: Rules, registry: EventRegistry, connector: Connector, claimed: set<string>)
    returns (ok: bool, owned: set<string>)
    requires ProperConnector(rules, connector) && claimed == registry.events.Keys
    modifies registry
    ensures ok <==> connector.events.Keys !! old(registry.events).Keys
    ensures ok ==> registry.events == old(registry.events) + connector.events && owned == registry.events.Keys
  {
    owned := claimed;
    var rest := connector.events.Keys;
    while rest != {}
      invariant rest <= connector.events.Keys
      invariant connector.events.Keys - rest !! claimed
      invariant registry.events == old(registry.events) + (connector.events - rest)
      invariant owned == registry.events.Keys
      decreases rest
    {
      var t :| t in rest;
      if t in owned { return false, owned; }
      var r := registry.Register(rules.isSchema, t, connector.events[t]);
      owned := owned + {t};
      assert connector.events - (rest - {t}) == (connector.events - rest) + map[t := connector.events[t]];
      rest := rest - {t};
    }
    assert connector.events - rest == connector.events;
    ok := true;
  }

  method IndexConnectors(rules: Rules, registry: EventRegistry, connectors: seq<Connector>)
    returns (ok: bool, index: map<string, Connector>)
    requires registry.events == map[]
    modifies registry
    ensures ok <==> UniqueKeys(connectors, ConnectorKey) && (forall c | c in connectors :: ProperConnector(rules, c))
                    && OneOwner(connectors)
    ensures ok ==> index == ById(connectors, ConnectorKey) && registry.events == EventsOf(connectors)
  {
    index := map[];
    var claimed := {};
    var i := 0;
    while i < |connectors|
      invariant i <= |connectors|
      invariant UniqueKeys(connectors[..i], ConnectorKey) && index == ById(connectors[..i], ConnectorKey)
      invariant forall j | 0 <= j < i :: ProperConnector(rules, connectors[j])
      invariant OneOwner(connectors[..i])
      invariant registry.events == EventsOf(connectors[..i]) && claimed == registry.events.Keys
    {
      if !ProperConnector(rules, connectors[i]) { return false, index; }
      if connectors[i].id in index {
        RepeatedKey(connectors, i, ConnectorKey);
        return false, index;
      }
      FreshKey(connectors, i, ConnectorKey);
      OneOwnerNext(connectors, i);
      ok, claimed := ClaimEvents(rules, registry, connectors[i], claimed);
      if !ok {
        SharedEvent(connectors, i);
        return;
      }
      assert connectors[..i + 1][..i] == connectors[..i];
      index := index[connectors[i].id := connectors[i]];
      i := i + 1;
    }
    assert connectors[..i] == connectors;
    ok := true;
  }

  lemma SharedEvent(connectors: seq<Connector>, i: nat)
    requires i < |connectors| && !OneOwner(connectors[..i + 1])
    ensures !OneOwner(connectors)
  {
    var before := connectors[..i + 1];
    var j, k :| 0 <= j < k < |before| && !(before[j].events.Keys !! before[k].events.Keys);
    assert connectors[j] == before[j] && connectors[k] == before[k];
  }

  // --------------------------------------------------------------- schedules

  /** The schedules of some agents can be and have been added to a vocabulary. */
  ghost predicate SchedulesAdded(rules: Rules, before: Registry, agents: map<string, Agent>, events: Registry) {
    && ValidRegistry(rules.isSchema, Scheduled(agents)) && Agree(before, Scheduled(agents))
    && events == before + Scheduled(agents)
  }

  method RegisterSchedule(rules: Rules, registry: EventRegistry, slug: string, ghost before: Registry,
                          ghost agents: map<string, Agent>, ghost done: map<string, Agent>) returns (ok: bool)
    requires slug in agents && slug !in done && agents[slug].schedules != []
    requires SchedulesAdded(rules, before, done, registry.events)
    modifies registry
    ensures ok ==> SchedulesAdded(rules, before, done[slug := agents[slug]], registry.events)
    ensures !ok ==> !(ValidRegistry(rules.isSchema, Scheduled(agents)) && Agree(before, Scheduled(agents)))
  {
    var t, schema := ScheduledType(slug), ScheduledSchema();
    var r := registry.Register(rules.isSchema, t, Some(schema));
    ok := r.Ok?;
    if ok {
      SingleValid(rules.isSchema, t, Some(schema));
      AgreeExtends(rules.isSchema, before, Scheduled(done), map[t := Some(schema)]);
      ScheduledNext(agents, done, slug);
    } else {
      ScheduledBlocks(rules, before, agents, done, slug);
    }
  }

  lemma SingleValid(isSchema: Fields -> bool, t: string, schema: Option<Fields>)
    requires Declarable(isSchema, t, schema)
    ensures ValidRegistry(isSchema, map[t := schema])
  {
  }

  /** Adding two vocabularies one after the other is adding their union. */
  lemma AgreeExtends(isSchema: Fields -> bool, events: Registry, a: Registry, b: Registry)
    requires ValidRegistry(isSchema, a) && Agree(events, a) && ValidRegistry(isSchema, b) && Agree(events + a, b)
    ensures ValidRegistry(isSchema, a + b) && Agree(events, a + b) && (events + a) + b == events + (a + b)
  {
  }

  method RegisterSchedules(rules: Rules, registry: EventRegistry, agents: map<string, Agent>) returns (ok: bool)
    modifies registry
    ensures ok <==> ValidRegistry(rules.isSchema, Scheduled(agents)) && Agree(old(registry.events), Scheduled(agents))
    ensures ok ==> registry.events == old(registry.events) + Scheduled(agents)
  {
    ghost var before := registry.events;
    var rest := agents.Keys;
    while rest != {}
      invariant rest <= agents.Keys
      invariant SchedulesAdded(rules, before, agents - rest, registry.events)
      decreases rest
    {
      var slug :| slug in rest;
      assert agents - (rest - {slug}) == (agents - rest)[slug := agents[slug]];
      if agents[slug].schedules != [] {
        ok := RegisterSchedule(rules, registry, slug, before, agents, agents - rest);
        if !ok { return; }
      } else {
        ScheduledSame(agents, agents - rest, slug);
      }
      rest := rest - {slug};
    }
    assert agents - rest == agents;
    ok := true;
  }

  lemma ScheduledSame(agents: map<string, Agent>, done: map<string, Agent>, slug: string)
    requires slug in agents && slug !in done && agents[slug].schedules == []
    ensures Scheduled(done[slug := agents[slug]]) == Scheduled(done)
  {
    assert ScheduledTypes(done[slug := agents[slug]]) == ScheduledTypes(done);
  }

  lemma ScheduledNext(agents: map<string, Agent>, done: map<string, Agent>, slug: string)
    requires slug in agents && slug !in done && agents[slug].schedules != []
    ensures Scheduled(done[slug := agents[slug]])
            == Scheduled(done) + map[ScheduledType(slug) := Some(ScheduledSchema())]
  {
    var next := done[slug := agents[slug]];
    assert ScheduledTypes(next) == ScheduledTypes(done) + {ScheduledType(slug)} by {
      forall t ensures t in ScheduledTypes(next) <==> t in ScheduledTypes(done) + {ScheduledType(slug)} {
        if t in ScheduledTypes(done) {
          var s :| s in done && done[s].schedules != [] && ScheduledType(s) == t;
          assert s in next && next[s] == done[s];
        }
        if t == ScheduledType(slug) { assert slug in next; }
      }
    }
  }

  lemma ScheduledBlocks(rules: Rules, before: Registry, agents: map<string, Agent>, done: map<string, Agent>,
                        slug: string)
    requires slug in agents && agents[slug].schedules != []
    requires var single: Registry := map[ScheduledType(slug) := Some(ScheduledSchema())];
      !Declarable(rules.isSchema, ScheduledType(slug), Some(ScheduledSchema()))
      || !Agree(before + Scheduled(done), single)
    ensures !(ValidRegistry(rules.isSchema, Scheduled(agents)) && Agree(before, Scheduled(agents)))
  {
    var t := ScheduledType(slug);
    assert t in ScheduledTypes(agents);
    assert t in Scheduled(agents) && Scheduled(agents)[t] == Some(ScheduledSchema());
  }

  // ------------------------------------------------------------------ agents

  method ToolsCheck(agent: Agent, capabilities: Capabilities) returns (ok: bool)
    requires Proper(capabilities)
    ensures ok <==> ToolsKnown(agent, capabilities)
  {
    var i := 0;
    while i < |agent.tools|
      invariant i <= |agent.tools|
      invariant forall j | 0 <= j < i :: agent.tools[j] !in RESERVED && Resolve(capabilities, agent.tools[j]).Ok?
                                         && Usable(agent.slug, Resolve(capabilities, agent.tools[j]).value)
    {
      var name := agent.tools[i];
      assert name in agent.tools;
      if name in RESERVED { return false; }
      var r := SelectedCapability(capabilities, name);
      if r.Err? || !Usable(agent.slug, r.value) { return false; }
      i := i + 1;
    }
    ok := true;
  }

  method ValidateAgent(rules: Rules, agent: Agent, context: Context) returns (ok: bool)
    requires Proper(context.capabilities)
    ensures ok <==> Admissible(rules, agent, context)
  {
    if !rules.prompt(agent) { return false; }
    ok := ToolsCheck(agent, context.capabilities);
    if !ok { return; }
    ok := && (forall name | name in agent.skills :: name in context.names)
          && agent.provider in context.providers
          && KnowsEvents(agent, context.events)
          && rules.bound(agent, context.connectors);
  }

  method NormalizeAgent(rules: Rules, agent: Agent, context: Context) returns (ok: bool, normal: Agent)
    requires Proper(context.capabilities)
    ensures ok <==> Fits(rules, agent, context)
    ensures ok ==> normal == Normalized(agent, context)
  {
    normal := agent;
    if agent.inheritsSkills {
      var names := Canonical.SortKeys(context.names);
      normal := normal.(skills := names, inheritsSkills := false);
    } else if exists name | name in agent.skills :: name !in context.names {
      return false, normal;
    }
    var selected, tools := NormalizeTools(agent, context.capabilities);
    if !selected { return false, normal; }
    normal := normal.(tools := tools, inheritsTools := false);
    ok := ValidateAgent(rules, normal, context);
  }

  method NormalizeAll(rules: Rules, agents: map<string, Agent>, context: Context)
    returns (ok: bool, normal: map<string, Agent>)
    requires Proper(context.capabilities)
    ensures ok <==> forall slug | slug in agents :: Fits(rules, agents[slug], context)
    ensures ok ==> normal == NormalAgents(agents, context)
  {
    normal := map[];
    var rest := agents.Keys;
    while rest != {}
      invariant rest <= agents.Keys
      invariant forall slug | slug in agents && slug !in rest :: Fits(rules, agents[slug], context)
      invariant normal.Keys == agents.Keys - rest
      invariant forall slug | slug in normal :: normal[slug] == Normalized(agents[slug], context)
      decreases rest
    {
      var slug :| slug in rest;
      var agent;
      ok, agent := NormalizeAgent(rules, agents[slug], context);
      if !ok { return; }
      normal := normal[slug := agent];
      rest := rest - {slug};
    }
    ok := true;
  }

  // ----------------------------------------------------------------- project

  method IndexDeclarations(rules: Rules, input: Input)
    returns (ok: bool, agents: map<string, Agent>, resources: map<string, Resource>, skills: map<string, Skill>,
             capabilities: Capabilities, providers: map<string, Provider>)
    ensures ok <==> Declared(rules, input)
    ensures ok ==> agents == ById(input.agents, AgentKey) && resources == ById(input.resources, ResourceKey)
                   && skills == ById(input.skills, SkillKey) && capabilities == ById(input.capabilities, CapabilityKey)
                   && providers == ById(input.providers, ProviderKey)
  {
    resources, skills, capabilities, providers := map[], map[], map[], map[];
    ok, agents := Index(input.agents, AgentKey, a => Authored(rules, a));
    if !ok { return; }
    ok, resources := Index(input.resources, ResourceKey, rules.resource);
    if !ok { return; }
    var taken := resources;
    ok, skills := Index(input.skills, SkillKey, (x: Skill) => rules.skill(x) && x.name !in taken);
    if !ok { return; }
    var known := agents;
    ok, capabilities := Index(input.capabilities, CapabilityKey, c => ProperCapability(rules, c, known));
    if !ok { return; }
    ok, providers := Index(input.providers, ProviderKey, rules.provider);
    if !ok { return; }
    ok := input.model.Some? ==> rules.model(input.model.value);
  }

  method MergeEvents(rules: Rules, input: Input, agents: map<string, Agent>)
    returns (ok: bool, events: Registry, connectors: map<string, Connector>)
    requires agents == ById(input.agents, AgentKey)
    ensures ok <==> Mergeable(rules, input)
    ensures ok ==> events == ContextOf(input).events && connectors == ById(input.connectors, ConnectorKey)
  {
    var registry := new EventRegistry();
    ok, connectors := IndexConnectors(rules, registry, input.connectors);
    events := registry.events;
    if !ok { return; }
    var r := registry.RegisterAll(rules.isSchema, input.events);
    if r.Err? { return false, events, connectors; }
    ok := RegisterSchedules(rules, registry, agents);
    events := registry.events;
  }

  method CompileProject(rules: Rules, input: Input) returns (r: Option<Project>)
    ensures r.Some? <==> Compilable(rules, input)
    ensures r.Some? ==> r.value == Compiled(input)
  {
    var declared, agents, resources, skills, capabilities, providers := IndexDeclarations(rules, input);
    if !declared { return None; }
    var merged, events, connectors := MergeEvents(rules, input, agents);
    if !merged { return None; }
    var context := Context(events, resources.Keys + skills.Keys, capabilities, connectors, providers);
    ByIdIndexes(input.capabilities, CapabilityKey);
    ByIdIndexes(input.agents, AgentKey);
    var ok, normal := NormalizeAll(rules, agents, context);
    if !ok { return None; }
    return Some(Project(normal, events, resources, skills, connectors, capabilities, providers, input.model,
                        input.runtime));
  }
}
