/** Project and execution manifests: compilation is canonical, restoring is its fixpoint, projections verify. */
module Manifests {
  import opened Text
  import opened Keyed
  import opened Registries
  import opened Projects
  import opened Compilation

  // --------------------------------------------------------- order of inputs

  /** The same declarations, each kind in any order. */
  ghost predicate Permuted(a: Input, b: Input) {
    && multiset(a.agents) == multiset(b.agents) && multiset(a.resources) == multiset(b.resources)
    && multiset(a.skills) == multiset(b.skills) && multiset(a.connectors) == multiset(b.connectors)
    && multiset(a.capabilities) == multiset(b.capabilities) && multiset(a.providers) == multiset(b.providers)
    && a.events == b.events && a.model == b.model && a.runtime == b.runtime
  }

  lemma {:induction false} EventValue(connectors: seq<Connector>, i: nat, t: string)
    requires OneOwner(connectors) && i < |connectors| && t in connectors[i].events
    ensures t in EventsOf(connectors) && EventsOf(connectors)[t] == connectors[i].events[t]
  {
    var n := |connectors| - 1;
    if i < n {
      assert connectors[..n][i] == connectors[i];
      EventValue(connectors[..n], i, t);
      assert connectors[i].events.Keys !! connectors[n].events.Keys;
    }
  }

  lemma OneOwnerPermuted(a: seq<Connector>, b: seq<Connector>)
    requires UniqueKeys(a, ConnectorKey) && OneOwner(a) && multiset(a) == multiset(b)
    ensures OneOwner(b)
  {
    PermutedIndex(a, b, ConnectorKey);
    forall i, j | 0 <= i < j < |b| ensures b[i].events.Keys !! b[j].events.Keys {
      assert b[i] in a && b[j] in a;
      var k :| 0 <= k < |a| && a[k] == b[i];
      var l :| 0 <= l < |a| && a[l] == b[j];
      assert ConnectorKey(b[i]) != ConnectorKey(b[j]);
      assert if k < l then a[k].events.Keys !! a[l].events.Keys else a[l].events.Keys !! a[k].events.Keys;
    }
  }

  lemma EventsOfPermuted(a: seq<Connector>, b: seq<Connector>)
    requires OneOwner(a) && OneOwner(b) && forall c :: c in a <==> c in b
    ensures EventsOf(a) == EventsOf(b)
  {
    EventsIncluded(a, b);
    EventsIncluded(b, a);
  }

  lemma EventsIncluded(a: seq<Connector>, b: seq<Connector>)
    requires OneOwner(a) && OneOwner(b) && forall c | c in a :: c in b
    ensures forall t | t in EventsOf(a) :: t in EventsOf(b) && EventsOf(b)[t] == EventsOf(a)[t]
  {
    forall t | t in EventsOf(a) ensures t in EventsOf(b) && EventsOf(b)[t] == EventsOf(a)[t] {
      EventsOfMembers(a, t);
      var i :| 0 <= i < |a| && t in a[i].events;
      assert a[i] in b;
      var j :| 0 <= j < |b| && b[j] == a[i];
      EventValue(a, i, t);
      EventValue(b, j, t);
    }
  }

  lemma ContextPermuted(a: Input, b: Input)
    requires Permuted(a, b) && OneOwner(a.connectors)
    requires UniqueKeys(a.agents, AgentKey) && UniqueKeys(a.resources, ResourceKey) && UniqueKeys(a.skills, SkillKey)
    requires UniqueKeys(a.connectors, ConnectorKey) && UniqueKeys(a.capabilities, CapabilityKey)
    requires UniqueKeys(a.providers, ProviderKey)
    ensures ContextOf(a) == ContextOf(b) && OneOwner(b.connectors) && EventsOf(a.connectors) == EventsOf(b.connectors)
  {
    PermutedIndex(a.agents, b.agents, AgentKey);
    PermutedIndex(a.resources, b.resources, ResourceKey);
    PermutedIndex(a.skills, b.skills, SkillKey);
    PermutedIndex(a.connectors, b.connectors, ConnectorKey);
    PermutedIndex(a.capabilities, b.capabilities, CapabilityKey);
    PermutedIndex(a.providers, b.providers, ProviderKey);
    OneOwnerPermuted(a.connectors, b.connectors);
    EventsOfPermuted(a.connectors, b.connectors);
  }

  lemma DeclaredPermuted(rules: Rules, a: Input, b: Input)
    requires Permuted(a, b) && Declared(rules, a)
    ensures Declared(rules, b)
  {
    PermutedIndex(a.agents, b.agents, AgentKey);
    PermutedIndex(a.resources, b.resources, ResourceKey);
    PermutedIndex(a.skills, b.skills, SkillKey);
    PermutedIndex(a.capabilities, b.capabilities, CapabilityKey);
    PermutedIndex(a.providers, b.providers, ProviderKey);
  }

  lemma CompilesPermuted(rules: Rules, a: Input, b: Input)
    requires Permuted(a, b) && Compilable(rules, a)
    ensures Compilable(rules, b) && Compiled(a) == Compiled(b)
  {
    ContextPermuted(a, b);
    DeclaredPermuted(rules, a, b);
    PermutedIndex(a.agents, b.agents, AgentKey);
    PermutedIndex(a.resources, b.resources, ResourceKey);
    PermutedIndex(a.skills, b.skills, SkillKey);
    PermutedIndex(a.connectors, b.connectors, ConnectorKey);
  }

  /** Whether declarations compile, and to what, does not depend on the order they are supplied in. */
  lemma OrderIrrelevant(rules: Rules, a: Input, b: Input)
    requires Permuted(a, b)
    ensures Compilable(rules, a) <==> Compilable(rules, b)
    ensures Compilable(rules, a) ==> Compiled(a) == Compiled(b)
  {
    if Compilable(rules, a) { CompilesPermuted(rules, a, b); }
    if Compilable(rules, b) { CompilesPermuted(rules, b, a); }
  }

  // ------------------------------------------------------- restore, recompile

  /** Every stored agent still carries a source with its address that parses. */
  predicate Reparses(rules: Rules, agents: map<string, Agent>) {
    forall slug | slug in agents ::
      && rules.hash(agents[slug].source) == agents[slug].address
      && rules.parse(agents[slug].slug, agents[slug].source).Some?
  }

  ghost function Reparsed(rules: Rules, agents: map<string, Agent>): map<string, Agent>
    requires Reparses(rules, agents)
  {
    map slug | slug in agents :: rules.parse(agents[slug].slug, agents[slug].source).value
  }

  /** The compiler input a stored project is restored to: sources are parsed again, everything else is listed. */
  ghost function Restored(rules: Rules, project: Project): Input
    requires Reparses(rules, project.agents)
  {
    Input(Values(Reparsed(rules, project.agents)), project.events, Values(project.resources), Values(project.skills),
          Values(project.connectors), Values(project.capabilities), Values(project.providers), project.model,
          project.runtime)
  }

  lemma EventsStable(isSchema: Fields -> bool, connectors: Registry, local: Registry, scheduled: Registry)
    requires ValidRegistry(isSchema, connectors) && ValidRegistry(isSchema, local) && ValidRegistry(isSchema, scheduled)
    requires Agree(connectors, local) && Agree(connectors + local, scheduled)
    ensures var all := connectors + local + scheduled;
      && ValidRegistry(isSchema, all) && Agree(connectors, all) && Agree(connectors + all, scheduled)
      && connectors + all + scheduled == all
  {
  }

  lemma {:induction false} ConnectorEventsValid(rules: Rules, connectors: seq<Connector>)
    requires forall c | c in connectors :: ProperConnector(rules, c)
    ensures ValidRegistry(rules.isSchema, EventsOf(connectors))
  {
    if connectors != [] {
      var n := |connectors| - 1;
      ConnectorEventsValid(rules, connectors[..n]);
      assert connectors[n] in connectors;
      UnionValid(rules.isSchema, EventsOf(connectors[..n]), connectors[n].events);
    }
  }

  lemma UnionValid(isSchema: Fields -> bool, a: Registry, b: Registry)
    requires ValidRegistry(isSchema, a) && ValidRegistry(isSchema, b)
    ensures ValidRegistry(isSchema, a + b)
  {
  }

  /** Feeding the merged vocabulary back in as the project's own changes nothing. */
  lemma EventsFixpoint(rules: Rules, input: Input)
    requires Compilable(rules, input)
    ensures var again := input.(events := Compiled(input).events);
      Compilable(rules, again) && Compiled(again) == Compiled(input)
  {
    var again := input.(events := Compiled(input).events);
    ConnectorEventsValid(rules, input.connectors);
    EventsStable(rules.isSchema, EventsOf(input.connectors), input.events, Scheduled(ById(input.agents, AgentKey)));
    assert ContextOf(again) == ContextOf(input);
    assert Declared(rules, again);
    assert Mergeable(rules, again);
  }

  /** Normalizing an agent keeps the source it can be restored from. */
  lemma NormalizedReparses(rules: Rules, agent: Agent, context: Context)
    requires Authored(rules, agent)
    ensures var stored := Normalized(agent, context);
      rules.hash(stored.source) == stored.address && rules.parse(stored.slug, stored.source) == Some(agent)
  {
  }

  lemma ReparsedOriginals(rules: Rules, input: Input)
    requires Compilable(rules, input)
    ensures Reparses(rules, Compiled(input).agents)
    ensures Reparsed(rules, Compiled(input).agents) == ById(input.agents, AgentKey)
  {
    var index := ById(input.agents, AgentKey);
    var stored := Compiled(input).agents;
    ByIdIndexes(input.agents, AgentKey);
    forall slug | slug in stored
      ensures rules.hash(stored[slug].source) == stored[slug].address
      ensures rules.parse(stored[slug].slug, stored[slug].source) == Some(index[slug])
    {
      NormalizedReparses(rules, index[slug], ContextOf(input));
    }
  }

  /** Restoring a compiled project and compiling it again gives the same project. */
  lemma RecompileFixpoint(rules: Rules, input: Input)
    requires Compilable(rules, input)
    ensures var project := Compiled(input);
      && Reparses(rules, project.agents)
      && Compilable(rules, Restored(rules, project))
      && Compiled(Restored(rules, project)) == project
  {
    EventsFixpoint(rules, input);
    ReparsedOriginals(rules, input);
    ValuesPermute(input.agents, AgentKey);
    ValuesPermute(input.resources, ResourceKey);
    ValuesPermute(input.skills, SkillKey);
    ValuesPermute(input.connectors, ConnectorKey);
    ValuesPermute(input.capabilities, CapabilityKey);
    ValuesPermute(input.providers, ProviderKey);
    var again := input.(events := Compiled(input).events);
    assert Permuted(again, Restored(rules, Compiled(input)));
    CompilesPermuted(rules, again, Restored(rules, Compiled(input)));
  }
}
