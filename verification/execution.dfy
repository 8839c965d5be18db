/** Content-addressed manifests of projects and of the part of a project one agent needs. */
module Execution {
  import opened Text
  import opened Json
  import opened Hashing
  import opened Keyed
  import opened Registries
  import opened Projects
  import opened Compilation
  import opened Manifests
  import opened Canonical

  const PROJECT_SCHEMA := "zeta.project"
  const EXECUTION_SCHEMA := "zeta.execution"
  const VERSION: nat := 1

  datatype Body = Body(schema: string, version: nat, project: Project)

  datatype ProjectManifest = ProjectManifest(id: Hash, body: Body)

  datatype ExecutionBody = ExecutionBody(
    schema: string, version: nat, revision: Hash, agent: Agent, events: Registry, resources: map<string, Resource>,
    skills: map<string, Skill>, capabilities: Capabilities, connectors: map<string, Connector>, provider: Provider,
    model: Option<Value>, runtime: string)

  datatype ExecutionManifest = ExecutionManifest(id: Hash, body: ExecutionBody)

  /** How bodies are serialized, when they can be, and hashed; nothing is assumed of either. */
  datatype Digests = Digests(hasher: Hasher, projectValue: Body -> Option<Value>,
                             executionValue: ExecutionBody -> Option<Value>)

  /** The address of a value's canonical JSON, when it has one. */
  ghost function Address(hasher: Hasher, value: Option<Value>): Option<Hash> {
    if value.Some? && Encodable(value.value) then Some(hasher.content(Encode(value.value))) else None
  }

  ghost function ProjectId(digests: Digests, body: Body): Option<Hash> {
    Address(digests.hasher, digests.projectValue(body))
  }

  ghost function ExecutionId(digests: Digests, body: ExecutionBody): Option<Hash> {
    Address(digests.hasher, digests.executionValue(body))
  }

  method ManifestHash(hasher: Hasher, value: Option<Value>) returns (id: Option<Hash>)
    ensures id == Address(hasher, value)
  {
    if value.None? { return None; }
    var bytes := CanonicalJson(value.value);
    if bytes.Err? { return None; }
    return Some(hasher.content(bytes.value));
  }

  ghost function ManifestOf(digests: Digests, project: Project): Option<ProjectManifest> {
    var body := Body(PROJECT_SCHEMA, VERSION, project);
    match ProjectId(digests, body)
    case Some(id) => Some(ProjectManifest(id, body))
    case None => None
  }

  method BuildManifest(digests: Digests, project: Project) returns (r: Option<ProjectManifest>)
    ensures r == ManifestOf(digests, project)
  {
    var body := Body(PROJECT_SCHEMA, VERSION, project);
    var id := ManifestHash(digests.hasher, digests.projectValue(body));
    r := if id.Some? then Some(ProjectManifest(id.value, body)) else None;
  }

  // ------------------------------------------------------------------ restore

  ghost function Restore(rules: Rules, digests: Digests, manifest: ProjectManifest): Option<Project> {
    var stored := manifest.body.project;
    if manifest.body.schema == PROJECT_SCHEMA && manifest.body.version == VERSION && Reparses(rules, stored.agents)
       && Compilable(rules, Restored(rules, stored))
       && ManifestOf(digests, Compiled(Restored(rules, stored))) == Some(manifest)
    then Some(Compiled(Restored(rules, stored)))
    else None
  }

  method ListValues<T>(index: map<string, T>) returns (values: seq<T>)
    ensures values == Values(index)
  {
    var keys := SortKeys(index.Keys);
    values := [];
    var i := 0;
    assert Elements(keys) == index.Keys;
    while i < |keys|
      invariant i <= |keys| && |values| == i
      invariant forall j | 0 <= j < i :: keys[j] in index && values[j] == index[keys[j]]
    {
      assert keys[i] in Elements(keys);
      values := values + [index[keys[i]]];
      i := i + 1;
    }
  }

  method ReparseAgents(rules: Rules, agents: map<string, Agent>) returns (ok: bool, parsed: seq<Agent>)
    ensures ok <==> Reparses(rules, agents)
    ensures ok ==> parsed == Values(Reparsed(rules, agents))
  {
    var keys := SortKeys(agents.Keys);
    parsed := [];
    var i := 0;
    assert forall k :: k in keys <==> k in Elements(keys);
    while i < |keys|
      invariant i <= |keys| && |parsed| == i
      invariant forall j | 0 <= j < i :: rules.hash(agents[keys[j]].source) == agents[keys[j]].address
                                         && rules.parse(agents[keys[j]].slug, agents[keys[j]].source) == Some(parsed[j])
    {
      var spec := agents[keys[i]];
      if rules.hash(spec.source) != spec.address { return false, []; }
      var agent := rules.parse(spec.slug, spec.source);
      if agent.None? { return false, []; }
      parsed := parsed + [agent.value];
      i := i + 1;
    }
    forall slug | slug in agents
      ensures rules.hash(agents[slug].source) == agents[slug].address
      ensures rules.parse(agents[slug].slug, agents[slug].source).Some?
    {
      var j :| 0 <= j < |keys| && keys[j] == slug;
    }
    assert Reparsed(rules, agents).Keys == agents.Keys;
    return true, parsed;
  }

  method CompileManifest(rules: Rules, digests: Digests, manifest: ProjectManifest) returns (r: Option<Project>)
    ensures r == Restore(rules, digests, manifest)
  {
    if manifest.body.schema != PROJECT_SCHEMA || manifest.body.version != VERSION { return None; }
    var stored := manifest.body.project;
    var ok, agents := ReparseAgents(rules, stored.agents);
    if !ok { return None; }
    var resources := ListValues(stored.resources);
    var skills := ListValues(stored.skills);
    var connectors := ListValues(stored.connectors);
    var capabilities := ListValues(stored.capabilities);
    var providers := ListValues(stored.providers);
    var input := Input(agents, stored.events, resources, skills, connectors, capabilities, providers, stored.model,
                       stored.runtime);
    var project := CompileProject(rules, input);
    if project.None? { return None; }
    var rebuilt := BuildManifest(digests, project.value);
    if rebuilt.None? || rebuilt.value.body != manifest.body || rebuilt.value.id != manifest.id { return None; }
    return project;
  }

  /** A manifest is accepted exactly when it is the manifest of something that compiles, and then that project comes
    * back. */
  lemma RestoresExactly(rules: Rules, digests: Digests, manifest: ProjectManifest)
    ensures Restore(rules, digests, manifest).Some? <==>
            exists input :: Compilable(rules, input) && ManifestOf(digests, Compiled(input)) == Some(manifest)
    ensures forall input | Compilable(rules, input) && ManifestOf(digests, Compiled(input)) == Some(manifest) ::
              Restore(rules, digests, manifest) == Some(Compiled(input))
  {
    forall input | Compilable(rules, input) && ManifestOf(digests, Compiled(input)) == Some(manifest)
      ensures Restore(rules, digests, manifest) == Some(Compiled(input))
    {
      RecompileFixpoint(rules, input);
    }
    if Restore(rules, digests, manifest).Some? {
      var input := Restored(rules, manifest.body.project);
      assert Compilable(rules, input) && ManifestOf(digests, Compiled(input)) == Some(manifest);
    }
  }

  lemma RestoresOwn(rules: Rules, digests: Digests, input: Input, manifest: ProjectManifest)
    requires Compilable(rules, input) && ManifestOf(digests, Compiled(input)) == Some(manifest)
    ensures Restore(rules, digests, manifest) == Some(Compiled(input))
  {
    RestoresExactly(rules, digests, manifest);
  }

  // --------------------------------------------------------------- projection

  /** The declarations one agent refers to. */
  function Projection(project: Project, revision: Hash, slug: string): ExecutionBody
    requires slug in project.agents && project.agents[slug].provider in project.providers
  {
    var agent := project.agents[slug];
    ExecutionBody(
      EXECUTION_SCHEMA, VERSION, revision, agent,
      map t | t in References(agent) && t in project.events :: project.events[t],
      map name | name in agent.skills && name in project.resources :: project.resources[name],
      map name | name in agent.skills && name !in project.resources && name in project.skills :: project.skills[name],
      map id | id in agent.tools && id in project.capabilities :: project.capabilities[id],
      map id | id in project.connectors && Relevant(agent, project.connectors[id]) :: project.connectors[id],
      project.providers[agent.provider], project.model, project.runtime)
  }

  predicate Relevant(agent: Agent, connector: Connector) {
    exists t | t in References(agent) :: t in connector.events
  }

  /** Every reference of a stored agent leads somewhere in its project. */
  predicate Resolved(rules: Rules, project: Project, slug: string) {
    && slug in project.agents
    && var agent := project.agents[slug];
    && (forall t | t in References(agent) :: t in project.events && Declarable(rules.isSchema, t, project.events[t]))
    && (forall name | name in agent.skills :: name in project.resources || name in project.skills)
    && (forall id | id in agent.tools :: id in project.capabilities)
    && agent.provider in project.providers
  }

  predicate Names(agent: Agent, t: string) {
    t in agent.accepts || t in agent.publishes || t in agent.answers
  }

  /** An execution carries its agent and exactly what the agent refers to, as the project declares it. */
  lemma ProjectionExactly(rules: Rules, project: Project, revision: Hash, slug: string)
    requires Resolved(rules, project, slug)
    ensures var agent, body := project.agents[slug], Projection(project, revision, slug);
      && body.agent == agent && body.revision == revision
      && body.provider == project.providers[agent.provider] && body.model == project.model
      && body.runtime == project.runtime
      && (forall t :: t in body.events <==> Names(agent, t))
      && (forall t | t in body.events :: t in project.events && body.events[t] == project.events[t])
      && (forall name :: name in agent.skills <==> name in body.resources || name in body.skills)
      && body.resources.Keys !! body.skills.Keys
      && (forall name | name in body.resources ::
            name in project.resources && body.resources[name] == project.resources[name])
      && (forall name | name in body.skills :: name in project.skills && body.skills[name] == project.skills[name])
      && (forall id :: id in body.capabilities <==> id in agent.tools)
      && (forall id | id in body.capabilities :: body.capabilities[id] == project.capabilities[id])
      && (forall id :: id in body.connectors <==>
            id in project.connectors && exists t :: Names(agent, t) && t in project.connectors[id].events)
      && (forall id | id in body.connectors :: body.connectors[id] == project.connectors[id])
  {
    var agent := project.agents[slug];
    forall t ensures t in References(agent) <==> Names(agent, t) {}
    forall id | id in project.connectors
      ensures Relevant(agent, project.connectors[id])
              <==> exists t :: Names(agent, t) && t in project.connectors[id].events
    {
      if Relevant(agent, project.connectors[id]) {
        var t :| t in References(agent) && t in project.connectors[id].events;
        assert Names(agent, t);
      }
      if t :| Names(agent, t) && t in project.connectors[id].events {
        assert t in References(agent);
      }
    }
  }

  ghost function ExecutionOf(rules: Rules, digests: Digests, project: Project, revision: Hash,
                             slug: string): Option<ExecutionManifest> {
    var current := ManifestOf(digests, project);
    if current.None? || current.value.id != revision || !Resolved(rules, project, slug) then None
    else
      var body := Projection(project, revision, slug);
      match ExecutionId(digests, body)
      case Some(id) => Some(ExecutionManifest(id, body))
      case None => None
  }

  ghost predicate Verifies(rules: Rules, digests: Digests, manifest: ExecutionManifest, owner: ProjectManifest) {
    && Restore(rules, digests, owner).Some?
    && manifest.body.schema == EXECUTION_SCHEMA && manifest.body.version == VERSION
    && ExecutionId(digests, manifest.body) == Some(manifest.id)
    && manifest.body.revision == owner.id
    && ExecutionOf(rules, digests, Restore(rules, digests, owner).value, owner.id, manifest.body.agent.slug)
            == Some(manifest)
  }

  lemma CompiledContext(rules: Rules, input: Input)
    requires Compilable(rules, input)
    ensures Proper(ContextOf(input).capabilities) && forall id | id in ContextOf(input).capabilities :: id !in RESERVED
    ensures ValidRegistry(rules.isSchema, ContextOf(input).events)
  {
    ByIdIndexes(input.capabilities, CapabilityKey);
    ConnectorEventsValid(rules, input.connectors);
    EventsStable(rules.isSchema, EventsOf(input.connectors), input.events, Scheduled(ById(input.agents, AgentKey)));
  }

  lemma AdmissibleResolved(rules: Rules, project: Project, context: Context, slug: string)
    requires slug in project.agents && Admissible(rules, project.agents[slug], context)
    requires forall id | id in project.agents[slug].tools :: id in context.capabilities
    requires ValidRegistry(rules.isSchema, context.events)
    requires project.events == context.events && project.resources.Keys + project.skills.Keys == context.names
    requires project.capabilities == context.capabilities && project.providers == context.providers
    ensures Resolved(rules, project, slug)
  {
    var agent := project.agents[slug];
    forall name | name in agent.skills ensures name in project.resources || name in project.skills {
      assert name in context.names;
    }
  }

  /** Every reference of a compiled agent leads somewhere in its project. */
  lemma CompiledResolves(rules: Rules, input: Input, slug: string)
    requires Compilable(rules, input) && slug in Compiled(input).agents
    ensures Resolved(rules, Compiled(input), slug) && Compiled(input).agents[slug].slug == slug
  {
    var agent, context := ById(input.agents, AgentKey)[slug], ContextOf(input);
    ByIdIndexes(input.agents, AgentKey);
    CompiledContext(rules, input);
    assert agent in input.agents && agent.slug == slug;
    NormalizedResolves(rules, agent, context);
    AdmissibleResolved(rules, Compiled(input), context, slug);
  }

  lemma ExecutionExists(rules: Rules, digests: Digests, project: Project, owner: ProjectManifest, slug: string)
    requires ManifestOf(digests, project) == Some(owner) && Resolved(rules, project, slug)
    ensures ExecutionOf(rules, digests, project, owner.id, slug).Some? <==>
            ExecutionId(digests, Projection(project, owner.id, slug)).Some?
  {
  }

  lemma OwnVerifies(rules: Rules, digests: Digests, project: Project, owner: ProjectManifest, slug: string)
    requires Restore(rules, digests, owner) == Some(project) && ManifestOf(digests, project) == Some(owner)
    requires Resolved(rules, project, slug) && project.agents[slug].slug == slug
    ensures var execution := ExecutionOf(rules, digests, project, owner.id, slug);
      execution.Some? ==> Verifies(rules, digests, execution.value, owner)
  {
  }

  /** Every agent of a compiled project has an execution manifest, up to its canonical encoding, and it verifies against
    * the project's. */
  lemma ExecutionVerifies(rules: Rules, digests: Digests, input: Input, owner: ProjectManifest, slug: string)
    requires Compilable(rules, input) && ManifestOf(digests, Compiled(input)) == Some(owner)
    requires slug in Compiled(input).agents
    ensures Resolved(rules, Compiled(input), slug)
    ensures var execution := ExecutionOf(rules, digests, Compiled(input), owner.id, slug);
      && (execution.Some? <==> ExecutionId(digests, Projection(Compiled(input), owner.id, slug)).Some?)
      && (execution.Some? ==> Verifies(rules, digests, execution.value, owner))
  {
    var project := Compiled(input);
    CompiledResolves(rules, input, slug);
    RestoresOwn(rules, digests, input, owner);
    ExecutionExists(rules, digests, project, owner, slug);
    OwnVerifies(rules, digests, project, owner, slug);
  }

  // ----------------------------------------------------------------- identity

  /** Two serialized bodies that share an address are one value up to the spelling of floats, or a collision is at
    * hand. */
  lemma SameAddressBodies(hasher: Hasher, v: Value, w: Value)
    requires Encodable(v) && Encodable(w) && Address(hasher, Some(v)) == Address(hasher, Some(w))
    ensures Plain(v) == Plain(w) || IsCollision(hasher, ContentCollision(Encode(v), Encode(w)))
  {
    EncodeInjective(v, w);
  }

  /** Two accepted project manifests with one id have one body, up to the spelling of floats, or expose a collision. */
  lemma ProjectIdentity(rules: Rules, digests: Digests, a: ProjectManifest, b: ProjectManifest)
    requires Restore(rules, digests, a).Some? && Restore(rules, digests, b).Some? && a.id == b.id
    ensures var v, w := digests.projectValue(a.body), digests.projectValue(b.body);
      && v.Some? && w.Some?
      && (Plain(v.value) == Plain(w.value)
          || IsCollision(digests.hasher, ContentCollision(Encode(v.value), Encode(w.value))))
  {
    SameAddressBodies(digests.hasher, digests.projectValue(a.body).value, digests.projectValue(b.body).value);
  }

  /** One execution manifest verifies against one project, up to the spelling of floats, or a collision is exposed. */
  lemma ExecutionIdentity(rules: Rules, digests: Digests, manifest: ExecutionManifest, a: ProjectManifest,
                          b: ProjectManifest)
    requires Verifies(rules, digests, manifest, a) && Verifies(rules, digests, manifest, b)
    ensures a.id == b.id
    ensures var v, w := digests.projectValue(a.body), digests.projectValue(b.body);
      && v.Some? && w.Some?
      && (Plain(v.value) == Plain(w.value)
          || IsCollision(digests.hasher, ContentCollision(Encode(v.value), Encode(w.value))))
  {
    ProjectIdentity(rules, digests, a, b);
  }

  // ---------------------------------------------------------------- projector

  method ProjectEvents(rules: Rules, project: Project, agent: Agent) returns (ok: bool, events: Registry)
    ensures ok <==> forall t | t in References(agent) ::
                      t in project.events && Declarable(rules.isSchema, t, project.events[t])
    ensures ok ==> events == map t | t in References(agent) && t in project.events :: project.events[t]
  {
    var registry := new EventRegistry();
    events := map[];
    var types := Elements(References(agent));
    var rest := types;
    while rest != {}
      invariant rest <= types
      invariant forall t | t in types && t !in rest ::
                  t in project.events && Declarable(rules.isSchema, t, project.events[t])
      invariant registry.events.Keys == types - rest
      invariant forall t | t in registry.events :: t in project.events && registry.events[t] == project.events[t]
      decreases rest
    {
      var t :| t in rest;
      assert t in References(agent);
      if t !in project.events { return false, events; }
      var r := registry.Register(rules.isSchema, t, project.events[t]);
      if r.Err? { return false, events; }
      rest := rest - {t};
    }
    assert forall t | t in References(agent) :: t in types;
    ok, events := true, registry.events;
  }

  method ProjectSkills(project: Project, agent: Agent)
    returns (ok: bool, resources: map<string, Resource>, skills: map<string, Skill>)
    ensures ok <==> forall name | name in agent.skills :: name in project.resources || name in project.skills
    ensures ok ==> resources == map name | name in agent.skills && name in project.resources :: project.resources[name]
    ensures ok ==>
              skills == map name | name in agent.skills && name !in project.resources && name in project.skills ::
                  project.skills[name]
  {
    resources, skills := map[], map[];
    var i := 0;
    while i < |agent.skills|
      invariant i <= |agent.skills|
      invariant forall j | 0 <= j < i :: agent.skills[j] in project.resources || agent.skills[j] in project.skills
      invariant resources == map name | name in agent.skills[..i] && name in project.resources ::
          project.resources[name]
      invariant skills ==
                map name | name in agent.skills[..i] && name !in project.resources && name in project.skills ::
                  project.skills[name]
    {
      var name := agent.skills[i];
      assert agent.skills[..i + 1] == agent.skills[..i] + [name];
      if name in project.resources {
        resources := resources[name := project.resources[name]];
      } else if name in project.skills {
        skills := skills[name := project.skills[name]];
      } else {
        return false, resources, skills;
      }
      i := i + 1;
    }
    assert agent.skills[..i] == agent.skills;
    ok := true;
  }

  method ProjectTools(project: Project, agent: Agent) returns (ok: bool, capabilities: Capabilities)
    ensures ok <==> forall id | id in agent.tools :: id in project.capabilities
    ensures ok ==> capabilities == map id | id in agent.tools && id in project.capabilities :: project.capabilities[id]
  {
    capabilities := map[];
    var i := 0;
    while i < |agent.tools|
      invariant i <= |agent.tools|
      invariant forall j | 0 <= j < i :: agent.tools[j] in project.capabilities
      invariant capabilities == map id | id in agent.tools[..i] && id in project.capabilities ::
          project.capabilities[id]
    {
      var id := agent.tools[i];
      if id !in project.capabilities { return false, capabilities; }
      assert agent.tools[..i + 1] == agent.tools[..i] + [id];
      capabilities := capabilities[id := project.capabilities[id]];
      i := i + 1;
    }
    assert agent.tools[..i] == agent.tools;
    ok := true;
  }

  method ProjectConnectors(project: Project, agent: Agent) returns (connectors: map<string, Connector>)
    ensures connectors == map id | id in project.connectors && Relevant(agent, project.connectors[id]) ::
        project.connectors[id]
  {
    connectors := map[];
    var rest := project.connectors.Keys;
    while rest != {}
      invariant rest <= project.connectors.Keys
      invariant connectors ==
                map id | id in project.connectors && id !in rest && Relevant(agent, project.connectors[id]) ::
                  project.connectors[id]
      decreases rest
    {
      var id :| id in rest;
      if Relevant(agent, project.connectors[id]) { connectors := connectors[id := project.connectors[id]]; }
      rest := rest - {id};
    }
  }

  method BuildExecution(rules: Rules, digests: Digests, project: Project, revision: Hash, slug: string)
    returns (r: Option<ExecutionManifest>)
    ensures r == ExecutionOf(rules, digests, project, revision, slug)
  {
    var current := BuildManifest(digests, project);
    if current.None? || current.value.id != revision { return None; }
    if slug !in project.agents { return None; }
    var agent := project.agents[slug];
    var ok, events := ProjectEvents(rules, project, agent);
    if !ok { return None; }
    var resources, skills;
    ok, resources, skills := ProjectSkills(project, agent);
    if !ok { return None; }
    var capabilities;
    ok, capabilities := ProjectTools(project, agent);
    if !ok { return None; }
    var connectors := ProjectConnectors(project, agent);
    if agent.provider !in project.providers { return None; }
    var body := ExecutionBody(EXECUTION_SCHEMA, VERSION, revision, agent, events, resources, skills, capabilities,
                              connectors, project.providers[agent.provider], project.model, project.runtime);
    var id := ManifestHash(digests.hasher, digests.executionValue(body));
    if id.None? { return None; }
    return Some(ExecutionManifest(id.value, body));
  }
}
