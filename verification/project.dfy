/** Project compilation: declarations in, one normalized project out. */
module Projects {
  import opened Text
  import opened Json
  import opened Hashing
  import opened Keyed
  import opened Registries
  import Canonical

  // ------------------------------------------------------------ declarations

  /** `rest` stands for the fields that only single-declaration validators read. */
  datatype Agent = Agent(
    slug: string, source: string, address: Hash, provider: string,
    accepts: seq<string>, publishes: seq<string>, answers: seq<string>,
    skills: seq<string>, inheritsSkills: bool, tools: seq<string>, inheritsTools: bool,
    schedules: seq<Value>, rest: Value)

  datatype Resource = Resource(name: string, rest: Value)

  datatype Skill = Skill(name: string, rest: Value)

  datatype Connector = Connector(id: string, events: Registry, rest: Value)

  datatype Capability = Capability(id: string, name: string, owner: Option<string>, rest: Value)

  datatype Provider = Provider(id: string, rest: Value)

  datatype Input = Input(
    agents: seq<Agent>, events: Registry, resources: seq<Resource>, skills: seq<Skill>, connectors: seq<Connector>,
    capabilities: seq<Capability>, providers: seq<Provider>, model: Option<Value>, runtime: string)

  datatype Project = Project(
    agents: map<string, Agent>, events: Registry, resources: map<string, Resource>, skills: map<string, Skill>,
    connectors: map<string, Connector>, capabilities: map<string, Capability>, providers: map<string, Provider>,
    model: Option<Value>, runtime: string)

  /** The libraries and single-declaration validators compilation relies on; nothing is assumed about them. */
  datatype Rules = Rules(
    hash: string -> Hash, parse: (string, string) -> Option<Agent>, isSchema: Fields -> bool,
    agent: Agent -> bool, prompt: Agent -> bool, bound: (Agent, map<string, Connector>) -> bool,
    resource: Resource -> bool, skill: Skill -> bool, connector: Connector -> bool, capability: Capability -> bool,
    provider: Provider -> bool, model: Value -> bool)

  /** How a tool name can fail to select a capability. */
  datatype SelectionFault = ConflictingDeclaration | UnknownTool

  const RESERVED: set<string> :=
    {"publish_event", "zeta.publish_event", "wait_for", "zeta.wait_for", "cancel", "zeta.cancel"}

  type Capabilities = map<string, Capability>

  predicate Proper(capabilities: Capabilities) {
    forall id | id in capabilities :: capabilities[id].id == id
  }

  // ------------------------------------------------------------------- tools

  /** The capabilities a tool alias could mean. */
  function Aliased(capabilities: Capabilities, name: string): set<string> {
    set id | id in capabilities && capabilities[id].name == name
  }

  /** A tool name means the capability with that id, or else the only capability with that alias. */
  ghost function Resolve(capabilities: Capabilities, name: string): Result<Capability, SelectionFault> {
    if name in capabilities then Ok(capabilities[name])
    else if |Aliased(capabilities, name)| == 1 then
      var id :| id in Aliased(capabilities, name);
      Ok(capabilities[id])
    else if Aliased(capabilities, name) == {} then Err(UnknownTool)
    else Err(ConflictingDeclaration)
  }

  lemma OnlyElement<T>(s: set<T>, x: T)
    requires x in s
    ensures |s| == 1 <==> s == {x}
  {
    if |s| == 1 {
      assert |s - {x}| == 0;
      assert s == {x} + (s - {x});
    }
  }

  method SelectedCapability(capabilities: Capabilities, name: string) returns (r: Result<Capability, SelectionFault>)
    requires Proper(capabilities)
    ensures r == Resolve(capabilities, name)
  {
    if name in capabilities { return Ok(capabilities[name]); }
    var found: Option<string> := None;
    var rest := capabilities.Keys;
    while rest != {}
      invariant rest <= capabilities.Keys
      invariant found.None? <==> Aliased(capabilities, name) <= rest
      invariant found.Some? ==> found.value !in rest && Aliased(capabilities, name) - rest == {found.value}
      decreases rest
    {
      var id :| id in rest;
      rest := rest - {id};
      if capabilities[id].name == name {
        if found.Some? {
          assert found.value in Aliased(capabilities, name) && id in Aliased(capabilities, name);
          OnlyElement(Aliased(capabilities, name), id);
          return Err(ConflictingDeclaration);
        }
        found := Some(id);
      }
    }
    if found.None? { return Err(UnknownTool); }
    assert Aliased(capabilities, name) == {found.value};
    return Ok(capabilities[found.value]);
  }

  predicate Usable(slug: string, capability: Capability) {
    capability.owner.None? || capability.owner == Some(slug)
  }

  ghost predicate Selectable(agent: Agent, name: string, capabilities: Capabilities) {
    && name !in RESERVED && Resolve(capabilities, name).Ok?
    && Resolve(capabilities, name).value.id !in RESERVED && Usable(agent.slug, Resolve(capabilities, name).value)
  }

  /** The id a selectable tool name stands for. */
  ghost function ToolId(capabilities: Capabilities, name: string): string {
    match Resolve(capabilities, name)
    case Ok(capability) => capability.id
    case Err(_) => ""
  }

  ghost function ToolIds(capabilities: Capabilities, names: seq<string>): seq<string> {
    seq(|names|, i requires 0 <= i < |names| => ToolId(capabilities, names[i]))
  }

  function Owned(capabilities: Capabilities, slug: string): set<string> {
    set id | id in capabilities && capabilities[id].owner == Some(slug)
  }

  function Shared(capabilities: Capabilities): set<string> {
    set id | id in capabilities && capabilities[id].owner.None?
  }

  /** The sequence without later repetitions. */
  function KeepFirst(s: seq<string>): (r: seq<string>)
    ensures forall x :: x in r <==> x in s
    ensures Distinct(r)
  {
    if s == [] then [] else
      var r := KeepFirst(s[..|s| - 1]);
      assert s == s[..|s| - 1] + [s[|s| - 1]];
      if s[|s| - 1] in r then r else r + [s[|s| - 1]]
  }

  /** Inherited tools are the shared and own ones in order; listed tools keep their order and the own ones follow. */
  ghost function NormalTools(agent: Agent, capabilities: Capabilities): seq<string> {
    if agent.inheritsTools then Sorted(Shared(capabilities) + Owned(capabilities, agent.slug))
    else KeepFirst(ToolIds(capabilities, agent.tools) + Sorted(Owned(capabilities, agent.slug)))
  }

  ghost predicate ToolsSelectable(agent: Agent, capabilities: Capabilities) {
    agent.inheritsTools || forall name | name in agent.tools :: Selectable(agent, name, capabilities)
  }

  method AppendMissing(selected: seq<string>, ids: seq<string>, ghost all: seq<string>) returns (r: seq<string>)
    requires selected == KeepFirst(all)
    ensures r == KeepFirst(all + ids)
  {
    r := selected;
    var i := 0;
    assert all + ids[..0] == all;
    while i < |ids|
      invariant i <= |ids|
      invariant r == KeepFirst(all + ids[..i])
    {
      assert (all + ids[..i + 1])[..|all| + i] == all + ids[..i];
      assert (all + ids[..i + 1])[|all| + i] == ids[i];
      if ids[i] !in r { r := r + [ids[i]]; }
      i := i + 1;
    }
    assert ids[..i] == ids;
  }

  method SelectOne(agent: Agent, name: string, capabilities: Capabilities) returns (id: Option<string>)
    requires Proper(capabilities)
    ensures id.Some? <==> Selectable(agent, name, capabilities)
    ensures id.Some? ==> id.value == ToolId(capabilities, name)
  {
    if name in RESERVED { return None; }
    var r := SelectedCapability(capabilities, name);
    if r.Err? || r.value.id in RESERVED || !Usable(agent.slug, r.value) { return None; }
    return Some(r.value.id);
  }

  /** One more listed name: refused when it is not selectable, otherwise its id joins the selection. */
  method SelectNext(agent: Agent, capabilities: Capabilities, i: nat,
                    selected: seq<string>) returns (ok: bool, r: seq<string>)
    requires Proper(capabilities) && i < |agent.tools| && selected == KeepFirst(ToolIds(capabilities, agent.tools[..i]))
    ensures ok <==> Selectable(agent, agent.tools[i], capabilities)
    ensures ok ==> r == KeepFirst(ToolIds(capabilities, agent.tools[..i + 1]))
  {
    var id := SelectOne(agent, agent.tools[i], capabilities);
    if id.None? { return false, []; }
    ToolIdsNext(capabilities, agent.tools, i);
    return true, if id.value in selected then selected else selected + [id.value];
  }

  method SelectListed(agent: Agent, capabilities: Capabilities) returns (ok: bool, selected: seq<string>)
    requires Proper(capabilities)
    ensures ok <==> forall name | name in agent.tools :: Selectable(agent, name, capabilities)
    ensures ok ==> selected == KeepFirst(ToolIds(capabilities, agent.tools))
  {
    ok, selected := true, [];
    var i := 0;
    while i < |agent.tools|
      invariant i <= |agent.tools|
      invariant forall j | 0 <= j < i :: Selectable(agent, agent.tools[j], capabilities)
      invariant selected == KeepFirst(ToolIds(capabilities, agent.tools[..i]))
    {
      ok, selected := SelectNext(agent, capabilities, i, selected);
      if !ok { return; }
      i := i + 1;
    }
    assert agent.tools[..i] == agent.tools;
    ok := true;
  }

  lemma ToolIdsNext(capabilities: Capabilities, names: seq<string>, i: nat)
    requires i < |names|
    ensures KeepFirst(ToolIds(capabilities, names[..i + 1])) ==
            var before := KeepFirst(ToolIds(capabilities, names[..i]));
            var id := ToolId(capabilities, names[i]);
            if id in before then before else before + [id]
  {
    var ids := ToolIds(capabilities, names[..i + 1]);
    assert ids[..i] == ToolIds(capabilities, names[..i]);
    assert ids[i] == ToolId(capabilities, names[i]);
  }

  lemma SortedDistinct(s: set<string>)
    ensures KeepFirst(Sorted(s)) == Sorted(s)
  {
    AscendingDistinct(Sorted(s));
    KeepDistinct(Sorted(s));
  }

  lemma {:induction false} KeepDistinct(s: seq<string>)
    requires Distinct(s)
    ensures KeepFirst(s) == s
  {
    if s != [] {
      var n := |s| - 1;
      KeepDistinct(s[..n]);
      assert s == s[..n] + [s[n]];
    }
  }

  method NormalizeTools(agent: Agent, capabilities: Capabilities) returns (ok: bool, tools: seq<string>)
    requires Proper(capabilities)
    ensures ok <==> ToolsSelectable(agent, capabilities)
    ensures ok ==> tools == NormalTools(agent, capabilities)
  {
    var own := Canonical.SortKeys(Owned(capabilities, agent.slug));
    if agent.inheritsTools {
      var shared := Canonical.SortKeys(Shared(capabilities));
      SortedDistinct(Shared(capabilities));
      var selected := AppendMissing(shared, own, shared);
      assert Elements(selected) == Shared(capabilities) + Owned(capabilities, agent.slug) by {
        SortedBoth(Shared(capabilities), Owned(capabilities, agent.slug));
      }
      tools := Canonical.SortKeys(Elements(selected));
      return true, tools;
    }
    var listed;
    ok, listed := SelectListed(agent, capabilities);
    if !ok { return false, []; }
    tools := AppendMissing(listed, own, ToolIds(capabilities, agent.tools));
  }

  lemma SortedBoth(a: set<string>, b: set<string>)
    ensures Elements(KeepFirst(Sorted(a) + Sorted(b))) == a + b
  {
    var s, t := Sorted(a), Sorted(b);
    forall x ensures x in KeepFirst(s + t) <==> x in a + b {
      assert x in s <==> x in Elements(s);
      assert x in t <==> x in Elements(t);
    }
  }

  // -------------------------------------------------------------- vocabulary

  datatype Context = Context(
    events: Registry, names: set<string>, capabilities: Capabilities,
    connectors: map<string, Connector>, providers: map<string, Provider>)

  function EventsOf(connectors: seq<Connector>): Registry {
    if connectors == [] then map[]
    else EventsOf(connectors[..|connectors| - 1]) + connectors[|connectors| - 1].events
  }

  /** No event type belongs to two connectors. */
  predicate OneOwner(connectors: seq<Connector>) {
    forall i, j | 0 <= i < j < |connectors| :: connectors[i].events.Keys !! connectors[j].events.Keys
  }

  function ScheduledType(slug: string): string {
    "agent." + slug + ".scheduled"
  }

  function ScheduledSchema(): Fields {
    var text := Object(map["type" := String("string")]);
    map[
      "type" := String("object"),
      "properties" := Object(map["date" := text, "timestamp" := text]),
      "required" := Array([String("date"), String("timestamp")]),
      "additionalProperties" := Bool(false)]
  }

  /** The synthetic occurrence events of the agents that have schedules. */
  function Scheduled(agents: map<string, Agent>): Registry {
    map t | t in ScheduledTypes(agents) :: Some(ScheduledSchema())
  }

  function ScheduledTypes(agents: map<string, Agent>): set<string> {
    set slug | slug in agents && agents[slug].schedules != [] :: ScheduledType(slug)
  }

  function AgentKey(agent: Agent): string { agent.slug }
  function ResourceKey(resource: Resource): string { resource.name }
  function SkillKey(skill: Skill): string { skill.name }
  function ConnectorKey(connector: Connector): string { connector.id }
  function CapabilityKey(capability: Capability): string { capability.id }
  function ProviderKey(provider: Provider): string { provider.id }

  function ContextOf(input: Input): Context {
    var agents := ById(input.agents, AgentKey);
    Context(EventsOf(input.connectors) + input.events + Scheduled(agents),
            ById(input.resources, ResourceKey).Keys + ById(input.skills, SkillKey).Keys,
            ById(input.capabilities, CapabilityKey),
            ById(input.connectors, ConnectorKey),
            ById(input.providers, ProviderKey))
  }

  // --------------------------------------------------------------- admission

  /** An agent is exactly what its source parses to, under the address of that source. */
  predicate Authored(rules: Rules, agent: Agent) {
    rules.agent(agent) && rules.hash(agent.source) == agent.address && rules.parse(agent.slug, agent.source)
            == Some(agent)
  }

  predicate ProperCapability(rules: Rules, capability: Capability, agents: map<string, Agent>) {
    && rules.capability(capability) && capability.id !in RESERVED && capability.name !in RESERVED
    && (capability.owner.Some? ==>
          capability.owner.value in agents && "agent." + capability.owner.value + "." <= capability.id)
  }

  predicate ProperConnector(rules: Rules, connector: Connector) {
    rules.connector(connector) && ValidRegistry(rules.isSchema, connector.events)
  }

  ghost predicate Declared(rules: Rules, input: Input) {
    var agents := ById(input.agents, AgentKey);
    && UniqueKeys(input.agents, AgentKey) && (forall a | a in input.agents :: Authored(rules, a))
    && UniqueKeys(input.resources, ResourceKey) && (forall x | x in input.resources :: rules.resource(x))
    && UniqueKeys(input.skills, SkillKey)
    && (forall x | x in input.skills :: rules.skill(x) && x.name !in ById(input.resources, ResourceKey))
    && UniqueKeys(input.capabilities, CapabilityKey)
    && (forall c | c in input.capabilities :: ProperCapability(rules, c, agents))
    && UniqueKeys(input.providers, ProviderKey) && (forall p | p in input.providers :: rules.provider(p))
    && (input.model.Some? ==> rules.model(input.model.value))
  }

  /** The vocabularies of connectors, project and schedules can be merged. */
  ghost predicate Mergeable(rules: Rules, input: Input) {
    var scheduled := Scheduled(ById(input.agents, AgentKey));
    && UniqueKeys(input.connectors, ConnectorKey) && (forall c | c in input.connectors :: ProperConnector(rules, c))
    && OneOwner(input.connectors)
    && ValidRegistry(rules.isSchema, input.events) && Agree(EventsOf(input.connectors), input.events)
    && ValidRegistry(rules.isSchema, scheduled) && Agree(EventsOf(input.connectors) + input.events, scheduled)
  }

  ghost function Normalized(agent: Agent, context: Context): Agent {
    agent.(skills := if agent.inheritsSkills then Sorted(context.names) else agent.skills, inheritsSkills := false,
           tools := NormalTools(agent, context.capabilities), inheritsTools := false)
  }

  /** Every event type an agent names. */
  function References(agent: Agent): seq<string> {
    agent.accepts + agent.publishes + agent.answers
  }

  predicate KnowsEvents(agent: Agent, events: Registry) {
    forall t | t in References(agent) :: t in events
  }

  ghost predicate ToolsKnown(agent: Agent, capabilities: Capabilities) {
    forall name | name in agent.tools ::
      name !in RESERVED && Resolve(capabilities, name).Ok? && Usable(agent.slug, Resolve(capabilities, name).value)
  }

  /** What validation asks of a normalized agent. */
  ghost predicate Admissible(rules: Rules, agent: Agent, context: Context) {
    && rules.prompt(agent)
    && ToolsKnown(agent, context.capabilities)
    && (forall name | name in agent.skills :: name in context.names)
    && agent.provider in context.providers
    && KnowsEvents(agent, context.events)
    && rules.bound(agent, context.connectors)
  }

  predicate SkillsSelectable(agent: Agent, names: set<string>) {
    agent.inheritsSkills || forall name | name in agent.skills :: name in names
  }

  ghost predicate Fits(rules: Rules, agent: Agent, context: Context) {
    && SkillsSelectable(agent, context.names) && ToolsSelectable(agent, context.capabilities)
    && Admissible(rules, Normalized(agent, context), context)
  }

  ghost predicate Compilable(rules: Rules, input: Input) {
    && Declared(rules, input) && Mergeable(rules, input)
    && forall agent | agent in input.agents :: Fits(rules, agent, ContextOf(input))
  }

  ghost function NormalAgents(agents: map<string, Agent>, context: Context): map<string, Agent> {
    map slug | slug in agents :: Normalized(agents[slug], context)
  }

  ghost function Compiled(input: Input): Project {
    var context := ContextOf(input);
    Project(NormalAgents(ById(input.agents, AgentKey), context), context.events,
            ById(input.resources, ResourceKey), ById(input.skills, SkillKey), context.connectors,
            context.capabilities, context.providers, input.model, input.runtime)
  }

  /** Once an agent is normalized, looking its tools and skills up again cannot fail. */
  lemma NormalizedResolves(rules: Rules, agent: Agent, context: Context)
    requires Proper(context.capabilities) && forall id | id in context.capabilities :: id !in RESERVED
    requires SkillsSelectable(agent, context.names) && ToolsSelectable(agent, context.capabilities)
    ensures ToolsKnown(Normalized(agent, context), context.capabilities)
    ensures forall name | name in Normalized(agent, context).skills :: name in context.names
    ensures forall name | name in Normalized(agent, context).tools :: name in context.capabilities
  {
    var caps := context.capabilities;
    var normal := Normalized(agent, context);
    forall name | name in normal.tools ensures name in caps && Usable(agent.slug, caps[name]) {
      ToolOrigin(agent, caps, name);
    }
    forall name | name in normal.skills ensures name in context.names {
      assert agent.inheritsSkills ==> name in Elements(Sorted(context.names));
    }
  }

  lemma ToolOrigin(agent: Agent, capabilities: Capabilities, name: string)
    requires Proper(capabilities) && ToolsSelectable(agent, capabilities) && name in NormalTools(agent, capabilities)
    ensures name in capabilities && Usable(agent.slug, capabilities[name])
  {
    var own := Owned(capabilities, agent.slug);
    if agent.inheritsTools {
      var all := Shared(capabilities) + own;
      assert name in Elements(Sorted(all));
    } else {
      var ids := ToolIds(capabilities, agent.tools);
      if name in ids {
        var i :| 0 <= i < |ids| && ids[i] == name;
        assert agent.tools[i] in agent.tools;
        assert Selectable(agent, agent.tools[i], capabilities);
      } else {
        assert name in Sorted(own);
        assert name in Elements(Sorted(own));
      }
    }
  }
}
