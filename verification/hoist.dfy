/** Merging event schemas into one result schema: local definitions are renamed and hoisted, references keep their
  * meaning. */
module Hoisting {
  import opened Text
  import opened Json
  import opened Registries

  // ------------------------------------------------------------- renaming

  const PREFIX: string := "#/$defs/"

  function Renamed(branch: nat, name: string): string {
    "event_" + NatString(branch) + "_" + name
  }

  /** No two definitions of any branches share a renamed identity. */
  lemma RenamedInjective(i: nat, a: string, j: nat, b: string)
    requires Renamed(i, a) == Renamed(j, b)
    ensures i == j && a == b
  {
    NatStringDigits(i);
    NatStringDigits(j);
    var s, t := NatString(i) + ['_'] + a, NatString(j) + ['_'] + b;
    assert Renamed(i, a)[6..] == s && Renamed(j, b)[6..] == t;
    SplitUnique(NatString(i), NatString(j), '_', a, b);
    NatStringInjective(i, j);
  }

  // ------------------------------------------------------------ references

  /** The definition a local reference names. */
  function LocalName(reference: string): Option<string> {
    if PREFIX <= reference then Some(reference[|PREFIX|..]) else None
  }

  function Reference(fields: Fields): Option<string> {
    match AsStr(Get(fields, "$ref"))
    case Some(reference) => LocalName(reference)
    case None => None
  }

  function Rewrite(v: Value, renamed: map<string, string>): Value {
    match v
    case Array(items) => Array(seq(|items|, i requires 0 <= i < |items| => Rewrite(items[i], renamed)))
    case Object(fields) =>
      var name := Reference(fields);
      Object(map k | k in fields ::
        if k == "$ref" && name.Some? && name.value in renamed then String(PREFIX + renamed[name.value])
        else Rewrite(fields[k], renamed))
    case _ => v
  }

  // --------------------------------------------------------------- hoisting

  /** The root definitions of a schema; a `$defs` that is not an object counts as none. */
  function Definitions(schema: Fields): Fields {
    if "$defs" in schema && schema["$defs"].Object? then schema["$defs"].fields else map[]
  }

  function Renaming(defs: Fields, branch: nat): map<string, string> {
    map name | name in defs :: Renamed(branch, name)
  }

  function Payload(schema: Fields, branch: nat): Value {
    Rewrite(Object(schema - {"$defs"}), Renaming(Definitions(schema), branch))
  }

  function Hoisted(schema: Fields, branch: nat): Fields {
    var defs := Definitions(schema);
    map key | key in (set name | name in defs :: Renamed(branch, name)) ::
      Rewrite(defs[Unrenamed(defs, branch, key)], Renaming(defs, branch))
  }

  function Unrenamed(defs: Fields, branch: nat, key: string): (name: string)
    requires exists n :: n in defs && Renamed(branch, n) == key
    ensures name in defs && Renamed(branch, name) == key
  {
    var n :| n in defs && Renamed(branch, n) == key;
    OneName(branch, key);
    n
  }

  lemma OneName(branch: nat, key: string)
    ensures forall a, b | Renamed(branch, a) == key && Renamed(branch, b) == key :: a == b
  {
    forall a, b | Renamed(branch, a) == key && Renamed(branch, b) == key ensures a == b {
      RenamedInjective(branch, a, branch, b);
    }
  }

  /** Each definition is kept under its new name, and nothing else is. */
  lemma HoistedAt(schema: Fields, branch: nat, name: string)
    requires name in Definitions(schema)
    ensures Renamed(branch, name) in Hoisted(schema, branch)
    ensures Hoisted(schema, branch)[Renamed(branch, name)] ==
            Rewrite(Definitions(schema)[name], Renaming(Definitions(schema), branch))
  {
    OneName(branch, Renamed(branch, name));
  }

  /** The definitions of the first branches, one branch after the other. */
  function Merged(schemas: seq<Fields>): Fields {
    if schemas == [] then map[]
    else Merged(schemas[..|schemas| - 1]) + Hoisted(schemas[|schemas| - 1], |schemas| - 1)
  }

  lemma {:induction false} MergedKeys(schemas: seq<Fields>, key: string)
    requires key in Merged(schemas)
    ensures exists i :: 0 <= i < |schemas| && key in Hoisted(schemas[i], i)
  {
    var n := |schemas| - 1;
    if key in Hoisted(schemas[n], n) {
    } else {
      MergedKeys(schemas[..n], key);
      var i :| 0 <= i < n && key in Hoisted(schemas[..n][i], i);
      assert key in Hoisted(schemas[i], i);
    }
  }

  /** Hoisting one branch never overwrites a definition of another. */
  lemma {:induction false} MergedKeeps(schemas: seq<Fields>, i: nat)
    requires i < |schemas|
    ensures forall key | key in Hoisted(schemas[i], i) ::
              key in Merged(schemas) && Merged(schemas)[key] == Hoisted(schemas[i], i)[key]
  {
    var n := |schemas| - 1;
    if i < n {
      MergedKeeps(schemas[..n], i);
      forall key | key in Hoisted(schemas[i], i) ensures key !in Hoisted(schemas[n], n) {
        if key in Hoisted(schemas[n], n) {
          var a :| a in Definitions(schemas[i]) && Renamed(i, a) == key;
          var b :| b in Definitions(schemas[n]) && Renamed(n, b) == key;
          RenamedInjective(i, a, n, b);
          assert false;
        }
      }
    }
  }

  lemma MergedHolds(schemas: seq<Fields>, i: nat)
    requires i < |schemas|
    ensures forall name | name in Definitions(schemas[i]) ::
              && Renamed(i, name) in Merged(schemas)
              && Merged(schemas)[Renamed(i, name)]
                 == Rewrite(Definitions(schemas[i])[name], Renaming(Definitions(schemas[i]), i))
  {
    MergedKeeps(schemas, i);
    forall name | name in Definitions(schemas[i])
      ensures Renamed(i, name) in Merged(schemas)
      ensures Merged(schemas)[Renamed(i, name)]
              == Rewrite(Definitions(schemas[i])[name], Renaming(Definitions(schemas[i]), i))
    {
      HoistedAt(schemas[i], i, name);
    }
  }

  // ------------------------------------------------------------ derivation

  lemma {:induction false} RewriteNothing(v: Value)
    ensures Rewrite(v, map[]) == v
  {
    match v
    case Array(items) =>
      forall i | 0 <= i < |items| ensures Rewrite(items[i], map[]) == items[i] { RewriteNothing(items[i]); }
      assert Rewrite(v, map[]).items == items;
    case Object(fields) =>
      forall k | k in fields ensures Rewrite(fields[k], map[]) == fields[k] { RewriteNothing(fields[k]); }
      assert Rewrite(v, map[]).fields == fields;
    case _ =>
  }

  method RenameAll(defs: Fields, branch: nat) returns (renamed: map<string, string>)
    ensures renamed == Renaming(defs, branch)
  {
    renamed := map[];
    var names := defs.Keys;
    while names != {}
      invariant names <= defs.Keys
      invariant renamed == map name | name in defs.Keys - names :: Renamed(branch, name)
      decreases names
    {
      var name :| name in names;
      renamed := renamed[name := Renamed(branch, name)];
      names := names - {name};
    }
  }

  method HoistLocalDefinitions(schema: Fields, branch: nat) returns (payload: Value, hoisted: Fields)
    ensures payload == Payload(schema, branch) && hoisted == Hoisted(schema, branch)
  {
    var body := schema - {"$defs"};
    hoisted := map[];
    if "$defs" !in schema || !schema["$defs"].Object? {
      RewriteNothing(Object(body));
      assert Renaming(Definitions(schema), branch) == map[];
      return Object(body), hoisted;
    }
    var defs := schema["$defs"].fields;
    var renamed := RenameAll(defs, branch);
    payload := Rewrite(Object(body), renamed);
    var names := defs.Keys;
    while names != {}
      invariant names <= defs.Keys
      invariant hoisted.Keys == set name | name in defs.Keys - names :: Renamed(branch, name)
      invariant forall key | key in hoisted ::
          key in Hoisted(schema, branch) && hoisted[key] == Hoisted(schema, branch)[key]
      decreases names
    {
      var name :| name in names;
      HoistedAt(schema, branch, name);
      hoisted := hoisted[Renamed(branch, name) := Rewrite(defs[name], renamed)];
      names := names - {name};
    }
    assert hoisted.Keys == Hoisted(schema, branch).Keys;
  }

  /** The branch of the result schema that admits one event type. */
  function Branch(eventType: string, payload: Value): Value {
    Object(map[
      "type" := String("object"),
      "required" := Array([String("type"), String("payload")]),
      "properties" := Object(map["type" := Object(map["const" := String(eventType)]), "payload" := payload]),
      "additionalProperties" := Bool(false)])
  }

  /** The registered schema of an event; an event without one has the empty schema. */
  function SchemaOf(events: Registry, eventType: string): Fields
    requires eventType in events
  {
    match events[eventType]
    case Some(schema) => schema
    case None => map[]
  }

  function SchemasOf(events: Registry, eventTypes: seq<string>): seq<Fields>
    requires forall t | t in eventTypes :: t in events
  {
    seq(|eventTypes|, i requires 0 <= i < |eventTypes| => SchemaOf(events, eventTypes[i]))
  }

  function ReturnsSchema(eventTypes: seq<string>, schemas: seq<Fields>): Value
    requires |schemas| == |eventTypes|
  {
    Document(Branches(eventTypes, schemas), Merged(schemas))
  }

  function Branches(eventTypes: seq<string>, schemas: seq<Fields>): seq<Value>
    requires |schemas| == |eventTypes|
  {
    seq(|eventTypes|, i requires 0 <= i < |eventTypes| => Branch(eventTypes[i], Payload(schemas[i], i)))
  }

  function Document(branches: seq<Value>, definitions: Fields): Value {
    var fields := map["type" := String("object"), "oneOf" := Array(branches)];
    Object(if definitions == map[] then fields else fields["$defs" := Object(definitions)])
  }

  method DeriveReturnsSchema(events: Registry, eventTypes: seq<string>) returns (r: Result<Option<Value>, string>)
    ensures r == Ok(None) <==> eventTypes == []
    ensures r.Err? <==> exists t :: t in eventTypes && t !in events
    ensures r.Err? ==> exists i: nat :: i < |eventTypes| && r.error == eventTypes[i] && eventTypes[i] !in events
                                        && forall j | 0 <= j < i :: eventTypes[j] in events
    ensures eventTypes != [] && (forall t | t in eventTypes :: t in events) ==>
              r == Ok(Some(ReturnsSchema(eventTypes, SchemasOf(events, eventTypes))))
  {
    if eventTypes == [] { return Ok(None); }
    var n, branches, definitions := DeriveBranches(events, eventTypes);
    if n < |eventTypes| { return Err(eventTypes[n]); }
    assert eventTypes[..n] == eventTypes;
    r := Ok(Some(Document(branches, definitions)));
  }

  /** One branch for each event type up to the first that is not declared. */
  method DeriveBranches(events: Registry,
                        eventTypes: seq<string>) returns (n: nat, branches: seq<Value>, definitions: Fields)
    ensures n <= |eventTypes| && (forall j | 0 <= j < n :: eventTypes[j] in events)
    ensures (n < |eventTypes| ==> eventTypes[n] !in events)
    ensures branches == Branches(eventTypes[..n], SchemasOf(events, eventTypes[..n]))
    ensures definitions == Merged(SchemasOf(events, eventTypes[..n]))
  {
    n, branches, definitions := 0, [], map[];
    while n < |eventTypes|
      invariant n <= |eventTypes| && forall j | 0 <= j < n :: eventTypes[j] in events
      invariant branches == Branches(eventTypes[..n], SchemasOf(events, eventTypes[..n]))
      invariant definitions == Merged(SchemasOf(events, eventTypes[..n]))
    {
      if eventTypes[n] !in events { return; }
      var payload, hoisted := HoistLocalDefinitions(SchemaOf(events, eventTypes[n]), n);
      DerivationStep(events, eventTypes, n);
      definitions := definitions + hoisted;
      branches := branches + [Branch(eventTypes[n], payload)];
      n := n + 1;
    }
  }

  lemma DerivationStep(events: Registry, eventTypes: seq<string>, i: nat)
    requires i < |eventTypes| && forall j | 0 <= j <= i :: eventTypes[j] in events
    ensures var before, after := SchemasOf(events, eventTypes[..i]), SchemasOf(events, eventTypes[..i + 1]);
      var schema := SchemaOf(events, eventTypes[i]);
      && Merged(after) == Merged(before) + Hoisted(schema, i)
      && Branches(eventTypes[..i + 1], after)
         == Branches(eventTypes[..i], before) + [Branch(eventTypes[i], Payload(schema, i))]
  {
    var t, before, schema := eventTypes[i], SchemasOf(events, eventTypes[..i]), SchemaOf(events, eventTypes[i]);
    assert eventTypes[..i + 1] == eventTypes[..i] + [t];
    SchemasSnoc(events, eventTypes[..i], t);
    MergedSnoc(before, schema);
    BranchesSnoc(eventTypes[..i], before, t, schema);
  }

  lemma SchemasSnoc(events: Registry, eventTypes: seq<string>, t: string)
    requires (forall x | x in eventTypes :: x in events) && t in events
    ensures SchemasOf(events, eventTypes + [t]) == SchemasOf(events, eventTypes) + [SchemaOf(events, t)]
  {
  }

  lemma MergedSnoc(schemas: seq<Fields>, schema: Fields)
    ensures Merged(schemas + [schema]) == Merged(schemas) + Hoisted(schema, |schemas|)
  {
    assert (schemas + [schema])[..|schemas|] == schemas;
  }

  lemma BranchesSnoc(eventTypes: seq<string>, schemas: seq<Fields>, t: string, schema: Fields)
    requires |eventTypes| == |schemas|
    ensures Branches(eventTypes + [t], schemas + [schema])
            == Branches(eventTypes, schemas) + [Branch(t, Payload(schema, |schemas|))]
  {
  }
}
