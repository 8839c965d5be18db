/** What the result schema derived from event types admits. */
module Admission {
  import opened Text
  import opened Json
  import opened Registries
  import opened Hoisting

  /** What the keywords that are not read here ask of a value. */
  type Others = (Value, Value) -> bool

  function Properties(schema: Fields): Fields {
    if "properties" in schema && schema["properties"].Object? then schema["properties"].fields else map[]
  }

  predicate Closed(schema: Fields) {
    "additionalProperties" in schema && schema["additionalProperties"] == Bool(false)
  }

  predicate RequiredPresent(schema: Fields, fields: Fields) {
    "required" in schema && schema["required"].Array? ==>
      forall name | name in schema["required"].items && name.String? :: name.s in fields
  }

  /** A schema admits a value when its keywords do: `type` of an object, `const` and `required` as in section 6 of JSON
    * Schema Validation 2020-12, `oneOf`, `properties` and `additionalProperties` as in section 10 of JSON Schema Core
    * 2020-12, and the other keywords as given. */
  predicate Admits(schema: Value, v: Value, others: Others)
    decreases schema
  {
    schema.Object? ==>
      var s := schema.fields;
      && others(schema, v)
      && ("type" in s && s["type"] == String("object") ==> v.Object?)
      && ("const" in s ==> v == s["const"])
      && (v.Object? ==> RequiredPresent(s, v.fields) && (Closed(s) ==> v.fields.Keys <= Properties(s).Keys))
      && ("properties" in s && s["properties"].Object? && v.Object? ==>
            MembersAdmitted(s["properties"], v.fields, others))
      && ("oneOf" in s && s["oneOf"].Array? ==> OneAdmits(s["oneOf"].items, v, others))
  }

  predicate MembersAdmitted(schemas: Value, fields: Fields, others: Others)
    requires schemas.Object?
    decreases schemas
  {
    forall key | key in schemas.fields && key in fields :: Admits(schemas.fields[key], fields[key], others)
  }

  predicate OneAdmits(schemas: seq<Value>, v: Value, others: Others)
    decreases schemas
  {
    && (exists i :: 0 <= i < |schemas| && Admits(schemas[i], v, others))
    && (forall i, j | 0 <= i < j < |schemas| :: !(Admits(schemas[i], v, others) && Admits(schemas[j], v, others)))
  }

  /** The other keywords do not speak of the schemas that a derived document is made of. */
  ghost predicate Silent(others: Others) {
    && (forall c, v :: others(Object(map["const" := c]), v))
    && (forall t, payload, v :: others(Branch(t, payload), v))
    && (forall branches, definitions, v :: others(Document(branches, definitions), v))
  }

  /** An object with just this type and a payload that the schema of the event admits. */
  predicate IsEvent(v: Value, eventType: string, payload: Value, others: Others) {
    && v.Object? && v.fields.Keys == {"type", "payload"}
    && v.fields["type"] == String(eventType) && Admits(payload, v.fields["payload"], others)
  }

  lemma ConstAdmits(c: Value, v: Value, others: Others)
    requires Silent(others)
    ensures Admits(Object(map["const" := c]), v, others) <==> v == c
  {
  }

  lemma RequiredBoth(schema: Fields, fields: Fields)
    requires "required" in schema && schema["required"] == Array([String("type"), String("payload")])
    ensures RequiredPresent(schema, fields) <==> "type" in fields && "payload" in fields
  {
    var items := schema["required"].items;
    assert items[0] == String("type") && items[1] == String("payload");
  }

  lemma BranchMembers(kind: Value, payload: Value, fields: Fields, others: Others)
    requires "type" in fields && "payload" in fields
    ensures MembersAdmitted(Object(map["type" := kind, "payload" := payload]), fields, others) <==>
            Admits(kind, fields["type"], others) && Admits(payload, fields["payload"], others)
  {
    var schemas := map["type" := kind, "payload" := payload];
    assert schemas["type"] == kind && schemas["payload"] == payload;
  }

  /** A branch admits exactly the objects of its event type with a payload. */
  lemma BranchAdmits(eventType: string, payload: Value, v: Value, others: Others)
    requires Silent(others)
    ensures Admits(Branch(eventType, payload), v, others) <==> IsEvent(v, eventType, payload, others)
  {
    var schema := Branch(eventType, payload).fields;
    var kind := Object(map["const" := String(eventType)]);
    assert Properties(schema) == map["type" := kind, "payload" := payload];
    if v.Object? {
      RequiredBoth(schema, v.fields);
      if "type" in v.fields && "payload" in v.fields {
        ConstAdmits(String(eventType), v.fields["type"], others);
        BranchMembers(kind, payload, v.fields, others);
      }
    }
  }

  ghost predicate Event(eventTypes: seq<string>, schemas: seq<Fields>, v: Value, others: Others, i: nat)
    requires |schemas| == |eventTypes|
  {
    i < |eventTypes| && IsEvent(v, eventTypes[i], Payload(schemas[i], i), others)
  }

  lemma DocumentFields(branches: seq<Value>, definitions: Fields, v: Value, others: Others)
    requires Silent(others)
    ensures Admits(Document(branches, definitions), v, others) <==> v.Object? && OneAdmits(branches, v, others)
  {
    var fields := Document(branches, definitions).fields;
    assert fields["oneOf"] == Array(branches) && fields["type"] == String("object");
  }

  lemma OneAlike(branches: seq<Value>, v: Value, others: Others, events: seq<bool>)
    requires |events| == |branches| && forall i | 0 <= i < |branches| :: Admits(branches[i], v, others) <==> events[i]
    ensures OneAdmits(branches, v, others) <==>
            && (exists i :: 0 <= i < |events| && events[i])
            && forall i, j | 0 <= i < j < |events| :: !(events[i] && events[j])
  {
  }

  /** The derived schema admits exactly the values that are an event of one, and of only one, of its types. */
  lemma DocumentAdmits(eventTypes: seq<string>, schemas: seq<Fields>, v: Value, others: Others)
    requires |schemas| == |eventTypes| && Silent(others)
    ensures Admits(ReturnsSchema(eventTypes, schemas), v, others) <==>
              && (exists i: nat :: Event(eventTypes, schemas, v, others, i))
              && (forall i: nat, j: nat | Event(eventTypes, schemas, v, others, i)
                                          && Event(eventTypes, schemas, v, others, j) :: i == j)
  {
    var branches := Branches(eventTypes, schemas);
    var events: seq<bool> := seq(|branches|, i requires 0 <= i < |branches| => Admits(branches[i], v, others));
    forall i: nat | i < |branches| ensures events[i] <==> Event(eventTypes, schemas, v, others, i) {
      BranchAdmits(eventTypes[i], Payload(schemas[i], i), v, others);
    }
    DocumentFields(branches, Merged(schemas), v, others);
    OneAlike(branches, v, others, events);
    AsEvents(eventTypes, schemas, v, others, events);
  }

  lemma AsEvents(eventTypes: seq<string>, schemas: seq<Fields>, v: Value, others: Others, events: seq<bool>)
    requires |schemas| == |eventTypes| == |events|
    requires forall i: nat | i < |events| :: events[i] <==> Event(eventTypes, schemas, v, others, i)
    ensures (exists i :: 0 <= i < |events| && events[i]) <==> exists i: nat :: Event(eventTypes, schemas, v, others, i)
    ensures (forall i, j | 0 <= i < j < |events| :: !(events[i] && events[j])) <==>
            forall i: nat, j: nat | Event(eventTypes, schemas, v, others, i) && Event(eventTypes, schemas, v, others, j)
              :: i == j
  {
    if i: nat :| Event(eventTypes, schemas, v, others, i) { assert events[i]; }
  }

  /** With distinct types no value is an event of two. */
  lemma DistinctTypes(eventTypes: seq<string>, schemas: seq<Fields>, v: Value, others: Others, i: nat, j: nat)
    requires |schemas| == |eventTypes| && Distinct(eventTypes)
    requires Event(eventTypes, schemas, v, others, i) && Event(eventTypes, schemas, v, others, j)
    ensures i == j
  {
  }

  /** A type listed twice with one payload schema is never admitted, though each branch alone admits it. */
  lemma ListedTwice(eventTypes: seq<string>, schemas: seq<Fields>, v: Value, others: Others, i: nat, j: nat)
    requires |schemas| == |eventTypes| && Silent(others) && i < j < |eventTypes|
    requires eventTypes[i] == eventTypes[j] && Payload(schemas[i], i) == Payload(schemas[j], j)
    requires Event(eventTypes, schemas, v, others, i)
    ensures !Admits(ReturnsSchema(eventTypes, schemas), v, others)
  {
    DocumentAdmits(eventTypes, schemas, v, others);
    assert Event(eventTypes, schemas, v, others, j);
  }
}
