/** The event vocabulary: declared event types and their optional payload schemas. */
module Registries {
  import opened Text
  import opened Json

  type Fields = map<string, Value>

  type Registry = map<string, Option<Fields>>

  datatype Fault = InvalidSchema | Conflict

  /** A non-empty event type whose schema, when it has one, is a valid schema document. */
  predicate Declarable(isSchema: Fields -> bool, eventType: string, schema: Option<Fields>) {
    eventType != "" && (schema.Some? ==> isSchema(schema.value))
  }

  predicate ValidRegistry(isSchema: Fields -> bool, events: Registry) {
    forall t | t in events :: Declarable(isSchema, t, events[t])
  }

  predicate Agree(a: Registry, b: Registry) {
    forall t | t in a && t in b :: a[t] == b[t]
  }

  class EventRegistry {
    var events: Registry

    constructor ()
      ensures events == map[]
    {
      events := map[];
    }

    /** Adds a declaration; the same declaration again changes nothing and a different one is refused. */
    method Register(isSchema: Fields -> bool, eventType: string, schema: Option<Fields>) returns (r: Result<(), Fault>)
      modifies this
      ensures r.Ok? <==> Declarable(isSchema, eventType, schema) && Agree(old(events), map[eventType := schema])
      ensures events == if r.Ok? then old(events) + map[eventType := schema] else old(events)
      ensures r == Err(InvalidSchema) <==> !Declarable(isSchema, eventType, schema)
      ensures ValidRegistry(isSchema, old(events)) ==> ValidRegistry(isSchema, events)
    {
      if eventType == "" { return Err(InvalidSchema); }
      if schema.Some? && !isSchema(schema.value) { return Err(InvalidSchema); }
      if eventType in events {
        if events[eventType] == schema {
          return Ok(());
        }
        var single := map[eventType := schema];
        assert eventType in single && single[eventType] == schema;
        return Err(Conflict);
      }
      events := events[eventType := schema];
      assert events == old(events) + map[eventType := schema];
      return Ok(());
    }

    /** Registers a whole vocabulary, one event at a time; it succeeds exactly when every event is declarable and none
      * conflicts. */
    method RegisterAll(isSchema: Fields -> bool, more: Registry) returns (r: Result<(), Fault>)
      modifies this
      ensures r.Ok? <==> ValidRegistry(isSchema, more) && Agree(old(events), more)
      ensures r.Ok? ==> events == old(events) + more
    {
      var rest := more.Keys;
      while rest != {}
        invariant rest <= more.Keys
        invariant events == old(events) + (more - rest)
        invariant forall t | t in more && t !in rest :: Declarable(isSchema, t, more[t])
        invariant Agree(old(events), more - rest)
        decreases rest
      {
        var t :| t in rest;
        label before:
        var one := Register(isSchema, t, more[t]);
        var single := map[t := more[t]];
        if one.Err? {
          assert Declarable(isSchema, t, more[t]) ==>
                    t in old@before(events) && t in old(events) && old(events)[t] != more[t];
          return Err(one.error);
        }
        assert t in single && single[t] == more[t];
        assert more - (rest - {t}) == (more - rest) + single;
        rest := rest - {t};
      }
      assert more - rest == more;
      return Ok(());
    }
  }
}
