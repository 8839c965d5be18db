/** The derived result schema: exactly which event schemas keep their meaning in it. */
module Derived {
  import opened Text
  import opened Json
  import opened Registries
  import opened Pointers
  import opened Hoisting
  import opened SchemaMeaning

  // --------------------------------------------------------------- vocabulary

  /** The keywords of JSON Schema Draft 2020-12 that hold schemas, or lists of them; those that map names to schemas;
    * and all others, whose values, annotations included, are plain data. */
  function Draft202012(keyword: string): Part {
    if keyword in ["allOf", "anyOf", "oneOf", "prefixItems", "items", "contains", "additionalProperties",
                   "propertyNames", "not", "if", "then", "else", "unevaluatedItems", "unevaluatedProperties",
                   "contentSchema"] then Schema
    else if keyword in ["$defs", "definitions", "properties", "patternProperties", "dependentSchemas"] then Names
    else Data
  }

  lemma DraftData()
    ensures Draft202012("const") == Draft202012("enum") == Data
  {
  }

  /** A property that bears the name of a keyword is a schema. */
  lemma DraftSchemas(name: string)
    ensures Below(Draft202012, Draft202012("properties"), name) == Draft202012("not") == Schema
  {
  }

  // ----------------------------------------------------------------- readings

  /** Where the payload schema of a branch stands in the document. */
  function Spot(branch: nat): Path {
    ["oneOf", NatString(branch), "properties", "payload"]
  }

  /** The place of a branch's own schema that a path of the document is: inside its payload or one of its
    * definitions. */
  function PlaceIn(own: Fields, branch: nat, path: Path): Place {
    if |path| >= 4 && path[..4] == Spot(branch) then Own(path[4..])
    else if |path| >= 2 && path[0] == "$defs" && exists name | name in own :: Renamed(branch, name) == path[1]
      then Own(["$defs", Unrenamed(own, branch, path[1])] + path[2..])
    else Foreign(path)
  }

  function AtHome(decode: Decoder, kind: Vocabulary, schema: Fields): Reading {
    Reading(decode, kind, Object(schema), path => Own(path))
  }

  function InDocument(decode: Decoder, kind: Vocabulary, eventTypes: seq<string>, schemas: seq<Fields>, i: nat): Reading
    requires |eventTypes| == |schemas| && i < |schemas|
  {
    var own := Definitions(schemas[i]);
    Reading(decode, kind, ReturnsSchema(eventTypes, schemas), path => PlaceIn(own, i, path))
  }

  lemma PlaceMoves(own: Fields, branch: nat, path: Path)
    ensures PlaceIn(own, branch, path) != Own(path)
    ensures |path| >= 2 && path[0] == "$defs" && path[1] in own ==>
              PlaceIn(own, branch, Moved(branch, path)) == Own(path)
  {
    if |path| >= 2 && path[0] == "$defs" && path[1] in own {
      var moved := Moved(branch, path);
      assert Renamed(branch, path[1]) == moved[1];
      OneName(branch, moved[1]);
      assert moved[2..] == path[2..];
      assert path == [path[0], path[1]] + path[2..];
      if |path| >= 4 { assert moved[..4][0] == "$defs" && Spot(branch)[0] == "oneOf"; }
    }
  }

  /** The renamed definitions of a branch are the only ones of the document with its prefix. */
  lemma MovedDefinition(schemas: seq<Fields>, i: nat, name: string)
    requires i < |schemas|
    ensures Renamed(i, name) in Merged(schemas) <==> name in Definitions(schemas[i])
    ensures name in Definitions(schemas[i]) ==>
              Merged(schemas)[Renamed(i, name)]
              == Rewrite(Definitions(schemas[i])[name], Renaming(Definitions(schemas[i]), i))
  {
    MergedHolds(schemas, i);
    if Renamed(i, name) in Merged(schemas) {
      MergedKeys(schemas, Renamed(i, name));
      var j :| 0 <= j < |schemas| && Renamed(i, name) in Hoisted(schemas[j], j);
      var other :| other in Definitions(schemas[j]) && Renamed(j, other) == Renamed(i, name);
      RenamedInjective(i, name, j, other);
    }
  }

  /** A definition path leads into the root definitions. */
  lemma IntoDefinitions(fields: Fields, path: Path)
    requires |path| >= 2 && path[0] == "$defs" && Definitions(fields) != map[]
    ensures Resolve(Object(fields), path) ==
            if path[1] in Definitions(fields) then Resolve(Definitions(fields)[path[1]], path[2..]) else None
  {
    var definitions := Object(Definitions(fields));
    assert path[1..][0] == path[1] && path[1..][1..] == path[2..];
    assert At(Object(fields), path) == At(definitions, path[1..]);
    assert At(definitions, path[1..])
            == if path[1] in definitions.fields then At(definitions.fields[path[1]], path[2..]) else None;
  }

  lemma DocumentDefinitions(branches: seq<Value>, definitions: Fields)
    ensures Definitions(Document(branches, definitions).fields) == definitions
  {
  }

  lemma DocumentHoistsAt(decode: Decoder, kind: Vocabulary, eventTypes: seq<string>, schemas: seq<Fields>, i: nat,
                         path: Path)
    requires |eventTypes| == |schemas| && i < |schemas|
    ensures HoistsAt(AtHome(decode, kind, schemas[i]), InDocument(decode, kind, eventTypes, schemas, i),
                     Definitions(schemas[i]), i, path)
  {
    var own, merged := Definitions(schemas[i]), Merged(schemas);
    PlaceMoves(own, i, path);
    if |path| >= 2 && path[0] == "$defs" && own != map[] {
      DefinitionsMove(Branches(eventTypes, schemas), schemas, i, path);
    }
  }

  lemma DefinitionsMove(branches: seq<Value>, schemas: seq<Fields>, i: nat, path: Path)
    requires i < |schemas| && |path| >= 2 && path[0] == "$defs" && Definitions(schemas[i]) != map[]
    ensures var own, home := Definitions(schemas[i]), Resolve(Object(schemas[i]), path);
      && home == (if path[1] in own then Resolve(own[path[1]], path[2..]) else None)
      && Resolve(Document(branches, Merged(schemas)), Moved(i, path)) ==
         (match home case Some(found) => Some(Rewrite(found, Renaming(own, i))) case None => None)
  {
    var own, merged, moved := Definitions(schemas[i]), Merged(schemas), Moved(i, path);
    var name :| name in own;
    MovedDefinition(schemas, i, name);
    MovedDefinition(schemas, i, path[1]);
    DocumentDefinitions(branches, merged);
    IntoDefinitions(schemas[i], path);
    IntoDefinitions(Document(branches, merged).fields, moved);
    assert moved[2..] == path[2..];
    if path[1] in own { ResolveRewritten(own[path[1]], Renaming(own, i), path[2..]); }
  }

  lemma DocumentHoists(decode: Decoder, kind: Vocabulary, eventTypes: seq<string>, schemas: seq<Fields>, i: nat)
    requires Decodes(decode) && |eventTypes| == |schemas| && i < |schemas|
    ensures Hoists(AtHome(decode, kind, schemas[i]), InDocument(decode, kind, eventTypes, schemas, i),
                   Definitions(schemas[i]), i)
  {
    forall path: Path
      ensures HoistsAt(AtHome(decode, kind, schemas[i]), InDocument(decode, kind, eventTypes, schemas, i),
                       Definitions(schemas[i]), i, path)
    {
      DocumentHoistsAt(decode, kind, eventTypes, schemas, i, path);
    }
  }

  // ------------------------------------------------------------------ exactly

  /** In the payload, and in everything its rewritten references lead to, every local reference is an own definition
    * name or leads nowhere in either document, and no data carries the text of a reference to an own definition. */
  predicate SafeSchema(decode: Decoder, kind: Vocabulary, eventTypes: seq<string>, schemas: seq<Fields>, i: nat)
    requires |eventTypes| == |schemas| && i < |schemas|
  {
    var home, after := AtHome(decode, kind, schemas[i]), InDocument(decode, kind, eventTypes, schemas, i);
    SafeThrough(home, after, Definitions(schemas[i]), Object(schemas[i] - {"$defs"}))
  }

  /** To every depth, the payload leads in the document to the places it led to at home, with the same schemas and data
    * there. */
  ghost predicate Means(decode: Decoder, kind: Vocabulary, eventTypes: seq<string>, schemas: seq<Fields>, i: nat)
    requires |eventTypes| == |schemas| && i < |schemas|
  {
    var home, after := AtHome(decode, kind, schemas[i]), InDocument(decode, kind, eventTypes, schemas, i);
    forall depth: nat :: Kept(home, after, Renaming(Definitions(schemas[i]), i), Schema, Object(schemas[i] - {"$defs"}),
                              depth)
  }

  /** Whatever the vocabulary, an event schema keeps its meaning in the derived document if and only if it is safe. */
  lemma MeansExactly(decode: Decoder, kind: Vocabulary, eventTypes: seq<string>, schemas: seq<Fields>, i: nat)
    requires Decodes(decode) && |eventTypes| == |schemas| && i < |schemas|
    ensures Means(decode, kind, eventTypes, schemas, i) <==> SafeSchema(decode, kind, eventTypes, schemas, i)
  {
    var home, after := AtHome(decode, kind, schemas[i]), InDocument(decode, kind, eventTypes, schemas, i);
    DocumentHoists(decode, kind, eventTypes, schemas, i);
    KeptExactly(home, after, Definitions(schemas[i]), i, Object(schemas[i] - {"$defs"}));
  }

  // ----------------------------------------------------------- closed schemas

  /** Every local reference of the value is the name of an own definition, and its data is left alone. */
  predicate Closed(decode: Decoder, kind: Vocabulary, own: Fields, at: Part, v: Value)
    decreases v
  {
    if at.Data? then Untouched(own, v)
    else if at.Ignored? then true
    else
      match v
      case Array(items) => forall i | 0 <= i < |items| :: Closed(decode, kind, own, Schema, items[i])
      case Object(fields) =>
        && (if at.Schema? then PathOf(decode, at, fields).Some? ==> Rewritten(fields, own) else !Rewritten(fields, own))
        && forall k | k in fields :: Closed(decode, kind, own, Below(kind, at, k), fields[k])
      case _ => true
  }

  lemma {:induction false} ClosedSafe(home: Reading, after: Reading, own: Fields, at: Part, v: Value)
    requires Closed(home.decode, home.kind, own, at, v)
    ensures Safe(home, after, own, at, v)
    decreases v
  {
    if Structured(at) {
      match v
      case Array(items) =>
        forall i | 0 <= i < |items| ensures Safe(home, after, own, Schema, items[i]) {
          ClosedSafe(home, after, own, Schema, items[i]);
        }
      case Object(fields) =>
        forall k | k in fields ensures Safe(home, after, own, Below(home.kind, at, k), fields[k]) {
          ClosedSafe(home, after, own, Below(home.kind, at, k), fields[k]);
        }
      case _ =>
    }
  }

  /** The payload, and whatever a reference to an own definition leads to, is closed. */
  predicate ClosedSchema(decode: Decoder, kind: Vocabulary, schema: Fields) {
    var home, own := AtHome(decode, kind, schema), Definitions(schema);
    && Closed(decode, kind, own, Schema, Object(schema - {"$defs"}))
    && forall n | n in own && TargetOf(home, n).Some? :: Closed(decode, kind, own, Schema, TargetOf(home, n).value)
  }

  lemma {:induction false} PositionOf(i: nat, length: nat)
    requires i < length
    ensures Position(NatString(i), length) == Some(i)
  {
    if i < length - 1 {
      if NatString(i) == NatString(length - 1) {
        NatStringInjective(i, length - 1);
        assert false;
      }
      PositionOf(i, length - 1);
    }
  }

  lemma SpotOf(branches: seq<Value>, definitions: Fields, i: nat, eventType: string, payload: Value)
    requires i < |branches| && branches[i] == Branch(eventType, payload)
    ensures At(Document(branches, definitions), Spot(i)) == Some(payload)
  {
    var doc, spot := Document(branches, definitions), Spot(i);
    PositionOf(i, |branches|);
    assert spot[1..] == [NatString(i), "properties", "payload"] && spot[1..][1..] == ["properties", "payload"];
    assert At(doc, spot) == At(Array(branches), spot[1..]) == At(branches[i], ["properties", "payload"]);
    var properties := branches[i].fields["properties"];
    assert ["properties", "payload"][1..] == ["payload"] && ["payload"][1..] == [];
    assert At(branches[i], ["properties", "payload"]) == At(properties, ["payload"]) == At(payload, []);
  }

  /** In the derived document the payload of a closed schema stands at its branch and unfolds, to every depth, as it did
    * at home. */
  lemma DerivedMeans(decode: Decoder, kind: Vocabulary, eventTypes: seq<string>, schemas: seq<Fields>, i: nat,
                     depth: nat)
    requires Decodes(decode) && |schemas| == |eventTypes| && i < |schemas| && ClosedSchema(decode, kind, schemas[i])
    ensures var home, after := AtHome(decode, kind, schemas[i]), InDocument(decode, kind, eventTypes, schemas, i);
      && At(after.doc, Spot(i)) == Some(Payload(schemas[i], i))
      && Unfold(after, Schema, Payload(schemas[i], i), depth)
         == Unfold(home, Schema, Object(schemas[i] - {"$defs"}), depth)
  {
    var home, after := AtHome(decode, kind, schemas[i]), InDocument(decode, kind, eventTypes, schemas, i);
    var own, payload := Definitions(schemas[i]), Object(schemas[i] - {"$defs"});
    SpotOf(Branches(eventTypes, schemas), Merged(schemas), i, eventTypes[i], Payload(schemas[i], i));
    ClosedSafe(home, after, own, Schema, payload);
    ReachedClosed(home, own, Mentioned(home, own, payload));
    forall n | n in Reached(home, own, Mentioned(home, own, payload)) ensures SafeName(home, after, own, n) {
      if TargetOf(home, n).Some? { ClosedSafe(home, after, own, Schema, TargetOf(home, n).value); }
    }
    MeansExactly(decode, kind, eventTypes, schemas, i);
    assert Kept(home, after, Renaming(own, i), Schema, payload, depth);
  }
}
