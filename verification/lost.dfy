/** Event schemas that lose their meaning when they are hoisted, and ones that do not. */
module LostMeanings {
  import opened Text
  import opened Json
  import opened Registries
  import opened Pointers
  import opened Hoisting
  import opened SchemaMeaning
  import opened Derived

  // --------------------------------------------------------------- references

  /** A root reference that is not rewritten loses its meaning when it leads somewhere at home or in the document. */
  lemma UnsafeRoot(decode: Decoder, kind: Vocabulary, eventTypes: seq<string>, schemas: seq<Fields>, i: nat, path: Path)
    requires Decodes(decode) && |eventTypes| == |schemas| && i < |schemas|
    requires var root := schemas[i] - {"$defs"};
      PathOf(decode, Schema, root) == Some(path) && !Rewritten(root, Definitions(schemas[i]))
    requires Resolve(Object(schemas[i]), path).Some? || Resolve(ReturnsSchema(eventTypes, schemas), path).Some?
    ensures !Means(decode, kind, eventTypes, schemas, i)
  {
    var home, after, root := AtHome(decode, kind, schemas[i]), InDocument(decode, kind, eventTypes, schemas, i),
        schemas[i] - {"$defs"};
    UnsafePath(home, after, Definitions(schemas[i]), root, path);
    MeansExactly(decode, kind, eventTypes, schemas, i);
  }

  lemma UnsafePath(home: Reading, after: Reading, own: Fields, fields: Fields, path: Path)
    requires PathOf(home.decode, Schema, fields) == Some(path) && !Rewritten(fields, own)
    requires Resolve(home.doc, path).Some? || Resolve(after.doc, path).Some?
    ensures !Safe(home, after, own, Schema, Object(fields))
  {
  }

  /** A schema that refers to itself as a whole. */
  function Recursive(): Fields {
    map["$ref" := String("#")]
  }

  lemma RootReferenceLost(decode: Decoder, kind: Vocabulary, eventType: string)
    requires Decodes(decode)
    ensures !Means(decode, kind, [eventType], [Recursive()], 0)
  {
    assert Recursive() - {"$defs"} == Recursive();
    assert "#"[1..] == "";
    UnsafeRoot(decode, kind, [eventType], [Recursive()], 0, []);
  }

  /** A branch that refers to a definition it lacks is captured by a branch whose renamed definition has that name. */
  lemma Captured(decode: Decoder, kind: Vocabulary, eventTypes: seq<string>, schemas: seq<Fields>, i: nat, j: nat,
                 name: string)
    requires Decodes(decode) && |eventTypes| == |schemas| && i < |schemas| && j < |schemas|
    requires name in Definitions(schemas[j])
    requires (Definitions(schemas[j])[name].Object? || Definitions(schemas[j])[name].Bool?)
    requires PathOf(decode, Schema, schemas[i] - {"$defs"}) == Some(["$defs", Renamed(j, name)])
    requires !Rewritten(schemas[i] - {"$defs"}, Definitions(schemas[i]))
    ensures !Means(decode, kind, eventTypes, schemas, i)
  {
    var path := ["$defs", Renamed(j, name)];
    DocumentDefinitions(Branches(eventTypes, schemas), Merged(schemas));
    DocumentResolves(ReturnsSchema(eventTypes, schemas).fields, schemas, j, name, path);
    UnsafeRoot(decode, kind, eventTypes, schemas, i, path);
  }

  lemma DocumentResolves(doc: Fields, schemas: seq<Fields>, j: nat, name: string, path: Path)
    requires j < |schemas| && name in Definitions(schemas[j]) && Definitions(doc) == Merged(schemas)
    requires Definitions(schemas[j])[name].Object? || Definitions(schemas[j])[name].Bool?
    requires |path| == 2 && path[0] == "$defs" && path[1] == Renamed(j, name)
    ensures Resolve(Object(doc), path).Some?
  {
    MovedDefinition(schemas, j, name);
    DefinitionResolves(doc, path);
  }

  lemma DefinitionResolves(fields: Fields, path: Path)
    requires |path| == 2 && path[0] == "$defs" && path[1] in Definitions(fields)
    requires Definitions(fields)[path[1]].Object? || Definitions(fields)[path[1]].Bool?
    ensures Resolve(Object(fields), path).Some?
  {
    IntoDefinitions(fields, path);
    assert path[2..] == [];
  }

  /** Two events: the first refers to a definition it does not have, and the second provides it after renaming. */
  function Dangling(): seq<Fields> {
    [map["$ref" := String(PREFIX + Renamed(1, "x"))], map["$defs" := Object(map["x" := Bool(true)])]]
  }

  lemma DanglingReferenceCaptured(decode: Decoder, kind: Vocabulary, a: string, b: string)
    requires Decodes(decode)
    ensures !Means(decode, kind, [a, b], Dangling(), 0)
  {
    var schemas := Dangling();
    assert schemas[0] - {"$defs"} == schemas[0];
    DanglingPath(decode);
    Captured(decode, kind, [a, b], schemas, 0, 1, "x");
  }

  lemma DanglingPath(decode: Decoder)
    requires Decodes(decode)
    ensures PathOf(decode, Schema, Dangling()[0]) == Some(["$defs", Renamed(1, "x")])
  {
    var name := Renamed(1, "x");
    RenamedPlain(1, "x");
    DefinitionPointer(decode, name, "");
    assert name + "" == name;
    assert Tokens("") == [""];
    assert ["$defs", name] + [""][1..] == ["$defs", name];
  }

  /** A schema whose only reference names a part of its only definition. */
  function Inner(x: string, p: string, y: string): Fields {
    var part := Object(map["type" := String("string")]);
    var whole := Object(map[p := Object(map[y := part])]);
    map["$defs" := Object(map[x := whole]), "$ref" := String(PREFIX + (x + ("/" + (p + ("/" + y)))))]
  }

  predicate PlainName(name: string) {
    '/' !in name && '~' !in name && '%' !in name
  }

  lemma InnerTokens(x: string, p: string, y: string)
    requires PlainName(x) && PlainName(p) && PlainName(y)
    ensures Tokens(x + ("/" + (p + ("/" + y)))) == [x] + ([p] + [y])
  {
    TokensSlash(x, p + ("/" + y));
    TokensSlash(p, y);
    LastToken(y);
  }

  lemma LastToken(plain: string)
    requires '/' !in plain && '~' !in plain
    ensures Tokens(plain) == [plain]
  {
    TokensPlain(plain, "");
    assert plain + "" == plain;
    assert Tokens("") == [""];
  }

  lemma InnerPath(decode: Decoder, x: string, p: string, y: string)
    requires Decodes(decode) && PlainName(x) && PlainName(p) && PlainName(y)
    ensures Pointer(decode, PREFIX + (x + ("/" + (p + ("/" + y))))) == Some(["$defs", x, p, y])
  {
    var raw := x + ("/" + (p + ("/" + y)));
    InnerTokens(x, p, y);
    assert raw == raw + "" && decode(raw + "") == raw + decode("");
    DefinitionPointer(decode, "", raw);
    assert "" + raw == raw && "" + x == x;
    assert ["$defs", x] + ([x] + ([p] + [y]))[1..] == ["$defs", x, p, y];
  }

  lemma InnerResolves(x: string, p: string, y: string, path: Path)
    requires path == ["$defs", x, p, y]
    ensures Resolve(Object(Inner(x, p, y)), path).Some?
  {
    var schema := Inner(x, p, y);
    assert x in Definitions(schema);
    IntoDefinitions(schema, path);
    var whole := Definitions(schema)[x];
    assert path[2..] == [p, y] && path[2..][1..] == [y] && [y][1..] == [];
    assert At(whole, path[2..]) == At(whole.fields[p], [y]) == Some(whole.fields[p].fields[y]);
  }

  /** A reference into a definition dangles after hoisting, because only whole definition names are rewritten. */
  lemma InnerReferenceLost(decode: Decoder, kind: Vocabulary, eventType: string, x: string, p: string, y: string)
    requires Decodes(decode) && PlainName(x) && PlainName(p) && PlainName(y)
    ensures !Means(decode, kind, [eventType], [Inner(x, p, y)], 0)
  {
    var schema, path, raw := Inner(x, p, y), ["$defs", x, p, y], x + ("/" + (p + ("/" + y)));
    var root := schema - {"$defs"};
    assert root["$ref"] == String(PREFIX + raw);
    InnerPath(decode, x, p, y);
    InnerResolves(x, p, y, path);
    assert Reference(root) == Some(raw) && raw !in Definitions(schema) by {
      assert |raw| > |x|;
    }
    UnsafeRoot(decode, kind, [eventType], [schema], 0, path);
  }

  // --------------------------------------------------------------------- data

  /** Data that reads like a reference to an own definition is rewritten, and the meaning is lost. */
  lemma TouchedData(decode: Decoder, kind: Vocabulary, eventTypes: seq<string>, schemas: seq<Fields>, i: nat, k: string)
    requires Decodes(decode) && |eventTypes| == |schemas| && i < |schemas|
    requires k in schemas[i] - {"$defs"} && kind(k) == Data && !Untouched(Definitions(schemas[i]), schemas[i][k])
    ensures !Means(decode, kind, eventTypes, schemas, i)
    ensures Rewrite(schemas[i][k], Renaming(Definitions(schemas[i]), i)) != schemas[i][k]
  {
    var own, payload := Definitions(schemas[i]), schemas[i] - {"$defs"};
    var home, after := AtHome(decode, kind, schemas[i]), InDocument(decode, kind, eventTypes, schemas, i);
    UntouchedExactly(own, i, schemas[i][k]);
    UnsafeData(home, after, own, payload, k);
    MeansExactly(decode, kind, eventTypes, schemas, i);
  }

  lemma UnsafeData(home: Reading, after: Reading, own: Fields, fields: Fields, k: string)
    requires k in fields && home.kind(k) == Data && !Untouched(own, fields[k])
    ensures !Safe(home, after, own, Schema, Object(fields))
  {
    assert !Safe(home, after, own, Below(home.kind, Schema, k), fields[k]);
  }

  /** A schema that admits one value only, and the value reads like a reference to its definition. */
  function Literal(name: string): Fields {
    map["$defs" := Object(map[name := Bool(true)]), "const" := Object(map["$ref" := String(PREFIX + name)])]
  }

  /** Such a schema admits another value after hoisting. */
  lemma LiteralRewritten(decode: Decoder, kind: Vocabulary, eventType: string, name: string)
    requires Decodes(decode) && kind("const") == Data
    ensures !Means(decode, kind, [eventType], [Literal(name)], 0)
    ensures Rewrite(Literal(name)["const"], Renaming(Definitions(Literal(name)), 0)) != Literal(name)["const"]
  {
    var schema := Literal(name);
    assert Reference(schema["const"].fields) == Some(name) && name in Definitions(schema);
    TouchedData(decode, kind, [eventType], [schema], 0, "const");
  }

  /** Without definitions data keeps its meaning, whatever text it holds. */
  lemma DataKept(decode: Decoder, kind: Vocabulary, eventType: string, schema: Fields)
    requires Decodes(decode) && "$ref" !in schema && "$defs" !in schema && forall k | k in schema :: kind(k) == Data
    ensures Means(decode, kind, [eventType], [schema], 0)
  {
    var schemas := [schema];
    assert schemas[0] - {"$defs"} == schema && Definitions(schemas[0]) == map[];
    DataSafe(AtHome(decode, kind, schemas[0]), InDocument(decode, kind, [eventType], schemas, 0), schema);
    MeansExactly(decode, kind, [eventType], schemas, 0);
  }

  lemma DataSafe(home: Reading, after: Reading, schema: Fields)
    requires "$ref" !in schema && forall k | k in schema :: home.kind(k) == Data
    ensures SafeThrough(home, after, map[], Object(schema))
  {
    forall k | k in schema ensures Safe(home, after, map[], Below(home.kind, Schema, k), schema[k]) {
      NothingTouched(schema[k]);
    }
    assert Mentioned(home, map[], Object(schema)) == {};
    ReachedClosed(home, map[], {});
  }

  lemma NothingTouched(v: Value)
    ensures Untouched(map[], v)
  {
    RewriteNothing(v);
    assert Renaming(map[], 0) == map[];
    UntouchedExactly(map[], 0, v);
  }

  // ---------------------------------------------------- the same schema elsewhere

  /** A tree without the places its references lead to. */
  function Bare(t: Tree): Tree {
    match t
    case List(items) => List(seq(|items|, i requires 0 <= i < |items| => Bare(items[i])))
    case Node(fields, target) =>
      Node(map k | k in fields :: Bare(fields[k]),
           match target
           case Followed(_, tree) => Followed(Own([]), Bare(tree))
           case _ => target)
    case _ => t
  }

  /** To every depth the payload finds equal schemas, wherever its references lead. */
  ghost predicate SameSchemas(decode: Decoder, kind: Vocabulary, eventTypes: seq<string>, schemas: seq<Fields>, i: nat)
    requires |eventTypes| == |schemas| && i < |schemas|
  {
    var home, after := AtHome(decode, kind, schemas[i]), InDocument(decode, kind, eventTypes, schemas, i);
    forall depth: nat :: Bare(Unfold(after, Schema, Payload(schemas[i], i), depth))
                         == Bare(Unfold(home, Schema, Object(schemas[i] - {"$defs"}), depth))
  }

  /** Keeping the places is enough to keep the schemas. */
  lemma MeansSame(decode: Decoder, kind: Vocabulary, eventTypes: seq<string>, schemas: seq<Fields>, i: nat)
    requires |eventTypes| == |schemas| && i < |schemas| && Means(decode, kind, eventTypes, schemas, i)
    ensures SameSchemas(decode, kind, eventTypes, schemas, i)
  {
    var home, after := AtHome(decode, kind, schemas[i]), InDocument(decode, kind, eventTypes, schemas, i);
    var own, payload := Definitions(schemas[i]), Object(schemas[i] - {"$defs"});
    forall depth: nat
      ensures Bare(Unfold(after, Schema, Payload(schemas[i], i), depth)) == Bare(Unfold(home, Schema, payload, depth))
    {
      assert Kept(home, after, Renaming(own, i), Schema, payload, depth);
    }
  }

  /** The text of a reference to the first branch's `additionalProperties`. */
  function ToFirst(): string {
    "#/" + ("oneOf" + ("/" + (NatString(0) + ("/" + "additionalProperties"))))
  }

  /** A schema whose reference leads to `false` at home, and to another `false` in the derived document. */
  function Twin(): Fields {
    map["oneOf" := Array([Object(map["additionalProperties" := Bool(false)])]),
        "not" := Object(map["$ref" := String(ToFirst())])]
  }

  lemma ToFirstPath(decode: Decoder)
    requires Decodes(decode)
    ensures Pointer(decode, ToFirst()) == Some(["oneOf", NatString(0), "additionalProperties"])
  {
    var raw := "oneOf" + ("/" + (NatString(0) + ("/" + "additionalProperties")));
    NatStringDigits(0);
    InnerTokens("oneOf", NatString(0), "additionalProperties");
    assert ToFirst()[1..] == ("/" + raw) + "" && decode(("/" + raw) + "") == ("/" + raw) + decode("");
    assert ("/" + raw)[1..] == raw;
    assert ["oneOf"] + ([NatString(0)] + ["additionalProperties"]) == ["oneOf", NatString(0), "additionalProperties"];
  }

  lemma FirstResolves(fields: Fields, first: Fields)
    requires "oneOf" in fields && fields["oneOf"] == Array([Object(first)])
    requires "additionalProperties" in first && first["additionalProperties"] == Bool(false)
    ensures Resolve(Object(fields), ["oneOf", NatString(0), "additionalProperties"]) == Some(Bool(false))
  {
    var path: Path := ["oneOf", NatString(0), "additionalProperties"];
    PositionOf(0, 1);
    assert path[1..] == [NatString(0), "additionalProperties"] && path[1..][1..] == ["additionalProperties"];
    assert ["additionalProperties"][1..] == [];
    assert At(Object(fields), path) == At(fields["oneOf"], path[1..]) == At(Object(first), ["additionalProperties"]);
    assert At(Object(first), ["additionalProperties"]) == At(first["additionalProperties"], []) == Some(Bool(false));
  }

  predicate ReferenceFree(v: Value) {
    match v
    case Array(items) => forall i | 0 <= i < |items| :: ReferenceFree(items[i])
    case Object(fields) => "$ref" !in fields && forall k | k in fields :: ReferenceFree(fields[k])
    case _ => true
  }

  /** Without references a schema unfolds alike in every document. */
  lemma {:induction false} FreeUnfolds(w: Reading, x: Reading, at: Part, v: Value, depth: nat)
    requires w.kind == x.kind && ReferenceFree(v)
    ensures Unfold(w, at, v, depth) == Unfold(x, at, v, depth)
    decreases v
  {
    if Structured(at) {
      match v
      case Array(items) =>
        forall i | 0 <= i < |items| ensures Unfold(w, Schema, items[i], depth) == Unfold(x, Schema, items[i], depth) {
          FreeUnfolds(w, x, Schema, items[i], depth);
        }
        assert Unfold(w, at, v, depth).items == Unfold(x, at, v, depth).items;
      case Object(fields) =>
        forall k | k in fields
          ensures Unfold(w, Below(w.kind, at, k), fields[k], depth) == Unfold(x, Below(x.kind, at, k), fields[k], depth)
        {
          FreeUnfolds(w, x, Below(w.kind, at, k), fields[k], depth);
        }
        assert Unfold(w, at, v, depth).fields == Unfold(x, at, v, depth).fields;
      case _ =>
    }
  }

  /** An object with a reference to `false` unfolds alike, but for the place, in every document that has it. */
  lemma ReferenceUnfolds(w: Reading, x: Reading, fields: Fields, path: Path, depth: nat)
    requires w.decode == x.decode && fields.Keys == {"$ref"} && PathOf(w.decode, Schema, fields) == Some(path)
    requires Resolve(w.doc, path) == Resolve(x.doc, path) == Some(Bool(false))
    ensures Bare(Unfold(w, Schema, Object(fields), depth)) == Bare(Unfold(x, Schema, Object(fields), depth))
  {
    var a, b := Unfold(w, Schema, Object(fields), depth), Unfold(x, Schema, Object(fields), depth);
    assert a.fields == b.fields == map[];
    if depth > 0 {
      assert Unfold(w, Schema, Bool(false), depth - 1) == Leaf(Bool(false));
      assert Unfold(x, Schema, Bool(false), depth - 1) == Leaf(Bool(false));
    }
    assert a.target.tree == b.target.tree;
  }

  /** Two fields that unfold alike make an object that does. */
  lemma PairUnfolds(w: Reading, x: Reading, fields: Fields, depth: nat)
    requires "$ref" !in fields && w.kind == x.kind
    requires forall k | k in fields :: Bare(Unfold(w, Below(w.kind, Schema, k), fields[k], depth))
                                       == Bare(Unfold(x, Below(x.kind, Schema, k), fields[k], depth))
    ensures Bare(Unfold(w, Schema, Object(fields), depth)) == Bare(Unfold(x, Schema, Object(fields), depth))
  {
    var a, b := Unfold(w, Schema, Object(fields), depth), Unfold(x, Schema, Object(fields), depth);
    assert a.fields.Keys == b.fields.Keys == fields.Keys;
    assert Bare(a).fields == Bare(b).fields;
  }

  lemma TwinUnfolds(w: Reading, x: Reading, depth: nat)
    requires w.decode == x.decode && w.kind == x.kind && w.kind("not") == Schema && Decodes(w.decode)
    requires var path := ["oneOf", NatString(0), "additionalProperties"];
      Resolve(w.doc, path) == Resolve(x.doc, path) == Some(Bool(false))
    ensures Bare(Unfold(w, Schema, Object(Twin()), depth)) == Bare(Unfold(x, Schema, Object(Twin()), depth))
  {
    ToFirstPath(w.decode);
    FreeUnfolds(w, x, w.kind("oneOf"), Twin()["oneOf"], depth);
    ReferenceUnfolds(w, x, Twin()["not"].fields, ["oneOf", NatString(0), "additionalProperties"], depth);
    PairUnfolds(w, x, Twin(), depth);
  }

  lemma TwinDocument(eventType: string)
    ensures Payload(Twin(), 0) == Object(Twin()) && Twin() - {"$defs"} == Twin() && Definitions(Twin()) == map[]
    ensures var path := ["oneOf", NatString(0), "additionalProperties"];
      Resolve(Object(Twin()), path) == Resolve(ReturnsSchema([eventType], [Twin()]), path) == Some(Bool(false))
  {
    assert Twin() - {"$defs"} == Twin() && Renaming(Definitions(Twin()), 0) == map[];
    RewriteNothing(Object(Twin()));
    FirstResolves(Twin(), Twin()["oneOf"].items[0].fields);
    var branch := Branch(eventType, Payload(Twin(), 0));
    assert Branches([eventType], [Twin()]) == [branch];
    FirstResolves(ReturnsSchema([eventType], [Twin()]).fields, branch.fields);
  }

  /** Places are finer than validation: a reference may lead elsewhere and still find an equal schema there. */
  lemma TwinSurvives(decode: Decoder, kind: Vocabulary, eventType: string)
    requires Decodes(decode) && kind("not") == Schema
    ensures !Means(decode, kind, [eventType], [Twin()], 0) && SameSchemas(decode, kind, [eventType], [Twin()], 0)
  {
    var schemas := [Twin()];
    var home, after := AtHome(decode, kind, schemas[0]), InDocument(decode, kind, [eventType], schemas, 0);
    TwinDocument(eventType);
    forall depth: nat
      ensures Bare(Unfold(after, Schema, Payload(schemas[0], 0), depth))
              == Bare(Unfold(home, Schema, Object(schemas[0] - {"$defs"}), depth))
    {
      TwinUnfolds(after, home, depth);
    }
    TwinUnsafe(home, after);
    MeansExactly(decode, kind, [eventType], schemas, 0);
  }

  lemma TwinUnsafe(home: Reading, after: Reading)
    requires Decodes(home.decode) && home.kind("not") == Schema
    requires Resolve(home.doc, ["oneOf", NatString(0), "additionalProperties"]).Some?
    ensures !Safe(home, after, map[], Schema, Object(Twin()))
  {
    ToFirstPath(home.decode);
    UnsafePath(home, after, map[], Twin()["not"].fields, ["oneOf", NatString(0), "additionalProperties"]);
    assert !Safe(home, after, map[], Below(home.kind, Schema, "not"), Twin()["not"]);
  }
}
