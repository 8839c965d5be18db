/** What the references of an event schema lead to, at home and in the derived result schema. */
module SchemaMeaning {
  import opened Text
  import opened Json
  import opened Registries
  import opened Pointers
  import opened Hoisting

  /** A place of the event's own schema, or one that is not part of it. */
  datatype Place = Own(path: Path) | Foreign(path: Path)

  /** How a part of a schema is read: as a schema, as a map from names to schemas, as plain data, or not at all. */
  datatype Part = Schema | Names | Data | Ignored

  /** How the value of each keyword of a schema is read. */
  type Vocabulary = string -> Part

  /** A document, how fragments are decoded and keywords read, and which place of the event's schema a path of the
    * document is. */
  datatype Reading = Reading(decode: Decoder, kind: Vocabulary, doc: Value, place: Path -> Place)

  datatype Target = Unreferenced | Dangling | Followed(place: Place, tree: Tree)

  /** A schema with its local references replaced by where they lead and by what is there, to a given depth. */
  datatype Tree =
    | Leaf(value: Value)
    | List(items: seq<Tree>)
    | Node(fields: map<string, Tree>, target: Target)
    | Deeper
    | Hidden

  /** The position of an object's field. */
  function Below(kind: Vocabulary, at: Part, key: string): Part {
    match at
    case Schema => kind(key)
    case Names => Schema
    case _ => at
  }

  /** Only parts that are read as schemas, or as maps of them, have parts of their own. */
  predicate Structured(at: Part) {
    at.Schema? || at.Names?
  }

  /** The path of an object's local reference; only a schema has one. */
  function PathOf(decode: Decoder, at: Part, fields: Fields): Option<Path> {
    match AsStr(Get(fields, "$ref"))
    case Some(reference) => if at.Schema? then Pointer(decode, reference) else None
    case None => None
  }

  function Unfold(w: Reading, at: Part, v: Value, depth: nat): Tree
    decreases depth, v
  {
    if at.Data? then Leaf(v)
    else if at.Ignored? then Hidden
    else
      match v
      case Array(items) => List(seq(|items|, i requires 0 <= i < |items| => Unfold(w, Schema, items[i], depth)))
      case Object(fields) =>
        var path := PathOf(w.decode, at, fields);
        Node(map k | k in fields && !(k == "$ref" && path.Some?) :: Unfold(w, Below(w.kind, at, k), fields[k], depth),
             if path.None? then Unreferenced else
               match Resolve(w.doc, path.value)
               case None => Dangling
               case Some(found) =>
                 Followed(w.place(path.value), if depth == 0 then Deeper else Unfold(w, Schema, found, depth - 1)))
      case _ => Leaf(v)
  }

  /** The rewriting step changes this object's reference. */
  predicate Rewritten(fields: Fields, own: Fields) {
    Reference(fields).Some? && Reference(fields).value in own
  }

  // ------------------------------------------------------------------- safety

  /** No object anywhere in the value carries a reference that is rewritten. */
  predicate Untouched(own: Fields, v: Value) {
    match v
    case Array(items) => forall i | 0 <= i < |items| :: Untouched(own, items[i])
    case Object(fields) => !Rewritten(fields, own) && forall k | k in fields :: Untouched(own, fields[k])
    case _ => true
  }

  /** A local reference is safe when hoisting rewrites it, or when it leads nowhere before and after; a name that merely
    * reads like one must not be rewritten. */
  predicate SafeReference(home: Reading, after: Reading, own: Fields, at: Part, fields: Fields) {
    var path := PathOf(home.decode, at, fields);
    if path.None? then at.Schema? || !Rewritten(fields, own)
    else Rewritten(fields, own) || (Resolve(home.doc, path.value).None? && Resolve(after.doc, path.value).None?)
  }

  /** The references of the schema are safe and its data is left alone. */
  predicate Safe(home: Reading, after: Reading, own: Fields, at: Part, v: Value)
    decreases v
  {
    if at.Data? then Untouched(own, v)
    else if at.Ignored? then true
    else
      match v
      case Array(items) => forall i | 0 <= i < |items| :: Safe(home, after, own, Schema, items[i])
      case Object(fields) =>
        && SafeReference(home, after, own, at, fields)
        && forall k | k in fields :: Safe(home, after, own, Below(home.kind, at, k), fields[k])
      case _ => true
  }

  /** The schema refers, by a reference that is rewritten, to an own definition. */
  predicate Mentions(kind: Vocabulary, at: Part, v: Value, name: string)
    decreases v
  {
    Structured(at) &&
    match v
    case Array(items) => exists i | 0 <= i < |items| :: Mentions(kind, Schema, items[i], name)
    case Object(fields) =>
      || (at.Schema? && Reference(fields) == Some(name))
      || exists k | k in fields :: Mentions(kind, Below(kind, at, k), fields[k], name)
    case _ => false
  }

  /** The own definitions the schema refers to are among these. */
  ghost predicate MentionsOnly(kind: Vocabulary, own: Fields, at: Part, v: Value, names: set<string>) {
    forall n | n in own && Mentions(kind, at, v, n) :: n in names
  }

  lemma PartsMention(kind: Vocabulary, own: Fields, at: Part, v: Value, names: set<string>)
    requires Structured(at) && MentionsOnly(kind, own, at, v, names)
    ensures v.Array? ==> forall i | 0 <= i < |v.items| :: MentionsOnly(kind, own, Schema, v.items[i], names)
    ensures v.Object? ==> forall k | k in v.fields :: MentionsOnly(kind, own, Below(kind, at, k), v.fields[k], names)
  {
  }

  /** What a reference to an own definition leads to at home. */
  function TargetOf(home: Reading, name: string): Option<Value> {
    match Pointer(home.decode, PREFIX + name)
    case Some(path) => Resolve(home.doc, path)
    case None => None
  }

  function Mentioned(home: Reading, own: Fields, v: Value): set<string> {
    set name | name in own && Mentions(home.kind, Schema, v, name)
  }

  predicate Leads(home: Reading, m: string, n: string) {
    TargetOf(home, m).Some? && Mentions(home.kind, Schema, TargetOf(home, m).value, n)
  }

  /** The names that follow from these by going along references, one worklist round at a time. */
  function Reached(home: Reading, own: Fields, names: set<string>): set<string>
    requires names <= own.Keys
    decreases own.Keys - names
  {
    var more := names + set n | n in own && exists m | m in names :: Leads(home, m, n);
    if more == names then names else Reached(home, own, more)
  }

  predicate SafeName(home: Reading, after: Reading, own: Fields, name: string) {
    TargetOf(home, name).Some? ==> Safe(home, after, own, Schema, TargetOf(home, name).value)
  }

  /** The names are safe and closed under going along references. */
  predicate Settled(home: Reading, after: Reading, own: Fields, names: set<string>) {
    && (forall m | m in names :: SafeName(home, after, own, m))
    && (forall m, n | m in names && n in own && Leads(home, m, n) :: n in names)
  }

  lemma {:induction false} ReachedClosed(home: Reading, own: Fields, names: set<string>)
    requires names <= own.Keys
    ensures names <= Reached(home, own, names) <= own.Keys
    ensures forall m, n | m in Reached(home, own, names) && n in own && Leads(home, m, n) ::
              n in Reached(home, own, names)
    decreases own.Keys - names
  {
    var more := names + set n | n in own && exists m | m in names :: Leads(home, m, n);
    if more != names { ReachedClosed(home, own, more); }
  }

  // ------------------------------------------------------- paths and rewriting

  lemma TextIsNoSchema(v: Value, path: Path)
    requires v.String?
    ensures Resolve(v, path).None?
  {
  }

  /** Rewriting keeps every schema where it was. */
  lemma {:induction false} ResolveRewritten(v: Value, renamed: map<string, string>, path: Path)
    ensures Resolve(Rewrite(v, renamed), path) ==
            match Resolve(v, path) case Some(found) => Some(Rewrite(found, renamed)) case None => None
    decreases path
  {
    if path != [] {
      match v
      case Object(fields) =>
        if path[0] in fields {
          var child, after := fields[path[0]], Rewrite(v, renamed).fields[path[0]];
          if after == Rewrite(child, renamed) {
            ResolveRewritten(child, renamed, path[1..]);
          } else {
            TextIsNoSchema(child, path[1..]);
            TextIsNoSchema(after, path[1..]);
          }
        }
      case Array(items) =>
        var position := Position(path[0], |items|);
        if position.Some? { ResolveRewritten(items[position.value], renamed, path[1..]); }
      case _ =>
    }
  }

  lemma RenamedDiffers(branch: nat, name: string)
    ensures Renamed(branch, name) != name
  {
    assert |Renamed(branch, name)| > |name|;
  }

  /** Data is left alone exactly when no reference text in it names an own definition. */
  lemma {:induction false} UntouchedExactly(own: Fields, branch: nat, v: Value)
    ensures Rewrite(v, Renaming(own, branch)) == v <==> Untouched(own, v)
  {
    var renamed := Renaming(own, branch);
    match v
    case Array(items) =>
      forall i | 0 <= i < |items| ensures Rewrite(items[i], renamed) == items[i] <==> Untouched(own, items[i]) {
        UntouchedExactly(own, branch, items[i]);
      }
      UntouchedItems(own, branch, items);
    case Object(fields) =>
      forall k | k in fields ensures Rewrite(fields[k], renamed) == fields[k] <==> Untouched(own, fields[k]) {
        UntouchedExactly(own, branch, fields[k]);
      }
      UntouchedFields(own, branch, fields);
    case _ =>
  }

  lemma UntouchedItems(own: Fields, branch: nat, items: seq<Value>)
    requires forall i | 0 <= i < |items| :: Rewrite(items[i], Renaming(own, branch)) == items[i] <==>
            Untouched(own, items[i])
    ensures Rewrite(Array(items), Renaming(own, branch)) == Array(items) <==> Untouched(own, Array(items))
  {
    var after := Rewrite(Array(items), Renaming(own, branch)).items;
    if Untouched(own, Array(items)) {
      assert after == items;
    } else {
      var i :| 0 <= i < |items| && !Untouched(own, items[i]);
      assert after[i] != items[i];
    }
  }

  lemma UntouchedFields(own: Fields, branch: nat, fields: Fields)
    requires forall k | k in fields ::
               Rewrite(fields[k], Renaming(own, branch)) == fields[k] <==> Untouched(own, fields[k])
    ensures Rewrite(Object(fields), Renaming(own, branch)) == Object(fields) <==> Untouched(own, Object(fields))
  {
    var after := Rewrite(Object(fields), Renaming(own, branch)).fields;
    if Rewritten(fields, own) {
      var name := Reference(fields).value;
      RenamedDiffers(branch, name);
      assert fields["$ref"].s == PREFIX + name && after["$ref"].s == PREFIX + Renamed(branch, name);
      assert fields["$ref"].s[|PREFIX|..] == name && after["$ref"].s[|PREFIX|..] == Renamed(branch, name);
    } else if Untouched(own, Object(fields)) {
      assert after == fields;
    } else {
      var k :| k in fields && !Untouched(own, fields[k]);
      assert after[k] != fields[k];
    }
  }

  /** The name a rewritten reference gets, token by token. */
  function Moved(branch: nat, path: Path): Path
    requires |path| >= 2
  {
    [path[0], Renamed(branch, path[1])] + path[2..]
  }

  lemma RenamedPlain(branch: nat, name: string)
    ensures var plain := "event_" + NatString(branch) + "_";
      Renamed(branch, name) == plain + name && '/' !in plain && '~' !in plain && '%' !in plain
  {
    NatStringDigits(branch);
  }

  lemma RenamedPointer(decode: Decoder, branch: nat, raw: string)
    requires Decodes(decode)
    ensures var path := Pointer(decode, PREFIX + raw);
      && path.Some? && |path.value| >= 2 && path.value[0] == "$defs"
      && Pointer(decode, PREFIX + Renamed(branch, raw)) == Some(Moved(branch, path.value))
  {
    var tokens, plain := Tokens(decode(raw)), "event_" + NatString(branch) + "_";
    RenamedPlain(branch, raw);
    RenamedPlain(branch, tokens[0]);
    DefinitionPointer(decode, "", raw);
    DefinitionPointer(decode, plain, raw);
    assert "" + raw == raw && "" + tokens[0] == tokens[0];
    var path := ["$defs", tokens[0]] + tokens[1..];
    assert path[2..] == tokens[1..];
  }

  // ----------------------------------------------------------------- readings

  /** What hoisting promises of a path of the schema: a moved definition path leads to the counterpart; no other path
    * stays the same place. */
  predicate HoistsAt(home: Reading, after: Reading, own: Fields, branch: nat, path: Path) {
    && after.place(path) != home.place(path)
    && (|path| >= 2 && path[0] == "$defs" && own != map[] ==>
          && Resolve(home.doc, path) == (if path[1] in own then Resolve(own[path[1]], path[2..]) else None)
          && Resolve(after.doc, Moved(branch, path))
             == (match Resolve(home.doc, path)
                 case Some(found) => Some(Rewrite(found, Renaming(own, branch)))
                 case None => None)
          && (Resolve(home.doc, path).Some? ==> after.place(Moved(branch, path)) == home.place(path)))
  }

  ghost predicate Hoists(home: Reading, after: Reading, own: Fields, branch: nat) {
    && home.decode == after.decode && home.kind == after.kind && Decodes(home.decode)
    && forall path: Path :: HoistsAt(home, after, own, branch, path)
  }

  lemma RewrittenPath(home: Reading, own: Fields, branch: nat, at: Part, fields: Fields)
    requires Decodes(home.decode)
    ensures var after := Rewrite(Object(fields), Renaming(own, branch)).fields;
      var path := PathOf(home.decode, at, fields);
      if Rewritten(fields, own) && at.Schema?
      then path.Some? && |path.value| >= 2 && path.value[0] == "$defs"
           && PathOf(home.decode, at, after) == Some(Moved(branch, path.value))
           && path == Pointer(home.decode, PREFIX + Reference(fields).value)
      else PathOf(home.decode, at, after) == path
  {
    if Rewritten(fields, own) {
      var reference := fields["$ref"].s;
      assert reference == PREFIX + Reference(fields).value;
      RenamedPointer(home.decode, branch, Reference(fields).value);
    }
  }

  // ---------------------------------------------------------- meaning is kept

  /** The rewritten value means after the merge what the value meant at home. */
  predicate Kept(home: Reading, after: Reading, renamed: map<string, string>, at: Part, v: Value, depth: nat) {
    Unfold(after, at, Rewrite(v, renamed), depth) == Unfold(home, at, v, depth)
  }

  /** Everything a safe schema can lead to, rewritten, leads to the same places with the same schemas there. */
  lemma {:induction false} RewriteMeans(home: Reading, after: Reading, own: Fields, branch: nat, names: set<string>,
                                        at: Part, v: Value, depth: nat)
    requires Hoists(home, after, own, branch) && Settled(home, after, own, names)
    requires Safe(home, after, own, at, v) && MentionsOnly(home.kind, own, at, v, names)
    ensures Kept(home, after, Renaming(own, branch), at, v, depth)
    decreases depth, 2, v
  {
    var renamed := Renaming(own, branch);
    if at.Data? {
      UntouchedExactly(own, branch, v);
    } else if Structured(at) {
      PartsMention(home.kind, own, at, v, names);
      match v
      case Array(items) =>
        forall i | 0 <= i < |items| ensures Kept(home, after, renamed, Schema, items[i], depth) {
          RewriteMeans(home, after, own, branch, names, Schema, items[i], depth);
        }
        ItemsMean(home, after, renamed, at, items, depth);
      case Object(fields) =>
        forall k | k in fields ensures Kept(home, after, renamed, Below(home.kind, at, k), fields[k], depth) {
          RewriteMeans(home, after, own, branch, names, Below(home.kind, at, k), fields[k], depth);
        }
        FieldsMean(home, after, own, branch, at, fields, depth);
        FoundMeans(home, after, own, branch, names, at, fields, depth);
      case _ =>
    }
  }

  /** The references of an object lead, rewritten, to the same place with the same schema there. */
  predicate TargetKept(home: Reading, after: Reading, own: Fields, branch: nat, at: Part, fields: Fields, depth: nat)
    requires Structured(at)
  {
    Unfold(after, at, Rewrite(Object(fields), Renaming(own, branch)), depth).target
            == Unfold(home, at, Object(fields), depth).target
  }

  lemma {:induction false} FoundMeans(home: Reading, after: Reading, own: Fields, branch: nat, names: set<string>,
                                      at: Part, fields: Fields, depth: nat)
    requires Hoists(home, after, own, branch) && Settled(home, after, own, names) && Structured(at)
    requires SafeReference(home, after, own, at, fields) && MentionsOnly(home.kind, own, at, Object(fields), names)
    ensures TargetKept(home, after, own, branch, at, fields, depth)
    decreases depth, 1
  {
    var found := Found(home, at, fields);
    if depth > 0 && found.Some? {
      FoundSettled(home, after, own, branch, names, at, fields);
      DeepTarget(home, after, own, branch, names, at, fields, depth, found.value);
    } else {
      ShallowTarget(home, after, own, branch, at, fields, depth);
    }
  }

  /** The schema an object's reference leads to. */
  function Found(home: Reading, at: Part, fields: Fields): Option<Value> {
    match PathOf(home.decode, at, fields)
    case Some(path) => Resolve(home.doc, path)
    case None => None
  }

  /** A safe reference that leads somewhere is a mentioned name, so what it leads to is safe and mentions no other
    * names. */
  lemma FoundSettled(home: Reading, after: Reading, own: Fields, branch: nat, names: set<string>, at: Part,
                     fields: Fields)
    requires Hoists(home, after, own, branch) && Settled(home, after, own, names)
    requires SafeReference(home, after, own, at, fields) && Found(home, at, fields).Some?
    requires MentionsOnly(home.kind, own, at, Object(fields), names)
    ensures Safe(home, after, own, Schema, Found(home, at, fields).value)
    ensures MentionsOnly(home.kind, own, Schema, Found(home, at, fields).value, names)
  {
    assert Rewritten(fields, own) && at.Schema?;
    RewrittenPath(home, own, branch, at, fields);
    var name := Reference(fields).value;
    assert Mentions(home.kind, at, Object(fields), name);
    assert TargetOf(home, name) == Found(home, at, fields);
    assert SafeName(home, after, own, name);
    forall n | n in own && Mentions(home.kind, Schema, Found(home, at, fields).value, n) ensures n in names {
      assert Leads(home, name, n);
    }
  }

  lemma ItemsMean(home: Reading, after: Reading, renamed: map<string, string>, at: Part, items: seq<Value>, depth: nat)
    requires Structured(at) && forall i | 0 <= i < |items| :: Kept(home, after, renamed, Schema, items[i], depth)
    ensures Kept(home, after, renamed, at, Array(items), depth)
  {
    assert Unfold(after, at, Rewrite(Array(items), renamed), depth).items
            == Unfold(home, at, Array(items), depth).items;
  }

  lemma FieldsMean(home: Reading, after: Reading, own: Fields, branch: nat, at: Part, fields: Fields, depth: nat)
    requires Hoists(home, after, own, branch) && Structured(at) && SafeReference(home, after, own, at, fields)
    requires forall k | k in fields :: Kept(home, after, Renaming(own, branch), Below(home.kind, at, k), fields[k],
                                            depth)
    ensures Unfold(after, at, Rewrite(Object(fields), Renaming(own, branch)), depth).fields
            == Unfold(home, at, Object(fields), depth).fields
  {
    RewrittenPath(home, own, branch, at, fields);
  }

  lemma ShallowTarget(home: Reading, after: Reading, own: Fields, branch: nat, at: Part, fields: Fields, depth: nat)
    requires Hoists(home, after, own, branch) && Structured(at) && SafeReference(home, after, own, at, fields)
    requires depth == 0 || Found(home, at, fields).None?
    ensures TargetKept(home, after, own, branch, at, fields, depth)
  {
    RewrittenPath(home, own, branch, at, fields);
    var path := PathOf(home.decode, at, fields);
    if path.Some? { assert HoistsAt(home, after, own, branch, path.value); }
  }

  lemma {:induction false} DeepTarget(home: Reading, after: Reading, own: Fields, branch: nat, names: set<string>,
                                      at: Part, fields: Fields, depth: nat, found: Value)
    requires Hoists(home, after, own, branch) && Settled(home, after, own, names) && Structured(at)
    requires SafeReference(home, after, own, at, fields) && depth > 0 && Found(home, at, fields) == Some(found)
    requires Safe(home, after, own, Schema, found) && MentionsOnly(home.kind, own, Schema, found, names)
    ensures TargetKept(home, after, own, branch, at, fields, depth)
    decreases depth, 0
  {
    RewriteMeans(home, after, own, branch, names, Schema, found, depth - 1);
    RewrittenPath(home, own, branch, at, fields);
    assert HoistsAt(home, after, own, branch, PathOf(home.decode, at, fields).value);
  }

  // ---------------------------------------------------------- meaning is lost

  /** An unsafe reference leads elsewhere at once, and touched data differs at once. */
  lemma {:induction false} UnsafeDiffers(home: Reading, after: Reading, own: Fields, branch: nat, at: Part, v: Value,
                                        depth: nat)
    requires Hoists(home, after, own, branch) && !Safe(home, after, own, at, v)
    ensures !Kept(home, after, Renaming(own, branch), at, v, depth)
    decreases v
  {
    if at.Data? {
      UntouchedExactly(own, branch, v);
    } else {
      match v
      case Array(items) =>
        var i :| 0 <= i < |items| && !Safe(home, after, own, Schema, items[i]);
        UnsafeDiffers(home, after, own, branch, Schema, items[i], depth);
        ItemDiffers(home, after, Renaming(own, branch), at, items, i, depth);
      case Object(fields) =>
        if !SafeReference(home, after, own, at, fields) {
          UnsafeTarget(home, after, own, branch, at, fields, depth);
        } else {
          var k :| k in fields && !Safe(home, after, own, Below(home.kind, at, k), fields[k]);
          UnsafeDiffers(home, after, own, branch, Below(home.kind, at, k), fields[k], depth);
          FieldDiffers(home, after, own, branch, at, fields, k, depth);
        }
      case _ =>
    }
  }

  lemma ItemDiffers(home: Reading, after: Reading, renamed: map<string, string>, at: Part, items: seq<Value>, i: nat,
                    depth: nat)
    requires Structured(at) && i < |items| && !Kept(home, after, renamed, Schema, items[i], depth)
    ensures !Kept(home, after, renamed, at, Array(items), depth)
  {
    var x, y := Unfold(after, at, Rewrite(Array(items), renamed), depth).items,
        Unfold(home, at, Array(items), depth).items;
    assert x[i] == Unfold(after, Schema, Rewrite(items[i], renamed), depth);
    assert y[i] == Unfold(home, Schema, items[i], depth);
  }

  lemma UnsafeTarget(home: Reading, after: Reading, own: Fields, branch: nat, at: Part, fields: Fields, depth: nat)
    requires Hoists(home, after, own, branch) && Structured(at) && !SafeReference(home, after, own, at, fields)
    ensures !Kept(home, after, Renaming(own, branch), at, Object(fields), depth)
  {
    RewrittenPath(home, own, branch, at, fields);
    var path := PathOf(home.decode, at, fields);
    if path.Some? {
      assert HoistsAt(home, after, own, branch, path.value);
    } else {
      NameDiffers(home, after, own, branch, fields, depth);
    }
  }

  /** A rewritten text under the name `$ref` of a map shows. */
  lemma NameDiffers(home: Reading, after: Reading, own: Fields, branch: nat, fields: Fields, depth: nat)
    requires Rewritten(fields, own)
    ensures !Kept(home, after, Renaming(own, branch), Names, Object(fields), depth)
  {
    var name := Reference(fields).value;
    var x, y := Rewrite(Object(fields), Renaming(own, branch)).fields["$ref"], fields["$ref"];
    RenamedDiffers(branch, name);
    assert x.s[|PREFIX|..] == Renamed(branch, name) && y.s[|PREFIX|..] == name;
    assert Unfold(after, Names, Rewrite(Object(fields), Renaming(own, branch)), depth).fields["$ref"] == Leaf(x);
    assert Unfold(home, Names, Object(fields), depth).fields["$ref"] == Leaf(y);
  }

  /** A field that is shown and differs makes the object differ. */
  lemma FieldDiffers(home: Reading, after: Reading, own: Fields, branch: nat, at: Part, fields: Fields, k: string,
                     depth: nat)
    requires Hoists(home, after, own, branch) && Structured(at) && k in fields && !fields[k].String?
    requires !Kept(home, after, Renaming(own, branch), Below(home.kind, at, k), fields[k], depth)
    ensures !Kept(home, after, Renaming(own, branch), at, Object(fields), depth)
  {
    RewrittenPath(home, own, branch, at, fields);
    var x := Unfold(after, at, Rewrite(Object(fields), Renaming(own, branch)), depth).fields;
    var y := Unfold(home, at, Object(fields), depth).fields;
    assert x[k] == Unfold(after, Below(home.kind, at, k), Rewrite(fields[k], Renaming(own, branch)), depth);
    assert y[k] == Unfold(home, Below(home.kind, at, k), fields[k], depth);
  }

  // -------------------------------------------------- what is mentioned matters

  /** When a schema is kept one step deeper, what it mentions is kept. */
  lemma {:induction false} MentionedKept(home: Reading, after: Reading, own: Fields, branch: nat, at: Part, v: Value,
                                         name: string, depth: nat)
    requires Hoists(home, after, own, branch) && Kept(home, after, Renaming(own, branch), at, v, depth + 1)
    requires name in own && Mentions(home.kind, at, v, name) && TargetOf(home, name).Some?
    ensures Kept(home, after, Renaming(own, branch), Schema, TargetOf(home, name).value, depth)
    decreases v
  {
    var renamed := Renaming(own, branch);
    match v
    case Array(items) =>
      var i :| 0 <= i < |items| && Mentions(home.kind, Schema, items[i], name);
      if !Kept(home, after, renamed, Schema, items[i], depth + 1) {
        ItemDiffers(home, after, renamed, at, items, i, depth + 1);
      }
      MentionedKept(home, after, own, branch, Schema, items[i], name, depth);
    case Object(fields) =>
      if at.Schema? && Reference(fields) == Some(name) {
        FollowedKept(home, after, own, branch, fields, depth);
      } else {
        var k :| k in fields && Mentions(home.kind, Below(home.kind, at, k), fields[k], name);
        if !Kept(home, after, renamed, Below(home.kind, at, k), fields[k], depth + 1) {
          FieldDiffers(home, after, own, branch, at, fields, k, depth + 1);
        }
        MentionedKept(home, after, own, branch, Below(home.kind, at, k), fields[k], name, depth);
      }
    case _ =>
  }

  lemma FollowedKept(home: Reading, after: Reading, own: Fields, branch: nat, fields: Fields, depth: nat)
    requires Hoists(home, after, own, branch)
    requires Kept(home, after, Renaming(own, branch), Schema, Object(fields), depth + 1)
    requires Rewritten(fields, own) && TargetOf(home, Reference(fields).value).Some?
    ensures Kept(home, after, Renaming(own, branch), Schema, TargetOf(home, Reference(fields).value).value, depth)
  {
    RewrittenPath(home, own, branch, Schema, fields);
    var path := PathOf(home.decode, Schema, fields).value;
    assert HoistsAt(home, after, own, branch, path);
    var x := Unfold(after, Schema, Rewrite(Object(fields), Renaming(own, branch)), depth + 1).target;
    var y := Unfold(home, Schema, Object(fields), depth + 1).target;
    assert x.tree == y.tree;
  }

  /** What a name leads to is kept, to every depth. */
  ghost predicate NameKept(home: Reading, after: Reading, own: Fields, branch: nat, name: string) {
    TargetOf(home, name).Some? ==>
      forall depth: nat :: Kept(home, after, Renaming(own, branch), Schema, TargetOf(home, name).value, depth)
  }

  lemma MentionKept(home: Reading, after: Reading, own: Fields, branch: nat, v: Value, name: string)
    requires Hoists(home, after, own, branch)
    requires forall depth: nat :: Kept(home, after, Renaming(own, branch), Schema, v, depth)
    requires name in own && Mentions(home.kind, Schema, v, name)
    ensures NameKept(home, after, own, branch, name)
  {
    if TargetOf(home, name).Some? {
      forall depth: nat ensures Kept(home, after, Renaming(own, branch), Schema, TargetOf(home, name).value, depth) {
        MentionedKept(home, after, own, branch, Schema, v, name, depth);
      }
    }
  }

  /** From kept names only kept names are reached. */
  lemma {:induction false} ReachedKept(home: Reading, after: Reading, own: Fields, branch: nat, names: set<string>)
    requires Hoists(home, after, own, branch) && names <= own.Keys
    requires forall m | m in names :: NameKept(home, after, own, branch, m)
    ensures forall n | n in Reached(home, own, names) :: NameKept(home, after, own, branch, n)
    decreases own.Keys - names
  {
    var more := names + set n | n in own && exists m | m in names :: Leads(home, m, n);
    if more != names {
      forall n | n in more ensures NameKept(home, after, own, branch, n) {
        if n !in names {
          var m :| m in names && Leads(home, m, n);
          MentionKept(home, after, own, branch, TargetOf(home, m).value, n);
        }
      }
      ReachedKept(home, after, own, branch, more);
    }
  }

  // ------------------------------------------------------------------ exactly

  /** The schema and everything its rewritten references lead to are safe. */
  predicate SafeThrough(home: Reading, after: Reading, own: Fields, v: Value) {
    && Safe(home, after, own, Schema, v)
    && forall n | n in Reached(home, own, Mentioned(home, own, v)) :: SafeName(home, after, own, n)
  }

  /** A schema is kept to every depth if and only if it is safe through all its references. */
  lemma KeptExactly(home: Reading, after: Reading, own: Fields, branch: nat, v: Value)
    requires Hoists(home, after, own, branch)
    ensures (forall depth: nat :: Kept(home, after, Renaming(own, branch), Schema, v, depth)) <==>
            SafeThrough(home, after, own, v)
  {
    if SafeThrough(home, after, own, v) {
      SafeKept(home, after, own, branch, v);
    } else if forall depth: nat :: Kept(home, after, Renaming(own, branch), Schema, v, depth) {
      KeptSafe(home, after, own, branch, v);
    }
  }

  lemma SafeKept(home: Reading, after: Reading, own: Fields, branch: nat, v: Value)
    requires Hoists(home, after, own, branch) && SafeThrough(home, after, own, v)
    ensures forall depth: nat :: Kept(home, after, Renaming(own, branch), Schema, v, depth)
  {
    var names := Reached(home, own, Mentioned(home, own, v));
    ReachedClosed(home, own, Mentioned(home, own, v));
    forall depth: nat ensures Kept(home, after, Renaming(own, branch), Schema, v, depth) {
      RewriteMeans(home, after, own, branch, names, Schema, v, depth);
    }
  }

  lemma KeptSafe(home: Reading, after: Reading, own: Fields, branch: nat, v: Value)
    requires Hoists(home, after, own, branch)
    requires forall depth: nat :: Kept(home, after, Renaming(own, branch), Schema, v, depth)
    ensures SafeThrough(home, after, own, v)
  {
    assert Safe(home, after, own, Schema, v) by { KeptAtOnce(home, after, own, branch, v); }
    forall n | n in Mentioned(home, own, v) ensures NameKept(home, after, own, branch, n) {
      MentionKept(home, after, own, branch, v, n);
    }
    ReachedKept(home, after, own, branch, Mentioned(home, own, v));
    forall n | n in Reached(home, own, Mentioned(home, own, v)) ensures SafeName(home, after, own, n) {
      assert NameKept(home, after, own, branch, n);
      if TargetOf(home, n).Some? { KeptAtOnce(home, after, own, branch, TargetOf(home, n).value); }
    }
  }

  lemma KeptAtOnce(home: Reading, after: Reading, own: Fields, branch: nat, v: Value)
    requires Hoists(home, after, own, branch) && Kept(home, after, Renaming(own, branch), Schema, v, 0)
    ensures Safe(home, after, own, Schema, v)
  {
    if !Safe(home, after, own, Schema, v) { UnsafeDiffers(home, after, own, branch, Schema, v, 0); }
  }
}
