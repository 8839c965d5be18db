/** The canonical JSON encoder: its bytes are JSON for the value, and so identify it. */
module Canonical {
  import opened Text
  import opened Lexeme
  import opened Json
  import opened Readers
  import opened ReadBacks

  datatype CanonicalError = IntegerOutOfRange | FloatOutOfRange

  // --------------------------------------------------------- specification

  function NumberFault(n: Number): Option<CanonicalError> {
    if n.Integer? && !(I64_MIN <= n.n <= U64_MAX) then Some(IntegerOutOfRange)
    else if n.Infinite? then Some(FloatOutOfRange)
    else None
  }

  /** The first number, in writing order, that has no canonical text. */
  ghost function Fault(v: Value): Option<CanonicalError>
    decreases v, 1
  {
    match v
    case Number(n) => NumberFault(n)
    case Array(_) => FirstFault(ItemFaults(v))
    case Object(fields) => FirstFault(MemberFaults(v, Sorted(fields.Keys)))
    case _ => None
  }

  ghost function ItemFaults(v: Value): (r: seq<Option<CanonicalError>>)
    requires v.Array?
    ensures |r| == |v.items|
    decreases v, 0
  {
    seq(|v.items|, i requires 0 <= i < |v.items| => Fault(v.items[i]))
  }

  ghost function MemberFaults(v: Value, keys: seq<string>): (r: seq<Option<CanonicalError>>)
    requires v.Object? && Elements(keys) == v.fields.Keys
    ensures |r| == |keys|
    decreases v, 0
  {
    assert forall k | k in keys :: k in Elements(keys);
    seq(|keys|, i requires 0 <= i < |keys| => Fault(v.fields[keys[i]]))
  }

  function FirstFault(faults: seq<Option<CanonicalError>>): Option<CanonicalError> {
    if faults == [] then None else if faults[0].Some? then faults[0] else FirstFault(faults[1..])
  }

  /** The parts with one comma between neighbours. */
  function Join(parts: seq<seq<byte>>): seq<byte> {
    if parts == [] then [] else if |parts| == 1 then parts[0] else parts[0] + [44] + Join(parts[1..])
  }

  ghost function Encode(v: Value): seq<byte>
    decreases v, 1
  {
    match v
    case Null => [110, 117, 108, 108]
    case Bool(b) => if b then [116, 114, 117, 101] else [102, 97, 108, 115, 101]
    case Number(n) => NumberText(n)
    case String(s) => StringText(s)
    case Array(items) => [91] + Join(ItemTexts(v)) + [93]
    case Object(fields) => [123] + Join(MemberTexts(v, Sorted(fields.Keys))) + [125]
  }

  ghost function ItemTexts(v: Value): (r: seq<seq<byte>>)
    requires v.Array?
    ensures |r| == |v.items|
    decreases v, 0
  {
    seq(|v.items|, i requires 0 <= i < |v.items| => Encode(v.items[i]))
  }

  ghost function MemberTexts(v: Value, keys: seq<string>): (r: seq<seq<byte>>)
    requires v.Object? && Elements(keys) == v.fields.Keys
    ensures |r| == |keys|
    decreases v, 0
  {
    assert forall k | k in keys :: k in Elements(keys);
    seq(|keys|, i requires 0 <= i < |keys| => MemberText(keys[i], v.fields[keys[i]]))
  }

  ghost function MemberText(key: string, v: Value): seq<byte>
    decreases v, 2
  {
    StringText(key) + [58] + Encode(v)
  }

  ghost predicate Encodable(v: Value) {
    Fault(v).None?
  }

  lemma {:induction false} FirstFaultNone(faults: seq<Option<CanonicalError>>)
    ensures FirstFault(faults).None? <==> forall i | 0 <= i < |faults| :: faults[i].None?
  {
    if faults != [] {
      FirstFaultNone(faults[1..]);
      assert forall i | 1 <= i < |faults| :: faults[i] == faults[1..][i - 1];
      if faults[0].None? && FirstFault(faults[1..]).None? {
        forall i | 0 <= i < |faults| ensures faults[i].None? {
          if i > 0 { assert faults[i] == faults[1..][i - 1]; }
        }
      }
    }
  }

  /** A value encodes exactly when each of its parts does. */
  lemma EncodableParts(v: Value)
    ensures v.Array? ==> (Encodable(v) <==> forall i | 0 <= i < |v.items| :: Encodable(v.items[i]))
    ensures v.Object? ==> (Encodable(v) <==> forall k | k in v.fields :: Encodable(v.fields[k]))
  {
    match v
    case Array(items) =>
      var faults := ItemFaults(v);
      FirstFaultNone(faults);
      assert forall i | 0 <= i < |items| :: faults[i] == Fault(items[i]);
    case Object(fields) =>
      MembersFaultless(v, Sorted(fields.Keys));
    case _ =>
  }

  lemma MembersFaultless(v: Value, keys: seq<string>)
    requires v.Object? && Elements(keys) == v.fields.Keys
    ensures FirstFault(MemberFaults(v, keys)).None? <==> forall k | k in v.fields :: Encodable(v.fields[k])
  {
    var faults := MemberFaults(v, keys);
    FirstFaultNone(faults);
    forall i | 0 <= i < |keys| ensures keys[i] in v.fields && faults[i] == Fault(v.fields[keys[i]]) {
      assert keys[i] in Elements(keys);
    }
    forall k | k in v.fields ensures exists i :: 0 <= i < |keys| && keys[i] == k && faults[i] == Fault(v.fields[k]) {
      assert k in Elements(keys);
    }
  }

  // ------------------------------------------------------------ reading back

  lemma {:induction false} HeadByte(v: Value)
    requires Encodable(v)
    ensures Encode(v) != []
    ensures var b := Encode(v)[0];
      match v
      case Null => b == 110
      case Bool(t) => b == if t then 116 else 102
      case Number(_) => IsDigit(b) || b == 45
      case String(_) => b == 34
      case Array(_) => b == 91
      case Object(_) => b == 123
  {
    match v
    case Number(n) => NumberBytes(n);
    case _ =>
  }

  /** Nothing to skip in front of a value, and nothing that would close a list. */
  lemma HeadStays(v: Value, x: seq<byte>)
    requires Encodable(v)
    ensures Skip(Encode(v) + x) == Encode(v) + x && !Starts(Encode(v) + x, 93) && !Starts(Encode(v) + x, 125)
  {
    HeadByte(v);
    assert (Encode(v) + x)[0] == Encode(v)[0];
  }

  lemma LiteralReads(v: Value, x: seq<byte>)
    requires v.Null? || v.Bool?
    ensures ReadValue(Encode(v) + x) == Some((v, x))
  {
    var s := Encode(v) + x;
    HeadStays(v, x);
    assert s[|Encode(v)|..] == x && Encode(v) <= s;
    assert s[0] == Encode(v)[0];
  }

  lemma NumberReads(n: Number, x: seq<byte>)
    requires NumberFault(n).None? && Delimited(x)
    ensures ReadValue(NumberText(n) + x) == Some((Number(PlainNumber(n)), x))
  {
    var s := NumberText(n) + x;
    HeadStays(Number(n), x);
    HeadByte(Number(n));
    assert s[0] == NumberText(n)[0];
    NumberBack(n, x);
  }

  lemma StringReads(t: string, x: seq<byte>)
    ensures ReadValue(StringText(t) + x) == Some((String(t), x))
  {
    var s := StringText(t) + x;
    HeadStays(String(t), x);
    assert s[1..] == EscapeAll(t) + [34] + x;
    StringBack(t, x);
  }

  lemma {:induction false} JoinStep(parts: seq<seq<byte>>, close: byte, x: seq<byte>)
    requires parts != []
    ensures Join(parts) + [close] + x ==
            parts[0] + (if |parts| == 1 then [close] + x else [44] + (Join(parts[1..]) + [close] + x))
  {
    if |parts| > 1 {
      var p, rest := parts[0], Join(parts[1..]);
      assert Join(parts) == p + [44] + rest;
      assert p + [44] + rest + [close] + x == p + ([44] + (rest + [close] + x));
    }
  }

  /** What follows the first part: the end of the list, or a comma and the other parts. */
  function AfterFirst(parts: seq<seq<byte>>, close: byte, x: seq<byte>): seq<byte>
    requires parts != []
  {
    if |parts| == 1 then [close] + x else [44] + (Join(parts[1..]) + [close] + x)
  }

  lemma AfterStays(parts: seq<seq<byte>>, close: byte, x: seq<byte>)
    requires parts != [] && (close == 93 || close == 125)
    ensures var after := AfterFirst(parts, close, x);
      && Delimited(after) && Skip(after) == after
      && Starts(after, if |parts| == 1 then close else 44)
      && after[1..] == if |parts| == 1 then x else Join(parts[1..]) + [close] + x
  {
  }

  lemma ItemsLast(s: seq<byte>, v: Value, x: seq<byte>)
    requires ReadValue(s) == Some((v, [93] + x))
    ensures ReadItems(s) == Some(([v], x))
  {
    assert Skip([93] + x) == [93] + x && ([93] + x)[1..] == x;
  }

  lemma ItemsMore(s: seq<byte>, v: Value, rest: seq<byte>, more: seq<Value>, x: seq<byte>)
    requires ReadValue(s) == Some((v, [44] + rest)) && ReadItems(rest) == Some((more, x))
    ensures ReadItems(s) == Some(([v] + more, x))
  {
    assert Skip([44] + rest) == [44] + rest && ([44] + rest)[1..] == rest;
  }

  lemma MembersLast(s: seq<byte>, key: string, v: Value, x: seq<byte>)
    requires ReadMember(s) == Some(((key, v), [125] + x))
    ensures ReadMembers(s) == Some((map[key := v], x))
  {
    assert Skip([125] + x) == [125] + x && ([125] + x)[1..] == x;
  }

  lemma MembersMore(s: seq<byte>, key: string, v: Value, rest: seq<byte>, more: map<string, Value>, x: seq<byte>)
    requires ReadMember(s) == Some(((key, v), [44] + rest)) && ReadMembers(rest) == Some((more, x))
    ensures ReadMembers(s) == Some((map[key := v] + more, x))
  {
    assert Skip([44] + rest) == [44] + rest && ([44] + rest)[1..] == rest;
  }

  lemma BracketReads(rest: seq<byte>, items: seq<Value>, x: seq<byte>)
    requires Skip(rest) == rest
    requires if items == [] then rest == [93] + x else !Starts(rest, 93) && ReadItems(rest) == Some((items, x))
    ensures ReadValue([91] + rest) == Some((Array(items), x))
  {
    var s := [91] + rest;
    assert Skip(s) == s && s[1..] == rest;
    if items == [] { assert rest[1..] == x; }
  }

  lemma BraceReads(rest: seq<byte>, fields: map<string, Value>, x: seq<byte>)
    requires Skip(rest) == rest
    requires if fields == map[] then rest == [125] + x
             else !Starts(rest, 125) && ReadMembers(rest) == Some((fields, x))
    ensures ReadValue([123] + rest) == Some((Object(fields), x))
  {
    var s := [123] + rest;
    assert Skip(s) == s && s[1..] == rest;
    if fields == map[] { assert rest[1..] == x; }
  }

  /** The items from some point on. */
  function PlainFrom(items: seq<Value>, i: nat): seq<Value>
    requires i <= |items|
  {
    seq(|items| - i, j requires 0 <= j < |items| - i => Plain(items[i + j]))
  }

  lemma PlainNext(items: seq<Value>, i: nat)
    requires i < |items|
    ensures PlainFrom(items, i) == [Plain(items[i])] + PlainFrom(items, i + 1)
    ensures i + 1 == |items| ==> PlainFrom(items, i) == [Plain(items[i])]
  {
  }

  lemma {:induction false} ItemsRead(v: Value, i: nat, x: seq<byte>)
    requires v.Array? && Encodable(v) && i < |v.items|
    ensures ReadItems(Join(ItemTexts(v)[i..]) + [93] + x) == Some((PlainFrom(v.items, i), x))
    decreases v, 1, |v.items| - i
  {
    var parts := ItemTexts(v)[i..];
    var s := Join(parts) + [93] + x;
    PlainNext(v.items, i);
    EncodableParts(v);
    JoinStep(parts, 93, x);
    AfterStays(parts, 93, x);
    EncodedReads(v.items[i], AfterFirst(parts, 93, x));
    assert parts[1..] == ItemTexts(v)[i + 1..];
    if i + 1 < |v.items| {
      ItemsRead(v, i + 1, x);
      ItemsMore(s, Plain(v.items[i]), Join(parts[1..]) + [93] + x, PlainFrom(v.items, i + 1), x);
    } else {
      ItemsLast(s, Plain(v.items[i]), x);
    }
  }

  lemma {:induction false} ArrayReads(v: Value, x: seq<byte>)
    requires v.Array? && Encodable(v)
    ensures ReadValue(Encode(v) + x) == Some((Plain(v), x))
    decreases v, 2, 0
  {
    var parts := ItemTexts(v);
    var rest := Join(parts) + [93] + x;
    assert Encode(v) + x == [91] + rest;
    if parts == [] {
      assert rest == [93] + x;
    } else {
      EncodableParts(v);
      JoinStep(parts, 93, x);
      HeadStays(v.items[0], AfterFirst(parts, 93, x));
      assert parts[0..] == parts;
      ItemsRead(v, 0, x);
    }
    BracketReads(rest, PlainFrom(v.items, 0), x);
    assert Plain(v).items == PlainFrom(v.items, 0);
  }

  lemma MemberSplit(key: string, e: seq<byte>, x: seq<byte>)
    ensures var s := StringText(key) + [58] + e + x;
      && Starts(s, 34) && Skip(s) == s && s[1..] == EscapeAll(key) + [34] + ([58] + (e + x))
  {
    var s := StringText(key) + [58] + e + x;
    assert s == [34] + (EscapeAll(key) + [34] + ([58] + (e + x)));
  }

  lemma {:induction false} MemberReads(key: string, v: Value, x: seq<byte>)
    requires Encodable(v) && Delimited(x)
    ensures ReadMember(MemberText(key, v) + x) == Some(((key, Plain(v)), x))
    ensures Starts(MemberText(key, v) + x, 34) && Skip(MemberText(key, v) + x) == MemberText(key, v) + x
    decreases v, 4, 0
  {
    var rest := [58] + (Encode(v) + x);
    MemberSplit(key, Encode(v), x);
    StringBack(key, rest);
    assert Skip(rest) == rest && rest[1..] == Encode(v) + x;
    EncodedReads(v, x);
  }

  ghost function PlainMembersFrom(v: Value, keys: seq<string>, i: nat): map<string, Value>
    requires v.Object? && Elements(keys) == v.fields.Keys && i <= |keys|
  {
    assert forall k | k in keys :: k in Elements(keys);
    map k | k in keys[i..] :: Plain(v.fields[k])
  }

  lemma {:induction false} MembersRead(v: Value, keys: seq<string>, i: nat, x: seq<byte>)
    requires v.Object? && Encodable(v) && Elements(keys) == v.fields.Keys && Distinct(keys) && i < |keys|
    ensures ReadMembers(Join(MemberTexts(v, keys)[i..]) + [125] + x) == Some((PlainMembersFrom(v, keys, i), x))
    decreases v, 1, |keys| - i
  {
    var parts, key := MemberTexts(v, keys)[i..], keys[i];
    var s := Join(parts) + [125] + x;
    MembersNext(v, keys, i);
    EncodableParts(v);
    JoinStep(parts, 125, x);
    AfterStays(parts, 125, x);
    MemberReads(key, v.fields[key], AfterFirst(parts, 125, x));
    assert parts[1..] == MemberTexts(v, keys)[i + 1..];
    if i + 1 < |keys| {
      MembersRead(v, keys, i + 1, x);
      MembersMore(s, key, Plain(v.fields[key]), Join(parts[1..]) + [125] + x, PlainMembersFrom(v, keys, i + 1), x);
    } else {
      MembersLast(s, key, Plain(v.fields[key]), x);
    }
  }

  lemma MembersNext(v: Value, keys: seq<string>, i: nat)
    requires v.Object? && Elements(keys) == v.fields.Keys && Distinct(keys) && i < |keys|
    ensures keys[i] in v.fields
    ensures PlainMembersFrom(v, keys, i) == map[keys[i] := Plain(v.fields[keys[i]])] + PlainMembersFrom(v, keys, i + 1)
    ensures i + 1 == |keys| ==> PlainMembersFrom(v, keys, i) == map[keys[i] := Plain(v.fields[keys[i]])]
  {
    assert keys[i] in Elements(keys);
    assert keys[i..] == [keys[i]] + keys[i + 1..];
  }

  lemma {:induction false} ObjectReads(v: Value, keys: seq<string>, x: seq<byte>)
    requires v.Object? && Encodable(v) && Elements(keys) == v.fields.Keys && Distinct(keys)
    ensures ReadValue([123] + Join(MemberTexts(v, keys)) + [125] + x) == Some((Plain(v), x))
    decreases v, 2, 0
  {
    var parts := MemberTexts(v, keys);
    var rest := Join(parts) + [125] + x;
    AllMembers(v, keys);
    assert [123] + Join(parts) + [125] + x == [123] + rest;
    if keys == [] {
      assert rest == [125] + x;
    } else {
      FirstOpens(v, keys, x);
      assert parts[0..] == parts;
      MembersRead(v, keys, 0, x);
    }
    BraceReads(rest, Plain(v).fields, x);
  }

  lemma AllMembers(v: Value, keys: seq<string>)
    requires v.Object? && Elements(keys) == v.fields.Keys
    ensures Plain(v).fields == PlainMembersFrom(v, keys, 0) && (keys == [] <==> Plain(v).fields == map[])
  {
    assert keys[0..] == keys;
    assert forall k | k in v.fields :: k in Elements(keys);
    assert keys != [] ==> keys[0] in Elements(keys);
    assert Plain(v).fields.Keys == v.fields.Keys;
  }

  lemma FirstOpens(v: Value, keys: seq<string>, x: seq<byte>)
    requires v.Object? && Elements(keys) == v.fields.Keys && keys != []
    ensures var s := Join(MemberTexts(v, keys)) + [125] + x; Starts(s, 34) && Skip(s) == s
  {
    var parts, key := MemberTexts(v, keys), keys[0];
    assert key in Elements(keys);
    JoinStep(parts, 125, x);
    MemberSplit(key, Encode(v.fields[key]), AfterFirst(parts, 125, x));
  }

  lemma AscendingDistinct(keys: seq<string>)
    requires Ascending(keys)
    ensures Distinct(keys)
  {
    forall i, j | 0 <= i < j < |keys| ensures keys[i] != keys[j] { LessIrreflexive(keys[i]); }
  }

  /** Canonical bytes are JSON for the value: whatever delimited text follows, they read as it, up to the spelling of
    * floats. */
  lemma {:induction false} EncodedReads(v: Value, x: seq<byte>)
    requires Encodable(v) && Delimited(x)
    ensures ReadValue(Encode(v) + x) == Some((Plain(v), x))
    decreases v, 3, 0
  {
    match v
    case Null => LiteralReads(v, x);
    case Bool(_) => LiteralReads(v, x);
    case Number(n) => NumberReads(n, x);
    case String(t) => StringReads(t, x);
    case Array(_) => ArrayReads(v, x);
    case Object(fields) =>
      AscendingDistinct(Sorted(fields.Keys));
      ObjectReads(v, Sorted(fields.Keys), x);
  }

  /** The canonical text of a value is a JSON text of it and of nothing else. */
  lemma CanonicalReads(v: Value)
    requires Encodable(v)
    ensures ReadText(Encode(v)) == Some(Plain(v))
  {
    EncodedReads(v, []);
    assert Encode(v) + [] == Encode(v);
  }

  /** Equal bytes followed by delimited text come from values that differ at most in float spelling, and equal text. */
  lemma UniqueDecoding(v: Value, w: Value, x: seq<byte>, y: seq<byte>)
    requires Encodable(v) && Encodable(w)
    requires Delimited(x) && Delimited(y)
    requires Encode(v) + x == Encode(w) + y
    ensures Encode(v) == Encode(w) && Plain(v) == Plain(w) && x == y
  {
    EncodedReads(v, x);
    EncodedReads(w, y);
    SameLengthSplit(Encode(v), Encode(w), x, y);
  }

  /** Neither the fault nor the bytes of a value depend on how its floats are spelled. */
  lemma {:induction false} PlainEncodes(v: Value)
    ensures Fault(Plain(v)) == Fault(v) && Encode(Plain(v)) == Encode(v)
    decreases v
  {
    match v
    case Array(items) =>
      forall i | 0 <= i < |items|
        ensures Fault(Plain(items[i])) == Fault(items[i]) && Encode(Plain(items[i])) == Encode(items[i])
      {
        PlainEncodes(items[i]);
      }
      assert ItemFaults(Plain(v)) == ItemFaults(v);
      assert ItemTexts(Plain(v)) == ItemTexts(v);
    case Object(fields) =>
      forall k | k in fields
        ensures Fault(Plain(fields[k])) == Fault(fields[k]) && Encode(Plain(fields[k])) == Encode(fields[k])
      {
        PlainEncodes(fields[k]);
      }
      PlainMembers(v, Sorted(fields.Keys));
    case _ =>
  }

  lemma PlainMembers(v: Value, keys: seq<string>)
    requires v.Object? && Elements(keys) == v.fields.Keys
    requires forall k | k in v.fields ::
        Fault(Plain(v.fields[k])) == Fault(v.fields[k]) && Encode(Plain(v.fields[k])) == Encode(v.fields[k])
    ensures Plain(v).fields.Keys == v.fields.Keys
    ensures MemberFaults(Plain(v), keys) == MemberFaults(v, keys) && MemberTexts(Plain(v), keys) == MemberTexts(v, keys)
  {
    assert Plain(v).fields.Keys == v.fields.Keys;
    assert forall k | k in keys :: k in Elements(keys);
  }

  /** Canonical bytes identify a value exactly up to the spelling of its floats. */
  lemma EncodeInjective(v: Value, w: Value)
    requires Encodable(v) && Encodable(w)
    ensures Encode(v) == Encode(w) <==> Plain(v) == Plain(w)
  {
    if Encode(v) == Encode(w) { UniqueDecoding(v, w, [], []); }
    PlainEncodes(v);
    PlainEncodes(w);
  }

  // ----------------------------------------------------------------- writer

  class Buffer {
    var bytes: seq<byte>

    constructor ()
      ensures bytes == []
    {
      bytes := [];
    }

    method Push(more: seq<byte>)
      modifies this
      ensures bytes == old(bytes) + more
    {
      bytes := bytes + more;
    }
  }

  lemma {:induction false} JoinSnoc(parts: seq<seq<byte>>, p: seq<byte>)
    ensures Join(parts + [p]) == Join(parts) + (if parts == [] then [] else [44]) + p
  {
    if parts == [] {
      assert parts + [p] == [p];
    } else {
      assert (parts + [p])[1..] == parts[1..] + [p];
      JoinSnoc(parts[1..], p);
    }
  }

  /** What the writer has put out after `i` parts. */
  ghost function Prefix(open: byte, parts: seq<seq<byte>>, i: nat): seq<byte>
    requires i <= |parts|
  {
    [open] + Join(parts[..i])
  }

  function Comma(i: nat): seq<byte> {
    if i == 0 then [] else [44]
  }

  lemma PrefixNext(open: byte, parts: seq<seq<byte>>, i: nat)
    requires i < |parts|
    ensures Prefix(open, parts, i + 1) == Prefix(open, parts, i) + (Comma(i) + parts[i])
  {
    assert parts[..i + 1] == parts[..i] + [parts[i]];
    JoinSnoc(parts[..i], parts[i]);
  }

  /** Sorts the keys of an object into code-point order. */
  method SortKeys(names: set<string>) returns (keys: seq<string>)
    ensures keys == Sorted(names)
  {
    keys := [];
    var rest := names;
    while rest != {}
      invariant rest <= names && Elements(keys) == names - rest && Ascending(keys)
      decreases rest
    {
      var name :| name in rest;
      keys := InsertKey(keys, name);
      rest := rest - {name};
    }
    AscendingUnique(keys, Sorted(names));
  }

  method InsertKey(keys: seq<string>, name: string) returns (r: seq<string>)
    requires Ascending(keys) && name !in keys
    ensures Ascending(r) && Elements(r) == Elements(keys) + {name}
  {
    var i := 0;
    while i < |keys| && Less(keys[i], name)
      invariant 0 <= i <= |keys|
      invariant forall j | 0 <= j < i :: Less(keys[j], name)
    {
      i := i + 1;
    }
    r := keys[..i] + [name] + keys[i..];
    InsertAscending(keys, name, i);
  }

  lemma InsertAscending(keys: seq<string>, name: string, i: nat)
    requires Ascending(keys) && name !in keys && i <= |keys|
    requires forall j | 0 <= j < i :: Less(keys[j], name)
    requires i < |keys| ==> !Less(keys[i], name)
    ensures Ascending(keys[..i] + [name] + keys[i..])
    ensures Elements(keys[..i] + [name] + keys[i..]) == Elements(keys) + {name}
  {
    TailAbove(keys, name, i);
    AscendingConcat([name], keys[i..]);
    HeadBelow(keys, name, i);
    AscendingConcat(keys[..i], [name] + keys[i..]);
    assert keys[..i] + [name] + keys[i..] == keys[..i] + ([name] + keys[i..]);
    assert keys == keys[..i] + keys[i..];
  }

  lemma TailAbove(keys: seq<string>, name: string, i: nat)
    requires Ascending(keys) && name !in keys && i <= |keys| && (i < |keys| ==> !Less(keys[i], name))
    ensures Ascending(keys[i..]) && forall m | m in keys[i..] :: Less(name, m)
  {
    forall m | m in keys[i..] ensures Less(name, m) {
      var j :| i <= j < |keys| && keys[j] == m;
      LessTotal(keys[i], name);
      if i < j { LessTransitive(name, keys[i], keys[j]); }
    }
  }

  lemma HeadBelow(keys: seq<string>, name: string, i: nat)
    requires Ascending(keys) && i <= |keys| && forall j | 0 <= j < i :: Less(keys[j], name)
    requires forall m | m in keys[i..] :: Less(name, m)
    ensures Ascending(keys[..i]) && forall l, m | l in keys[..i] && m in [name] + keys[i..] :: Less(l, m)
  {
    forall l, m | l in keys[..i] && m in [name] + keys[i..] ensures Less(l, m) {
      var j :| 0 <= j < i && keys[j] == l;
      if m != name { LessTransitive(l, name, m); }
    }
  }

  lemma AscendingConcat(a: seq<string>, b: seq<string>)
    requires Ascending(a) && Ascending(b) && forall l, m | l in a && m in b :: Less(l, m)
    ensures Ascending(a + b)
  {
  }

  method WriteValue(v: Value, out: Buffer) returns (fault: Option<CanonicalError>)
    modifies out
    ensures fault == Fault(v)
    ensures fault.None? ==> out.bytes == old(out.bytes) + Encode(v)
    decreases v, 2
  {
    fault := None;
    match v
    case Null => out.Push([110, 117, 108, 108]);
    case Bool(b) => out.Push(if b then [116, 114, 117, 101] else [102, 97, 108, 115, 101]);
    case Number(n) =>
      fault := NumberFault(n);
      if fault.None? { out.Push(NumberText(n)); }
    case String(s) => out.Push(StringText(s));
    case Array(_) => fault := WriteItems(v, out);
    case Object(fields) =>
      var keys := SortKeys(fields.Keys);
      fault := WriteMembers(v, keys, out);
  }

  /** The text after `i` items, and the first fault from item `i` on. */
  lemma ItemStep(v: Value, i: nat)
    requires v.Array? && i < |v.items|
    ensures Prefix(91, ItemTexts(v), i + 1) == Prefix(91, ItemTexts(v), i) + (Comma(i) + Encode(v.items[i]))
    ensures FirstFault(ItemFaults(v)[i..]) ==
            if Fault(v.items[i]).Some? then Fault(v.items[i]) else FirstFault(ItemFaults(v)[i + 1..])
  {
    PrefixNext(91, ItemTexts(v), i);
    assert ItemFaults(v)[i..][1..] == ItemFaults(v)[i + 1..];
  }

  lemma MemberStep(v: Value, keys: seq<string>, i: nat)
    requires v.Object? && Elements(keys) == v.fields.Keys && i < |keys|
    ensures keys[i] in v.fields
    ensures Prefix(123, MemberTexts(v, keys), i + 1) ==
            Prefix(123, MemberTexts(v, keys), i) + (Comma(i) + MemberText(keys[i], v.fields[keys[i]]))
    ensures FirstFault(MemberFaults(v, keys)[i..]) ==
            var f := Fault(v.fields[keys[i]]); if f.Some? then f else FirstFault(MemberFaults(v, keys)[i + 1..])
  {
    assert keys[i] in Elements(keys);
    PrefixNext(123, MemberTexts(v, keys), i);
    assert MemberFaults(v, keys)[i..][1..] == MemberFaults(v, keys)[i + 1..];
  }

  lemma Assoc(a: seq<byte>, b: seq<byte>, c: seq<byte>)
    ensures a + b + c == a + (b + c)
  {
  }

  lemma PrefixBounds(open: byte, parts: seq<seq<byte>>)
    ensures Prefix(open, parts, 0) == [open] && Prefix(open, parts, |parts|) == [open] + Join(parts)
  {
    assert parts[..|parts|] == parts;
  }

  method WriteItems(v: Value, out: Buffer) returns (fault: Option<CanonicalError>)
    requires v.Array?
    modifies out
    ensures fault == Fault(v)
    ensures fault.None? ==> out.bytes == old(out.bytes) + Encode(v)
    decreases v, 1
  {
    PrefixBounds(91, ItemTexts(v));
    assert ItemFaults(v)[0..] == ItemFaults(v);
    out.Push([91]);
    for i := 0 to |v.items|
      invariant out.bytes == old(out.bytes) + Prefix(91, ItemTexts(v), i)
      invariant FirstFault(ItemFaults(v)[i..]) == Fault(v)
    {
      ItemStep(v, i);
      Assoc(old(out.bytes), Prefix(91, ItemTexts(v), i), Comma(i) + Encode(v.items[i]));
      fault := WriteItem(v, i, out);
      if fault.Some? { return; }
    }
    Assoc(old(out.bytes), Prefix(91, ItemTexts(v), |v.items|), [93]);
    out.Push([93]);
    fault := None;
  }

  method WriteItem(v: Value, i: nat, out: Buffer) returns (fault: Option<CanonicalError>)
    requires v.Array? && i < |v.items|
    modifies out
    ensures fault == Fault(v.items[i])
    ensures fault.None? ==> out.bytes == old(out.bytes) + (Comma(i) + Encode(v.items[i]))
    decreases v, 0
  {
    ghost var was := out.bytes;
    if i > 0 { out.Push([44]); }
    assert out.bytes == was + Comma(i);
    fault := WriteValue(v.items[i], out);
    Assoc(was, Comma(i), Encode(v.items[i]));
  }

  method WriteMembers(v: Value, keys: seq<string>, out: Buffer) returns (fault: Option<CanonicalError>)
    requires v.Object? && Elements(keys) == v.fields.Keys
    modifies out
    ensures fault == FirstFault(MemberFaults(v, keys))
    ensures fault.None? ==> out.bytes == old(out.bytes) + ([123] + Join(MemberTexts(v, keys)) + [125])
    decreases v, 1
  {
    PrefixBounds(123, MemberTexts(v, keys));
    assert MemberFaults(v, keys)[0..] == MemberFaults(v, keys);
    out.Push([123]);
    for i := 0 to |keys|
      invariant out.bytes == old(out.bytes) + Prefix(123, MemberTexts(v, keys), i)
      invariant FirstFault(MemberFaults(v, keys)[i..]) == FirstFault(MemberFaults(v, keys))
    {
      MemberStep(v, keys, i);
      Assoc(old(out.bytes), Prefix(123, MemberTexts(v, keys), i), Comma(i) + MemberText(keys[i], v.fields[keys[i]]));
      fault := WriteMember(v, keys[i], i, out);
      if fault.Some? { return; }
    }
    Assoc(old(out.bytes), Prefix(123, MemberTexts(v, keys), |keys|), [125]);
    out.Push([125]);
    fault := None;
  }

  method WriteMember(v: Value, key: string, i: nat, out: Buffer) returns (fault: Option<CanonicalError>)
    requires v.Object? && key in v.fields
    modifies out
    ensures fault == Fault(v.fields[key])
    ensures fault.None? ==> out.bytes == old(out.bytes) + (Comma(i) + MemberText(key, v.fields[key]))
    decreases v, 0
  {
    ghost var was := out.bytes;
    if i > 0 { out.Push([44]); }
    out.Push(StringText(key));
    out.Push([58]);
    ghost var head := StringText(key) + [58];
    assert out.bytes == was + (Comma(i) + head);
    fault := WriteValue(v.fields[key], out);
    Assoc(was, Comma(i) + head, Encode(v.fields[key]));
    Assoc(Comma(i), head, Encode(v.fields[key]));
  }

  method CanonicalJson(v: Value) returns (r: Result<seq<byte>, CanonicalError>)
    ensures r == CanonicalBytes(v)
    ensures r.Ok? ==> ReadText(r.value) == Some(Plain(v))
  {
    var out := new Buffer();
    if Encodable(v) { CanonicalReads(v); }
    var fault := WriteValue(v, out);
    assert [] + Encode(v) == Encode(v);
    r := if fault.Some? then Err(fault.value) else Ok(out.bytes);
  }

  ghost function CanonicalBytes(v: Value): Result<seq<byte>, CanonicalError> {
    if Encodable(v) then Ok(Encode(v)) else Err(Fault(v).value)
  }
}
