/** A serialization that obeys the laws the link theorems assume of serde. */
module SerdeLaws {
  import opened Text
  import opened Lexeme
  import opened Json
  import opened Validate

  function Num(n: int): Value { Number(Integer(n)) }

  function RoleValue(r: Role): Value {
    Num(match r case Source => 0 case Client => 1 case Provider => 2)
  }

  function SecondsValue(s: Seconds): Value {
    if s.Finite? then Array([Num(s.numerator), Num(s.denominator)]) else Null
  }

  function Mapped<T>(s: seq<T>, f: T -> Value): Value {
    Array(seq(|s|, i requires 0 <= i < |s| => f(s[i])))
  }

  function DeclValue(d: EventTypeDecl): Value { Array([String(d.eventType), String(d.schema)]) }

  function Optional<T>(o: Option<T>, f: T -> Value): Value {
    if o.Some? then Array([f(o.value)]) else Null
  }

  function ParamsValue(p: InitializeParams): map<string, Value> {
    map["all" := Array([
      Mapped(p.protocolVersions, (v: u64) => Num(v)), String(p.peer.name), String(p.peer.version),
      Mapped(p.roles, RoleValue),
      Optional(p.eventTypes, (d: seq<EventTypeDecl>) => Mapped(d, DeclValue)),
      Optional(p.methods, (m: seq<string>) => Mapped(m, (s: string) => String(s))),
      Optional(p.heartbeat, SecondsValue), Optional(p.maxInFlight, (n: u64) => Num(n))])]
  }

  function ResultValue(r: InitializeResult): Value {
    Array([Num(r.protocolVersion), String(r.runtime.name), String(r.runtime.version), Mapped(r.roles, RoleValue),
           Object(r.config), SecondsValue(r.heartbeat), Num(r.maxInFlight)])
  }

  lemma MappedInjective<T>(s: seq<T>, t: seq<T>, f: T -> Value)
    requires Mapped(s, f) == Mapped(t, f)
    requires forall i, j | 0 <= i < |s| && 0 <= j < |t| && f(s[i]) == f(t[j]) :: s[i] == t[j]
    ensures s == t
  {
    assert |s| == |Mapped(s, f).items| == |Mapped(t, f).items| == |t|;
    forall i | 0 <= i < |s| ensures s[i] == t[i] {
      assert Mapped(s, f).items[i] == f(s[i]) && Mapped(t, f).items[i] == f(t[i]);
    }
  }

  lemma ParamsValueInjective(p: InitializeParams, q: InitializeParams)
    requires ParamsValue(p) == ParamsValue(q)
    ensures p == q
  {
    var x, y := ParamsValue(p)["all"].items, ParamsValue(q)["all"].items;
    assert x[0] == y[0] && x[1] == y[1] && x[2] == y[2] && x[3] == y[3];
    assert x[4] == y[4] && x[5] == y[5] && x[6] == y[6] && x[7] == y[7];
    MappedInjective(p.protocolVersions, q.protocolVersions, (v: u64) => Num(v));
    MappedInjective(p.roles, q.roles, RoleValue);
    if p.eventTypes.Some? {
      assert x[4].items[0] == y[4].items[0];
      forall i, j | 0 <= i < |p.eventTypes.value| && 0 <= j < |q.eventTypes.value|
                    && DeclValue(p.eventTypes.value[i]) == DeclValue(q.eventTypes.value[j])
        ensures p.eventTypes.value[i] == q.eventTypes.value[j]
      {
        DeclInjective(p.eventTypes.value[i], q.eventTypes.value[j]);
      }
      MappedInjective(p.eventTypes.value, q.eventTypes.value, DeclValue);
    }
    if p.methods.Some? {
      assert x[5].items[0] == y[5].items[0];
      MappedInjective(p.methods.value, q.methods.value, (s: string) => String(s));
    }
    if p.heartbeat.Some? {
      assert x[6].items[0] == y[6].items[0];
      SecondsInjective(p.heartbeat.value, q.heartbeat.value);
    }
    if p.maxInFlight.Some? { assert x[7].items[0] == y[7].items[0]; }
  }

  lemma DeclInjective(d: EventTypeDecl, e: EventTypeDecl)
    requires DeclValue(d) == DeclValue(e)
    ensures d == e
  {
    var x, y := DeclValue(d).items, DeclValue(e).items;
    assert x[0] == y[0] && x[1] == y[1];
  }

  lemma SecondsInjective(s: Seconds, t: Seconds)
    requires SecondsValue(s) == SecondsValue(t)
    ensures s == t
  {
    if s.Finite? {
      var x, y := SecondsValue(s).items, SecondsValue(t).items;
      assert x[0] == y[0] && x[1] == y[1];
    }
  }

  lemma ResultValueInjective(q: InitializeResult, r: InitializeResult)
    requires ResultValue(q) == ResultValue(r)
    ensures q == r
  {
    var x, y := ResultValue(q).items, ResultValue(r).items;
    assert x[0] == y[0] && x[1] == y[1] && x[2] == y[2] && x[3] == y[3] && x[4] == y[4] && x[5] == y[5] && x[6] == y[6];
    MappedInjective(q.roles, r.roles, RoleValue);
    SecondsInjective(q.heartbeat, r.heartbeat);
  }

  ghost function ReadParams(m: map<string, Value>): Option<InitializeParams> {
    if exists p :: ParamsValue(p) == m then var p :| ParamsValue(p) == m; Some(p) else None
  }

  ghost function ReadResult(v: Value): Option<InitializeResult> {
    if exists r ::
        ResultValue(r) == v && r.heartbeat.Finite? then var r :| ResultValue(r) == v && r.heartbeat.Finite?; Some(r)
    else None
  }

  /** Some serialization obeys the laws, so they assume nothing impossible. */
  lemma LawsConsistent(size: Value -> nat) returns (lib: Serde)
    ensures Lawful(lib)
  {
    lib := Serde(size, ParamsValue, m => ReadParams(m), ResultValue, v => ReadResult(v));
    forall p: InitializeParams ensures lib.readParams(lib.writeParams(p)) == Some(p) {
      ParamsValueInjective(p, ReadParams(ParamsValue(p)).value);
    }
    forall r: InitializeResult
      ensures lib.readResult(lib.writeResult(r)) == if r.heartbeat.Finite? then Some(r) else None
    {
      if ReadResult(ResultValue(r)).Some? { ResultValueInjective(r, ReadResult(ResultValue(r)).value); }
    }
  }
}
