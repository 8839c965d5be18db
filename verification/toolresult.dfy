/** Tool results, their status, and the handles of control proposals. */
module ToolResults {
  import opened Text
  import opened Json
  import opened Hashing

  type Fields = map<string, Value>

  // ------------------------------------------------------------------ results

  predicate OkIs(result: Fields, ok: bool) {
    "ok" in result && result["ok"] == Bool(ok)
  }

  predicate HasError(result: Fields) {
    "error" in result && result["error"].Object?
  }

  function ErrorOf(code: string, message: string): Value {
    Object(map["code" := String(code), "message" := String(message)])
  }

  function ToolError(code: string, message: string): Fields {
    map["ok" := Bool(false), "error" := ErrorOf(code, message)]
  }

  /** An executor's answer, completed so that it says whether it succeeded and carries an error when it did not. */
  function Validated(result: Fields, capability: string): Fields {
    var invalid := ErrorOf("invalid-capability-result", "capability " + capability + " returned an invalid result");
    if OkIs(result, true) || (OkIs(result, false) && HasError(result)) then result
    else result["ok" := Bool(false)]["error" := invalid]
  }

  function Normalized(result: Fields, name: string, text: Fields -> string): Fields {
    if !OkIs(result, false) || HasError(result) || text(result) == "" then result
    else result["error" := ErrorOf((if name == "" then "tool" else name) + "-failed", text(result))]
  }

  lemma ValidatedSettled(result: Fields, capability: string)
    ensures var r := Validated(result, capability); OkIs(r, true) || (OkIs(r, false) && HasError(r))
  {
  }

  /** Once an answer is validated, the text fallback never applies. */
  lemma NormalizeIdle(result: Fields, capability: string, name: string, text: Fields -> string)
    ensures Normalized(Validated(result, capability), name, text) == Validated(result, capability)
  {
    ValidatedSettled(result, capability);
  }

  const REFUSED: set<string> :=
    {"direct-execution-disallowed", "disallowed-tool", "invalid-json-args", "invalid-tool-call", "schema-mismatch",
     "staging-unsupported", "unknown-tool"}

  function CodeOf(result: Fields): string {
    if !HasError(result) then "" else
      match AsStr(Get(result["error"].fields, "code"))
      case Some(code) => code
      case None => ""
  }

  function StatusOf(result: Fields): string {
    if OkIs(result, true) then "completed" else if CodeOf(result) in REFUSED then "refused" else "failed"
  }

  predicate Terminal(status: string) {
    status == "completed" || status == "failed" || status == "refused" || status == "cancelled" || status == "timed_out"
  }

  lemma StatusTerminal(result: Fields)
    ensures Terminal(StatusOf(result))
  {
  }

  // ------------------------------------------------------------------ handles

  function Bytes(s: string): seq<byte> {
    if s == [] then [] else Utf8(s[0]) + Bytes(s[1..])
  }

  lemma {:induction false} BytesInjective(a: string, b: string)
    requires Bytes(a) == Bytes(b)
    ensures a == b
  {
    if a != [] && b != [] {
      Utf8Prefix(a[0], b[0], Bytes(a[1..]), Bytes(b[1..]));
      BytesInjective(a[1..], b[1..]);
      assert a == [a[0]] + a[1..] && b == [b[0]] + b[1..];
    }
  }

  function Identity(queueItem: string, position: nat): string {
    queueItem + ":" + NatString(position)
  }

  function ControlHandle(h: Hasher, prefix: string, queueItem: string, position: nat): string {
    prefix + HashText(h.chain(Bytes(Identity(queueItem, position))))
  }

  /** The handles Dispatch derives for an ordered request of a queue item; its positions are 64-bit. */
  function DispatchPublishHandle(h: Hasher, queueItem: string, position: u64): string {
    "pub_" + HashText(h.chain(Bytes(queueItem + ":" + NatString(position))))
  }

  function DispatchWaitHandle(h: Hasher, queueItem: string, position: u64): string {
    "wait_" + HashText(h.chain(Bytes(queueItem + ":" + NatString(position))))
  }

  lemma IdentityInjective(queueItem: string, i: nat, j: nat)
    requires Identity(queueItem, i) == Identity(queueItem, j)
    ensures i == j
  {
    var n := |queueItem| + 1;
    assert Identity(queueItem, i)[n..] == NatString(i) && Identity(queueItem, j)[n..] == NatString(j);
    NatStringInjective(i, j);
  }

  function HandleCollision(queueItem: string, i: nat, j: nat): Collision {
    ChainCollision(Bytes(Identity(queueItem, i)), Bytes(Identity(queueItem, j)))
  }

  /** Two positions of one queue item share a handle only by a hash collision that can be named. */
  lemma HandlesDistinct(h: Hasher, prefix: string, queueItem: string, i: nat, j: nat)
    requires i != j && ControlHandle(h, prefix, queueItem, i) == ControlHandle(h, prefix, queueItem, j)
    ensures IsCollision(h, HandleCollision(queueItem, i, j))
  {
    var a, b := Bytes(Identity(queueItem, i)), Bytes(Identity(queueItem, j));
    var n := |prefix|;
    assert ControlHandle(h, prefix, queueItem, i)[n..] == HashText(h.chain(a));
    assert ControlHandle(h, prefix, queueItem, j)[n..] == HashText(h.chain(b));
    HashTextInjective(h.chain(a), h.chain(b));
    if a == b {
      BytesInjective(Identity(queueItem, i), Identity(queueItem, j));
      IdentityInjective(queueItem, i, j);
      assert false;
    }
  }
}
