/** Messages written as lines and read back under any chunking. */
module Wire {
  import opened Text
  import opened Lexeme
  import opened Json
  import opened Readers
  import opened ReadBacks
  import opened Canonical
  import opened Messages
  import opened Frames

  type JsonWriter = Value -> Bytes

  function Line(write: JsonWriter, m: Message): Bytes {
    write(ToValue(m)) + [LF]
  }

  function WireText(write: JsonWriter, ms: seq<Message>): Bytes {
    if ms == [] then [] else Line(write, ms[0]) + WireText(write, ms[1..])
  }

  lemma {:induction false} WireSnoc(write: JsonWriter, ms: seq<Message>, m: Message)
    ensures WireText(write, ms + [m]) == WireText(write, ms) + Line(write, m)
  {
    if ms == [] {
      assert ms + [m] == [m] && [m][1..] == [];
    } else {
      assert (ms + [m])[1..] == ms[1..] + [m];
      WireSnoc(write, ms[1..], m);
    }
  }

  class FrameWriter {
    const write: JsonWriter
    var out: Bytes

    constructor (write: JsonWriter)
      ensures this.write == write && out == []
    {
      this.write, out := write, [];
    }

    method WriteMessage(m: Message)
      modifies this
      ensures out == old(out) + Line(write, m)
    {
      out := out + write(ToValue(m));
      out := out + [LF];
    }
  }

  /** The writer and reader agree on a value, and its text fits one line. */
  predicate Carries(write: JsonWriter, read: JsonReader, v: Value) {
    var line := write(v);
    read(line) == Some(v) && line != [] && LF !in line && line[|line| - 1] != CR
  }

  predicate Deliverable(limit: nat, write: JsonWriter, read: JsonReader, m: Message) {
    WellFormedMessage(m) && Carries(write, read, ToValue(m)) && |write(ToValue(m))| <= limit
  }

  function Delivered(ms: seq<Message>): seq<Frame> {
    seq(|ms|, i requires 0 <= i < |ms| => Decoded(ms[i]))
  }

  lemma OneLine(limit: nat, write: JsonWriter, read: JsonReader, m: Message)
    requires Deliverable(limit, write, read, m)
    ensures FrameOf(limit, read, write(ToValue(m))) == Decoded(m)
  {
    MessageRoundTrip(m);
  }

  /** Any sequence of deliverable messages comes back message for message, however the bytes are chunked. */
  lemma {:induction false} WireRoundTrip(limit: nat, write: JsonWriter, read: JsonReader, ms: seq<Message>,
                                        chunks: seq<Bytes>)
    requires forall i | 0 <= i < |ms| :: Deliverable(limit, write, read, ms[i])
    requires Concat(chunks) == WireText(write, ms)
    ensures FramesOf(limit, read, Concat(chunks)) == Delivered(ms)
    decreases ms
  {
    if ms != [] {
      var line, rest := write(ToValue(ms[0])), WireText(write, ms[1..]);
      assert WireText(write, ms) == line + [LF] + rest;
      CutAt(line, rest);
      OneLine(limit, write, read, ms[0]);
      assert Concat([rest]) == rest + Concat([]) == rest;
      WireRoundTrip(limit, write, read, ms[1..], [rest]);
      assert Delivered(ms) == [Decoded(ms[0])] + Delivered(ms[1..]);
    }
  }

  /** Messages written by the writer object, cut anywhere on the way and read by the reader object come out as they went
    * in. */
  method Carry(limit: nat, write: JsonWriter, read: JsonReader, split: Bytes -> seq<Bytes>,
               ms: seq<Message>) returns (frames: seq<Frame>)
    requires forall i | 0 <= i < |ms| :: Deliverable(limit, write, read, ms[i])
    requires forall bytes :: Reads(split(bytes)) && Concat(split(bytes)) == bytes
    ensures frames == Delivered(ms)
  {
    var writer := new FrameWriter(write);
    for i := 0 to |ms|
      invariant writer.write == write && writer.out == WireText(write, ms[..i])
    {
      WireSnoc(write, ms[..i], ms[i]);
      assert ms[..i + 1] == ms[..i] + [ms[i]];
      writer.WriteMessage(ms[i]);
    }
    assert ms[..|ms|] == ms;
    frames := ReadAll(limit, read, split(writer.out));
    WireRoundTrip(limit, write, read, ms, split(writer.out));
  }

  // -------------------------------------------- the canonical text is such a line

  predicate Printable(bytes: Bytes) {
    forall b | b in bytes :: b >= 32
  }

  lemma {:induction false} EscapePrintable(s: string)
    ensures Printable(EscapeAll(s))
  {
    if s != [] {
      EscapePrintable(s[1..]);
      assert Printable(Escape(s[0]));
    }
  }

  lemma {:induction false} JoinPrintable(parts: seq<Bytes>)
    requires forall i | 0 <= i < |parts| :: Printable(parts[i])
    ensures Printable(Join(parts))
  {
    if |parts| > 1 { JoinPrintable(parts[1..]); }
  }

  /** Canonical text holds no control byte, so no raw newline can split a value. */
  lemma {:induction false} EncodePrintable(v: Value)
    requires Encodable(v)
    ensures Printable(Encode(v))
    decreases v
  {
    EncodableParts(v);
    match v
    case Number(n) => NumberBytes(n);
    case String(s) => EscapePrintable(s);
    case Array(items) =>
      forall i | 0 <= i < |items| ensures Printable(ItemTexts(v)[i]) { EncodePrintable(items[i]); }
      JoinPrintable(ItemTexts(v));
    case Object(fields) => MembersPrintable(v, Sorted(fields.Keys));
    case _ =>
  }

  lemma {:induction false} MembersPrintable(v: Value, keys: seq<string>)
    requires v.Object? && Encodable(v) && Elements(keys) == v.fields.Keys
    ensures Printable(Join(MemberTexts(v, keys)))
    decreases v, 0
  {
    EncodableParts(v);
    forall i | 0 <= i < |keys| ensures Printable(MemberTexts(v, keys)[i]) {
      assert keys[i] in Elements(keys);
      EscapePrintable(keys[i]);
      EncodePrintable(v.fields[keys[i]]);
    }
    JoinPrintable(MemberTexts(v, keys));
  }

  /** The canonical writer and the JSON reader make every well-formed message with an encodable body deliverable. */
  lemma CanonicalDeliverable(limit: nat, m: Message)
    requires WellFormedMessage(m) && Encodable(ToValue(m)) && Plain(ToValue(m)) == ToValue(m)
    requires |Encode(ToValue(m))| <= limit
    ensures Deliverable(limit, v => Encode(v), b => ReadText(b), m)
  {
    var v := ToValue(m);
    EncodePrintable(v);
    HeadByte(v);
    assert Encode(v)[|Encode(v)| - 1] in Encode(v);
    CanonicalReads(v);
  }
}
