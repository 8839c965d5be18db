/** Newline-delimited framing: two chunked readers, one specification. */
module Frames {
  import opened Text
  import opened Json
  import opened Messages

  const LF: byte := 10
  const CR: byte := 13
  const READ_CHUNK: nat := 65536
  const MAX_FRAME_BYTES: nat := 8388608

  type Bytes = seq<byte>

  /** UTF-8 and JSON decoding of a line, as a library provides it. */
  type JsonReader = Bytes -> Option<Value>

  /** Previews and wording are not modelled. */
  datatype Frame =
    | Decoded(message: Message)
    | Broken(rule: string, code: i64, requestId: Option<RequestId>)

  // ----------------------------------------------------------- specification

  function RecoverId(v: Value): Option<RequestId> {
    if !v.Object? || "method" !in v.fields || "result" in v.fields || "error" in v.fields || "id" !in v.fields then None
    else match ParseId(v.fields["id"])
      case Ok(id) => Some(id)
      case Err(_) => None
  }

  function TrimCr(line: Bytes): Bytes {
    if line != [] && line[|line| - 1] == CR then TrimCr(line[..|line| - 1]) else line
  }

  function Decode(read: JsonReader, line: Bytes): Frame {
    var text := TrimCr(line);
    if text == [] then Broken("empty_line", PARSE_ERROR, None)
    else match read(text)
      case None => Broken("parse_error", PARSE_ERROR, None)
      case Some(v) =>
        match ParseValue(v)
        case Ok(m) => Decoded(m)
        case Err(code) =>
          Broken(if code == PARSE_ERROR then "parse_error"
               else if code == INVALID_REQUEST then "invalid_request"
               else "invalid_params",
                 code, RecoverId(v))
  }

  const TOO_LONG: Frame := Broken("frame_too_long", PARSE_ERROR, None)

  /** What one line, without its newline, stands for. */
  function FrameOf(limit: nat, read: JsonReader, line: Bytes): Frame {
    if |line| > limit then TOO_LONG else Decode(read, line)
  }

  /** The line is the text and some carriage returns. */
  ghost predicate Ends(line: Bytes, text: Bytes) {
    && |text| <= |line| && line[..|text|] == text && (text != [] ==> text[|text| - 1] != CR)
    && forall i | |text| <= i < |line| :: line[i] == CR
  }

  lemma {:induction false} TrimEnds(line: Bytes)
    ensures Ends(line, TrimCr(line))
  {
    if line != [] && line[|line| - 1] == CR { TrimEnds(line[..|line| - 1]); }
  }

  lemma EndsOnce(line: Bytes, s: Bytes, t: Bytes)
    requires Ends(line, s) && Ends(line, t)
    ensures s == t
  {
    assert t != [] ==> line[|t| - 1] == t[|t| - 1];
    assert s != [] ==> line[|s| - 1] == s[|s| - 1];
  }

  /** The id that an answer to a malformed request can carry: that of an object with a method and no outcome. */
  predicate Asks(v: Value, id: RequestId) {
    && v.Object? && "method" in v.fields && "result" !in v.fields && "error" !in v.fields
    && "id" in v.fields && ParseId(v.fields["id"]) == Ok(id)
  }

  /** What a line stands for, by its length and by its text without the carriage returns at its end. */
  lemma FrameExactly(limit: nat, read: JsonReader, line: Bytes, text: Bytes)
    requires Ends(line, text)
    ensures var frame := FrameOf(limit, read, line);
      if |line| > limit then frame == Broken("frame_too_long", PARSE_ERROR, None)
      else if text == [] then frame == Broken("empty_line", PARSE_ERROR, None)
      else if read(text).None? then frame == Broken("parse_error", PARSE_ERROR, None)
      else
        var v := read(text).value;
        if ParseValue(v).Ok? then frame == Decoded(ParseValue(v).value)
        else
          && frame.Broken? && frame.code == ParseValue(v).error
          && forall id :: frame.requestId == Some(id) <==> Asks(v, id)
  {
    TrimEnds(line);
    EndsOnce(line, text, TrimCr(line));
  }

  /** The bytes before the first newline and those after it. */
  function Cut(bytes: Bytes): (r: (Bytes, Bytes))
    ensures LF !in r.0 && (bytes == r.0 + [LF] + r.1 || (bytes == r.0 && r.1 == []))
  {
    if bytes == [] then ([], [])
    else if bytes[0] == LF then ([], bytes[1..])
    else var (line, rest) := Cut(bytes[1..]); ([bytes[0]] + line, rest)
  }

  /** The frames of a whole stream: split at newlines, keeping a last unterminated line. */
  function FramesOf(limit: nat, read: JsonReader, bytes: Bytes): seq<Frame>
    decreases |bytes|
  {
    if bytes == [] then [] else [FrameOf(limit, read, Cut(bytes).0)] + FramesOf(limit, read, Cut(bytes).1)
  }

  function Concat(chunks: seq<Bytes>): Bytes {
    if chunks == [] then [] else chunks[0] + Concat(chunks[1..])
  }

  lemma {:induction false} CutAt(line: Bytes, rest: Bytes)
    requires LF !in line
    ensures Cut(line + [LF] + rest) == (line, rest)
    ensures Cut(line) == (line, [])
  {
    var whole := line + [LF] + rest;
    if line != [] {
      assert line[0] in line && whole[0] == line[0];
      assert whole[1..] == line[1..] + [LF] + rest;
      CutAt(line[1..], rest);
      assert line == [line[0]] + line[1..];
    }
  }

  method FindNewline(bytes: Bytes) returns (at: Option<nat>)
    ensures at.None? ==> LF !in bytes
    ensures at.Some? ==> at.value < |bytes| && bytes[at.value] == LF && LF !in bytes[..at.value]
  {
    for i := 0 to |bytes|
      invariant LF !in bytes[..i]
    {
      if bytes[i] == LF { return Some(i); }
    }
    at := None;
  }

  /** A newline at `i` with none before it cuts the bytes there. */
  lemma CutFound(bytes: Bytes, i: nat, rest: Bytes)
    requires i < |bytes| && bytes[i] == LF && LF !in bytes[..i]
    ensures Cut(bytes + rest) == (bytes[..i], bytes[i + 1..] + rest)
  {
    assert bytes + rest == bytes[..i] + [LF] + (bytes[i + 1..] + rest);
    CutAt(bytes[..i], bytes[i + 1..] + rest);
  }

  // ---------------------------------------------------------- blocking reader

  predicate Reads(chunks: seq<Bytes>) {
    forall c | c in chunks :: 0 < |c| <= READ_CHUNK
  }

  class FrameReader {
    const limit: nat
    const read: JsonReader
    var chunks: seq<Bytes>   // what the successive reads of the source will return
    var buffer: Bytes
    var eof: bool

    ghost predicate Valid()
      reads this
    {
      Reads(chunks) && (eof ==> chunks == []) && |buffer| <= limit + READ_CHUNK
    }

    /** Everything not yet delivered. */
    ghost function Stream(): Bytes
      reads this
    {
      buffer + Concat(chunks)
    }

    constructor (limit: nat, read: JsonReader, chunks: seq<Bytes>)
      requires Reads(chunks)
      ensures Valid() && Stream() == Concat(chunks) && this.limit == limit && this.read == read
    {
      this.limit, this.read, this.chunks := limit, read, chunks;
      buffer, eof := [], false;
    }

    method Pull() returns (chunk: Bytes)
      requires Reads(chunks)
      modifies this`chunks
      ensures |chunk| <= READ_CHUNK && Reads(chunks)
      ensures chunk == [] <==> old(chunks) == []
      ensures old(chunks) == [] ==> chunks == []
      ensures old(chunks) != [] ==> |chunks| < |old(chunks)|
      ensures Concat(old(chunks)) == chunk + Concat(chunks)
    {
      if chunks == [] { return []; }
      chunk := chunks[0];
      assert chunk in chunks;
      chunks := chunks[1..];
    }

    /** Delivers the first line of the undelivered bytes and nothing else, however they are chunked. */
    method ReadFrame() returns (frame: Option<Frame>)
      requires Valid()
      modifies this`chunks, this`buffer, this`eof
      ensures Valid()
      ensures old(Stream()) == [] ==> frame == None && Stream() == []
      ensures old(Stream()) != [] ==>
                frame == Some(FrameOf(limit, read, Cut(old(Stream())).0)) && Stream() == Cut(old(Stream())).1
    {
      while true
        invariant Valid() && Stream() == old(Stream())
        decreases |chunks|, if eof then 0 else 1
      {
        var newline := FindNewline(buffer);
        if newline.Some? {
          var line := buffer[..newline.value];
          CutFound(buffer, newline.value, Concat(chunks));
          buffer := buffer[newline.value + 1..];
          return Some(FrameOf(limit, read, line));
        }
        if eof {
          assert Stream() == buffer;
          if buffer == [] { return None; }
          CutAt(buffer, []);
          var line := buffer;
          buffer := [];
          return Some(FrameOf(limit, read, line));
        }
        if |buffer| > limit {
          frame := Discard();
          return;
        }
        ghost var was := chunks;
        var chunk := Pull();
        assert buffer + Concat(was) == buffer + chunk + Concat(chunks);
        if chunk == [] { eof := true; } else { buffer := buffer + chunk; }
      }
    }

    /** Drops the rest of an overlong line without holding it. */
    method Discard() returns (frame: Option<Frame>)
      requires Valid() && LF !in buffer && |buffer| > limit && !eof
      modifies this`chunks, this`buffer, this`eof
      ensures Valid()
      ensures frame == Some(FrameOf(limit, read, Cut(old(Stream())).0)) && Stream() == Cut(old(Stream())).1
    {
      ghost var dropped := buffer;
      buffer := [];
      while true
        invariant Reads(chunks) && buffer == [] && !eof
        invariant old(Stream()) == dropped + Concat(chunks) && LF !in dropped && |dropped| > limit
        decreases |chunks|
      {
        ghost var was := chunks;
        var chunk := Pull();
        assert dropped + Concat(was) == dropped + chunk + Concat(chunks);
        if chunk == [] {
          eof := true;
          CutAt(dropped, []);
          assert old(Stream()) == dropped;
          break;
        }
        var newline := FindNewline(chunk);
        if newline.None? {
          dropped := dropped + chunk;
        } else {
          SkipTo(dropped, chunk, newline.value, Concat(chunks));
          buffer := chunk[newline.value + 1..];
          break;
        }
      }
      frame := Some(TOO_LONG);
    }
  }

  lemma SkipTo(dropped: Bytes, chunk: Bytes, i: nat, rest: Bytes)
    requires LF !in dropped && i < |chunk| && chunk[i] == LF && LF !in chunk[..i]
    ensures Cut(dropped + chunk + rest) == (dropped + chunk[..i], chunk[i + 1..] + rest)
  {
    var bytes := dropped + chunk;
    assert bytes[..|dropped| + i] == dropped + chunk[..i] && bytes[|dropped| + i + 1..] == chunk[i + 1..];
    CutFound(bytes, |dropped| + i, rest);
  }

  /** Reads a source to its end. The frames depend on its bytes alone, not on the reads that delivered them. */
  method ReadAll(limit: nat, read: JsonReader, chunks: seq<Bytes>) returns (frames: seq<Frame>)
    requires Reads(chunks)
    ensures frames == FramesOf(limit, read, Concat(chunks))
  {
    var reader := new FrameReader(limit, read, chunks);
    frames := [];
    ghost var all := FramesOf(limit, read, Concat(chunks));
    var more := true;
    while more
      invariant reader.Valid() && reader.limit == limit && reader.read == read
      invariant frames + FramesOf(limit, read, reader.Stream()) == all
      invariant !more ==> reader.Stream() == []
      decreases |reader.Stream()|, more
    {
      ghost var stream := reader.Stream();
      var frame := reader.ReadFrame();
      if frame.None? {
        more := false;
      } else {
        frames := frames + [frame.value];
        FramesStep(limit, read, stream);
      }
    }
  }

  lemma FramesStep(limit: nat, read: JsonReader, bytes: Bytes)
    requires bytes != []
    ensures FramesOf(limit, read, bytes) == [FrameOf(limit, read, Cut(bytes).0)] + FramesOf(limit, read, Cut(bytes).1)
    ensures |Cut(bytes).1| < |bytes|
  {
  }

  // -------------------------------------------------------------- async reader

  /** Cuts a byte slice into reads of at most one chunk. */
  function Chop(bytes: Bytes): (chunks: seq<Bytes>)
    ensures Reads(chunks) && Concat(chunks) == bytes
    decreases |bytes|
  {
    if bytes == [] then []
    else if |bytes| <= READ_CHUNK then [bytes]
    else [bytes[..READ_CHUNK]] + Chop(bytes[READ_CHUNK..])
  }

  predicate Filled(buffers: seq<Bytes>) {
    forall b | b in buffers :: b != []
  }

  /** The socket reader: it keeps at most one byte more than the limit of a line. */
  class LocalReader {
    const read: JsonReader
    var buffers: seq<Bytes>   // what the buffered source holds and will hold

    ghost function Stream(): Bytes
      reads this
    {
      Concat(buffers)
    }

    constructor (read: JsonReader, buffers: seq<Bytes>)
      requires Filled(buffers)
      ensures this.read == read && this.buffers == buffers
    {
      this.read, this.buffers := read, buffers;
    }

    method Consume(n: nat)
      requires Filled(buffers) && buffers != [] && 0 < n <= |buffers[0]|
      modifies this
      ensures Filled(buffers) && Concat(old(buffers)) == old(buffers)[0][..n] + Concat(buffers)
      ensures |Concat(buffers)| < |Concat(old(buffers))|
    {
      var first, rest := buffers[0], buffers[1..];
      assert Filled(rest) by { assert forall b | b in rest :: b in buffers; }
      assert first == first[..n] + first[n..];
      if n == |first| {
        buffers := rest;
      } else {
        buffers := [first[n..]] + rest;
        assert buffers[1..] == rest;
      }
    }

    /** The same specification as the blocking reader, at the protocol limit. */
    method ReadFrame() returns (frame: Option<Frame>)
      requires Filled(buffers)
      modifies this
      ensures Filled(buffers)
      ensures old(Stream()) == [] ==> frame == None && Stream() == []
      ensures old(Stream()) != [] ==>
                frame == Some(FrameOf(MAX_FRAME_BYTES, read, Cut(old(Stream())).0)) && Stream() == Cut(old(Stream())).1
    {
      var line, overlong, ended, seen := Gather();
      assert seen + [] == seen;
      CutAt(seen, Stream());
      KeptFrame(read, seen);
      if !ended && line == [] && !overlong { return None; }
      frame := DecodeLocal(read, line, ended);
    }

    /** Collects one line, up to a newline or the end of the source. */
    method Gather() returns (line: Bytes, overlong: bool, ended: bool, ghost seen: Bytes)
      requires Filled(buffers)
      modifies this
      ensures Filled(buffers) && LF !in seen
      ensures old(Stream()) == if ended then seen + [LF] + Stream() else seen
      ensures !ended ==> Stream() == []
      ensures line == Kept(seen) && (overlong <==> |seen| > MAX_FRAME_BYTES)
    {
      line, overlong, ended, seen := [], false, false, [];
      while buffers != [] && !ended
        invariant Filled(buffers) && LF !in seen
        invariant old(Stream()) == seen + (if ended then [LF] else []) + Stream()
        invariant line == Kept(seen) && (overlong <==> |seen| > MAX_FRAME_BYTES)
        decreases |Stream()|
      {
        var data;
        data, ended := Take();
        line, overlong := Keep(line, overlong, seen, data, |data|);
        assert data[..|data|] == data;
        Gathered(seen, data, if ended then [LF] else [], Stream());
        seen := seen + data;
      }
    }

    /** Consumes the next buffer, or the part of it up to and including a newline. */
    method Take() returns (data: Bytes, ended: bool)
      requires Filled(buffers) && buffers != []
      modifies this
      ensures Filled(buffers) && LF !in data
      ensures old(Stream()) == data + (if ended then [LF] else []) + Stream() && |Stream()| < |old(Stream())|
    {
      var buffer := buffers[0];
      assert buffer in buffers;
      var newline := FindNewline(buffer);
      ended := newline.Some?;
      data := if ended then buffer[..newline.value] else buffer;
      var consumed := if ended then |data| + 1 else |data|;
      assert buffer[..consumed] == data + (if ended then [LF] else []);
      Consume(consumed);
    }
  }

  lemma Gathered(seen: Bytes, data: Bytes, newline: Bytes, rest: Bytes)
    ensures seen + [] + (data + newline + rest) == (seen + data) + newline + rest
  {
  }

  /** What is kept of a line: its first bytes, up to one past the limit. */
  function Kept(line: Bytes): Bytes {
    if |line| > MAX_FRAME_BYTES then line[..MAX_FRAME_BYTES + 1] else line
  }

  /** Dropping the tail of an overlong line does not change what it stands for. */
  lemma KeptFrame(read: JsonReader, line: Bytes)
    ensures FrameOf(MAX_FRAME_BYTES, read, Kept(line)) == FrameOf(MAX_FRAME_BYTES, read, line)
    ensures LF !in line ==> LF !in Kept(line)
    ensures Kept(line) == [] <==> line == []
  {
  }

  /** Copies what still fits of the next `data` bytes. */
  method Keep(line: Bytes, overlong: bool, ghost seen: Bytes, buffer: Bytes,
              data: nat) returns (longer: Bytes, over: bool)
    requires data <= |buffer| && line == Kept(seen) && (overlong <==> |seen| > MAX_FRAME_BYTES)
    ensures longer == Kept(seen + buffer[..data]) && (over <==> |seen + buffer[..data]| > MAX_FRAME_BYTES)
  {
    longer, over := line, overlong;
    if !overlong {
      var remaining := MAX_FRAME_BYTES + 1 - |line|;
      var copy := if data < remaining then data else remaining;
      longer := line + buffer[..copy];
      if data > copy || |longer| > MAX_FRAME_BYTES { over := true; }
      assert seen + buffer[..data] == seen + buffer[..copy] + buffer[copy..data];
    }
  }

  /** Decodes one kept line with a blocking reader over its bytes. */
  method DecodeLocal(read: JsonReader, line: Bytes, terminated: bool) returns (frame: Option<Frame>)
    requires LF !in line && (terminated || line != [])
    ensures frame == Some(FrameOf(MAX_FRAME_BYTES, read, line))
  {
    var bytes := if terminated then line + [LF] else line;
    CutAt(line, []);
    assert line + [LF] + [] == line + [LF];
    var reader := new FrameReader(MAX_FRAME_BYTES, read, Chop(bytes));
    frame := reader.ReadFrame();
  }
}
