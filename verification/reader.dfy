/** A reader of JSON text by the grammar of RFC 8259: what bytes mean, whoever wrote them. */
module Readers {
  import opened Text
  import opened Lexeme
  import opened Json

  /** What was read, and the bytes after it. */
  type Read<+T> = Option<(T, seq<byte>)>

  predicate Starts(s: seq<byte>, b: int) {
    s != [] && s[0] == b
  }

  /** Section 2: insignificant whitespace. */
  function Skip(s: seq<byte>): (r: seq<byte>)
    ensures |r| <= |s|
  {
    if Starts(s, 32) || Starts(s, 9) || Starts(s, 10) || Starts(s, 13) then Skip(s[1..]) else s
  }

  // ---------------------------------------------------- numbers (section 6)

  predicate IsDigit(b: byte) {
    48 <= b <= 57
  }

  /** The longest run of digits. */
  function TakeDigits(s: seq<byte>): (r: (seq<byte>, seq<byte>))
    ensures |r.0| + |r.1| == |s| && Digits(r.0)
  {
    if s != [] && IsDigit(s[0]) then
      var (digits, rest) := TakeDigits(s[1..]);
      ([s[0]] + digits, rest)
    else ([], s)
  }

  /** A fraction, or nothing where there is no point. */
  function ReadFraction(s: seq<byte>): (r: Read<Option<seq<byte>>>)
    ensures r.Some? ==> |r.value.1| <= |s| && (r.value.0.Some? ==> Digits(r.value.0.value))
  {
    if !Starts(s, 46) then Some((None, s)) else
      var (digits, rest) := TakeDigits(s[1..]);
      if digits == [] then None else Some((Some(digits), rest))
  }

  /** An exponent, or nothing where there is no `e` or `E`. */
  function ReadExponent(s: seq<byte>): (r: Read<Option<int>>)
    ensures r.Some? ==> |r.value.1| <= |s|
  {
    if !Starts(s, 101) && !Starts(s, 69) then Some((None, s)) else
      var neg := Starts(s[1..], 45);
      var (digits, rest) := TakeDigits(if neg || Starts(s[1..], 43) then s[2..] else s[1..]);
      if digits == [] then None else Some((Some(if neg then -NatValue(digits) else NatValue(digits)), rest))
  }

  function LeadingZeros(s: seq<byte>): (n: nat)
    ensures n <= |s| && (n < |s| ==> s[n] != 48)
  {
    if Starts(s, 48) then 1 + LeadingZeros(s[1..]) else 0
  }

  function DropTrailingZeros(s: seq<byte>): (r: seq<byte>)
    ensures r <= s && (r != [] ==> r[|r| - 1] != 48)
  {
    if s != [] && s[|s| - 1] == 48 then DropTrailingZeros(s[..|s| - 1]) else s
  }

  /** The one normal form of a decimal with this whole part, fraction and exponent. */
  function Normal(neg: bool, whole: seq<byte>, frac: seq<byte>, exp: int): Float
    requires Digits(whole) && Digits(frac)
  {
    var all := whole + frac;
    var lead := LeadingZeros(all);
    var digits := DropTrailingZeros(all[lead..]);
    assert forall b | b in digits :: b in all;
    assert digits != [] ==> digits[0] == all[lead];
    if digits == [] then Decimal(neg, [], 0) else Decimal(neg, digits, |whole| + exp - lead)
  }

  function NumberOf(neg: bool, whole: seq<byte>, frac: Option<seq<byte>>, exp: Option<int>): Number
    requires Digits(whole) && (frac.Some? ==> Digits(frac.value))
  {
    if frac.Some? || exp.Some? then
      Float(Normal(neg, whole, if frac.Some? then frac.value else [], if exp.Some? then exp.value else 0), "")
    else if neg && NatValue(whole) == 0 then MinusZero
    else Integer(if neg then -NatValue(whole) else NatValue(whole))
  }

  function ReadNumber(s: seq<byte>): (r: Read<Number>)
    ensures r.Some? ==> |r.value.1| < |s|
  {
    var neg := Starts(s, 45);
    var (whole, afterWhole) := TakeDigits(if neg then s[1..] else s);
    if whole == [] || (|whole| > 1 && whole[0] == 48) then None else
      match ReadFraction(afterWhole)
      case None => None
      case Some((frac, afterFrac)) =>
        match ReadExponent(afterFrac)
        case None => None
        case Some((exp, rest)) => Some((NumberOf(neg, whole, frac, exp), rest))
  }

  // ---------------------------------------------------- strings (section 7)

  function HexValue(b: byte): Option<int> {
    if 48 <= b <= 57 then Some(b - 48)
    else if 65 <= b <= 70 then Some(b - 55)
    else if 97 <= b <= 102 then Some(b - 87)
    else None
  }

  /** Four hexadecimal digits. */
  function ReadHex(s: seq<byte>): (r: Read<int>)
    ensures r.Some? ==> |r.value.1| == |s| - 4 && 0 <= r.value.0 < 0x10000
  {
    if |s| < 4 then None else
      match (HexValue(s[0]), HexValue(s[1]), HexValue(s[2]), HexValue(s[3]))
      case (Some(a), Some(b), Some(c), Some(d)) => Some((4096 * a + 256 * b + 16 * c + d, s[4..]))
      case _ => None
  }

  /** The character of a code unit, which for a high surrogate needs its low one behind it. */
  function ReadUnit(s: seq<byte>): (r: Read<char>)
    ensures r.Some? ==> |r.value.1| < |s|
  {
    match ReadHex(s)
    case None => None
    case Some((high, rest)) =>
      if high < 0xD800 || 0xE000 <= high then Some((high as char, rest))
      else if 0xDC00 <= high || !Starts(rest, 92) || !Starts(rest[1..], 117) then None
      else match ReadHex(rest[2..])
        case None => None
        case Some((low, after)) =>
          if 0xDC00 <= low < 0xE000 then Some(((0x10000 + 1024 * (high - 0xD800) + (low - 0xDC00)) as char, after))
          else None
  }

  /** The character a one-letter escape stands for. */
  function Meant(b: byte): Option<char> {
    if b == 34 then Some('"')
    else if b == 92 then Some('\\')
    else if b == 47 then Some('/')
    else if b == 98 then Some(8 as char)
    else if b == 102 then Some(12 as char)
    else if b == 110 then Some(10 as char)
    else if b == 114 then Some(13 as char)
    else if b == 116 then Some(9 as char)
    else None
  }

  predicate IsTail(b: byte) {
    0x80 <= b < 0xC0
  }

  function Bits(b: byte): int {
    b as int - 0x80
  }

  /** One character of UTF-8, by section 4 of RFC 3629: no overlong form and no surrogate. */
  function ReadUtf8(s: seq<byte>): (r: Read<char>)
    ensures r.Some? ==> |r.value.1| < |s|
  {
    if s == [] then None
    else if s[0] < 0x80 then Some((s[0] as char, s[1..]))
    else if |s| >= 2 && 0xC2 <= s[0] < 0xE0 && IsTail(s[1]) then
      Some(((64 * (s[0] as int - 0xC0) + Bits(s[1])) as char, s[2..]))
    else if |s| >= 3 && 0xE0 <= s[0] < 0xF0 && IsTail(s[1]) && IsTail(s[2]) then
      var code := 4096 * (s[0] as int - 0xE0) + 64 * Bits(s[1]) + Bits(s[2]);
      if code < 0x800 || 0xD800 <= code < 0xE000 then None else Some((code as char, s[3..]))
    else if |s| >= 4 && 0xF0 <= s[0] < 0xF5 && IsTail(s[1]) && IsTail(s[2]) && IsTail(s[3]) then
      var code := 262144 * (s[0] as int - 0xF0) + 4096 * Bits(s[1]) + 64 * Bits(s[2]) + Bits(s[3]);
      if code < 0x10000 || 0x110000 <= code then None else Some((code as char, s[4..]))
    else None
  }

  /** One character of a literal, escaped or not. */
  function ReadChar(s: seq<byte>): (r: Read<char>)
    ensures r.Some? ==> |r.value.1| < |s|
  {
    if !Starts(s, 92) then (if s == [] || s[0] < 32 then None else ReadUtf8(s))
    else if Starts(s[1..], 117) then ReadUnit(s[2..])
    else if |s| >= 2 && Meant(s[1]).Some? then Some((Meant(s[1]).value, s[2..]))
    else None
  }

  /** The characters up to the closing quote. */
  function ReadChars(s: seq<byte>): (r: Read<string>)
    ensures r.Some? ==> |r.value.1| < |s|
    decreases |s|
  {
    if Starts(s, 34) then Some(("", s[1..])) else
      match ReadChar(s)
      case None => None
      case Some((c, rest)) =>
        match ReadChars(rest)
        case None => None
        case Some((text, after)) => Some(([c] + text, after))
  }

  // ------------------------------------ values, arrays, objects (sections 3 to 5)

  predicate Spells(s: seq<byte>, word: seq<byte>) {
    word <= s
  }

  function ReadLiteral(s: seq<byte>): (r: Read<Value>)
    ensures r.Some? ==> |r.value.1| < |s|
  {
    if Spells(s, [102, 97, 108, 115, 101]) then Some((Bool(false), s[5..]))
    else if Spells(s, [110, 117, 108, 108]) then Some((Null, s[4..]))
    else if Spells(s, [116, 114, 117, 101]) then Some((Bool(true), s[4..]))
    else match ReadNumber(s)
      case None => None
      case Some((n, rest)) => Some((Number(n), rest))
  }

  function ReadValue(input: seq<byte>): (r: Read<Value>)
    ensures r.Some? ==> |r.value.1| < |input|
    decreases |input|, 0
  {
    var s := Skip(input);
    if Starts(s, 91) then
      if Starts(Skip(s[1..]), 93) then Some((Array([]), Skip(s[1..])[1..])) else
        match ReadItems(s[1..])
        case None => None
        case Some((items, rest)) => Some((Array(items), rest))
    else if Starts(s, 123) then
      if Starts(Skip(s[1..]), 125) then Some((Object(map[]), Skip(s[1..])[1..])) else
        match ReadMembers(s[1..])
        case None => None
        case Some((fields, rest)) => Some((Object(fields), rest))
    else if Starts(s, 34) then
      match ReadChars(s[1..])
      case None => None
      case Some((text, rest)) => Some((String(text), rest))
    else ReadLiteral(s)
  }

  /** One or more values up to the closing bracket. */
  function ReadItems(s: seq<byte>): (r: Read<seq<Value>>)
    ensures r.Some? ==> |r.value.1| < |s|
    decreases |s|, 1
  {
    match ReadValue(s)
    case None => None
    case Some((v, after)) =>
      var rest := Skip(after);
      if Starts(rest, 93) then Some(([v], rest[1..]))
      else if !Starts(rest, 44) then None
      else match ReadItems(rest[1..])
        case None => None
        case Some((more, end)) => Some(([v] + more, end))
  }

  /** A name, a colon and a value. */
  function ReadMember(s: seq<byte>): (r: Read<(string, Value)>)
    ensures r.Some? ==> |r.value.1| < |s|
    decreases |s|, 1
  {
    var name := Skip(s);
    if !Starts(name, 34) then None else
      match ReadChars(name[1..])
      case None => None
      case Some((key, afterKey)) =>
        var rest := Skip(afterKey);
        if !Starts(rest, 58) then None else
          match ReadValue(rest[1..])
          case None => None
          case Some((v, after)) => Some(((key, v), after))
  }

  /** One or more members up to the closing brace; of members with one name the last counts. */
  function ReadMembers(s: seq<byte>): (r: Read<map<string, Value>>)
    ensures r.Some? ==> |r.value.1| < |s|
    decreases |s|, 2
  {
    match ReadMember(s)
    case None => None
    case Some((member, after)) =>
      var rest := Skip(after);
      if Starts(rest, 125) then Some((map[member.0 := member.1], rest[1..]))
      else if !Starts(rest, 44) then None
      else match ReadMembers(rest[1..])
        case None => None
        case Some((more, end)) => Some((map[member.0 := member.1] + more, end))
  }

  /** A whole JSON text. */
  function ReadText(bytes: seq<byte>): Option<Value> {
    match ReadValue(bytes)
    case Some((v, rest)) => if Skip(rest) == [] then Some(v) else None
    case None => None
  }
}
