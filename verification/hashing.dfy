/** 32-byte addresses, their text, and hash functions about which nothing is assumed. */
module Hashing {
  import opened Text

  type Hash = s: seq<byte> | |s| == 32 witness seq(32, _ => 0)

  /** Plain content hashing and the Chain-domain derivation. */
  datatype Hasher = Hasher(content: seq<byte> -> Hash, chain: seq<byte> -> Hash)

  /** Two inputs claimed to share one address. */
  datatype Collision = ContentCollision(x: seq<byte>, y: seq<byte>) | ChainCollision(x: seq<byte>, y: seq<byte>)

  predicate IsCollision(h: Hasher, c: Collision) {
    c.x != c.y && if c.ContentCollision? then h.content(c.x) == h.content(c.y) else h.chain(c.x) == h.chain(c.y)
  }

  const HEX := "0123456789abcdef"

  function HexText(bytes: seq<byte>): (r: string)
    ensures |r| == 2 * |bytes|
  {
    if bytes == [] then [] else [HEX[bytes[0] / 16], HEX[bytes[0] % 16]] + HexText(bytes[1..])
  }

  predicate IsHexDigit(c: char, d: int) {
    if d < 10 then c as int == '0' as int + d else c as int == 'a' as int + d - 10
  }

  /** Each byte is written as its two hexadecimal digits, the high one first. */
  lemma {:induction false} HexTextDigits(bytes: seq<byte>, i: nat)
    requires i < |bytes|
    ensures var t := HexText(bytes);
      IsHexDigit(t[2 * i], bytes[i] as int / 16) && IsHexDigit(t[2 * i + 1], bytes[i] as int % 16)
  {
    if i > 0 { HexTextDigits(bytes[1..], i - 1); }
  }

  /** `b3:` and 64 lowercase hex digits. */
  function HashText(h: Hash): string {
    "b3:" + HexText(h)
  }

  lemma HexDigitInjective(i: int, j: int)
    requires 0 <= i < 16 && 0 <= j < 16 && HEX[i] == HEX[j]
    ensures i == j
  {
  }

  lemma {:induction false} HexTextInjective(a: seq<byte>, b: seq<byte>)
    requires HexText(a) == HexText(b)
    ensures a == b
  {
    if a != [] && b != [] {
      assert HexText(a)[0] == HexText(b)[0] && HexText(a)[1] == HexText(b)[1];
      HexDigitInjective(a[0] / 16, b[0] / 16);
      HexDigitInjective(a[0] % 16, b[0] % 16);
      assert HexText(a)[2..] == HexText(a[1..]) && HexText(b)[2..] == HexText(b[1..]);
      HexTextInjective(a[1..], b[1..]);
      assert a == [a[0]] + a[1..] && b == [b[0]] + b[1..];
    }
  }

  lemma HashTextInjective(a: Hash, b: Hash)
    ensures HashText(a) == HashText(b) <==> a == b
  {
    if HashText(a) == HashText(b) {
      assert HexText(a) == HashText(a)[3..] == HashText(b)[3..] == HexText(b);
      HexTextInjective(a, b);
    }
  }
}
