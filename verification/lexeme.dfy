/** JSON numbers and string literals as identity-bearing bytes. */
module Lexeme {
  import opened Text

  // ---------------------------------------------------------------- numbers

  predicate Digits(s: seq<byte>) {
    forall b | b in s :: 48 <= b <= 57
  }

  /** The decimal 0.d1d2d3... times ten to the power `point`. */
  datatype Decimal = Decimal(neg: bool, digits: seq<byte>, point: int)

  /** No zero digit at either end, so that a number has one such form; zero has no digits. */
  predicate Normalized(d: Decimal) {
    && Digits(d.digits)
    && if d.digits == [] then d.point == 0 else d.digits[0] != 48 && d.digits[|d.digits| - 1] != 48
  }

  /** The shortest decimal that rounds to a finite binary64. */
  type Float = d: Decimal | Normalized(d) witness Decimal(false, [], 0)

  /** A number keeps the text it was spelled with; the texts of one binary64 are told apart by their spelling only. */
  datatype Number =
    | Integer(n: int)
    | MinusZero
    | Float(f: Float, spelling: string)
    | Infinite(spelling: string)        // a float text beyond binary64

  /** The number without the spelling of a float. */
  function PlainNumber(n: Number): Number {
    if n.Float? || n.Infinite? then n.(spelling := "") else n
  }

  /** A rendering of a decimal, split at its sign, point and exponent. */
  datatype Notation =
    | Fixed(neg: bool, whole: seq<byte>, frac: seq<byte>)
    | Scientific(neg: bool, lead: byte, frac: seq<byte>, exp: int)

  function Zeros(n: nat): seq<byte> {
    seq(n, _ => 48)
  }

  /** How the library writes a binary64: in fixed notation from 0.0000d to sixteen digits, else with an exponent. */
  function Shortest(f: Float): Notation {
    var n := |f.digits|;
    if n == 0 then Fixed(f.neg, [48], [48])
    else if n <= f.point <= 16 then Fixed(f.neg, f.digits + Zeros(f.point - n), [48])
    else if 0 < f.point <= 16 then Fixed(f.neg, f.digits[..f.point], f.digits[f.point..])
    else if -5 < f.point <= 0 then Fixed(f.neg, [48], Zeros(-f.point) + f.digits)
    else Scientific(f.neg, f.digits[0], f.digits[1..], f.point - 1)
  }

  /** Moves 0.0000d... to d...e-05. */
  function Rescale(d: Notation): Notation {
    if d.Fixed? && d.whole == [48] && |d.frac| > 4 && d.frac[..4] == Zeros(4)
    then Scientific(d.neg, d.frac[4], d.frac[5..], -5)
    else d
  }

  function Sign(neg: bool): seq<byte> {
    if neg then [45] else []
  }

  function Fraction(frac: seq<byte>): seq<byte> {
    if frac == [] then [] else [46] + frac
  }

  /** A signed exponent of at least two digits. */
  function ExponentText(e: int): seq<byte> {
    var n := if e < 0 then -e else e;
    [if e < 0 then 45 else 43] + ((if n < 10 then [48] else []) + NatText(n))
  }

  function NotationText(d: Notation): seq<byte> {
    match d
    case Fixed(neg, whole, frac) => Sign(neg) + (whole + ([46] + frac))
    case Scientific(neg, lead, frac, exp) => Sign(neg) + ([lead] + (Fraction(frac) + ([101] + ExponentText(exp))))
  }

  /** The text of an identity-bearing number. */
  function NumberText(n: Number): seq<byte> {
    match n
    case Integer(i) => IntText(i)
    case MinusZero => [45, 48]
    case Float(f, _) => NotationText(Rescale(Shortest(f)))
    case Infinite(_) => []
  }

  // ---------------------------------------------------------------- strings

  function HexDigit(n: int): byte
    requires 0 <= n < 16
  {
    if n < 10 then 48 + n else 87 + n
  }

  /** One character inside a JSON string literal. */
  function Escape(c: char): seq<byte> {
    if c == '"' then [92, 34]
    else if c == '\\' then [92, 92]
    else if c as int == 8 then [92, 98]
    else if c as int == 9 then [92, 116]
    else if c as int == 10 then [92, 110]
    else if c as int == 12 then [92, 102]
    else if c as int == 13 then [92, 114]
    else if c as int < 32 then [92, 117, 48, 48, HexDigit(c as int / 16), HexDigit(c as int % 16)]
    else Utf8(c)
  }

  function EscapeAll(s: string): seq<byte> {
    if s == [] then [] else Escape(s[0]) + EscapeAll(s[1..])
  }

  function StringText(s: string): seq<byte> {
    [34] + EscapeAll(s) + [34]
  }
}
