/** Numbers and string literals read back as what was written. */
module ReadBacks {
  import opened Text
  import opened Lexeme
  import opened Json
  import opened Readers

  // ------------------------------------------------------------------ numbers

  /** Text that does not go on with a digit. */
  predicate Ends(x: seq<byte>) {
    x == [] || !IsDigit(x[0])
  }

  /** What may follow a value: nothing, a comma, or a closing bracket. */
  predicate Delimited(x: seq<byte>) {
    x == [] || x[0] == 44 || x[0] == 93 || x[0] == 125
  }

  lemma {:induction false} DigitsBack(digits: seq<byte>, x: seq<byte>)
    requires Digits(digits) && Ends(x)
    ensures TakeDigits(digits + x) == (digits, x)
  {
    if digits == [] {
      assert digits + x == x;
    } else {
      assert (digits + x)[1..] == digits[1..] + x;
      assert digits[0] in digits && forall b | b in digits[1..] :: b in digits;
      DigitsBack(digits[1..], x);
      assert [digits[0]] + digits[1..] == digits;
    }
  }

  lemma {:induction false} NatTextLead(n: nat)
    ensures |NatText(n)| > 1 ==> NatText(n)[0] != 48
    ensures n > 0 ==> NatText(n)[0] != 48
  {
    if n >= 10 {
      NatTextLead(n / 10);
      assert NatText(n)[0] == NatText(n / 10)[0];
    }
  }

  lemma FractionBack(frac: seq<byte>, x: seq<byte>)
    requires Digits(frac) && Ends(x) && !Starts(x, 46)
    ensures ReadFraction(Fraction(frac) + x) == Some((if frac == [] then None else Some(frac), x))
  {
    if frac == [] {
      assert Fraction(frac) + x == x;
    } else {
      assert (Fraction(frac) + x)[1..] == frac + x;
      DigitsBack(frac, x);
    }
  }

  lemma {:induction false} PadValue(n: nat)
    ensures NatValue((if n < 10 then [48] else []) + NatText(n)) == n
  {
    NatTextValue(n);
    if n < 10 {
      assert ([48] + NatText(n))[..1] == [48];
      assert [48][..0] == [];
    } else {
      assert [] + NatText(n) == NatText(n);
    }
  }

  lemma ExponentBack(e: int, x: seq<byte>)
    requires Delimited(x)
    ensures ReadExponent(([101] + ExponentText(e)) + x) == Some((Some(e), x))
  {
    var n := if e < 0 then -e else e;
    var digits := (if n < 10 then [48] else []) + NatText(n);
    var s := ([101] + ExponentText(e)) + x;
    ExponentParts(if e < 0 then 45 else 43, digits, x);
    assert s == [101] + ([if e < 0 then 45 else 43] + (digits + x));
    DigitsBack(digits, x);
    PadValue(n);
  }

  lemma ExponentParts(sign: byte, digits: seq<byte>, x: seq<byte>)
    ensures var s := [101] + ([sign] + (digits + x)); s[0] == 101 && s[1..][0] == sign && s[2..] == digits + x
  {
  }

  // ------------------------------------------------------------- normal forms

  lemma {:induction false} LeadBack(n: nat, digits: seq<byte>)
    requires digits != [] && digits[0] != 48
    ensures LeadingZeros(Zeros(n) + digits) == n && (Zeros(n) + digits)[n..] == digits
  {
    if n == 0 {
      assert Zeros(0) + digits == digits;
    } else {
      assert (Zeros(n) + digits)[1..] == Zeros(n - 1) + digits;
      LeadBack(n - 1, digits);
    }
  }

  lemma {:induction false} TrailBack(digits: seq<byte>, n: nat)
    requires digits != [] && digits[|digits| - 1] != 48
    ensures DropTrailingZeros(digits + Zeros(n)) == digits
  {
    if n == 0 {
      assert digits + Zeros(0) == digits;
    } else {
      var s := digits + Zeros(n);
      assert s[..|s| - 1] == digits + Zeros(n - 1);
      TrailBack(digits, n - 1);
    }
  }

  /** Zeros before and after the digits of a decimal change its notation and not the decimal. */
  lemma NormalBack(f: Float, whole: seq<byte>, frac: seq<byte>, exp: int, before: nat, after: nat)
    requires Digits(whole) && Digits(frac) && f.digits != []
    requires whole + frac == Zeros(before) + (f.digits + Zeros(after))
    requires |whole| + exp == f.point + before
    ensures Normal(f.neg, whole, frac, exp) == f
  {
    LeadBack(before, f.digits + Zeros(after));
    TrailBack(f.digits, after);
  }

  lemma ZeroBack(neg: bool)
    ensures Normal(neg, [48], [48], 0) == Decimal(neg, [], 0)
  {
    assert [48] + [48] == [48, 48] && [48, 48][1..] == [48] && [48][1..] == [];
    assert LeadingZeros([48, 48]) == 2;
  }

  /** The whole part, fraction and exponent a notation writes. */
  function Whole(d: Notation): seq<byte> {
    if d.Fixed? then d.whole else [d.lead]
  }

  function Exp(d: Notation): int {
    if d.Fixed? then 0 else d.exp
  }

  predicate Readable(d: Notation) {
    && Digits(Whole(d)) && Digits(d.frac) && Whole(d) != [] && (|Whole(d)| > 1 ==> Whole(d)[0] != 48)
    && (d.Fixed? ==> d.frac != [])
  }

  /** A notation of a float: its digits with zeros around them. */
  predicate Denotes(f: Float, d: Notation) {
    Readable(d) && d.neg == f.neg && Normal(f.neg, Whole(d), d.frac, Exp(d)) == f
  }

  lemma ZerosDigits(n: nat)
    ensures Digits(Zeros(n)) && |Zeros(n)| == n
  {
  }

  lemma ShortestLong(f: Float)
    requires 0 < |f.digits| <= f.point <= 16
    ensures Denotes(f, Shortest(f))
  {
    var d, n := Shortest(f), f.point - |f.digits|;
    assert d.whole + d.frac == Zeros(0) + (f.digits + Zeros(n + 1));
    assert d.whole[0] == f.digits[0];
    NormalBack(f, d.whole, d.frac, 0, 0, n + 1);
  }

  lemma ShortestMiddle(f: Float)
    requires 0 < f.point <= 16 && f.point < |f.digits|
    ensures Denotes(f, Shortest(f))
  {
    var d := Shortest(f);
    assert d.whole + d.frac == f.digits == Zeros(0) + (f.digits + Zeros(0));
    assert forall b | b in d.whole :: b in f.digits;
    assert forall b | b in d.frac :: b in f.digits;
    NormalBack(f, d.whole, d.frac, 0, 0, 0);
  }

  lemma ShortestSmall(f: Float)
    requires -5 < f.point <= 0 && f.digits != []
    ensures Denotes(f, Shortest(f))
  {
    var d := Shortest(f);
    assert d.whole + d.frac == Zeros(1 - f.point) + (f.digits + Zeros(0));
    NormalBack(f, d.whole, d.frac, 0, 1 - f.point, 0);
  }

  lemma ScientificDenotes(f: Float)
    requires f.digits != []
    ensures Denotes(f, Scientific(f.neg, f.digits[0], f.digits[1..], f.point - 1))
  {
    var d := Scientific(f.neg, f.digits[0], f.digits[1..], f.point - 1);
    assert [d.lead] + d.frac == f.digits == Zeros(0) + (f.digits + Zeros(0));
    assert d.lead in f.digits;
    assert forall b | b in d.frac :: b in f.digits;
    NormalBack(f, [d.lead], d.frac, d.exp, 0, 0);
  }

  lemma ShortestDenotes(f: Float)
    ensures Denotes(f, Shortest(f))
  {
    if f.digits == [] {
      ZeroBack(f.neg);
    } else if |f.digits| <= f.point <= 16 {
      ShortestLong(f);
    } else if 0 < f.point <= 16 {
      ShortestMiddle(f);
    } else if -5 < f.point <= 0 {
      ShortestSmall(f);
    } else {
      ScientificDenotes(f);
    }
  }

  /** Rescaling writes the same decimal. */
  lemma RescaleDenotes(f: Float)
    ensures Denotes(f, Rescale(Shortest(f)))
  {
    var d := Shortest(f);
    ShortestDenotes(f);
    if Rescale(d) != d {
      assert d.frac[..4] == Zeros(4) && |d.frac| > 4;
      RescaledDigits(f, d);
      ScientificDenotes(f);
    }
  }

  /** The notation 0.0000d... belongs to the decimals with the point at -4. */
  lemma RescaledDigits(f: Float, d: Notation)
    requires d == Shortest(f) && d.Fixed? && d.whole == [48] && |d.frac| > 4 && d.frac[..4] == Zeros(4)
    ensures f.digits != [] && f.point == -4 && d.frac[4] == f.digits[0] && d.frac[5..] == f.digits[1..]
  {
    forall i | 0 <= i < 4 ensures d.frac[i] == 48 { assert d.frac[i] == d.frac[..4][i] == Zeros(4)[i]; }
    ShortestShape(f);
    assert f.digits != [] && f.point <= 0 && d.frac == Zeros(-f.point) + f.digits;
  }

  /** A fixed notation starts with a digit other than zero, or its fraction has the zeros up to the first digit. */
  lemma ShortestShape(f: Float)
    ensures var d := Shortest(f); d.Fixed? && f.digits != [] ==>
      && (f.point > 0 ==> d.whole != [] && d.whole[0] != 48)
      && (f.point <= 0 ==> d.frac == Zeros(-f.point) + f.digits && d.frac[-f.point] != 48)
  {
  }

  lemma SignBack(neg: bool, whole: seq<byte>, rest: seq<byte>)
    requires whole != [] && Digits(whole)
    ensures var s := Sign(neg) + (whole + rest);
      (Starts(s, 45) <==> neg) && (if neg then s[1..] else s) == whole + rest
  {
    assert whole[0] in whole;
    assert (whole + rest)[0] == whole[0];
  }

  /** A number is read part by part. */
  lemma PartsBack(neg: bool, whole: seq<byte>, afterWhole: seq<byte>, frac: Option<seq<byte>>, afterFrac: seq<byte>,
                  exp: Option<int>, x: seq<byte>)
    requires whole != [] && Digits(whole) && (|whole| > 1 ==> whole[0] != 48) && Ends(afterWhole)
    requires ReadFraction(afterWhole) == Some((frac, afterFrac)) && ReadExponent(afterFrac) == Some((exp, x))
    ensures frac.Some? ==> Digits(frac.value)
    ensures ReadNumber(Sign(neg) + (whole + afterWhole)) == Some((NumberOf(neg, whole, frac, exp), x))
  {
    SignBack(neg, whole, afterWhole);
    DigitsBack(whole, afterWhole);
  }

  lemma NoExponent(x: seq<byte>)
    requires Delimited(x)
    ensures ReadFraction(x) == Some((None, x)) && ReadExponent(x) == Some((None, x)) && Ends(x)
  {
  }

  lemma FixedBack(f: Float, d: Notation, x: seq<byte>)
    requires Denotes(f, d) && d.Fixed? && Delimited(x)
    ensures ReadNumber(NotationText(d) + x) == Some((Float(f, ""), x))
  {
    NoExponent(x);
    FractionBack(d.frac, x);
    assert NotationText(d) + x == Sign(d.neg) + (d.whole + (Fraction(d.frac) + x));
    PartsBack(d.neg, d.whole, Fraction(d.frac) + x, Some(d.frac), x, None, x);
  }

  lemma ScientificParts(d: Notation, x: seq<byte>)
    requires d.Scientific?
    ensures NotationText(d) + x == Sign(d.neg) + ([d.lead] + (Fraction(d.frac) + (([101] + ExponentText(d.exp)) + x)))
  {
  }

  lemma ScientificBack(f: Float, d: Notation, x: seq<byte>)
    requires Denotes(f, d) && d.Scientific? && Delimited(x)
    ensures ReadNumber(NotationText(d) + x) == Some((Float(f, ""), x))
  {
    var exponent := ([101] + ExponentText(d.exp)) + x;
    ExponentBack(d.exp, x);
    FractionBack(d.frac, exponent);
    ScientificParts(d, x);
    PartsBack(d.neg, [d.lead], Fraction(d.frac) + exponent, if d.frac == [] then None else Some(d.frac), exponent,
              Some(d.exp), x);
  }

  lemma IntegerBack(n: nat, neg: bool, x: seq<byte>)
    requires Delimited(x)
    ensures ReadNumber(Sign(neg) + (NatText(n) + x)) ==
            Some((if neg && n == 0 then MinusZero else Integer(if neg then 0 - n else n), x))
  {
    NoExponent(x);
    NatTextLead(n);
    NatTextValue(n);
    PartsBack(neg, NatText(n), x, None, x, None, x);
  }

  /** Every representable number reads back as itself, up to the spelling of a float. */
  lemma NumberBack(n: Number, x: seq<byte>)
    requires !n.Infinite? && Delimited(x)
    ensures ReadNumber(NumberText(n) + x) == Some((PlainNumber(n), x))
  {
    match n
    case Integer(i) =>
      IntegerBack(if i < 0 then -i else i, i < 0, x);
      assert IntText(i) + x == Sign(i < 0) + (NatText(if i < 0 then -i else i) + x);
    case MinusZero =>
      IntegerBack(0, true, x);
      assert [45, 48] + x == Sign(true) + (NatText(0) + x);
    case Float(f, _) =>
      RescaleDenotes(f);
      if Rescale(Shortest(f)).Fixed? { FixedBack(f, Rescale(Shortest(f)), x); }
      else { ScientificBack(f, Rescale(Shortest(f)), x); }
  }

  /** A number's text determines it up to the spelling of a float. */
  lemma NumberTextInjective(m: Number, n: Number)
    requires !m.Infinite? && !n.Infinite?
    requires NumberText(m) == NumberText(n)
    ensures PlainNumber(m) == PlainNumber(n)
  {
    NumberBack(m, []);
    NumberBack(n, []);
  }

  predicate NumeralByte(b: byte) {
    48 <= b <= 57 || b == 45 || b == 43 || b == 46 || b == 101
  }

  lemma NumberBytes(n: Number)
    requires !n.Infinite?
    ensures Numeral(NumberText(n))
    ensures NumberText(n) != [] && (IsDigit(NumberText(n)[0]) || NumberText(n)[0] == 45)
  {
    match n
    case Float(f, _) =>
      RescaleDenotes(f);
      NotationBytes(Rescale(Shortest(f)));
    case Integer(i) => assert NatText(if i < 0 then -i else i)[0] in NatText(if i < 0 then -i else i);
    case _ =>
  }

  predicate Numeral(s: seq<byte>) {
    forall b | b in s :: NumeralByte(b)
  }

  lemma NumeralConcat(a: seq<byte>, b: seq<byte>)
    requires Numeral(a) && Numeral(b)
    ensures Numeral(a + b)
  {
  }

  lemma NotationBytes(d: Notation)
    requires Readable(d)
    ensures Numeral(NotationText(d)) && NotationText(d) != []
    ensures IsDigit(NotationText(d)[0]) || NotationText(d)[0] == 45
  {
    assert Whole(d)[0] in Whole(d);
    if d.Fixed? {
      NumeralConcat(d.whole, [46] + d.frac);
      NumeralConcat(Sign(d.neg), d.whole + ([46] + d.frac));
      assert (d.whole + ([46] + d.frac))[0] == d.whole[0];
    } else {
      var exponent := [101] + ExponentText(d.exp);
      assert Numeral(ExponentText(d.exp)) && Numeral(exponent) && Numeral(Fraction(d.frac));
      NumeralConcat(Fraction(d.frac), exponent);
      NumeralConcat([d.lead], Fraction(d.frac) + exponent);
      NumeralConcat(Sign(d.neg), [d.lead] + (Fraction(d.frac) + exponent));
    }
  }

  // ------------------------------------------------------------------ strings

  lemma Utf8Short(c: char, x: seq<byte>)
    requires c as int < 0x800
    ensures ReadUtf8(Utf8(c) + x) == Some((c, x))
  {
    var s := Utf8(c) + x;
    assert s[|Utf8(c)|..] == x;
  }

  lemma Utf8Long(c: char, x: seq<byte>)
    requires 0x800 <= c as int < 0x10000
    ensures ReadUtf8(Utf8(c) + x) == Some((c, x))
  {
    var s, n := Utf8(c) + x, c as int;
    assert s[3..] == x && n == 4096 * (n / 4096) + 64 * (n / 64 % 64) + n % 64;
  }

  lemma Utf8Longest(c: char, x: seq<byte>)
    requires 0x10000 <= c as int
    ensures ReadUtf8(Utf8(c) + x) == Some((c, x))
  {
    var s, n := Utf8(c) + x, c as int;
    SextetsOf(n);
    assert s[4..] == x;
  }

  lemma SextetsOf(n: int)
    requires 0 <= n
    ensures n == 262144 * (n / 262144) + 4096 * (n / 4096 % 64) + 64 * (n / 64 % 64) + n % 64
  {
    var a, b := n / 64, n / 4096;
    assert n == 64 * a + n % 64;
    assert a / 64 == b && a == 64 * b + a % 64;
    assert b / 64 == n / 262144 && b == 64 * (b / 64) + b % 64;
  }

  lemma Utf8Back(c: char, x: seq<byte>)
    ensures ReadUtf8(Utf8(c) + x) == Some((c, x))
    ensures c as int >= 32 ==> Utf8(c)[0] >= 32
    ensures c as int >= 128 ==> Utf8(c)[0] >= 128
  {
    if c as int < 0x800 { Utf8Short(c, x); }
    else if c as int < 0x10000 { Utf8Long(c, x); }
    else { Utf8Longest(c, x); }
  }

  lemma HexBack(n: int)
    requires 0 <= n < 16
    ensures HexValue(HexDigit(n)) == Some(n)
  {
  }

  lemma ControlBack(n: int, x: seq<byte>)
    requires 0 <= n < 32
    ensures ReadChar([92, 117, 48, 48, HexDigit(n / 16), HexDigit(n % 16)] + x) == Some((n as char, x))
  {
    var s := [92, 117, 48, 48, HexDigit(n / 16), HexDigit(n % 16)] + x;
    HexBack(n / 16);
    HexBack(n % 16);
    assert s[2..] == [48, 48, HexDigit(n / 16), HexDigit(n % 16)] + x;
    assert s[2..][4..] == x && s[1..][0] == 117;
  }

  lemma LetterBack(letter: byte, x: seq<byte>)
    requires Meant(letter).Some?
    ensures ReadChar([92, letter] + x) == Some((Meant(letter).value, x))
  {
    assert ([92, letter] + x)[2..] == x && ([92, letter] + x)[1..][0] == letter;
  }

  /** Every character reads back as itself, escaped or not, and never as the closing quote. */
  lemma EscapeBack(c: char, x: seq<byte>)
    ensures ReadChar(Escape(c) + x) == Some((c, x)) && Escape(c) != [] && Escape(c)[0] != 34
  {
    var n := c as int;
    if c == '"' || c == '\\' || n == 8 || n == 9 || n == 10 || n == 12 || n == 13 {
      LetterBack(Escape(c)[1], x);
      assert Escape(c) == [92, Escape(c)[1]];
    } else if n < 32 {
      ControlBack(n, x);
    } else {
      Utf8Back(c, x);
      assert (Utf8(c) + x)[0] == Utf8(c)[0];
    }
  }

  lemma {:induction false} StringBack(s: string, x: seq<byte>)
    ensures ReadChars(EscapeAll(s) + [34] + x) == Some((s, x))
  {
    if s == [] {
      assert EscapeAll(s) + [34] + x == [34] + x;
      assert ([34] + x)[1..] == x;
    } else {
      var rest := EscapeAll(s[1..]) + [34] + x;
      assert EscapeAll(s) + [34] + x == Escape(s[0]) + rest;
      EscapeBack(s[0], rest);
      StringBack(s[1..], x);
      assert [s[0]] + s[1..] == s;
    }
  }

  /** A string literal ends at its own closing quote. */
  lemma StringPrefix(s: string, t: string, x: seq<byte>, y: seq<byte>)
    requires EscapeAll(s) + [34] + x == EscapeAll(t) + [34] + y
    ensures s == t && x == y
  {
    StringBack(s, x);
    StringBack(t, y);
  }
}
