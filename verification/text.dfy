/** Bytes, decimal text, code-point order and UTF-8: what the wire and the identity encodings are made of. */
module Text {
  type byte = x: int | 0 <= x < 256

  datatype Option<+T> = None | Some(value: T)

  datatype Result<+T, +E> = Ok(value: T) | Err(error: E)

  // ---------------------------------------------------------------- decimal

  /** The decimal digits of a natural number, most significant first. */
  function NatText(n: nat): (r: seq<byte>)
    ensures |r| > 0
    ensures forall b | b in r :: 48 <= b <= 57
  {
    if n < 10 then [48 + n] else NatText(n / 10) + [48 + n % 10]
  }

  function NatValue(s: seq<byte>): int {
    if s == [] then 0 else 10 * NatValue(s[..|s| - 1]) + (s[|s| - 1] as int - 48)
  }

  lemma {:induction false} NatTextValue(n: nat)
    ensures NatValue(NatText(n)) == n
  {
    if n >= 10 {
      NatTextValue(n / 10);
      assert NatText(n)[..|NatText(n)| - 1] == NatText(n / 10);
    }
  }

  lemma NatTextInjective(a: nat, b: nat)
    requires NatText(a) == NatText(b)
    ensures a == b
  {
    NatTextValue(a);
    NatTextValue(b);
  }

  function NatString(n: nat): string {
    var t := NatText(n);
    seq(|t|, i requires 0 <= i < |t| => t[i] as char)
  }

  lemma NatStringInjective(a: nat, b: nat)
    requires NatString(a) == NatString(b)
    ensures a == b
  {
    var s, t := NatText(a), NatText(b);
    assert |s| == |NatString(a)| == |NatString(b)| == |t|;
    forall i | 0 <= i < |s| ensures s[i] == t[i] {
      assert NatString(a)[i] == s[i] as char && NatString(b)[i] == t[i] as char;
      assert s[i] == (s[i] as char) as int && t[i] == (t[i] as char) as int;
    }
    NatTextInjective(a, b);
  }

  lemma NatStringDigits(n: nat)
    ensures forall c | c in NatString(n) :: '0' <= c <= '9'
  {
    var t := NatText(n);
    forall i | 0 <= i < |t| ensures '0' <= NatString(n)[i] <= '9' {
      assert t[i] in t;
      assert 48 <= (t[i] as char) as int <= 57;
    }
  }

  function IntText(n: int): seq<byte> {
    if n < 0 then [45] + NatText(-n) else NatText(n)
  }

  // ------------------------------------------------------------ separators

  /** A separator that occurs in neither head splits two equal texts at the same place. */
  lemma SplitUnique<T>(a: seq<T>, b: seq<T>, sep: T, x: seq<T>, y: seq<T>)
    requires sep !in a && sep !in b
    requires a + [sep] + x == b + [sep] + y
    ensures a == b && x == y
  {
    var s, t := a + [sep] + x, b + [sep] + y;
    assert forall i | 0 <= i < |a| :: s[i] == a[i] != sep;
    assert forall i | 0 <= i < |b| :: t[i] == b[i] != sep;
    assert s[|a|] == sep && t[|b|] == sep;
    assert |a| == |b|;
    assert a == s[..|a|] && b == t[..|b|];
    assert x == s[|a| + 1..] && y == t[|b| + 1..];
  }

  /** Equal concatenations with heads of equal length agree on both parts. */
  lemma SameLengthSplit(a: seq<byte>, b: seq<byte>, x: seq<byte>, y: seq<byte>)
    requires |a| == |b|
    requires a + x == b + y
    ensures a == b && x == y
  {
    assert a == (a + x)[..|a|] && b == (b + y)[..|b|];
    assert x == (a + x)[|a|..] && y == (b + y)[|b|..];
  }

  // ------------------------------------------------------------------ UTF-8

  function Utf8(c: char): (r: seq<byte>)
    ensures |r| > 0
  {
    var x := c as int;
    if x < 0x80 then [x]
    else if x < 0x800 then [0xC0 + x / 64, 0x80 + x % 64]
    else if x < 0x10000 then [0xE0 + x / 4096, 0x80 + x / 64 % 64, 0x80 + x % 64]
    else [0xF0 + x / 262144, 0x80 + x / 4096 % 64, 0x80 + x / 64 % 64, 0x80 + x % 64]
  }

  /** The first byte of a UTF-8 sequence decides its length, so the code is prefix-free. */
  lemma Utf8Prefix(c: char, d: char, x: seq<byte>, y: seq<byte>)
    requires Utf8(c) + x == Utf8(d) + y
    ensures c == d && x == y
  {
    assert Utf8(c)[0] == (Utf8(c) + x)[0] == (Utf8(d) + y)[0] == Utf8(d)[0];
    assert |Utf8(c)| == |Utf8(d)|;
    SameLengthSplit(Utf8(c), Utf8(d), x, y);
    Utf8Code(c);
    Utf8Code(d);
    assert c as int == d as int;
  }

  function Utf8Value(s: seq<byte>): int {
    if |s| == 1 then s[0]
    else if |s| == 2 then (s[0] as int - 0xC0) * 64 + (s[1] as int - 0x80)
    else if |s| == 3 then (s[0] as int - 0xE0) * 4096 + (s[1] as int - 0x80) * 64 + (s[2] as int - 0x80)
    else if |s| == 4 then
      (s[0] as int - 0xF0) * 262144 + (s[1] as int - 0x80) * 4096 + (s[2] as int - 0x80) * 64 + (s[3] as int - 0x80)
    else 0
  }

  lemma Utf8Code(c: char)
    ensures Utf8Value(Utf8(c)) == c as int
  {
    var x := c as int;
    assert x / 64 / 64 == x / 4096 && x / 4096 / 64 == x / 262144;
  }

  // ------------------------------------------------------- code-point order

  /** Strict lexicographic order by Unicode code point. */
  predicate Less(a: string, b: string) {
    b != [] && (a == [] || a[0] < b[0] || (a[0] == b[0] && Less(a[1..], b[1..])))
  }

  lemma {:induction false} LessTotal(a: string, b: string)
    ensures a == b || Less(a, b) || Less(b, a)
  {
    if a != [] && b != [] && a[0] == b[0] {
      LessTotal(a[1..], b[1..]);
      assert a == [a[0]] + a[1..] && b == [b[0]] + b[1..];
    }
  }

  lemma {:induction false} LessTransitive(a: string, b: string, c: string)
    requires Less(a, b) && Less(b, c)
    ensures Less(a, c)
  {
    if a != [] && a[0] == b[0] == c[0] {
      LessTransitive(a[1..], b[1..], c[1..]);
    }
  }

  lemma {:induction false} LessIrreflexive(a: string)
    ensures !Less(a, a)
  {
    if a != [] { LessIrreflexive(a[1..]); }
  }

  predicate Ascending(keys: seq<string>) {
    forall i, j | 0 <= i < j < |keys| :: Less(keys[i], keys[j])
  }

  predicate Distinct<T(==)>(s: seq<T>) {
    forall i, j | 0 <= i < j < |s| :: s[i] != s[j]
  }

  function Elements<T>(s: seq<T>): set<T> {
    set x | x in s
  }

  ghost predicate Least(k: string, s: set<string>) {
    k in s && forall m | m in s && m != k :: Less(k, m)
  }

  lemma {:induction false} LeastExtends(a: string, b: string, rest: set<string>)
    requires Least(b, rest) && a !in rest
    ensures Least(if Less(a, b) then a else b, {a} + rest)
  {
    LessTotal(a, b);
    if Less(a, b) {
      forall m | m in rest && m != b ensures Less(a, m) {
        LessTransitive(a, b, m);
      }
    }
  }

  lemma {:induction false} LeastExists(s: set<string>)
    requires s != {}
    ensures exists k :: Least(k, s)
  {
    var a :| a in s;
    if s == {a} {
      assert Least(a, s);
    } else {
      LeastExists(s - {a});
      var b :| Least(b, s - {a});
      LeastExtends(a, b, s - {a});
      assert s == {a} + (s - {a});
    }
  }

  lemma AscendingPrepend(k: string, rest: seq<string>)
    requires Ascending(rest) && forall m | m in rest :: Less(k, m)
    ensures Ascending([k] + rest) && Elements([k] + rest) == {k} + Elements(rest)
  {
    forall i, j | 0 <= i < j < |[k] + rest| ensures Less(([k] + rest)[i], ([k] + rest)[j]) {
      assert ([k] + rest)[j] == rest[j - 1] && rest[j - 1] in rest;
      if i > 0 { assert ([k] + rest)[i] == rest[i - 1]; }
    }
  }

  /** The elements of a set of keys in code-point order. */
  ghost function Sorted(s: set<string>): (r: seq<string>)
    ensures Elements(r) == s && Ascending(r)
  {
    if s == {} then [] else
      LeastExists(s);
      var k :| Least(k, s);
      var rest := Sorted(s - {k});
      assert forall m | m in rest :: m in Elements(rest);
      AscendingPrepend(k, rest);
      [k] + rest
  }

  /** Only one ascending sequence has a given set of elements. */
  lemma {:induction false} AscendingUnique(a: seq<string>, b: seq<string>)
    requires Ascending(a) && Ascending(b) && Elements(a) == Elements(b)
    ensures a == b
  {
    if a == [] {
      assert forall i | 0 <= i < |b| :: b[i] in Elements(b);
    } else {
      assert a[0] in Elements(b) && b != [];
      assert b[0] in Elements(a);
      if a[0] != b[0] {
        var i :| 0 <= i < |b| && b[i] == a[0];
        var j :| 0 <= j < |a| && a[j] == b[0];
        LessTransitive(a[0], b[0], a[0]);
        LessIrreflexive(a[0]);
        assert false;
      }
      LessIrreflexive(a[0]);
      assert Elements(a[1..]) == Elements(a) - {a[0]};
      assert Elements(b[1..]) == Elements(b) - {b[0]};
      AscendingUnique(a[1..], b[1..]);
      assert a == [a[0]] + a[1..] && b == [b[0]] + b[1..];
    }
  }
}
