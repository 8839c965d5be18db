/** Keys are sorted by code point, which is the order of their UTF-8 bytes. */
module KeyOrder {
  import opened Text

  /** One sequence comes before another: at the first difference it is smaller, or it ends there. */
  ghost predicate Precedes(x: seq<int>, y: seq<int>) {
    exists k: nat :: FirstAt(x, y, k)
  }

  predicate FirstAt(x: seq<int>, y: seq<int>, k: nat) {
    k <= |x| && k < |y| && (forall i | 0 <= i < k :: x[i] == y[i]) && (k < |x| ==> x[k] < y[k])
  }

  function Codes(s: string): seq<int> {
    seq(|s|, i requires 0 <= i < |s| => s[i] as int)
  }

  function Utf8Bytes(s: string): seq<int> {
    if s == [] then [] else Widened(Utf8(s[0])) + Utf8Bytes(s[1..])
  }

  function Widened(b: seq<byte>): seq<int> {
    seq(|b|, i requires 0 <= i < |b| => b[i] as int)
  }

  lemma PrecedesCons(c: int, x: seq<int>, y: seq<int>)
    ensures Precedes([c] + x, [c] + y) <==> Precedes(x, y)
  {
    PrecedesAfter([c], x, y);
  }

  /** A common beginning does not matter. */
  lemma PrecedesAfter(p: seq<int>, x: seq<int>, y: seq<int>)
    ensures Precedes(p + x, p + y) <==> Precedes(x, y)
  {
    var a, b := p + x, p + y;
    if Precedes(x, y) {
      var k: nat :| FirstAt(x, y, k);
      assert FirstAt(a, b, |p| + k);
    }
    if Precedes(a, b) {
      var n: nat :| FirstAt(a, b, n);
      var k := n - |p|;
      assert forall i | 0 <= i < k :: x[i] == a[|p| + i] && y[i] == b[|p| + i];
      assert FirstAt(x, y, k);
    }
  }

  /** The order by code point, at the first character that differs. */
  lemma {:induction false} LessIsCodeOrder(a: string, b: string)
    ensures Less(a, b) <==> Precedes(Codes(a), Codes(b))
  {
    if b == [] {
    } else if a == [] {
      assert FirstAt(Codes(a), Codes(b), 0);
    } else {
      assert Codes(a) == [a[0] as int] + Codes(a[1..]) && Codes(b) == [b[0] as int] + Codes(b[1..]);
      if a[0] == b[0] {
        LessIsCodeOrder(a[1..], b[1..]);
        PrecedesCons(a[0] as int, Codes(a[1..]), Codes(b[1..]));
      } else {
        FirstDiffers(Codes(a), Codes(b));
      }
    }
  }

  lemma FirstDiffers(x: seq<int>, y: seq<int>)
    requires x != [] && y != [] && x[0] != y[0]
    ensures Precedes(x, y) <==> x[0] < y[0]
  {
    if x[0] < y[0] { assert FirstAt(x, y, 0); }
  }

  /** The bytes of a smaller character are smaller where they first differ, whatever follows. */
  lemma Utf8Monotone(c: char, d: char, x: seq<int>, y: seq<int>)
    requires c < d
    ensures Precedes(Widened(Utf8(c)) + x, Widened(Utf8(d)) + y)
    ensures !Precedes(Widened(Utf8(d)) + y, Widened(Utf8(c)) + x)
  {
    var u, v := Widened(Utf8(c)), Widened(Utf8(d));
    var k := Utf8Differs(c, d);
    DiffersAt(u + x, v + y, k);
  }

  lemma DiffersAt(x: seq<int>, y: seq<int>, k: nat)
    requires k < |x| && FirstAt(x, y, k)
    ensures Precedes(x, y) && !Precedes(y, x)
  {
    forall n: nat ensures !FirstAt(y, x, n) {}
  }

  /** Numbers compare as their digits do. */
  lemma Digits(x: nat, y: nat)
    requires x < y
    ensures x / 64 < y / 64 || (x / 64 == y / 64 && x % 64 < y % 64)
  {
  }

  lemma ThreeDigits(x: nat, y: nat)
    requires x < y
    ensures x / 4096 <= y / 4096 && (x / 4096 == y / 4096 ==> x / 64 % 64 <= y / 64 % 64)
    ensures x / 4096 == y / 4096 && x / 64 % 64 == y / 64 % 64 ==> x % 64 < y % 64
  {
    assert x / 64 / 64 == x / 4096 && y / 64 / 64 == y / 4096;
    Digits(x, y);
    if x / 64 < y / 64 { Digits(x / 64, y / 64); }
  }

  lemma FourDigits(x: nat, y: nat)
    requires x < y
    ensures x / 262144 <= y / 262144 && (x / 262144 == y / 262144 ==> x / 4096 % 64 <= y / 4096 % 64)
    ensures x / 262144 == y / 262144 && x / 4096 % 64 == y / 4096 % 64 ==> x / 64 % 64 <= y / 64 % 64
    ensures x / 262144 == y / 262144 && x / 4096 % 64 == y / 4096 % 64 && x / 64 % 64 == y / 64 % 64 ==> x % 64 < y % 64
  {
    assert x / 64 / 4096 == x / 262144 && y / 64 / 4096 == y / 262144;
    assert x / 64 / 64 == x / 4096 && y / 64 / 64 == y / 4096;
    Digits(x, y);
    if x / 64 < y / 64 { ThreeDigits(x / 64, y / 64); }
  }

  /** Where the encodings of two characters first differ: in their lengths, or at the first digit that does. */
  lemma Utf8Differs(c: char, d: char) returns (k: nat)
    requires c < d
    ensures k < |Utf8(c)| && FirstAt(Widened(Utf8(c)), Widened(Utf8(d)), k)
  {
    if |Utf8(c)| != |Utf8(d)| || |Utf8(c)| == 1 {
      k := 0;
      ShorterFirst(c, d);
    } else if |Utf8(c)| == 2 {
      Digits(c as int, d as int);
      k := if Utf8(c)[0] != Utf8(d)[0] then 0 else 1;
    } else if |Utf8(c)| == 3 {
      ThreeDigits(c as int, d as int);
      k := if Utf8(c)[0] != Utf8(d)[0] then 0 else if Utf8(c)[1] != Utf8(d)[1] then 1 else 2;
    } else {
      FourDigits(c as int, d as int);
      k := if Utf8(c)[0] != Utf8(d)[0] then 0 else if Utf8(c)[1] != Utf8(d)[1] then 1
           else if Utf8(c)[2] != Utf8(d)[2] then 2 else 3;
    }
  }

  lemma ShorterFirst(c: char, d: char)
    requires c < d && (|Utf8(c)| != |Utf8(d)| || |Utf8(c)| == 1)
    ensures Utf8(c)[0] as int < Utf8(d)[0] as int
  {
  }

  /** Sorting keys by code point is sorting them by their UTF-8 bytes. */
  lemma {:induction false} LessIsByteOrder(a: string, b: string)
    ensures Less(a, b) <==> Precedes(Utf8Bytes(a), Utf8Bytes(b))
  {
    if b == [] {
    } else if a == [] {
      assert FirstAt(Utf8Bytes(a), Utf8Bytes(b), 0);
    } else if a[0] == b[0] {
      LessIsByteOrder(a[1..], b[1..]);
      PrecedesAfter(Widened(Utf8(a[0])), Utf8Bytes(a[1..]), Utf8Bytes(b[1..]));
    } else if a[0] < b[0] {
      Utf8Monotone(a[0], b[0], Utf8Bytes(a[1..]), Utf8Bytes(b[1..]));
    } else {
      Utf8Monotone(b[0], a[0], Utf8Bytes(b[1..]), Utf8Bytes(a[1..]));
    }
  }
}
