/** Declarations listed in any order and indexed by a key that must be unique. */
module Keyed {
  import opened Text

  predicate UniqueKeys<T>(items: seq<T>, key: T -> string) {
    forall i, j | 0 <= i < j < |items| :: key(items[i]) != key(items[j])
  }

  function ById<T>(items: seq<T>, key: T -> string): map<string, T> {
    if items == [] then map[]
    else ById(items[..|items| - 1], key)[key(items[|items| - 1]) := items[|items| - 1]]
  }

  /** The index holds exactly the listed items, each under its own key. */
  ghost predicate Indexes<T>(index: map<string, T>, items: seq<T>, key: T -> string) {
    && (forall x | x in items :: key(x) in index && index[key(x)] == x)
    && (forall k | k in index :: index[k] in items && key(index[k]) == k)
  }

  lemma {:induction false} ByIdIndexes<T>(items: seq<T>, key: T -> string)
    requires UniqueKeys(items, key)
    ensures Indexes(ById(items, key), items, key)
  {
    if items != [] {
      var n := |items| - 1;
      ByIdIndexes(items[..n], key);
      assert items == items[..n] + [items[n]];
      assert forall x | x in items[..n] :: key(x) != key(items[n]);
    }
  }

  lemma IndexUnique<T>(m: map<string, T>, a: seq<T>, n: map<string, T>, b: seq<T>, key: T -> string)
    requires Indexes(m, a, key) && Indexes(n, b, key) && forall x :: x in a <==> x in b
    ensures m == n
  {
    forall k ensures k in m <==> k in n {}
    forall k | k in m ensures m[k] == n[k] {
      assert m[k] in b;
    }
  }

  lemma {:induction false} Twice<T>(s: seq<T>, x: T)
    requires multiset(s)[x] >= 2
    ensures exists i, j :: 0 <= i < j < |s| && s[i] == x && s[j] == x
  {
    var n := |s| - 1;
    assert s == s[..n] + [s[n]];
    if s[n] == x {
      assert multiset(s[..n])[x] >= 1;
      assert x in s[..n];
      var i :| 0 <= i < n && s[..n][i] == x;
      assert s[i] == x && s[n] == x;
    } else {
      Twice(s[..n], x);
      var i, j :| 0 <= i < j < n && s[..n][i] == x && s[..n][j] == x;
      assert s[i] == x && s[j] == x;
    }
  }

  lemma Once<T>(s: seq<T>, i: nat, j: nat)
    requires i < j < |s| && s[i] == s[j]
    ensures multiset(s)[s[i]] >= 2
  {
    assert s == s[..j] + [s[j]] + s[j + 1..];
    assert s[i] == s[..j][i];
    assert s[i] in s[..j];
  }

  lemma SameMembers<T>(a: seq<T>, b: seq<T>)
    requires multiset(a) == multiset(b)
    ensures forall x :: x in a <==> x in b
  {
    forall x ensures x in a <==> x in b {
      assert x in a <==> x in multiset(a);
      assert x in b <==> x in multiset(b);
    }
  }

  lemma PermutedUnique<T>(a: seq<T>, b: seq<T>, key: T -> string)
    requires UniqueKeys(a, key) && multiset(a) == multiset(b)
    ensures UniqueKeys(b, key)
  {
    SameMembers(a, b);
    forall i, j | 0 <= i < j < |b| ensures key(b[i]) != key(b[j]) {
      assert b[i] in a && b[j] in a;
      if b[i] == b[j] {
        Once(b, i, j);
        Twice(a, b[i]);
        assert false;
      }
    }
  }

  /** The order of declarations does not change the index. */
  lemma PermutedIndex<T>(a: seq<T>, b: seq<T>, key: T -> string)
    requires UniqueKeys(a, key) && multiset(a) == multiset(b)
    ensures UniqueKeys(b, key) && ById(a, key) == ById(b, key) && forall x :: x in a <==> x in b
  {
    PermutedUnique(a, b, key);
    SameMembers(a, b);
    ByIdIndexes(a, key);
    ByIdIndexes(b, key);
    IndexUnique(ById(a, key), a, ById(b, key), b, key);
  }

  // ------------------------------------------------------------ the values of an index

  function Listed<T>(index: map<string, T>, keys: seq<string>): seq<T>
    requires forall k | k in keys :: k in index
  {
    seq(|keys|, i requires 0 <= i < |keys| => index[keys[i]])
  }

  /** The values of an index in ascending key order. */
  ghost function Values<T>(index: map<string, T>): seq<T> {
    var keys := Sorted(index.Keys);
    assert forall k | k in keys :: k in Elements(keys);
    Listed(index, keys)
  }

  lemma {:induction false} CountDistinct<T>(s: seq<T>, x: T)
    requires Distinct(s)
    ensures multiset(s)[x] == if x in s then 1 else 0
  {
    if s != [] {
      var n := |s| - 1;
      CountDistinct(s[..n], x);
      assert s == s[..n] + [s[n]];
    }
  }

  lemma SameMultiset<T>(a: seq<T>, b: seq<T>)
    requires Distinct(a) && Distinct(b) && forall x :: x in a <==> x in b
    ensures multiset(a) == multiset(b)
  {
    forall x ensures multiset(a)[x] == multiset(b)[x] {
      CountDistinct(a, x);
      CountDistinct(b, x);
    }
  }

  lemma AscendingDistinct(keys: seq<string>)
    requires Ascending(keys)
    ensures Distinct(keys)
  {
    forall i, j | 0 <= i < j < |keys| ensures keys[i] != keys[j] {
      assert Less(keys[i], keys[j]);
      LessIrreflexive(keys[i]);
    }
  }

  lemma ValuesMembers<T>(index: map<string, T>)
    ensures forall x :: x in Values(index) <==> exists k :: k in index && index[k] == x
  {
    var keys := Sorted(index.Keys);
    forall k | k in index ensures index[k] in Values(index) {
      assert k in Elements(keys);
      var i :| 0 <= i < |keys| && keys[i] == k;
      assert Values(index)[i] == index[k];
    }
    forall x | x in Values(index) ensures exists k :: k in index && index[k] == x {
      var i :| 0 <= i < |keys| && Values(index)[i] == x;
      assert keys[i] in Elements(keys);
    }
  }

  /** Listing an index gives back the declarations it was made from, in some order. */
  lemma ValuesPermute<T>(items: seq<T>, key: T -> string)
    requires UniqueKeys(items, key)
    ensures multiset(Values(ById(items, key))) == multiset(items)
  {
    var index := ById(items, key);
    var values, keys := Values(index), Sorted(index.Keys);
    ByIdIndexes(items, key);
    ValuesMembers(index);
    AscendingDistinct(keys);
    forall i, j | 0 <= i < j < |values| ensures values[i] != values[j] {
      assert keys[i] in Elements(keys) && keys[j] in Elements(keys);
      assert key(values[i]) == keys[i] && key(values[j]) == keys[j];
    }
    forall i, j | 0 <= i < j < |items| ensures items[i] != items[j] {
      assert key(items[i]) != key(items[j]);
    }
    SameMultiset(values, items);
  }

  // ------------------------------------------------------------ building an index

  lemma RepeatedKey<T>(items: seq<T>, i: nat, key: T -> string)
    requires i < |items| && UniqueKeys(items[..i], key) && key(items[i]) in ById(items[..i], key)
    ensures !UniqueKeys(items, key)
  {
    var before := items[..i];
    ByIdIndexes(before, key);
    var j :| 0 <= j < i && before[j] == ById(before, key)[key(items[i])];
    assert key(items[j]) == key(items[i]);
  }

  lemma FreshKey<T>(items: seq<T>, i: nat, key: T -> string)
    requires i < |items| && UniqueKeys(items[..i], key) && key(items[i]) !in ById(items[..i], key)
    ensures UniqueKeys(items[..i + 1], key)
  {
    var before := items[..i];
    ByIdIndexes(before, key);
    forall j | 0 <= j < i ensures key(items[j]) != key(items[i]) {
      assert before[j] in before;
    }
    assert forall j | 0 <= j < i :: before[j] == items[j];
  }

  /** Checks and indexes declarations one by one; a repeated key or an invalid declaration stops it. */
  method Index<T>(items: seq<T>, key: T -> string, valid: T -> bool) returns (ok: bool, index: map<string, T>)
    ensures ok <==> UniqueKeys(items, key) && forall x | x in items :: valid(x)
    ensures ok ==> index == ById(items, key)
  {
    index := map[];
    var i := 0;
    while i < |items|
      invariant i <= |items|
      invariant UniqueKeys(items[..i], key)
      invariant forall j | 0 <= j < i :: valid(items[j])
      invariant index == ById(items[..i], key)
    {
      if !valid(items[i]) { return false, index; }
      if key(items[i]) in index {
        RepeatedKey(items, i, key);
        return false, index;
      }
      FreshKey(items, i, key);
      assert items[..i + 1][..i] == items[..i];
      index := index[key(items[i]) := items[i]];
      i := i + 1;
    }
    assert items[..i] == items;
    ok := true;
  }
}
