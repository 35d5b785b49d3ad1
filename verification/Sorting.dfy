/** `ORDER BY slug ASC` and `Array.sort()`: a stable sort by a text key. */
module Sorting {
  import opened Prelude

  /** Code-unit order on text. */
  predicate TextLe(a: string, b: string) {
    a == "" || (b != "" && (a[0] < b[0] || (a[0] == b[0] && TextLe(a[1..], b[1..]))))
  }

  /** At the first place where they differ, a has the smaller character. */
  ghost predicate Before(a: string, b: string, i: nat) {
    i < |a| && i < |b| && a[..i] == b[..i] && a[i] < b[i]
  }

  lemma BeforeHead(a: string, b: string, i: nat)
    requires Before(a, b, i)
    ensures a[0] <= b[0]
  {
    if i > 0 { assert a[..i][0] == a[0] && b[..i][0] == b[0]; }
  }

  /** The order of text: a prefix comes first, and otherwise the first difference decides. */
  lemma {:induction false} TextLeIff(a: string, b: string)
    ensures TextLe(a, b) <==> a <= b || exists i: nat :: Before(a, b, i)
  {
    if a != "" && b != "" {
      TextLeIff(a[1..], b[1..]);
      if a[0] == b[0] {
        assert a == [a[0]] + a[1..] && b == [b[0]] + b[1..];
        if i: nat :| Before(a[1..], b[1..], i) {
          assert a[..i + 1] == [a[0]] + a[1..][..i] && b[..i + 1] == [b[0]] + b[1..][..i];
          assert Before(a, b, i + 1);
        }
        if i: nat :| Before(a, b, i) {
          assert a[1..][..i - 1] == a[..i][1..] && b[1..][..i - 1] == b[..i][1..];
          assert Before(a[1..], b[1..], i - 1);
        }
      } else if a[0] < b[0] {
        assert Before(a, b, 0);
      } else if i: nat :| Before(a, b, i) {
        BeforeHead(a, b, i);
      }
    }
  }

  lemma {:induction false} TextLeTotal(a: string, b: string)
    ensures TextLe(a, b) || TextLe(b, a)
  {
    if a != "" && b != "" { TextLeTotal(a[1..], b[1..]); }
  }

  lemma {:induction false} TextLeTrans(a: string, b: string, c: string)
    requires TextLe(a, b) && TextLe(b, c)
    ensures TextLe(a, c)
  {
    if a != "" && a[0] == b[0] == c[0] { TextLeTrans(a[1..], b[1..], c[1..]); }
  }

  lemma {:induction false} TextLeAntisym(a: string, b: string)
    requires TextLe(a, b) && TextLe(b, a)
    ensures a == b
  {
    if a != "" {
      TextLeAntisym(a[1..], b[1..]);
      assert a == [a[0]] + a[1..] && b == [b[0]] + b[1..];
    }
  }

  function Insert<T(!new)>(s: seq<T>, x: T, key: T -> string): (r: seq<T>)
    ensures multiset(r) == multiset(s) + multiset{x}
  {
    if s == [] || TextLe(key(s[|s| - 1]), key(x)) then s + [x]
    else
      assert s == s[..|s| - 1] + [s[|s| - 1]];
      Insert(s[..|s| - 1], x, key) + [s[|s| - 1]]
  }

  function SortBy<T(!new)>(s: seq<T>, key: T -> string): (r: seq<T>)
    ensures multiset(r) == multiset(s)
  {
    if s == [] then []
    else
      assert s == s[..|s| - 1] + [s[|s| - 1]];
      Insert(SortBy(s[..|s| - 1], key), s[|s| - 1], key)
  }

  ghost predicate SortedBy<T(!new)>(s: seq<T>, key: T -> string) {
    forall i, j :: 0 <= i < j < |s| ==> TextLe(key(s[i]), key(s[j]))
  }

  lemma SameMembers<T(!new)>(s: seq<T>, key: T -> string)
    ensures |SortBy(s, key)| == |s|
    ensures forall x :: x in SortBy(s, key) <==> x in s
  {
    assert |multiset(s)| == |s|;
    assert |multiset(SortBy(s, key))| == |SortBy(s, key)|;
    forall x ensures x in SortBy(s, key) <==> x in s {
      assert x in s <==> x in multiset(s);
      assert x in SortBy(s, key) <==> x in multiset(SortBy(s, key));
    }
  }

  lemma {:induction false} InsertSorted<T(!new)>(s: seq<T>, x: T, key: T -> string)
    requires SortedBy(s, key)
    ensures SortedBy(Insert(s, x, key), key)
  {
    if s == [] {
    } else if TextLe(key(s[|s| - 1]), key(x)) {
      forall i | 0 <= i < |s| ensures TextLe(key(s[i]), key(x)) {
        if i < |s| - 1 { TextLeTrans(key(s[i]), key(s[|s| - 1]), key(x)); }
      }
    } else {
      var n := |s| - 1;
      InsertSorted(s[..n], x, key);
      TextLeTotal(key(s[n]), key(x));
      var r := Insert(s[..n], x, key);
      forall i | 0 <= i < |r| ensures TextLe(key(r[i]), key(s[n])) {
        assert r[i] in multiset(r);
        if r[i] != x {
          assert r[i] in s[..n];
          var j :| 0 <= j < n && s[j] == r[i];
        }
      }
    }
  }

  lemma {:induction false} SortSorted<T(!new)>(s: seq<T>, key: T -> string)
    ensures SortedBy(SortBy(s, key), key)
  {
    if s != [] {
      SortSorted(s[..|s| - 1], key);
      InsertSorted(SortBy(s[..|s| - 1], key), s[|s| - 1], key);
    }
  }

  /** Sorting what is sorted changes nothing. */
  lemma {:induction false} SortFixed<T(!new)>(s: seq<T>, key: T -> string)
    requires SortedBy(s, key)
    ensures SortBy(s, key) == s
  {
    hide TextLe;
    if s != [] {
      var n := |s| - 1;
      assert s == s[..n] + [s[n]];
      SortFixed(s[..n], key);
      if n > 0 { assert TextLe(key(s[n - 1]), key(s[n])); }
    }
  }

  lemma {:induction false} InsertMap<A(!new), B(!new)>(s: seq<A>, x: A, key: A -> string, f: A -> B, key': B -> string)
    requires key'(f(x)) == key(x) && forall y :: y in s ==> key'(f(y)) == key(y)
    ensures Map(Insert(s, x, key), f) == Insert(Map(s, f), f(x), key')
  {
    if s != [] {
      var n := |s| - 1;
      assert Map(s, f)[..n] == Map(s[..n], f);
      if !TextLe(key(s[n]), key(x)) { InsertMap(s[..n], x, key, f, key'); }
    }
  }

  /** Sorting commutes with a row-to-document translation that keeps the key. */
  lemma {:induction false} SortMap<A(!new), B(!new)>(s: seq<A>, key: A -> string, f: A -> B, key': B -> string)
    requires forall y :: y in s ==> key'(f(y)) == key(y)
    ensures Map(SortBy(s, key), f) == SortBy(Map(s, f), key')
  {
    if s != [] {
      var n := |s| - 1;
      SortMap(s[..n], key, f, key');
      SameMembers(s[..n], key);
      InsertMap(SortBy(s[..n], key), s[n], key, f, key');
      assert Map(s, f)[..n] == Map(s[..n], f);
    }
  }

  lemma {:induction false} InsertDistinct<T(!new), K(!new)>(s: seq<T>, x: T, key: T -> string, id: T -> K)
    requires DistinctBy(s, id) && forall y :: y in s ==> id(y) != id(x)
    ensures DistinctBy(Insert(s, x, key), id)
  {
    if s != [] && !TextLe(key(s[|s| - 1]), key(x)) {
      var n := |s| - 1;
      InsertDistinct(s[..n], x, key, id);
      InsertMembers(s[..n], x, key);
      var r := Insert(s[..n], x, key);
      forall i | 0 <= i < |r| ensures id(r[i]) != id(s[n]) { assert r[i] in r; }
    }
  }

  lemma InsertMembers<T(!new)>(s: seq<T>, x: T, key: T -> string)
    ensures forall y :: y in Insert(s, x, key) <==> y in s || y == x
  {
    hide Insert;
    forall y ensures y in Insert(s, x, key) <==> y in s || y == x {
      assert y in Insert(s, x, key) <==> y in multiset(Insert(s, x, key));
    }
  }

  lemma {:induction false} SortDistinct<T(!new), K(!new)>(s: seq<T>, key: T -> string, id: T -> K)
    requires DistinctBy(s, id)
    ensures DistinctBy(SortBy(s, key), id)
  {
    if s != [] {
      var n := |s| - 1;
      SortDistinct(s[..n], key, id);
      SameMembers(s[..n], key);
      InsertDistinct(SortBy(s[..n], key), s[n], key, id);
    }
  }
}
