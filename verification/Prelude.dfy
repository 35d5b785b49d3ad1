/** Options, results and the sequence functions every table query is written with. */
module Prelude {

  datatype Option<+T> = None | Some(value: T) {
    function GetOr(default: T): T {
      if Some? then value else default
    }

    /** JavaScript's `a ?? b` where both sides may be missing. */
    function OrElse(other: Option<T>): Option<T> {
      if Some? then this else other
    }
  }

  /** A patched column: left alone, cleared, or set. */
  datatype Field<T> = Absent | Null | Value(value: T) {
    function Over(stored: Option<T>): Option<T> {
      match this
      case Absent => stored
      case Null => None
      case Value(v) => Some(v)
    }
  }

  /** What patching a column means: it keeps its value, loses it, or takes the one given. */
  ghost predicate Sets<T>(f: Field<T>, before: Option<T>, after: Option<T>) {
    match f
    case Absent => after == before
    case Null => after == None
    case Value(v) => after == Some(v)
  }

  datatype Result<+T, +E> = Ok(value: T) | Err(error: E)

  /** The rows a query returns: those satisfying p, in table order. */
  function Filter<T(!new)>(s: seq<T>, p: T -> bool): (r: seq<T>)
    ensures forall x :: x in r <==> x in s && p(x)
  {
    if s == [] then [] else
    var rest := Filter(s[..|s| - 1], p);
    if p(s[|s| - 1]) then rest + [s[|s| - 1]] else rest
  }

  /** `findOne` and `Array.find`: the first row satisfying p. */
  function FindFirst<T(!new)>(s: seq<T>, p: T -> bool): (r: Option<T>)
    ensures r.Some? ==> r.value in s && p(r.value)
    ensures r.None? <==> forall x :: x in s ==> !p(x)
  {
    if s == [] then None else
    if p(s[0]) then Some(s[0]) else FindFirst(s[1..], p)
  }

  /** What a loop that overwrites its answer keeps: the last row satisfying p. */
  function FindLast<T(!new)>(s: seq<T>, p: T -> bool): (r: Option<T>)
    ensures r.Some? ==> r.value in s && p(r.value)
    ensures r.None? <==> forall x :: x in s ==> !p(x)
  {
    if s == [] then None else
    if p(s[|s| - 1]) then Some(s[|s| - 1]) else FindLast(s[..|s| - 1], p)
  }

  function Map<A(!new), B(!new)>(s: seq<A>, f: A -> B): (r: seq<B>)
    ensures |r| == |s|
    ensures forall i :: 0 <= i < |s| ==> r[i] == f(s[i])
  {
    seq(|s|, i requires 0 <= i < |s| => f(s[i]))
  }

  /** Rows mapped to an optional value, with the missing ones dropped. */
  function FilterMap<A(!new), B(!new)>(s: seq<A>, f: A -> Option<B>): (r: seq<B>)
  {
    if s == [] then [] else
    var rest := FilterMap(s[..|s| - 1], f);
    match f(s[|s| - 1])
    case Some(v) => rest + [v]
    case None => rest
  }

  /** `flatMap`: f(0) + ... + f(n - 1). */
  function Flat<T(!new)>(n: nat, f: nat -> seq<T>): (r: seq<T>)
  {
    if n == 0 then [] else Flat(n - 1, f) + f(n - 1)
  }

  ghost predicate Distinct<T>(s: seq<T>) {
    forall i, j :: 0 <= i < j < |s| ==> s[i] != s[j]
  }

  /** No two rows share a key: a primary key or a unique index. */
  ghost predicate DistinctBy<T(!new), K(!new)>(s: seq<T>, key: T -> K) {
    forall i, j :: 0 <= i < j < |s| ==> key(s[i]) != key(s[j])
  }

  lemma DistinctByMember<T(!new), K(!new)>(s: seq<T>, key: T -> K, a: T, b: T)
    requires DistinctBy(s, key)
    requires a in s && b in s && key(a) == key(b)
    ensures a == b
  {
    var i :| 0 <= i < |s| && s[i] == a;
    var j :| 0 <= j < |s| && s[j] == b;
    assert i == j;
  }

  /** Where in the table the rows satisfying p stand. */
  ghost function Places<T(!new)>(s: seq<T>, p: T -> bool): set<int> {
    set i | 0 <= i < |s| && p(s[i])
  }

  lemma PlacesStep<T(!new)>(s: seq<T>, p: T -> bool)
    requires s != []
    ensures var n := |s| - 1; n !in Places(s[..n], p) && Places(s, p) == Places(s[..n], p) + (if p(s[n]) then {n} else {})
  {
    var n := |s| - 1;
    forall i ensures i in Places(s, p) <==> i in Places(s[..n], p) + (if p(s[n]) then {n} else {}) {
      if 0 <= i < n { assert s[..n][i] == s[i]; }
    }
  }

  /** A query returns one row for each place of the table that satisfies it. */
  lemma {:induction false} FilterCount<T(!new)>(s: seq<T>, p: T -> bool)
    ensures |Filter(s, p)| == |Places(s, p)|
  {
    hide Places;
    if s == [] {
      NoPlaces(p);
    } else {
      FilterCount(s[..|s| - 1], p);
      PlacesStep(s, p);
    }
  }

  lemma NoPlaces<T(!new)>(p: T -> bool)
    ensures Places([], p) == {}
  {
  }

  lemma {:induction false} FilterAppend<T(!new)>(a: seq<T>, b: seq<T>, p: T -> bool)
    ensures Filter(a + b, p) == Filter(a, p) + Filter(b, p)
  {
    if b == [] {
      assert a + b == a;
    } else {
      FilterAppend(a, b[..|b| - 1], p);
      assert (a + b)[..|a + b| - 1] == a + b[..|b| - 1];
    }
  }

  lemma {:induction false} FilterNone<T(!new)>(s: seq<T>, p: T -> bool)
    requires forall x :: x in s ==> !p(x)
    ensures Filter(s, p) == []
  {
    if s != [] { FilterNone(s[..|s| - 1], p); }
  }

  lemma {:induction false} FilterAll<T(!new)>(s: seq<T>, p: T -> bool)
    requires forall x :: x in s ==> p(x)
    ensures Filter(s, p) == s
  {
    if s != [] { FilterAll(s[..|s| - 1], p); }
  }

  lemma {:induction false} FilterCong<T(!new)>(s: seq<T>, p: T -> bool, q: T -> bool)
    requires forall x :: x in s ==> p(x) == q(x)
    ensures Filter(s, p) == Filter(s, q)
  {
    if s != [] { FilterCong(s[..|s| - 1], p, q); }
  }

  lemma {:induction false} FilterFilter<T(!new)>(s: seq<T>, p: T -> bool, q: T -> bool, pq: T -> bool)
    requires forall x :: x in s ==> pq(x) == (p(x) && q(x))
    ensures Filter(Filter(s, p), q) == Filter(s, pq)
  {
    if s != [] {
      var n := |s| - 1;
      FilterFilter(s[..n], p, q, pq);
      if p(s[n]) { FilterAppend(Filter(s[..n], p), [s[n]], q); }
    }
  }

  lemma {:induction false} DistinctByFilter<T(!new), K(!new)>(s: seq<T>, p: T -> bool, key: T -> K)
    requires DistinctBy(s, key)
    ensures DistinctBy(Filter(s, p), key)
  {
    if s != [] {
      var rest := Filter(s[..|s| - 1], p);
      DistinctByFilter(s[..|s| - 1], p, key);
      assert forall i :: 0 <= i < |rest| ==> rest[i] in s[..|s| - 1];
    }
  }

  lemma DistinctByAppend<T(!new), K(!new)>(a: seq<T>, b: seq<T>, key: T -> K)
    requires DistinctBy(a, key) && DistinctBy(b, key)
    requires forall x, y :: x in a && y in b ==> key(x) != key(y)
    ensures DistinctBy(a + b, key)
  {
    assert forall i :: 0 <= i < |a| ==> a[i] in a;
    assert forall i :: 0 <= i < |b| ==> b[i] in b;
  }

  lemma DistinctByNone<T(!new), K(!new)>(key: T -> K)
    ensures DistinctBy([], key)
  {
  }

  lemma {:induction false} DistinctByFlat<T(!new), K(!new)>(n: nat, f: nat -> seq<T>, key: T -> K)
    requires forall i: nat :: i < n ==> DistinctBy(f(i), key)
    requires forall i: nat, j: nat, x, y :: i < j < n && x in f(i) && y in f(j) ==> key(x) != key(y)
    ensures DistinctBy(Flat(n, f), key)
  {
    hide DistinctBy;
    if n == 0 {
      DistinctByNone<T, K>(key);
    } else {
      DistinctByFlat(n - 1, f, key);
      forall x, y | x in Flat(n - 1, f) && y in f(n - 1) ensures key(x) != key(y) {
        FlatMember(n - 1, f, x);
      }
      DistinctByAppend(Flat(n - 1, f), f(n - 1), key);
    }
  }

  lemma {:induction false} FlatMember<T(!new)>(n: nat, f: nat -> seq<T>, x: T)
    ensures x in Flat(n, f) <==> exists i: nat :: i < n && x in f(i)
  {
    if n > 0 { FlatMember(n - 1, f, x); }
  }

  lemma {:induction false} FlatSingles<T(!new)>(n: nat, f: nat -> seq<T>, s: seq<T>)
    requires |s| == n && forall i: nat :: i < n ==> f(i) == [s[i]]
    ensures Flat(n, f) == s
  {
    if n > 0 {
      FlatSingles(n - 1, f, s[..n - 1]);
      assert s == s[..n - 1] + [s[n - 1]];
    }
  }

  lemma {:induction false} FlatEmpty<T(!new)>(n: nat, f: nat -> seq<T>)
    requires forall i: nat :: i < n ==> f(i) == []
    ensures Flat(n, f) == []
  {
    if n > 0 { FlatEmpty(n - 1, f); }
  }

  /** A query over a table whose old rows cannot match sees only the new rows. */
  lemma FilterNewRows<T(!new)>(rows: seq<T>, added: seq<T>, p: T -> bool)
    requires forall x :: x in rows ==> !p(x)
    ensures Filter(rows + added, p) == Filter(added, p)
  {
    FilterAppend(rows, added, p);
    FilterNone(rows, p);
  }

  lemma {:induction false} FilterFlatNone<T(!new)>(n: nat, f: nat -> seq<T>, p: T -> bool)
    requires forall i: nat, x :: i < n && x in f(i) ==> !p(x)
    ensures Filter(Flat(n, f), p) == []
  {
    if n > 0 {
      FilterFlatNone(n - 1, f, p);
      FilterAppend(Flat(n - 1, f), f(n - 1), p);
      FilterNone(f(n - 1), p);
    }
  }

  /** A query that matches rows of one block only sees just that block. */
  lemma {:induction false} FilterFlatBlock<T(!new)>(n: nat, f: nat -> seq<T>, p: T -> bool, k: nat)
    requires k < n
    requires forall i: nat, x :: i < n && i != k && x in f(i) ==> !p(x)
    ensures Filter(Flat(n, f), p) == Filter(f(k), p)
  {
    FilterAppend(Flat(n - 1, f), f(n - 1), p);
    if k == n - 1 {
      FilterFlatNone(n - 1, f, p);
    } else {
      FilterFlatBlock(n - 1, f, p, k);
      FilterNone(f(n - 1), p);
    }
  }

  lemma {:induction false} FilterMapAppend<A(!new), B(!new)>(a: seq<A>, b: seq<A>, f: A -> Option<B>)
    ensures FilterMap(a + b, f) == FilterMap(a, f) + FilterMap(b, f)
  {
    if b == [] {
      assert a + b == a;
    } else {
      FilterMapAppend(a, b[..|b| - 1], f);
      assert (a + b)[..|a + b| - 1] == a + b[..|b| - 1];
    }
  }

  lemma {:induction false} FilterMapMember<A(!new), B(!new)>(s: seq<A>, f: A -> Option<B>, y: B)
    ensures y in FilterMap(s, f) <==> exists x :: x in s && f(x) == Some(y)
  {
    if s != [] {
      var n := |s| - 1;
      FilterMapMember(s[..n], f, y);
      assert s == s[..n] + [s[n]];
    }
  }

  lemma {:induction false} FilterMapCong<A(!new), B(!new)>(s: seq<A>, f: A -> Option<B>, g: A -> Option<B>)
    requires forall x :: x in s ==> f(x) == g(x)
    ensures FilterMap(s, f) == FilterMap(s, g)
  {
    if s != [] { FilterMapCong(s[..|s| - 1], f, g); }
  }

  lemma {:induction false} FilterMapSome<A(!new), B(!new)>(s: seq<A>, f: A -> Option<B>, g: A -> B)
    requires forall x :: x in s ==> f(x) == Some(g(x))
    ensures FilterMap(s, f) == Map(s, g)
  {
    if s != [] {
      FilterMapSome(s[..|s| - 1], f, g);
      assert Map(s, g) == Map(s[..|s| - 1], g) + [g(s[|s| - 1])];
    }
  }

  lemma {:induction false} FilterOfMap<A(!new), B(!new)>(s: seq<A>, f: A -> B, p: B -> bool, q: A -> bool)
    requires forall x :: x in s ==> p(f(x)) == q(x)
    ensures Filter(Map(s, f), p) == Map(Filter(s, q), f)
  {
    if s != [] {
      var n := |s| - 1;
      FilterOfMap(s[..n], f, p, q);
      assert Map(s, f)[..n] == Map(s[..n], f);
    }
  }

  /** Rows that map to nothing can be dropped first. */
  lemma {:induction false} FilterMapFilter<A(!new), B(!new)>(s: seq<A>, p: A -> bool, f: A -> Option<B>)
    requires forall x :: x in s && !p(x) ==> f(x).None?
    ensures FilterMap(Filter(s, p), f) == FilterMap(s, f)
  {
    if s != [] {
      var n := |s| - 1;
      FilterMapFilter(s[..n], p, f);
      if p(s[n]) { FilterMapAppend(Filter(s[..n], p), [s[n]], f); }
    }
  }

  lemma {:induction false} FilterMapOfMap<A(!new), B(!new), C(!new)>(s: seq<A>, f: A -> B, g: B -> Option<C>, h: A -> Option<C>)
    requires forall x :: x in s ==> g(f(x)) == h(x)
    ensures FilterMap(Map(s, f), g) == FilterMap(s, h)
  {
    if s != [] {
      var n := |s| - 1;
      FilterMapOfMap(s[..n], f, g, h);
      assert Map(s, f)[..n] == Map(s[..n], f);
    }
  }

  lemma {:induction false} FindLastOfMap<A(!new), B(!new)>(s: seq<A>, f: A -> B, p: B -> bool, q: A -> bool)
    requires forall x :: x in s ==> p(f(x)) == q(x)
    ensures FindLast(Map(s, f), p) == match FindLast(s, q) case None => None case Some(x) => Some(f(x))
  {
    if s != [] {
      var n := |s| - 1;
      FindLastOfMap(s[..n], f, p, q);
      assert Map(s, f)[..n] == Map(s[..n], f);
    }
  }

  lemma {:induction false} FindFirstOfMap<A(!new), B(!new)>(s: seq<A>, f: A -> B, p: B -> bool, q: A -> bool)
    requires forall x :: x in s ==> p(f(x)) == q(x)
    ensures FindFirst(Map(s, f), p) == match FindFirst(s, q) case None => None case Some(x) => Some(f(x))
  {
    if s != [] {
      FindFirstOfMap(s[1..], f, p, q);
      assert Map(s, f)[1..] == Map(s[1..], f);
    }
  }

  lemma DistinctByMap<A(!new), B(!new), K(!new)>(s: seq<A>, f: A -> B, key: A -> K, key': B -> K)
    requires DistinctBy(s, key) && forall x :: x in s ==> key'(f(x)) == key(x)
    ensures DistinctBy(Map(s, f), key')
  {
    assert forall i :: 0 <= i < |s| ==> s[i] in s;
  }

  lemma {:induction false} FindLastFilter<T(!new)>(s: seq<T>, p: T -> bool, q: T -> bool, pq: T -> bool)
    requires forall x :: x in s ==> pq(x) == (p(x) && q(x))
    ensures FindLast(Filter(s, p), q) == FindLast(s, pq)
  {
    if s != [] { FindLastFilter(s[..|s| - 1], p, q, pq); }
  }

  lemma {:induction false} FindFirstAppend<T(!new)>(a: seq<T>, b: seq<T>, p: T -> bool)
    ensures FindFirst(a + b, p) == FindFirst(a, p).OrElse(FindFirst(b, p))
  {
    if a == [] {
      assert a + b == b;
    } else {
      FindFirstAppend(a[1..], b, p);
      assert (a + b)[1..] == a[1..] + b;
    }
  }

  lemma {:induction false} FindFirstFilter<T(!new)>(s: seq<T>, p: T -> bool, q: T -> bool, pq: T -> bool)
    requires forall x :: x in s ==> pq(x) == (p(x) && q(x))
    ensures FindFirst(Filter(s, p), q) == FindFirst(s, pq)
  {
    if s != [] {
      var n := |s| - 1;
      FindFirstFilter(s[..n], p, q, pq);
      FindFirstAppend(s[..n], [s[n]], pq);
      FindFirstAppend(Filter(s[..n], p), [s[n]], q);
      assert s == s[..n] + [s[n]];
    }
  }

  /** One more row read: how every loop over a query result moves on. */
  lemma FilterStep<T(!new)>(s: seq<T>, i: nat, p: T -> bool)
    requires i < |s|
    ensures Filter(s[..i + 1], p) == Filter(s[..i], p) + (if p(s[i]) then [s[i]] else [])
  {
    assert s[..i + 1][..i] == s[..i];
  }

  lemma FindLastStep<T(!new)>(s: seq<T>, i: nat, p: T -> bool)
    requires i < |s|
    ensures FindLast(s[..i + 1], p) == if p(s[i]) then Some(s[i]) else FindLast(s[..i], p)
  {
    assert s[..i + 1][..i] == s[..i];
  }

  lemma FindFirstStep<T(!new)>(s: seq<T>, i: nat, p: T -> bool)
    requires i < |s|
    ensures FindFirst(s[..i + 1], p) == FindFirst(s[..i], p).OrElse(if p(s[i]) then Some(s[i]) else None)
  {
    assert s[..i + 1] == s[..i] + [s[i]];
    FindFirstAppend(s[..i], [s[i]], p);
  }

  lemma FilterMapStep<A(!new), B(!new)>(s: seq<A>, i: nat, f: A -> Option<B>)
    requires i < |s|
    ensures FilterMap(s[..i + 1], f) == FilterMap(s[..i], f) + (if f(s[i]).Some? then [f(s[i]).value] else [])
  {
    assert s[..i + 1][..i] == s[..i];
  }

  lemma MapStep<A(!new), B(!new)>(s: seq<A>, i: nat, f: A -> B)
    requires i < |s|
    ensures Map(s[..i + 1], f) == Map(s[..i], f) + [f(s[i])]
  {
  }

  /** A JavaScript Map read with a default. */
  function Get<K, V>(m: map<K, V>, k: K, default: V): V {
    if k in m then m[k] else default
  }

  function Lookup<K, V>(m: map<K, V>, k: K): Option<V> {
    if k in m then Some(m[k]) else None
  }

  /** A JavaScript Map after setting each pair in turn: later pairs overwrite. */
  function MapOf<K(!new), V(!new)>(pairs: seq<(K, V)>): (m: map<K, V>)
    ensures forall k :: k in m ==> (k, m[k]) in pairs
    ensures forall p :: p in pairs ==> p.0 in m
  {
    if pairs == [] then map[]
    else
      assert pairs == pairs[..|pairs| - 1] + [pairs[|pairs| - 1]];
      MapOf(pairs[..|pairs| - 1])[pairs[|pairs| - 1].0 := pairs[|pairs| - 1].1]
  }

  lemma MapOfPush<K(!new), V(!new)>(pairs: seq<(K, V)>, k: K, v: V)
    ensures MapOf(pairs + [(k, v)]) == MapOf(pairs)[k := v]
  {
    assert (pairs + [(k, v)])[..|pairs|] == pairs;
  }

  /** When equal keys always carry equal values, a lookup finds any pair of its key. */
  lemma MapOfFinds<K(!new), V(!new)>(pairs: seq<(K, V)>, k: K, v: V)
    requires (k, v) in pairs
    requires forall p :: p in pairs && p.0 == k ==> p.1 == v
    ensures Lookup(MapOf(pairs), k) == Some(v)
  {
    assert (k, MapOf(pairs)[k]) in pairs;
  }

  /** First occurrences, in order: a JavaScript Set of the values. */
  function Dedup<T(==)>(s: seq<T>): (r: seq<T>)
    ensures forall x :: x in r ==> x in s
  {
    if s == [] then []
    else
      var rest := Dedup(s[..|s| - 1]);
      if s[|s| - 1] in rest then rest else rest + [s[|s| - 1]]
  }
}
