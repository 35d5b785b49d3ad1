/** The in-memory cache with a time to live, swept once every hundred writes. */
module TtlCache {
  import opened Prelude

  type Time = int

  datatype Entry<+V> = Entry(value: V, expiresAt: Time)
  type Entries<V> = map<string, Entry<V>>

  const SWEEP_INTERVAL := 100

  /** What the cache holds, writes since the last sweep, and how many entries that sweep left. */
  datatype State<V> = State(entries: Entries<V>, writes: nat, survivors: nat)

  datatype Op<V> = Get(key: string) | Set(key: string, value: V) | Delete(key: string) | Clear

  /** An operation and the clock reading it takes. */
  datatype Event<V> = Event(op: Op<V>, now: Time)

  function Swept<V>(m: Entries<V>, now: Time): Entries<V> {
    map k | k in m && !(now > m[k].expiresAt) :: m[k]
  }

  /** One operation as the cache performs it: its new state, and what a get answers. */
  function Step<V>(ttl: Time, s: State<V>, e: Event<V>): (State<V>, Option<V>) {
    match e.op
    case Get(key) =>
      if key !in s.entries then (s, None)
      else if e.now > s.entries[key].expiresAt then (s.(entries := s.entries - {key}), None)
      else (s, Some(s.entries[key].value))
    case Set(key, value) =>
      var written := s.entries[key := Entry(value, e.now + ttl)];
      if s.writes + 1 >= SWEEP_INTERVAL
      then (State(Swept(written, e.now), 0, |Swept(written, e.now)|), None)
      else (State(written, s.writes + 1, s.survivors), None)
    case Delete(key) => (s.(entries := s.entries - {key}), None)
    case Clear => (s.(entries := map[]), None)
  }

  /** The same operation on a map that forgets nothing until told to. */
  function PlainStep<V>(ttl: Time, m: Entries<V>, e: Event<V>): (Entries<V>, Option<V>) {
    match e.op
    case Get(key) => (m, if key in m && m[key].expiresAt >= e.now then Some(m[key].value) else None)
    case Set(key, value) => (m[key := Entry(value, e.now + ttl)], None)
    case Delete(key) => (m - {key}, None)
    case Clear => (map[], None)
  }

  /* ── the cache as it is kept ─────────────────────────────────────────── */

  class Cache<V(!new)> {
    var entries: Entries<V>
    var writesSinceLastSweep: nat
    const ttl: Time
    ghost var survivors: nat

    ghost function Abstract(): State<V>
      reads this
    {
      State(entries, writesSinceLastSweep, survivors)
    }

    /** A sweep is never overdue, and only writes since the last one can have added entries. */
    ghost predicate Valid()
      reads this
    {
      writesSinceLastSweep < SWEEP_INTERVAL && |entries| <= survivors + writesSinceLastSweep
    }

    constructor (ttl: Time)
      ensures Valid() && this.ttl == ttl && Abstract() == State(map[], 0, 0)
    {
      this.ttl := ttl;
      entries, writesSinceLastSweep, survivors := map[], 0, 0;
    }

    method Read(key: string, now: Time) returns (value: Option<V>)
      requires Valid()
      modifies this
      ensures Valid() && (Abstract(), value) == Step(ttl, old(Abstract()), Event(Get(key), now))
    {
      if key !in entries { return None; }
      if now > entries[key].expiresAt {
        Shrinks(entries, entries - {key});
        entries := entries - {key};
        return None;
      }
      return Some(entries[key].value);
    }

    method Write(key: string, value: V, now: Time)
      requires Valid()
      modifies this
      ensures Valid() && Abstract() == Step(ttl, old(Abstract()), Event(Set(key, value), now)).0
    {
      Grows(entries, key, Entry(value, now + ttl));
      entries := entries[key := Entry(value, now + ttl)];
      writesSinceLastSweep := writesSinceLastSweep + 1;
      if writesSinceLastSweep >= SWEEP_INTERVAL {
        writesSinceLastSweep := 0;
        Sweep(now);
        survivors := |entries|;
      }
    }

    /** Visits every key once and deletes what has expired. */
    method Sweep(now: Time)
      modifies this`entries
      ensures entries == Swept(old(entries), now)
    {
      var left := entries.Keys;
      while left != {}
        invariant left <= old(entries).Keys
        invariant entries == map k | k in old(entries) && (k in left || !(now > old(entries)[k].expiresAt)) :: old(entries)[k]
        decreases |left|
      {
        var key :| key in left;
        left := left - {key};
        if now > entries[key].expiresAt { entries := entries - {key}; }
      }
    }

    method Remove(key: string)
      requires Valid()
      modifies this
      ensures Valid() && forall now :: Abstract() == Step(ttl, old(Abstract()), Event(Delete(key), now)).0
    {
      Shrinks(entries, entries - {key});
      entries := entries - {key};
    }

    method Empty()
      requires Valid()
      modifies this
      ensures Valid() && forall now :: Abstract() == Step(ttl, old(Abstract()), Event(Clear, now)).0
    {
      entries := map[];
    }
  }

  lemma Shrinks<V>(m: Entries<V>, n: Entries<V>)
    requires n.Keys <= m.Keys
    ensures |n| <= |m|
  {
    KeysFit(n.Keys, m.Keys);
    assert |n| == |n.Keys| && |m| == |m.Keys|;
  }

  lemma {:induction false} KeysFit(a: set<string>, b: set<string>)
    requires a <= b
    ensures |a| <= |b|
  {
    if k :| k in a { KeysFit(a - {k}, b - {k}); }
  }

  lemma Grows<V>(m: Entries<V>, key: string, e: Entry<V>)
    ensures |m[key := e]| <= |m| + 1
  {
    assert |m[key := e]| == |m[key := e].Keys| && |m| == |m.Keys|;
    assert m[key := e].Keys == m.Keys + {key};
  }

  /* ── refinement ──────────────────────────────────────────────────────── */

  datatype Cached<V> = Cached(state: State<V>, answers: seq<Option<V>>)
  datatype Plain<V> = Plain(entries: Entries<V>, answers: seq<Option<V>>)

  /** A run from an empty cache, with the answer of every operation. */
  function Run<V>(ttl: Time, events: seq<Event<V>>): Cached<V> {
    if events == [] then Cached(State(map[], 0, 0), [])
    else
      var before := Run(ttl, events[..|events| - 1]);
      var (s, answer) := Step(ttl, before.state, events[|events| - 1]);
      Cached(s, before.answers + [answer])
  }

  function PlainRun<V>(ttl: Time, events: seq<Event<V>>): Plain<V> {
    if events == [] then Plain(map[], [])
    else
      var before := PlainRun(ttl, events[..|events| - 1]);
      var (m, answer) := PlainStep(ttl, before.entries, events[|events| - 1]);
      Plain(m, before.answers + [answer])
  }

  ghost predicate Monotone<V>(events: seq<Event<V>>) {
    forall i, j :: 0 <= i < j < |events| ==> events[i].now <= events[j].now
  }

  /** The cache holds part of the plain map, and all of it that has not expired. */
  ghost predicate Covers<V>(m: Entries<V>, plain: Entries<V>, now: Time) {
    && (forall k :: k in m ==> k in plain && m[k] == plain[k])
    && (forall k :: k in plain && plain[k].expiresAt >= now ==> k in m)
  }

  lemma StepCovers<V>(ttl: Time, s: State<V>, plain: Entries<V>, e: Event<V>)
    requires Covers(s.entries, plain, e.now)
    ensures Step(ttl, s, e).1 == PlainStep(ttl, plain, e).1
    ensures Covers(Step(ttl, s, e).0.entries, PlainStep(ttl, plain, e).0, e.now)
  {
  }

  lemma {:induction false} RunCovers<V>(ttl: Time, events: seq<Event<V>>, now: Time)
    requires Monotone(events) && forall e :: e in events ==> e.now <= now
    ensures Covers(Run(ttl, events).state.entries, PlainRun(ttl, events).entries, now)
    ensures Run(ttl, events).answers == PlainRun(ttl, events).answers
  {
    if events != [] {
      var n := |events| - 1;
      forall e | e in events[..n] ensures e.now <= events[n].now { var i :| 0 <= i < n && events[i] == e; }
      RunCovers(ttl, events[..n], events[n].now);
      StepCovers(ttl, Run(ttl, events[..n]).state, PlainRun(ttl, events[..n]).entries, events[n]);
    }
  }

  /** Sweeping and deleting on read cannot be observed: every answer is the plain map's. */
  lemma SweepUnobservable<V>(ttl: Time, events: seq<Event<V>>)
    requires Monotone(events)
    ensures Run(ttl, events).answers == PlainRun(ttl, events).answers
  {
    if events != [] {
      var n := |events| - 1;
      forall e | e in events ensures e.now <= events[n].now { var i :| 0 <= i <= n && events[i] == e; }
      RunCovers(ttl, events, events[n].now);
    }
  }

  /** A sweep keeps the entries that have not expired, as they were; a write sweeps exactly when it is the hundredth since the last. */
  lemma WriteMeans<V>(ttl: Time, s: State<V>, key: string, value: V, now: Time)
    requires s.writes < 100
    ensures var after, written := Step(ttl, s, Event(Set(key, value), now)).0, s.entries[key := Entry(value, now + ttl)];
            && (forall k :: k in after.entries ==> k in written && after.entries[k] == written[k])
            && (forall k :: k in written ==> (k in after.entries <==> s.writes < 99 || now <= written[k].expiresAt))
            && after.writes == (if s.writes < 99 then s.writes + 1 else 0)
            && after.survivors == (if s.writes < 99 then s.survivors else |after.entries|)
  {
  }

  /* ── what a hit means ────────────────────────────────────────────────── */

  predicate Touches<V>(op: Op<V>, key: string) {
    op.Clear? || (op.Set? && op.key == key) || (op.Delete? && op.key == key)
  }

  /** The k-th event set the key to this value and nothing touched the key since. */
  ghost predicate LastSet<V>(events: seq<Event<V>>, key: string, k: nat, value: V) {
    k < |events| && events[k].op == Set(key, value) && forall m :: k < m < |events| ==> !Touches(events[m].op, key)
  }

  lemma {:induction false} PlainHolds<V>(ttl: Time, events: seq<Event<V>>, key: string, x: Entry<V>)
    ensures key in PlainRun(ttl, events).entries && PlainRun(ttl, events).entries[key] == x <==>
            exists k: nat :: LastSet(events, key, k, x.value) && x.expiresAt == events[k].now + ttl
  {
    if events != [] {
      var n := |events| - 1;
      var pre, e := events[..n], events[n];
      PlainHolds(ttl, pre, key, x);
      if Touches(e.op, key) {
        if k: nat :| LastSet(events, key, k, x.value) { assert k == n; }
        if e.op == Set(key, x.value) { assert LastSet(events, key, n, x.value); }
      } else {
        if k: nat :| LastSet(events, key, k, x.value) && x.expiresAt == events[k].now + ttl { assert LastSet(pre, key, k, x.value); }
        if k: nat :| LastSet(pre, key, k, x.value) && x.expiresAt == pre[k].now + ttl { assert LastSet(events, key, k, x.value); }
      }
    }
  }

  /** A get answers a value exactly when it was the last one set, within its time to live, and not deleted or cleared since. */
  lemma HitIsLastSet<V>(ttl: Time, events: seq<Event<V>>, key: string, now: Time, value: V)
    requires Monotone(events) && forall e :: e in events ==> e.now <= now
    ensures Step(ttl, Run(ttl, events).state, Event(Get(key), now)).1 == Some(value) <==>
            exists k: nat :: LastSet(events, key, k, value) && now <= events[k].now + ttl
  {
    hide Step, PlainStep;
    var plain := PlainRun(ttl, events).entries;
    RunCovers(ttl, events, now);
    StepCovers(ttl, Run(ttl, events).state, plain, Event(Get(key), now));
    PlainGet(ttl, plain, key, now);
    if key in plain {
      PlainHolds(ttl, events, key, plain[key]);
    }
    if k: nat :| LastSet(events, key, k, value) && now <= events[k].now + ttl {
      PlainHolds(ttl, events, key, Entry(value, events[k].now + ttl));
    }
  }

  lemma PlainGet<V>(ttl: Time, m: Entries<V>, key: string, now: Time)
    ensures PlainStep(ttl, m, Event(Get(key), now)).1 == if key in m && m[key].expiresAt >= now then Some(m[key].value) else None
  {
  }

  /* ── size ────────────────────────────────────────────────────────────── */

  lemma SizeStep<V>(ttl: Time, s: State<V>, e: Event<V>)
    requires s.writes < SWEEP_INTERVAL && |s.entries| <= s.survivors + s.writes
    ensures var s' := Step(ttl, s, e).0; s'.writes < SWEEP_INTERVAL && |s'.entries| <= s'.survivors + s'.writes
  {
    match e.op
    case Get(key) => Shrinks(s.entries, s.entries - {key});
    case Set(key, value) => Grows(s.entries, key, Entry(value, e.now + ttl));
    case Delete(key) => Shrinks(s.entries, s.entries - {key});
    case Clear =>
  }

  /** Never more than what the last sweep left, and ninety-nine. */
  lemma {:induction false} SizeBound<V>(ttl: Time, events: seq<Event<V>>)
    ensures var s := Run(ttl, events).state;
            |s.entries| <= s.survivors + s.writes && |s.entries| <= s.survivors + 99 && s.writes < SWEEP_INTERVAL
  {
    if events != [] {
      SizeBound(ttl, events[..|events| - 1]);
      SizeStep(ttl, Run(ttl, events[..|events| - 1]).state, events[|events| - 1]);
    }
  }
}
