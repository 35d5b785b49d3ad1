/**
 * The record of what a session is subscribed to: one stored list, changed by locked
 * read-modify-write transactions and read back when the session is restored.
 */
module Subscriptions {
  import opened Prelude
  import opened Schema
  import opened Authz

  /** A request to change the record. */
  datatype Op =
    | Subscribe(name: string, loadBalance: Option<bool>, group: Option<string>, filters: Option<seq<string>>)
    | Unsubscribe(name: string)
    | Clear

  /** A group is kept only for a load-balanced subscription, filters only when there are any. */
  function Stored(op: Op): Subscription
    requires op.Subscribe?
  {
    Subscription(op.name, op.loadBalance.GetOr(false),
                 if op.loadBalance.GetOr(false) then op.group else None,
                 if op.filters.GetOr([]) != [] then op.filters else None)
  }

  function NotNamed(name: string): Subscription -> bool { (t: Subscription) => t.name != name }

  /** The list with the first entry of that name replaced, or the entry added at the end. */
  function Put(topics: seq<Subscription>, t: Subscription): seq<Subscription> {
    if topics == [] then [t]
    else if topics[0].name == t.name then [t] + topics[1..]
    else [topics[0]] + Put(topics[1..], t)
  }

  lemma {:induction false} PutIs(topics: seq<Subscription>, t: Subscription, i: nat)
    requires i <= |topics| && (forall k :: 0 <= k < i ==> topics[k].name != t.name) && (i < |topics| ==> topics[i].name == t.name)
    ensures Put(topics, t) == if i == |topics| then topics + [t] else topics[i := t]
  {
    if i > 0 { PutIs(topics[1..], t, i - 1); }
  }

  function Apply(op: Op, topics: seq<Subscription>): seq<Subscription> {
    match op
    case Subscribe(_, _, _, _) => Put(topics, Stored(op))
    case Unsubscribe(name) => Filter(topics, NotNamed(name))
    case Clear => []
  }

  function Replay(topics: seq<Subscription>, ops: seq<Op>): seq<Subscription> {
    if ops == [] then topics else Apply(ops[|ops| - 1], Replay(topics, ops[..|ops| - 1]))
  }

  /* ── the stored row, as the service changes it ───────────────────────── */

  datatype ConnectionState = ConnectionState(topics: Option<seq<Subscription>>, presence: Option<Json>)

  class ActorState {
    var connectionState: Option<ConnectionState>
    var lastActivityAt: Option<Time>

    /** Missing state and a missing list both read as the empty list. */
    function Recorded(): seq<Subscription>
      reads this
    {
      if connectionState.Some? then connectionState.value.topics.GetOr([]) else []
    }

    function Presence(): Option<Json>
      reads this
    {
      if connectionState.Some? then connectionState.value.presence else None
    }

    method UpdateSubscription(op: Op, now: Time)
      requires !op.Clear?
      modifies this
      ensures Recorded() == Apply(op, old(Recorded()))
      ensures Presence() == old(Presence()) && lastActivityAt == Some(now)
      ensures connectionState.Some? && connectionState.value.topics.Some?
    {
      hide Put, Filter;
      var topics := Recorded();
      if op.Subscribe? {
        var i := 0;
        while i < |topics| && topics[i].name != op.name
          invariant 0 <= i <= |topics|
          invariant forall k :: 0 <= k < i ==> topics[k].name != op.name
        {
          i := i + 1;
        }
        PutIs(topics, Stored(op), i);
        if i == |topics| { topics := topics + [Stored(op)]; } else { topics := topics[i := Stored(op)]; }
      } else {
        topics := Filter(topics, NotNamed(op.name));
      }
      connectionState := Some(ConnectionState(Some(topics), Presence()));
      lastActivityAt := Some(now);
    }

    /** On disconnect the whole connection state is replaced, presence included. */
    method ClearSubscriptions(now: Time)
      modifies this
      ensures Recorded() == Apply(Clear, old(Recorded()))
      ensures Presence().None? && lastActivityAt == Some(now)
    {
      connectionState := Some(ConnectionState(Some([]), None));
      lastActivityAt := Some(now);
    }
  }

  /* ── what a run of requests leaves recorded ──────────────────────────── */

  predicate Subscribes(op: Op, name: string) { op.Subscribe? && op.name == name }
  predicate Removes(op: Op, name: string) { op.Clear? || (op.Unsubscribe? && op.name == name) }

  /** The k-th request is the latest to mention the name, and it subscribes. */
  ghost predicate Latest(ops: seq<Op>, name: string, k: nat) {
    k < |ops| && Subscribes(ops[k], name) && forall m :: k < m < |ops| ==> !Subscribes(ops[m], name) && !Removes(ops[m], name)
  }

  /** The k-th request is the first to subscribe the name since it was last removed. */
  ghost predicate Since(ops: seq<Op>, name: string, k: nat) {
    && k < |ops| && Subscribes(ops[k], name)
    && (forall m :: k < m < |ops| ==> !Removes(ops[m], name))
    && (forall m :: 0 <= m < k && Subscribes(ops[m], name) ==> exists r :: m < r < k && Removes(ops[r], name))
  }

  lemma PutAt(topics: seq<Subscription>, t: Subscription)
    ensures forall x :: x in Put(topics, t) ==> x == t || x in topics
    ensures t in Put(topics, t)
    ensures |topics| <= |Put(topics, t)| <= |topics| + 1
    ensures forall i :: 0 <= i < |topics| ==> Put(topics, t)[i].name == topics[i].name
    ensures forall i :: 0 <= i < |topics| && topics[i].name != t.name ==> Put(topics, t)[i] == topics[i]
    ensures |Put(topics, t)| == |topics| <==> exists i :: 0 <= i < |topics| && topics[i].name == t.name
    ensures |Put(topics, t)| > |topics| ==> Put(topics, t) == topics + [t]
  {
    hide Put;
    var i := FirstNamed(topics, t.name);
    PutIs(topics, t, i);
    assert Put(topics, t)[i] == t;
  }

  lemma {:induction false} FirstNamed(topics: seq<Subscription>, name: string) returns (i: nat)
    ensures i <= |topics| && (forall k :: 0 <= k < i ==> topics[k].name != name) && (i < |topics| ==> topics[i].name == name)
  {
    if topics == [] || topics[0].name == name {
      i := 0;
    } else {
      var j := FirstNamed(topics[1..], name);
      i := j + 1;
      forall k | 0 <= k < i ensures topics[k].name != name {
        if k > 0 { assert topics[k] == topics[1..][k - 1]; }
      }
    }
  }

  /** The entry was first subscribed by one request since its last removal, and the latest request gives its options. */
  ghost predicate Explained(ops: seq<Op>, t: Subscription, first: nat, last: nat) {
    Since(ops, t.name, first) && Latest(ops, t.name, last) && t == Stored(ops[last])
  }

  function SubName(t: Subscription): string { t.name }

  ghost predicate AllExplained(ops: seq<Op>, topics: seq<Subscription>, firsts: seq<nat>, lasts: seq<nat>) {
    && |firsts| == |lasts| == |topics|
    && (forall i :: 0 <= i < |topics| ==> Explained(ops, topics[i], firsts[i], lasts[i]))
    && (forall i, j :: 0 <= i < j < |topics| ==> firsts[i] < firsts[j])
  }

  ghost predicate Complete(ops: seq<Op>, topics: seq<Subscription>) {
    forall name, k :: Latest(ops, name, k) ==> exists t :: t in topics && t.name == name
  }

  lemma Extend(ops: seq<Op>, op: Op, t: Subscription, first: nat, last: nat)
    requires Explained(ops, t, first, last) && !Removes(op, t.name)
    ensures Since(ops + [op], t.name, first)
    ensures !Subscribes(op, t.name) ==> Explained(ops + [op], t, first, last)
  {
    var more := ops + [op];
    forall m | 0 <= m < first && Subscribes(more[m], t.name) ensures exists r :: m < r < first && Removes(more[r], t.name) {
      var r :| m < r < first && Removes(ops[r], t.name);
      assert Removes(more[r], t.name);
    }
  }

  /** A subscription not removed since is spoken for by some latest request. */
  lemma {:induction false} LatestExists(ops: seq<Op>, name: string, m: nat) returns (k: nat)
    requires m < |ops| && Subscribes(ops[m], name) && forall r :: m < r < |ops| ==> !Removes(ops[r], name)
    ensures Latest(ops, name, k)
    decreases |ops| - m
  {
    if n :| m < n < |ops| && Subscribes(ops[n], name) {
      k := LatestExists(ops, name, n);
    } else {
      k := m;
    }
  }

  lemma NewlySubscribed(ops: seq<Op>, topics: seq<Subscription>, op: Op)
    requires op.Subscribe? && Complete(ops, topics) && forall t :: t in topics ==> t.name != op.name
    ensures Explained(ops + [op], Stored(op), |ops|, |ops|)
  {
    var more := ops + [op];
    forall m | 0 <= m < |ops| && Subscribes(more[m], op.name) ensures exists r :: m < r < |ops| && Removes(more[r], op.name) {
      if forall r :: m < r < |ops| ==> !Removes(ops[r], op.name) {
        var k := LatestExists(ops, op.name, m);
        assert false;
      }
      var r :| m < r < |ops| && Removes(ops[r], op.name);
      assert Removes(more[r], op.name);
    }
  }

  lemma LatestBefore(ops: seq<Op>, op: Op, name: string, k: nat)
    requires k < |ops| && Latest(ops + [op], name, k)
    ensures Latest(ops, name, k) && !Subscribes(op, name) && !Removes(op, name)
  {
    var more := ops + [op];
    assert more[|ops|] == op && more[k] == ops[k];
    forall m | k < m < |ops| ensures !Subscribes(ops[m], name) && !Removes(ops[m], name) { assert more[m] == ops[m]; }
  }

  lemma CompleteStep(ops: seq<Op>, topics: seq<Subscription>, op: Op)
    requires Complete(ops, topics)
    ensures Complete(ops + [op], Apply(op, topics))
  {
    forall name, k | Latest(ops + [op], name, k) ensures exists t :: t in Apply(op, topics) && t.name == name {
      if k == |ops| {
        PutAt(topics, Stored(op));
        assert Stored(op) in Apply(op, topics);
      } else {
        LatestBefore(ops, op, name, k);
        var i :| 0 <= i < |topics| && topics[i].name == name;
        if op.Subscribe? {
          PutAt(topics, Stored(op));
          assert Apply(op, topics)[i].name == name;
        } else {
          assert topics[i] in Apply(op, topics);
        }
      }
    }
  }

  lemma {:induction false} RemoveOne(topics: seq<Subscription>, name: string, p: nat)
    requires p < |topics| && topics[p].name == name
    requires forall i :: 0 <= i < |topics| && i != p ==> topics[i].name != name
    ensures Filter(topics, NotNamed(name)) == topics[..p] + topics[p + 1..]
  {
    assert topics == topics[..p] + [topics[p]] + topics[p + 1..];
    FilterAppend(topics[..p] + [topics[p]], topics[p + 1..], NotNamed(name));
    FilterAppend(topics[..p], [topics[p]], NotNamed(name));
    FilterAll(topics[..p], NotNamed(name));
    FilterAll(topics[p + 1..], NotNamed(name));
  }

  lemma PutExplained(ops: seq<Op>, topics: seq<Subscription>, op: Op, firsts: seq<nat>, lasts: seq<nat>)
    returns (firsts': seq<nat>, lasts': seq<nat>)
    requires op.Subscribe? && AllExplained(ops, topics, firsts, lasts) && DistinctBy(topics, SubName) && Complete(ops, topics)
    ensures AllExplained(ops + [op], Put(topics, Stored(op)), firsts', lasts') && DistinctBy(Put(topics, Stored(op)), SubName)
  {
    hide Explained, Since, Latest, Complete;
    PutAt(topics, Stored(op));
    if p :| 0 <= p < |topics| && topics[p].name == op.name {
      firsts', lasts' := firsts, lasts[p := |ops|];
      forall i | 0 <= i < |topics| ensures Explained(ops + [op], Put(topics, Stored(op))[i], firsts[i], lasts'[i]) {
        ExtendPut(ops, op, topics[i], firsts[i], lasts[i]);
        if i == p { PutSame(topics, Stored(op), p); } else { assert SubName(topics[i]) != SubName(topics[p]); }
      }
    } else {
      firsts', lasts' := firsts + [|ops|], lasts + [|ops|];
      NewlySubscribed(ops, topics, op);
      forall i | 0 <= i < |topics| ensures Explained(ops + [op], topics[i], firsts[i], lasts[i]) && firsts[i] < |ops| {
        ExtendPut(ops, op, topics[i], firsts[i], lasts[i]);
      }
    }
  }

  lemma {:induction false} PutSame(topics: seq<Subscription>, t: Subscription, p: nat)
    requires p < |topics| && topics[p].name == t.name && forall i :: 0 <= i < p ==> topics[i].name != t.name
    ensures p < |Put(topics, t)| && Put(topics, t)[p] == t
  {
    if p > 0 { PutSame(topics[1..], t, p - 1); }
  }

  lemma ExtendPut(ops: seq<Op>, op: Op, t: Subscription, first: nat, last: nat)
    requires Explained(ops, t, first, last) && op.Subscribe?
    ensures first < |ops|
    ensures t.name != op.name ==> Explained(ops + [op], t, first, last)
    ensures t.name == op.name ==> Explained(ops + [op], Stored(op), first, |ops|)
  {
    Extend(ops, op, t, first, last);
  }

  lemma ExtendDrop(ops: seq<Op>, name: string, t: Subscription, first: nat, last: nat)
    requires Explained(ops, t, first, last) && t.name != name
    ensures Explained(ops + [Unsubscribe(name)], t, first, last)
  {
    Extend(ops, Unsubscribe(name), t, first, last);
  }

  /** Where the dropped entry stood, or past the end when there was none. */
  lemma DropAt(topics: seq<Subscription>, name: string) returns (p: nat)
    requires DistinctBy(topics, SubName)
    ensures p <= |topics| && forall i :: 0 <= i < |topics| && i != p ==> topics[i].name != name
    ensures Filter(topics, NotNamed(name)) == if p < |topics| then Cut(topics, p) else topics
  {
    if k :| 0 <= k < |topics| && topics[k].name == name {
      p := k;
      forall i | 0 <= i < |topics| && i != p ensures topics[i].name != name { assert SubName(topics[i]) != SubName(topics[p]); }
      RemoveOne(topics, name, p);
    } else {
      p := |topics|;
      FilterAll(topics, NotNamed(name));
    }
  }

  lemma DropExplained(ops: seq<Op>, topics: seq<Subscription>, name: string, firsts: seq<nat>, lasts: seq<nat>)
    returns (firsts': seq<nat>, lasts': seq<nat>)
    requires AllExplained(ops, topics, firsts, lasts) && DistinctBy(topics, SubName)
    ensures AllExplained(ops + [Unsubscribe(name)], Filter(topics, NotNamed(name)), firsts', lasts')
    ensures DistinctBy(Filter(topics, NotNamed(name)), SubName)
  {
    hide Explained, Filter, DistinctBy;
    DistinctByFilter(topics, NotNamed(name), SubName);
    var p := DropAt(topics, name);
    forall i | 0 <= i < |topics| && i != p ensures Explained(ops + [Unsubscribe(name)], topics[i], firsts[i], lasts[i]) {
      ExtendDrop(ops, name, topics[i], firsts[i], lasts[i]);
    }
    if p < |topics| {
      firsts', lasts' := Cut(firsts, p), Cut(lasts, p);
      CutExplained(ops + [Unsubscribe(name)], topics, firsts, lasts, p);
    } else {
      firsts', lasts' := firsts, lasts;
    }
  }

  function Cut<T>(s: seq<T>, p: nat): seq<T>
    requires p < |s|
  {
    s[..p] + s[p + 1..]
  }

  lemma CutAt<T>(s: seq<T>, p: nat, i: nat)
    requires p < |s| && i < |s| - 1
    ensures |Cut(s, p)| == |s| - 1 && Cut(s, p)[i] == s[if i < p then i else i + 1]
  {
  }

  lemma CutExplained(ops: seq<Op>, topics: seq<Subscription>, firsts: seq<nat>, lasts: seq<nat>, p: nat)
    requires p < |topics| == |firsts| == |lasts|
    requires forall i :: 0 <= i < |topics| && i != p ==> Explained(ops, topics[i], firsts[i], lasts[i])
    requires forall i, j :: 0 <= i < j < |topics| ==> firsts[i] < firsts[j]
    ensures AllExplained(ops, Cut(topics, p), Cut(firsts, p), Cut(lasts, p))
  {
    hide Explained, Cut;
    var n := |topics| - 1;
    CutLength(topics, p);
    CutLength(firsts, p);
    CutLength(lasts, p);
    forall i | 0 <= i < n ensures Explained(ops, Cut(topics, p)[i], Cut(firsts, p)[i], Cut(lasts, p)[i]) {
      CutAt(topics, p, i);
      CutAt(firsts, p, i);
      CutAt(lasts, p, i);
    }
    forall i, j | 0 <= i < j < n ensures Cut(firsts, p)[i] < Cut(firsts, p)[j] {
      CutAt(firsts, p, i);
      CutAt(firsts, p, j);
    }
  }

  lemma CutLength<T>(s: seq<T>, p: nat)
    requires p < |s|
    ensures |Cut(s, p)| == |s| - 1
  {
  }

  /** The record after any run, with the two requests that explain each entry. */
  lemma {:induction false} RecordExplained(ops: seq<Op>) returns (firsts: seq<nat>, lasts: seq<nat>)
    ensures AllExplained(ops, Replay([], ops), firsts, lasts)
    ensures DistinctBy(Replay([], ops), SubName) && Complete(ops, Replay([], ops))
  {
    hide Explained, Latest, Put;
    if ops == [] {
      firsts, lasts := [], [];
      assert Complete(ops, []) by { NothingLatest(); }
    } else {
      var pre, op := ops[..|ops| - 1], ops[|ops| - 1];
      assert ops == pre + [op];
      firsts, lasts := RecordExplained(pre);
      CompleteStep(pre, Replay([], pre), op);
      match op
      case Subscribe(_, _, _, _) => firsts, lasts := PutExplained(pre, Replay([], pre), op, firsts, lasts);
      case Unsubscribe(name) => firsts, lasts := DropExplained(pre, Replay([], pre), name, firsts, lasts);
      case Clear => firsts, lasts := [], [];
    }
  }

  lemma NothingLatest()
    ensures forall name, k :: !Latest([], name, k)
  {
  }

  /** Only one request can be first since the last removal. */
  lemma SinceUnique(ops: seq<Op>, name: string, j: nat, k: nat)
    requires Since(ops, name, j) && Since(ops, name, k)
    ensures j == k
  {
    assert Subscribes(ops[j], name) && Subscribes(ops[k], name);
  }

  lemma LatestUnique(ops: seq<Op>, name: string, j: nat, k: nat)
    requires Latest(ops, name, j) && Latest(ops, name, k)
    ensures j == k
  {
    assert Subscribes(ops[j], name) && Subscribes(ops[k], name);
  }

  /** What a subscribe request leaves recorded: a group only if it is load-balanced, filters only if there are any. */
  ghost predicate Keeps(op: Op, t: Subscription) {
    && op.Subscribe? && t.name == op.name && t.loadBalance == (op.loadBalance == Some(true))
    && t.loadBalanceGroup == (if op.loadBalance == Some(true) then op.group else None)
    && t.filters == (if op.filters.Some? && |op.filters.value| > 0 then op.filters else None)
  }

  lemma StoredKeeps(op: Op, t: Subscription)
    requires op.Subscribe?
    ensures Keeps(op, t) <==> t == Stored(op)
  {
  }

  /**
   * After any run from an empty record: no name twice; a name is recorded exactly when
   * its latest request subscribes it, with that request's options; and the order is that
   * of the first subscribe since each name's last removal.
   */
  lemma RecordMeaning(ops: seq<Op>)
    ensures DistinctBy(Replay([], ops), SubName)
    ensures forall t :: t in Replay([], ops) <==> exists k: nat :: Latest(ops, t.name, k) && Keeps(ops[k], t)
    ensures forall t :: t in Replay([], ops) ==> exists first: nat :: Since(ops, t.name, first)
    ensures forall i, j, first, first' ::
              0 <= i < j < |Replay([], ops)| && Since(ops, Replay([], ops)[i].name, first) && Since(ops, Replay([], ops)[j].name, first')
              ==> first < first'
  {
    hide Since, Removes, Stored, Apply, Keeps;
    var r := Replay([], ops);
    var firsts, lasts := RecordExplained(ops);
    forall t: Subscription, k: nat | Latest(ops, t.name, k) ensures Keeps(ops[k], t) <==> t == Stored(ops[k]) { StoredKeeps(ops[k], t); }
    forall t ensures t in r <==> exists k: nat :: Latest(ops, t.name, k) && Keeps(ops[k], t) {
      if k: nat :| Latest(ops, t.name, k) && Keeps(ops[k], t) {
        assert exists x :: x in r && x.name == t.name;
        var i :| 0 <= i < |r| && r[i].name == t.name;
        assert Explained(ops, r[i], firsts[i], lasts[i]);
        LatestUnique(ops, t.name, lasts[i], k);
      }
      if t in r {
        var i :| 0 <= i < |r| && r[i] == t;
        assert Explained(ops, r[i], firsts[i], lasts[i]);
      }
    }
    forall t | t in r ensures exists first: nat :: Since(ops, t.name, first) {
      var i :| 0 <= i < |r| && r[i] == t;
      assert Explained(ops, r[i], firsts[i], lasts[i]);
    }
    forall i, j, first, first' |
      0 <= i < j < |r| && Since(ops, r[i].name, first) && Since(ops, r[j].name, first')
      ensures first < first'
    {
      assert Explained(ops, r[i], firsts[i], lasts[i]) && Explained(ops, r[j], firsts[j], lasts[j]);
      SinceUnique(ops, r[i].name, first, firsts[i]);
      SinceUnique(ops, r[j].name, first', firsts[j]);
    }
  }

  /* ── concurrent transactions ─────────────────────────────────────────── */

  /** An update holds the row lock from its read to its write; a clear reads first and writes later, unlocked. */
  datatype Pc = Waiting | Holding(read: Option<seq<Subscription>>) | Clearing | Done

  datatype Tx = Tx(op: Op, pc: Pc)

  /** The actor's state rows in read order, who holds the lock on the first, and the requests written so far. */
  datatype System = System(rows: seq<seq<Subscription>>, holder: Option<nat>, txs: seq<Tx>, log: seq<Op>)

  function Begin(s: System, i: nat): System
    requires i < |s.txs| && s.txs[i].pc == Waiting
  {
    if s.txs[i].op.Clear? then s.(txs := s.txs[i := s.txs[i].(pc := if s.rows == [] then Done else Clearing)])
    else if s.rows == [] then s.(txs := s.txs[i := s.txs[i].(pc := Holding(None))])
    else if s.holder.Some? then s
    else s.(holder := Some(i), txs := s.txs[i := s.txs[i].(pc := Holding(Some(s.rows[0])))])
  }

  function Write(s: System, i: nat): System
    requires i < |s.txs| && (s.txs[i].pc.Holding? || s.txs[i].pc.Clearing?)
  {
    var tx := s.txs[i];
    var done := s.(txs := s.txs[i := tx.(pc := Done)], log := s.log + [tx.op]);
    if tx.pc.Clearing? then (if s.holder.Some? || s.rows == [] then s else done.(rows := s.rows[0 := []]))
    else if tx.pc.read.None? then done.(rows := s.rows + [Apply(tx.op, [])])
    else if s.rows == [] then s
    else done.(rows := s.rows[0 := Apply(tx.op, tx.pc.read.value)], holder := None)
  }

  function Next(s: System, i: nat): System {
    if i >= |s.txs| || s.txs[i].pc == Done then s
    else if s.txs[i].pc == Waiting then Begin(s, i)
    else Write(s, i)
  }

  function Run(s: System, schedule: seq<nat>): System {
    if schedule == [] then s else Next(Run(s, schedule[..|schedule| - 1]), schedule[|schedule| - 1])
  }

  /** The row exists and nobody has started. */
  ghost predicate Ready(s: System) {
    s.rows != [] && s.holder.None? && s.log == [] && forall tx :: tx in s.txs ==> tx.pc == Waiting
  }

  /** Whoever holds the lock has read what the row still says. */
  ghost predicate Locked(s: System) {
    && s.rows != []
    && (forall tx :: tx in s.txs && tx.pc.Clearing? ==> tx.op.Clear?)
    && (forall i :: 0 <= i < |s.txs| && s.txs[i].pc.Holding? ==>
          s.holder == Some(i) && s.txs[i].pc.read == Some(s.rows[0]))
    && (s.holder.Some? ==> s.holder.value < |s.txs| && s.txs[s.holder.value].pc.Holding?)
  }

  function DoneOne(tx: Tx): multiset<Op> { if tx.pc == Done then multiset{tx.op} else multiset{} }

  function DoneOps(txs: seq<Tx>): multiset<Op> {
    if txs == [] then multiset{} else DoneOps(txs[..|txs| - 1]) + DoneOne(txs[|txs| - 1])
  }

  lemma Swap(a: multiset<Op>, b: multiset<Op>, c: multiset<Op>, d: multiset<Op>, e: multiset<Op>)
    requires a + b == c + d
    ensures (a + e) + b == (c + e) + d
  {
    assert (a + e) + b == (a + b) + e;
    assert (c + e) + d == (c + d) + e;
  }

  lemma {:induction false} DoneAfter(txs: seq<Tx>, i: nat, tx: Tx)
    requires i < |txs|
    ensures DoneOps(txs[i := tx]) + DoneOne(txs[i]) == DoneOps(txs) + DoneOne(tx)
  {
    hide DoneOne;
    var n, after := |txs| - 1, txs[i := tx];
    assert DoneOps(after) == DoneOps(after[..n]) + DoneOne(after[n]);
    assert DoneOps(txs) == DoneOps(txs[..n]) + DoneOne(txs[n]);
    if i == n {
      assert after[..n] == txs[..n];
      assert after[n] == tx;
    } else {
      DoneAfter(txs[..n], i, tx);
      assert after[..n] == txs[..n][i := tx];
      assert after[n] == txs[n] && txs[..n][i] == txs[i];
      Swap(DoneOps(after[..n]), DoneOne(txs[i]), DoneOps(txs[..n]), DoneOne(tx), DoneOne(txs[n]));
    }
  }

  /** Only a transaction that finishes adds to what is done. */
  lemma DoneNow(txs: seq<Tx>, i: nat, tx: Tx)
    requires i < |txs| && txs[i].pc != Done
    ensures DoneOps(txs[i := tx]) == if tx.pc == Done then DoneOps(txs) + multiset{tx.op} else DoneOps(txs)
  {
    DoneAfter(txs, i, tx);
    assert DoneOps(txs[i := tx]) + multiset{} == DoneOps(txs[i := tx]);
  }

  lemma {:induction false} DoneNone(txs: seq<Tx>)
    requires forall tx :: tx in txs ==> tx.pc == Waiting
    ensures DoneOps(txs) == multiset{}
  {
    if txs != [] { DoneNone(txs[..|txs| - 1]); }
  }

  lemma ReplaySnoc(topics: seq<Subscription>, ops: seq<Op>, op: Op)
    ensures Replay(topics, ops + [op]) == Apply(op, Replay(topics, ops))
  {
    assert (ops + [op])[..|ops|] == ops;
  }

  /** The first row is the serial replay of the log; the log holds each finished request once; other rows stay. */
  ghost predicate Logged(s: System, start: System) {
    && |s.rows| == |start.rows| && s.rows != [] && s.rows[1..] == start.rows[1..]
    && s.rows[0] == Replay(start.rows[0], s.log)
    && multiset(s.log) == DoneOps(s.txs)
  }

  ghost predicate Serial(s: System, start: System) { Locked(s) && Logged(s, start) }

  lemma BeginLocked(s: System, i: nat)
    requires Locked(s) && i < |s.txs| && s.txs[i].pc == Waiting
    ensures Locked(Begin(s, i))
  {
  }

  lemma BeginLogged(s: System, start: System, i: nat)
    requires Logged(s, start) && i < |s.txs| && s.txs[i].pc == Waiting
    ensures Logged(Begin(s, i), start)
  {
    hide Apply, Replay;
    DoneNow(s.txs, i, s.txs[i].(pc := if s.txs[i].op.Clear? then Clearing else Holding(Some(s.rows[0]))));
  }

  lemma WriteLocked(s: System, i: nat)
    requires Locked(s) && i < |s.txs| && (s.txs[i].pc.Holding? || s.txs[i].pc.Clearing?)
    ensures Locked(Write(s, i))
  {
    hide Apply;
  }

  /** What the row says after a write: the request applied to what it said before. */
  lemma WriteRow(s: System, i: nat)
    requires Locked(s) && i < |s.txs| && (s.txs[i].pc.Holding? || s.txs[i].pc.Clearing?)
    ensures var e, tx := Write(s, i), s.txs[i];
            || e == s
            || (e.rows == s.rows[0 := Apply(tx.op, s.rows[0])] && e.log == s.log + [tx.op] && e.txs == s.txs[i := tx.(pc := Done)])
  {
    assert s.txs[i] in s.txs;
  }

  lemma WriteLogged(s: System, start: System, i: nat)
    requires Serial(s, start) && i < |s.txs| && (s.txs[i].pc.Holding? || s.txs[i].pc.Clearing?)
    ensures Logged(Write(s, i), start)
  {
    hide Apply, Replay, Write, Locked;
    WriteRow(s, i);
    ReplaySnoc(start.rows[0], s.log, s.txs[i].op);
    DoneNow(s.txs, i, s.txs[i].(pc := Done));
  }

  lemma SerialNext(s: System, start: System, i: nat)
    requires Serial(s, start)
    ensures Serial(Next(s, i), start)
  {
    hide Begin, Write, Locked, Logged;
    if i < |s.txs| && s.txs[i].pc != Done {
      if s.txs[i].pc == Waiting {
        BeginLocked(s, i);
        BeginLogged(s, start, i);
      } else {
        WriteLocked(s, i);
        WriteLogged(s, start, i);
      }
    }
  }

  lemma {:induction false} SerialRun(s: System, schedule: seq<nat>)
    requires Ready(s)
    ensures Serial(Run(s, schedule), s)
  {
    if schedule == [] {
      DoneNone(s.txs);
    } else {
      SerialRun(s, schedule[..|schedule| - 1]);
      SerialNext(Run(s, schedule[..|schedule| - 1]), s, schedule[|schedule| - 1]);
    }
  }

  /**
   * Once the row exists, every interleaving leaves in it the serial replay of the
   * finished requests, each exactly once, in the order they held the lock to write.
   */
  lemma NoUpdateLost(s: System, schedule: seq<nat>)
    requires Ready(s)
    ensures var e := Run(s, schedule);
            && |e.rows| == |s.rows| && e.rows[0] == Replay(s.rows[0], e.log) && e.rows[1..] == s.rows[1..]
            && multiset(e.log) == DoneOps(e.txs)
  {
    SerialRun(s, schedule);
  }

  /** Uninterrupted, a transaction on an existing row is one read and one write: it applies its request, once, and lets go of the row. */
  lemma TwoStepsFinish(s: System, i: nat)
    requires s.rows != [] && s.holder.None? && i < |s.txs| && s.txs[i].pc == Waiting
    ensures var e, op := Run(s, [i, i]), s.txs[i].op;
            && e.rows == s.rows[0 := Apply(op, s.rows[0])] && e.holder.None? && e.log == s.log + [op]
            && e.txs == s.txs[i := Tx(op, Done)]
  {
    hide Apply, Begin, Write;
    assert [i, i][..1] == [i] && [i][..0] == [];
    assert Run(s, [i]) == Next(s, i) && Run(s, [i, i]) == Next(Next(s, i), i);
    BeginThenWrite(s, i);
  }

  lemma BeginThenWrite(s: System, i: nat)
    requires s.rows != [] && s.holder.None? && i < |s.txs| && s.txs[i].pc == Waiting
    ensures var m, op := Begin(s, i), s.txs[i].op;
            && i < |m.txs| && (m.txs[i].pc.Holding? || m.txs[i].pc.Clearing?)
            && Write(m, i) == System(s.rows[0 := Apply(op, s.rows[0])], None, s.txs[i := Tx(op, Done)], s.log + [op])
  {
    hide Put;
  }

  /* ── no row yet: nothing to lock ─────────────────────────────────────── */

  /** The actor has no state row and nobody has started. */
  ghost predicate Rowless(s: System) {
    s.rows == [] && s.holder.None? && s.log == [] && forall tx :: tx in s.txs ==> tx.pc == Waiting
  }

  /** One row at most, and it says what the written requests come to. */
  ghost predicate OneRow(s: System) {
    |s.rows| <= 1 && if s.rows == [] then s.log == [] else s.rows[0] == Replay([], s.log)
  }

  /** No two transactions are subscribes or unsubscribes. */
  ghost predicate OneWriter(txs: seq<Tx>) {
    forall i, j :: 0 <= i < j < |txs| ==> txs[i].op.Clear? || txs[j].op.Clear?
  }

  /** With a single writer the row appears at most once, and clears only ever find it whole. */
  ghost predicate Lonely(s: System) {
    && OneRow(s) && s.holder.None?
    && (forall tx :: tx in s.txs ==>
          && (tx.pc.Holding? ==> tx.pc.read.None? && !tx.op.Clear? && s.rows == [])
          && (tx.pc.Clearing? ==> tx.op.Clear? && s.rows != [])
          && (!tx.op.Clear? && s.rows != [] ==> tx.pc == Done))
  }

  lemma LonelyNext(s: System, i: nat)
    requires Lonely(s) && OneWriter(s.txs)
    ensures Lonely(Next(s, i)) && OneWriter(Next(s, i).txs)
  {
    hide Replay, Apply;
    if i < |s.txs| {
      var tx := s.txs[i];
      assert tx in s.txs;
      if tx.pc.Holding? {
        assert forall k :: 0 <= k < |s.txs| && k != i ==> s.txs[k].op.Clear?;
        assert Write(s, i).rows == [Apply(tx.op, [])] && Write(s, i).log == [tx.op];
        FirstReplay(tx.op);
      } else if tx.pc.Clearing? {
        ClearEmpties(s.rows[0]);
        ReplaySnoc([], s.log, tx.op);
        assert Apply(Clear, Replay([], s.log)) == [] by { ClearEmpties(Replay([], s.log)); }
      }
      forall x | x in Next(s, i).txs ensures x in s.txs || x == Next(s, i).txs[i] {
        var k :| 0 <= k < |s.txs| && Next(s, i).txs[k] == x;
      }
    }
  }

  lemma FirstReplay(op: Op)
    ensures Replay([], [op]) == Apply(op, [])
  {
    assert [op][..0] == [];
    assert Replay([], []) == [];
  }

  lemma ClearEmpties(topics: seq<Subscription>)
    ensures Apply(Clear, topics) == []
  {
  }

  lemma {:induction false} LonelyRun(s: System, schedule: seq<nat>)
    requires Rowless(s) && OneWriter(s.txs)
    ensures Lonely(Run(s, schedule)) && OneWriter(Run(s, schedule).txs)
  {
    hide Next, OneWriter;
    if schedule != [] {
      LonelyRun(s, schedule[..|schedule| - 1]);
      LonelyNext(Run(s, schedule[..|schedule| - 1]), schedule[|schedule| - 1]);
    }
  }

  /** Two writers that both look before either writes leave two rows, and only the first is ever read. */
  lemma TwoRows(s: System, i: nat, j: nat)
    requires Rowless(s) && i < j < |s.txs| && !s.txs[i].op.Clear? && !s.txs[j].op.Clear?
    ensures Run(s, [i, j, i, j]).rows == [Apply(s.txs[i].op, []), Apply(s.txs[j].op, [])]
    ensures Run(s, [i, j, i, j]).log == [s.txs[i].op, s.txs[j].op]
  {
    hide Apply, Run;
    FourSteps(s, i, j);
    assert s.txs[i] in s.txs && s.txs[j] in s.txs;
    var waiting := s.txs[i := s.txs[i].(pc := Holding(None))];
    assert Next(s, i) == s.(txs := waiting);
    assert Next(s.(txs := waiting), j).txs[i].pc == Holding(None) && Next(s.(txs := waiting), j).txs[j].pc == Holding(None);
  }

  lemma FourSteps(s: System, i: nat, j: nat)
    ensures Run(s, [i, j, i, j]) == Next(Next(Next(Next(s, i), j), i), j)
  {
    hide Next;
    assert [i, j, i, j][..3] == [i, j, i] && [i, j, i][..2] == [i, j] && [i, j][..1] == [i] && [i][..0] == [];
    assert Run(s, []) == s;
    assert Run(s, [i]) == Next(s, i);
    assert Run(s, [i, j]) == Next(Next(s, i), j);
    assert Run(s, [i, j, i]) == Next(Next(Next(s, i), j), i);
  }

  /** Without a row no schedule can go wrong exactly when at most one transaction writes. */
  lemma RowlessSafeIff(s: System)
    requires Rowless(s)
    ensures (forall schedule :: OneRow(Run(s, schedule))) <==> OneWriter(s.txs)
    ensures (forall schedule :: |Run(s, schedule).rows| <= 1) <==> OneWriter(s.txs)
  {
    hide Run, Rowless, Replay;
    if OneWriter(s.txs) {
      forall schedule ensures OneRow(Run(s, schedule)) { LonelyRun(s, schedule); }
    } else {
      var i, j :| 0 <= i < j < |s.txs| && !s.txs[i].op.Clear? && !s.txs[j].op.Clear?;
      TwoRows(s, i, j);
      assert |Run(s, [i, j, i, j]).rows| == 2;
    }
  }

  /** Without the row there is nothing to lock: two first subscribes each write a row, and the one read keeps only the first. */
  lemma FirstSubscribesLost(a: Op, b: Op)
    requires a.Subscribe? && b.Subscribe?
    ensures var s := System([], None, [Tx(a, Waiting), Tx(b, Waiting)], []);
            Run(s, [0, 1, 0, 1]) == System([[Stored(a)], [Stored(b)]], None, [Tx(a, Done), Tx(b, Done)], [a, b])
  {
    hide Stored;
    var s := System([], None, [Tx(a, Waiting), Tx(b, Waiting)], []);
    assert [0, 1, 0, 1][..3] == [0, 1, 0] && [0, 1, 0][..2] == [0, 1] && [0, 1][..1] == [0] && [0][..0] == [];
    assert Run(s, [0]) == Next(s, 0);
    assert Run(s, [0, 1]) == Next(Next(s, 0), 1);
    assert Run(s, [0, 1, 0]) == Next(Next(Next(s, 0), 1), 0);
    assert Run(s, [0, 1, 0, 1]) == Next(Next(Next(Next(s, 0), 1), 0), 1);
  }
}
