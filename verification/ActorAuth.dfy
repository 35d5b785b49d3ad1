/** Authenticating an actor by credential, through a cache keyed on the whole credential. */
module ActorAuth {
  import opened Prelude
  import opened Schema
  import TtlCache

  const AUTH_TTL := 60_000

  /* ── credentials ─────────────────────────────────────────────────────── */

  /** The position of the first separator, or the length when there is none. */
  function FirstDot(s: string): (n: nat)
    ensures n <= |s| && '.' !in s[..n] && (n < |s| ==> s[n] == '.')
  {
    if s == [] || s[0] == '.' then 0
    else
      var n := FirstDot(s[1..]);
      assert s[..n + 1] == [s[0]] + s[1..][..n];
      n + 1
  }

  datatype Credential = Credential(keyId: string, secret: string)

  /** Exactly one separator, with something on both sides. */
  function SplitCredential(s: string): Option<Credential> {
    var n := FirstDot(s);
    if n == |s| || '.' in s[n + 1..] || n == 0 || s[n + 1..] == "" then None
    else Some(Credential(s[..n], s[n + 1..]))
  }

  predicate Part(s: string) { s != "" && '.' !in s }

  lemma {:induction false} FirstDotAt(a: string, b: string)
    requires '.' !in a
    ensures FirstDot(a + "." + b) == |a|
  {
    if a != "" {
      FirstDotAt(a[1..], b);
      assert (a + "." + b)[1..] == a[1..] + "." + b;
    }
  }

  /** A credential splits into two parts exactly when it is those parts joined. */
  lemma SplitIff(s: string, keyId: string, secret: string)
    ensures SplitCredential(s) == Some(Credential(keyId, secret)) <==>
            s == keyId + "." + secret && Part(keyId) && Part(secret)
  {
    var n := FirstDot(s);
    if SplitCredential(s) == Some(Credential(keyId, secret)) {
      assert s == s[..n] + [s[n]] + s[n + 1..];
    }
    if s == keyId + "." + secret && Part(keyId) && Part(secret) {
      FirstDotAt(keyId, secret);
      assert s[..|keyId|] == keyId && s[|keyId| + 1..] == secret;
    }
  }

  /* ── authentication ──────────────────────────────────────────────────── */

  function LiveKeyId(keyId: string): Actor -> bool {
    (a: Actor) => a.keyId == keyId && a.deletedAt.None?
  }

  predicate IsUsable(a: Actor, now: Time) {
    a.status == ActorActive && !Expired(a.expiresAt, now)
  }

  /** Whether a secret hashes to the stored value. */
  type Hash = (string, string) -> bool

  /** What the table alone says of a credential. */
  function Direct(actors: seq<Actor>, matches: Hash, token: string, now: Time): Option<Actor> {
    match SplitCredential(token)
    case None => None
    case Some(c) =>
      match FindFirst(actors, LiveKeyId(c.keyId))
      case None => None
      case Some(a) => if matches(a.secretHash, c.secret) && IsUsable(a, now) then Some(a) else None
  }

  /** One authentication: the actor table as it is then, the credential presented, the clock. */
  datatype Event = Event(actors: seq<Actor>, token: string, now: Time)

  type AuthCache = TtlCache.State<Actor>

  function Step(cache: AuthCache, matches: Hash, e: Event): (AuthCache, Option<Actor>) {
    if SplitCredential(e.token).None? then (cache, None)
    else
      var (cache', hit) := TtlCache.Step(AUTH_TTL, cache, TtlCache.Event(TtlCache.Get(e.token), e.now));
      if hit.Some? then (cache', hit)
      else
        match Direct(e.actors, matches, e.token, e.now)
        case None => (cache', None)
        case Some(a) => (TtlCache.Step(AUTH_TTL, cache', TtlCache.Event(TtlCache.Set(e.token, a), e.now)).0, Some(a))
  }

  class ActorTokenService {
    const authCache: TtlCache.Cache<Actor>
    const matches: Hash
    const dummyHash: string

    ghost predicate Valid()
      reads this, authCache
    {
      authCache.Valid() && authCache.ttl == AUTH_TTL
    }

    constructor (matches: Hash, dummyHash: string)
      ensures Valid() && fresh(authCache) && this.matches == matches
      ensures authCache.Abstract() == TtlCache.State(map[], 0, 0)
    {
      this.matches, this.dummyHash := matches, dummyHash;
      authCache := new TtlCache.Cache(AUTH_TTL);
    }

    /** A missing row is still compared, against a hash nothing matches. */
    method AuthenticateActorToken(actors: seq<Actor>, token: string, now: Time) returns (r: Option<Actor>)
      requires Valid()
      modifies authCache
      ensures Valid()
      ensures (authCache.Abstract(), r) == Step(old(authCache.Abstract()), matches, Event(actors, token, now))
    {
      var parts := SplitCredential(token);
      if parts.None? { return None; }
      var cached := authCache.Read(token, now);
      if cached.Some? { return cached; }
      var found := FindFirst(actors, LiveKeyId(parts.value.keyId));
      var isValid := matches(if found.Some? then found.value.secretHash else dummyHash, parts.value.secret);
      if found.None? || !isValid { return None; }
      if !IsUsable(found.value, now) { return None; }
      authCache.Write(token, found.value, now);
      return found;
    }
  }

  /* ── what an answer is worth ─────────────────────────────────────────── */

  function Run(matches: Hash, events: seq<Event>): AuthCache {
    if events == [] then TtlCache.State(map[], 0, 0)
    else Step(Run(matches, events[..|events| - 1]), matches, events[|events| - 1]).0
  }

  function Answer(matches: Hash, events: seq<Event>): Option<Actor>
    requires events != []
  {
    Step(Run(matches, events[..|events| - 1]), matches, events[|events| - 1]).1
  }

  /** The k-th authentication presented this very credential, and the table then vouched for this row. */
  ghost predicate Vouched(matches: Hash, events: seq<Event>, token: string, a: Actor, k: nat) {
    k < |events| && events[k].token == token && Direct(events[k].actors, matches, token, events[k].now) == Some(a)
  }

  /** Every cached row was vouched for by the table when it was put there. */
  ghost predicate Backed(cache: AuthCache, matches: Hash, events: seq<Event>) {
    forall token :: token in cache.entries ==>
      exists k: nat :: Vouched(matches, events, token, cache.entries[token].value, k)
                    && cache.entries[token].expiresAt == events[k].now + AUTH_TTL
  }

  lemma MoreEvents(cache: AuthCache, matches: Hash, events: seq<Event>, e: Event)
    requires Backed(cache, matches, events)
    ensures Backed(cache, matches, events + [e])
  {
    hide Direct;
    forall token | token in cache.entries
      ensures exists k: nat :: Vouched(matches, events + [e], token, cache.entries[token].value, k)
                            && cache.entries[token].expiresAt == (events + [e])[k].now + AUTH_TTL
    {
      var k: nat :| Vouched(matches, events, token, cache.entries[token].value, k)
                 && cache.entries[token].expiresAt == events[k].now + AUTH_TTL;
      assert Vouched(matches, events + [e], token, cache.entries[token].value, k);
    }
  }

  lemma StepBacked(cache: AuthCache, matches: Hash, events: seq<Event>, e: Event)
    requires Backed(cache, matches, events)
    ensures Backed(Step(cache, matches, e).0, matches, events + [e])
  {
    hide Direct;
    MoreEvents(cache, matches, events, e);
    var a := Direct(e.actors, matches, e.token, e.now);
    if a.Some? { assert Vouched(matches, events + [e], e.token, a.value, |events|); }
  }

  lemma {:induction false} RunBacked(matches: Hash, events: seq<Event>)
    ensures Backed(Run(matches, events), matches, events)
  {
    hide Step, Vouched;
    if events != [] {
      RunBacked(matches, events[..|events| - 1]);
      StepBacked(Run(matches, events[..|events| - 1]), matches, events[..|events| - 1], events[|events| - 1]);
      assert events == events[..|events| - 1] + [events[|events| - 1]];
    }
  }

  /** The credential is this row's key id, a dot and a secret its hash matches; the row is live, active and not past its expiry. */
  ghost predicate SignsIn(actors: seq<Actor>, matches: Hash, token: string, now: Time, a: Actor) {
    && a in actors && a.deletedAt.None? && a.status == ActorActive && (a.expiresAt.Some? ==> now <= a.expiresAt.value)
    && exists secret :: token == a.keyId + "." + secret && Part(a.keyId) && Part(secret) && matches(a.secretHash, secret)
  }

  lemma DirectMeans(actors: seq<Actor>, matches: Hash, token: string, now: Time, a: Actor)
    requires Direct(actors, matches, token, now) == Some(a)
    ensures SignsIn(actors, matches, token, now, a)
  {
    hide SplitCredential;
    var c := SplitCredential(token).value;
    SplitIff(token, c.keyId, c.secret);
    assert a.keyId == c.keyId;
  }

  /** Where key ids are unique, the table vouches for exactly the row that signs in. */
  lemma DirectIff(actors: seq<Actor>, matches: Hash, token: string, now: Time, a: Actor)
    requires DistinctBy(actors, ActorKeyId)
    ensures Direct(actors, matches, token, now) == Some(a) <==> SignsIn(actors, matches, token, now, a)
  {
    hide SplitCredential, DistinctBy;
    if Direct(actors, matches, token, now) == Some(a) { DirectMeans(actors, matches, token, now, a); }
    if SignsIn(actors, matches, token, now, a) {
      var secret :| token == a.keyId + "." + secret && Part(a.keyId) && Part(secret) && matches(a.secretHash, secret);
      SplitIff(token, a.keyId, secret);
      assert LiveKeyId(a.keyId)(a);
      DistinctByMember(actors, ActorKeyId, a, FindFirst(actors, LiveKeyId(a.keyId)).value);
    }
  }

  /**
   * However the actor table changes in between, an accepted credential signed in to that
   * very row no more than sixty seconds ago.
   */
  lemma AcceptedWithinAMinute(matches: Hash, events: seq<Event>)
    requires events != [] && Answer(matches, events).Some?
    ensures var e := events[|events| - 1];
            exists k: nat :: k < |events| && events[k].token == e.token && e.now <= events[k].now + 60_000
                          && SignsIn(events[k].actors, matches, e.token, events[k].now, Answer(matches, events).value)
  {
    hide Direct, SignsIn;
    var n := |events| - 1;
    var e := events[n];
    var cache := Run(matches, events[..n]);
    RunBacked(matches, events[..n]);
    var k: nat;
    if e.token in cache.entries && e.now <= cache.entries[e.token].expiresAt {
      k :| Vouched(matches, events[..n], e.token, cache.entries[e.token].value, k)
                 && cache.entries[e.token].expiresAt == events[k].now + AUTH_TTL;
      assert Vouched(matches, events, e.token, cache.entries[e.token].value, k);
    } else {
      k := n;
      assert Vouched(matches, events, e.token, Answer(matches, events).value, n);
    }
    DirectMeans(events[k].actors, matches, e.token, events[k].now, Answer(matches, events).value);
  }

  /** A credential that signs in now is never refused: the answer is at worst an older one. */
  lemma UsableIsAccepted(matches: Hash, events: seq<Event>, a: Actor)
    requires events != [] && DistinctBy(events[|events| - 1].actors, ActorKeyId)
    requires var e := events[|events| - 1]; SignsIn(e.actors, matches, e.token, e.now, a)
    ensures Answer(matches, events).Some?
  {
    hide Run, FirstDot, SignsIn, DistinctBy;
    var e := events[|events| - 1];
    DirectIff(e.actors, matches, e.token, e.now, a);
  }

  /* ── the exact answer, whatever happens to the table ─────────────────── */

  /** The k-th authentication asked the table and was answered: no earlier fill for its credential was still in date. */
  ghost predicate Fill(matches: Hash, events: seq<Event>, k: nat)
    decreases k
  {
    && k < |events| && Direct(events[k].actors, matches, events[k].token, events[k].now).Some?
    && forall m: nat :: m < k && events[m].token == events[k].token && Fill(matches, events, m) ==>
         events[k].now > events[m].now + AUTH_TTL
  }

  type Cached = TtlCache.Entry<Actor>

  /** The k-th authentication put this row in the cache under this credential, to lapse then. */
  ghost predicate FillAt(matches: Hash, events: seq<Event>, token: string, x: Cached, k: nat) {
    Fill(matches, events, k) && Vouched(matches, events, token, x.value, k) && x.expiresAt == events[k].now + AUTH_TTL
  }

  ghost predicate HasFill(matches: Hash, events: seq<Event>, token: string, x: Cached) {
    exists k: nat :: FillAt(matches, events, token, x, k)
  }

  ghost predicate Monotone(events: seq<Event>) {
    forall i, j :: 0 <= i < j < |events| ==> events[i].now <= events[j].now
  }

  lemma {:induction false} FillStable(matches: Hash, events: seq<Event>, e: Event, k: nat)
    requires k < |events|
    ensures Fill(matches, events + [e], k) <==> Fill(matches, events, k)
    decreases k
  {
    hide Direct;
    forall m: nat | m < k ensures Fill(matches, events + [e], m) <==> Fill(matches, events, m) { FillStable(matches, events, e, m); }
  }

  lemma FillInside(matches: Hash, events: seq<Event>, token: string, x: Cached, k: nat)
    requires FillAt(matches, events, token, x, k)
    ensures k < |events| && events[k].token == token && Fill(matches, events, k) && x.expiresAt == events[k].now + AUTH_TTL
    ensures Direct(events[k].actors, matches, token, events[k].now) == Some(x.value)
  {
    hide Direct, Fill;
  }

  lemma FillAtStable(matches: Hash, events: seq<Event>, e: Event, token: string, x: Cached, k: nat)
    requires k < |events|
    ensures FillAt(matches, events + [e], token, x, k) <==> FillAt(matches, events, token, x, k)
  {
    hide Direct, Fill;
    FillStable(matches, events, e, k);
  }

  lemma HasFillMore(matches: Hash, events: seq<Event>, e: Event, token: string, x: Cached)
    requires HasFill(matches, events, token, x)
    ensures HasFill(matches, events + [e], token, x)
  {
    hide FillAt;
    var k: nat :| FillAt(matches, events, token, x, k);
    FillInside(matches, events, token, x, k);
    FillAtStable(matches, events, e, token, x, k);
  }

  /** The fills after one more authentication: those before, and its own. */
  lemma HasFillOne(matches: Hash, events: seq<Event>, e: Event, token: string, x: Cached)
    ensures HasFill(matches, events + [e], token, x) <==>
            HasFill(matches, events, token, x) || FillAt(matches, events + [e], token, x, |events|)
  {
    hide FillAt;
    if HasFill(matches, events, token, x) { HasFillMore(matches, events, e, token, x); }
    if k: nat :| FillAt(matches, events + [e], token, x, k) {
      FillInside(matches, events + [e], token, x, k);
      if k < |events| { FillAtStable(matches, events, e, token, x, k); }
    }
  }

  /** The cache holds fills, each until it lapses, and every fill that has not. */
  ghost predicate Mirrors(cache: AuthCache, matches: Hash, events: seq<Event>, now: Time) {
    && (forall token :: token in cache.entries ==> HasFill(matches, events, token, cache.entries[token]))
    && (forall token, x :: HasFill(matches, events, token, x) && now <= x.expiresAt ==>
          token in cache.entries && cache.entries[token] == x)
  }

  /** A read loses only an entry that has lapsed, and answers one that has not. */
  lemma AfterGet(cache: AuthCache, token: string, now: Time)
    ensures var (c, hit) := TtlCache.Step(AUTH_TTL, cache, TtlCache.Event(TtlCache.Get(token), now));
            && (forall t :: t in c.entries ==> t in cache.entries && c.entries[t] == cache.entries[t])
            && (forall t :: t in cache.entries && cache.entries[t].expiresAt >= now ==> t in c.entries)
            && hit == if token in cache.entries && cache.entries[token].expiresAt >= now then Some(cache.entries[token].value) else None
  {
  }

  /** A write adds its entry and loses only entries that have lapsed. */
  lemma AfterSet(cache: AuthCache, token: string, a: Actor, now: Time)
    ensures var c := TtlCache.Step(AUTH_TTL, cache, TtlCache.Event(TtlCache.Set(token, a), now)).0;
            && token in c.entries && c.entries[token] == TtlCache.Entry(a, now + AUTH_TTL)
            && (forall t :: t in c.entries && t != token ==> t in cache.entries && c.entries[t] == cache.entries[t])
            && (forall t :: t in cache.entries && t != token && cache.entries[t].expiresAt >= now ==> t in c.entries)
  {
  }

  /** The credential is well formed and its cached answer has not lapsed. */
  predicate Hits(cache: AuthCache, e: Event) {
    SplitCredential(e.token).Some? && e.token in cache.entries && cache.entries[e.token].expiresAt >= e.now
  }

  /** What one authentication does to the entries, the sweep forgotten. */
  lemma AfterStep(cache: AuthCache, matches: Hash, e: Event)
    ensures var (c, answer) := Step(cache, matches, e);
            var direct := Direct(e.actors, matches, e.token, e.now);
            var filled := !Hits(cache, e) && direct.Some?;
            && answer == (if Hits(cache, e) then Some(cache.entries[e.token].value) else direct)
            && (forall t :: t in c.entries && !(filled && t == e.token) ==> t in cache.entries && c.entries[t] == cache.entries[t])
            && (forall t :: t in cache.entries && cache.entries[t].expiresAt >= e.now && !(filled && t == e.token) ==> t in c.entries)
            && (filled ==> e.token in c.entries && c.entries[e.token] == TtlCache.Entry(direct.value, e.now + AUTH_TTL))
  {
    hide FirstDot, TtlCache.Step;
    AfterGet(cache, e.token, e.now);
    var c := TtlCache.Step(AUTH_TTL, cache, TtlCache.Event(TtlCache.Get(e.token), e.now)).0;
    var direct := Direct(e.actors, matches, e.token, e.now);
    if direct.Some? { AfterSet(c, e.token, direct.value, e.now); }
  }

  /** An authentication fills the cache exactly when it misses and the table vouches. */
  lemma FillsIff(cache: AuthCache, matches: Hash, events: seq<Event>, e: Event, now: Time, x: Cached)
    requires Mirrors(cache, matches, events, now) && now <= e.now
    ensures FillAt(matches, events + [e], e.token, x, |events|) <==>
            !Hits(cache, e) && Direct(e.actors, matches, e.token, e.now) == Some(x.value) && x.expiresAt == e.now + AUTH_TTL
  {
    hide Mirrors, Hits, Fill, Direct;
    var more, n := events + [e], |events|;
    assert more[n] == e;
    if Hits(cache, e) {
      HitNoFill(cache, matches, events, e, now);
    } else if Direct(e.actors, matches, e.token, e.now).Some? {
      MissFills(cache, matches, events, e, now);
    }
  }

  lemma HitNoFill(cache: AuthCache, matches: Hash, events: seq<Event>, e: Event, now: Time)
    requires Mirrors(cache, matches, events, now) && Hits(cache, e)
    ensures !Fill(matches, events + [e], |events|)
  {
    hide FillAt, Direct, FirstDot, Fill;
    var x := cache.entries[e.token];
    assert HasFill(matches, events, e.token, x);
    var k: nat :| FillAt(matches, events, e.token, x, k);
    FillInside(matches, events, e.token, x, k);
    FillStable(matches, events, e, k);
    if Fill(matches, events + [e], |events|) { FillsApart(matches, events + [e], k, |events|); }
  }

  lemma FillsApart(matches: Hash, events: seq<Event>, k: nat, n: nat)
    requires k < n < |events| && Fill(matches, events, k) && Fill(matches, events, n) && events[k].token == events[n].token
    ensures events[n].now > events[k].now + AUTH_TTL
  {
    hide Direct;
  }

  lemma MissFills(cache: AuthCache, matches: Hash, events: seq<Event>, e: Event, now: Time)
    requires Mirrors(cache, matches, events, now) && now <= e.now && !Hits(cache, e)
    requires Direct(e.actors, matches, e.token, e.now).Some?
    ensures Fill(matches, events + [e], |events|)
  {
    hide Direct, Fill, HasFill, FirstDot;
    var more := events + [e];
    assert SplitCredential(e.token).Some? by { DirectSplits(e, matches); }
    forall m: nat | m < |events| && more[m].token == e.token && Fill(matches, more, m) ensures e.now > more[m].now + AUTH_TTL {
      FillStable(matches, events, e, m);
      var x := FillEntry(matches, events, m);
    }
    FillMade(matches, more, |events|);
  }

  lemma DirectSplits(e: Event, matches: Hash)
    requires Direct(e.actors, matches, e.token, e.now).Some?
    ensures SplitCredential(e.token).Some?
  {
  }

  lemma FillMade(matches: Hash, events: seq<Event>, n: nat)
    requires n < |events| && Direct(events[n].actors, matches, events[n].token, events[n].now).Some?
    requires forall m: nat :: m < n && events[m].token == events[n].token && Fill(matches, events, m) ==> events[n].now > events[m].now + AUTH_TTL
    ensures Fill(matches, events, n)
  {
    hide Direct;
  }

  lemma FillEntry(matches: Hash, events: seq<Event>, k: nat) returns (x: Cached)
    requires Fill(matches, events, k)
    ensures k < |events| && HasFill(matches, events, events[k].token, x) && x.expiresAt == events[k].now + AUTH_TTL
  {
    hide Direct;
    x := TtlCache.Entry(Direct(events[k].actors, matches, events[k].token, events[k].now).value, events[k].now + AUTH_TTL);
    assert FillAt(matches, events, events[k].token, x, k);
  }

  lemma MirrorsStep(cache: AuthCache, matches: Hash, events: seq<Event>, e: Event, now: Time)
    requires Mirrors(cache, matches, events, now) && now <= e.now
    ensures Mirrors(Step(cache, matches, e).0, matches, events + [e], e.now)
  {
    hide Step, FillAt, HasFill, Hits, Direct;
    var c, more, n, direct := Step(cache, matches, e).0, events + [e], |events|, Direct(e.actors, matches, e.token, e.now);
    AfterStep(cache, matches, e);
    forall token | token in c.entries ensures HasFill(matches, more, token, c.entries[token]) {
      HasFillOne(matches, events, e, token, c.entries[token]);
      if !Hits(cache, e) && direct.Some? && token == e.token { FillsIff(cache, matches, events, e, now, c.entries[token]); }
    }
    forall token, x | HasFill(matches, more, token, x) && e.now <= x.expiresAt ensures token in c.entries && c.entries[token] == x {
      HasFillOne(matches, events, e, token, x);
      if FillAt(matches, more, token, x, n) {
        FillInside(matches, more, token, x, n);
        FillsIff(cache, matches, events, e, now, x);
      } else if !Hits(cache, e) && direct.Some? && token == e.token {
        MissApart(cache, matches, events, e, now, x);
      }
    }
  }

  lemma MissApart(cache: AuthCache, matches: Hash, events: seq<Event>, e: Event, now: Time, x: Cached)
    requires Mirrors(cache, matches, events, now) && now <= e.now && !Hits(cache, e)
    requires Direct(e.actors, matches, e.token, e.now).Some? && HasFill(matches, events, e.token, x)
    ensures x.expiresAt < e.now
  {
    hide Direct, HasFill, FirstDot;
    DirectSplits(e, matches);
  }

  lemma NoFills(matches: Hash, token: string, x: Cached)
    ensures !HasFill(matches, [], token, x)
  {
    hide FillAt;
    if k: nat :| FillAt(matches, [], token, x, k) { FillInside(matches, [], token, x, k); }
  }

  lemma {:induction false} RunMirrors(matches: Hash, events: seq<Event>, now: Time)
    requires Monotone(events) && forall e :: e in events ==> e.now <= now
    ensures Mirrors(Run(matches, events), matches, events, now)
  {
    hide Step, FillAt, HasFill;
    if events == [] {
      forall token, x ensures !HasFill(matches, [], token, x) { NoFills(matches, token, x); }
    } else {
      var n := |events| - 1;
      forall e | e in events[..n] ensures e.now <= events[n].now { var i :| 0 <= i < n && events[i] == e; }
      RunMirrors(matches, events[..n], events[n].now);
      MirrorsStep(Run(matches, events[..n]), matches, events[..n], events[n], events[n].now);
      assert events == events[..n] + [events[n]];
      assert events[n] in events;
    }
  }

  /** Some fill of this credential with this row is still in date. */
  ghost predicate InDate(matches: Hash, events: seq<Event>, token: string, a: Actor, now: Time) {
    exists t: Time :: HasFill(matches, events, token, TtlCache.Entry(a, t)) && now <= t
  }

  /** In date: the table vouched for the row at most a minute ago, and no fill of the credential was then in date. */
  lemma InDateMeans(matches: Hash, events: seq<Event>, token: string, a: Actor, now: Time)
    ensures InDate(matches, events, token, a, now) <==>
            exists k: nat :: Fill(matches, events, k) && Vouched(matches, events, token, a, k) && now <= events[k].now + 60_000
  {
    hide Fill, Direct;
    if t: Time :| HasFill(matches, events, token, TtlCache.Entry(a, t)) && now <= t {
      var k: nat :| FillAt(matches, events, token, TtlCache.Entry(a, t), k);
    }
    if k: nat :| Fill(matches, events, k) && Vouched(matches, events, token, a, k) && now <= events[k].now + AUTH_TTL {
      assert FillAt(matches, events, token, TtlCache.Entry(a, events[k].now + AUTH_TTL), k);
    }
  }

  /** Only one row can be in date under a credential: the cached one. */
  lemma HitsIff(cache: AuthCache, matches: Hash, events: seq<Event>, e: Event)
    requires Mirrors(cache, matches, events, e.now)
    ensures forall a :: InDate(matches, events, e.token, a, e.now) <==> Hits(cache, e) && cache.entries[e.token].value == a
  {
    hide FirstDot, HasFill;
    forall a ensures InDate(matches, events, e.token, a, e.now) <==> Hits(cache, e) && cache.entries[e.token].value == a {
      if InDate(matches, events, e.token, a, e.now) {
        var t: Time :| HasFill(matches, events, e.token, TtlCache.Entry(a, t)) && e.now <= t;
        HasFillSplits(matches, events, e.token, TtlCache.Entry(a, t));
      }
      if Hits(cache, e) && cache.entries[e.token].value == a {
        assert cache.entries[e.token] == TtlCache.Entry(a, cache.entries[e.token].expiresAt);
      }
    }
  }

  lemma HasFillSplits(matches: Hash, events: seq<Event>, token: string, x: Cached)
    requires HasFill(matches, events, token, x)
    ensures SplitCredential(token).Some?
  {
    hide FillAt, FirstDot;
    var k: nat :| FillAt(matches, events, token, x, k);
    FillInside(matches, events, token, x, k);
  }

  lemma MonotonePrefix(events: seq<Event>, e: Event)
    requires Monotone(events + [e])
    ensures Monotone(events) && forall x :: x in events ==> x.now <= e.now
  {
    var more := events + [e];
    assert forall i :: 0 <= i < |events| ==> more[i] == events[i];
    forall x | x in events ensures x.now <= e.now {
      var i :| 0 <= i < |events| && events[i] == x;
      assert more[i].now <= more[|events|].now;
    }
  }

  /**
   * The exact answer, whatever becomes of the table between authentications: the row of
   * the one fill still in date, if there is one, and what the table says otherwise.
   */
  lemma AnswerIff(matches: Hash, events: seq<Event>, e: Event, a: Actor)
    requires Monotone(events + [e])
    ensures Answer(matches, events + [e]) == Some(a) <==>
            || InDate(matches, events, e.token, a, e.now)
            || ((forall b :: !InDate(matches, events, e.token, b, e.now)) && Direct(e.actors, matches, e.token, e.now) == Some(a))
  {
    hide Step, InDate, Direct, Monotone, Mirrors, Run;
    var cache := Run(matches, events);
    assert (events + [e])[..|events|] == events && (events + [e])[|events|] == e;
    MonotonePrefix(events, e);
    RunMirrors(matches, events, e.now);
    AfterStep(cache, matches, e);
    HitsIff(cache, matches, events, e);
    if Hits(cache, e) { assert InDate(matches, events, e.token, cache.entries[e.token].value, e.now); }
  }

  /** A row the table no longer vouches for is still answered exactly while its last fill is in date. */
  lemma RevokedIff(matches: Hash, events: seq<Event>, e: Event, a: Actor)
    requires Monotone(events + [e]) && Direct(e.actors, matches, e.token, e.now).None?
    ensures Answer(matches, events + [e]) == Some(a) <==> InDate(matches, events, e.token, a, e.now)
  {
    hide Direct, InDate, Answer;
    AnswerIff(matches, events, e, a);
  }

  /** A hit does not renew the answer: vouched for twenty seconds ago, and yet refused, because the fill is seventy old. */
  lemma HitDoesNotRenew(matches: Hash, a: Actor, token: string, t: Time)
    requires a.expiresAt.None? && Direct([a], matches, token, t) == Some(a)
    ensures var events := [Event([a], token, t), Event([a], token, t + 50_000), Event([a.(status := ActorDisabled)], token, t + 70_000)];
            && Vouched(matches, events, token, a, 1) && events[2].now <= events[1].now + 60_000
            && Answer(matches, events) == None
  {
    hide FirstDot;
    var e1, e2, e3 := Event([a], token, t), Event([a], token, t + 50_000), Event([a.(status := ActorDisabled)], token, t + 70_000);
    assert [e1, e2, e3][..2] == [e1, e2] && [e1, e2][..1] == [e1] && [e1][..0] == [];
    assert Run(matches, [e1]) == Step(Run(matches, []), matches, e1).0;
    assert Run(matches, [e1, e2]) == Step(Run(matches, [e1]), matches, e2).0;
  }

  /** Disabling an actor that has just signed in shows only when the cached answer has run out. */
  lemma DisabledForAtMostAMinute(matches: Hash, a: Actor, token: string, t1: Time, t2: Time)
    requires Direct([a], matches, token, t1) == Some(a) && t1 <= t2
    ensures Answer(matches, [Event([a], token, t1), Event([a.(status := ActorDisabled)], token, t2)])
         == if t2 <= t1 + 60_000 then Some(a) else None
  {
    hide FirstDot;
    var e1, e2 := Event([a], token, t1), Event([a.(status := ActorDisabled)], token, t2);
    assert [e1, e2][..1] == [e1] && [e1][..0] == [];
    assert Run(matches, [e1]) == Step(Run(matches, []), matches, e1).0;
  }
}
