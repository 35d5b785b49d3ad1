/** Session restore: which recorded subscriptions come back, where, and under what topic. */
module Restore {
  import opened Prelude
  import opened Schema
  import opened Resolution
  import opened Authz
  import opened RoomCheck
  import opened Addressing

  function RecordedOf(a: ActiveSubscription): Subscription { a.recorded }

  /** The pattern is in the resolved set of this app. */
  ghost predicate Grants(q: Request, appId: Id, pattern: string) {
    exists at :: Emits(q, appId, at) && at.pattern == pattern
  }

  ghost function StillGranted(q: Request, appId: Id): Subscription -> bool {
    (sub: Subscription) => Grants(q, appId, sub.name)
  }

  lemma {:induction false} HomeIsListed(entries: seq<AppEntry>, pattern: string)
    ensures PatternHome(entries, pattern).Some? <==>
            exists e, at :: e in entries && at in e.allowedTopics && at.pattern == pattern
    ensures PatternHome(entries, pattern).Some? ==>
            exists e, at :: e in entries && at in e.allowedTopics && at.pattern == pattern
                            && PatternHome(entries, pattern) == Some((e.appId, at.topic))
  {
    if entries != [] {
      var n := |entries| - 1;
      HomeIsListed(entries[..n], pattern);
      assert entries == entries[..n] + [entries[n]];
      var found := FindLast(entries[n].allowedTopics, HasPattern(pattern));
      if found.Some? {
        assert entries[n] in entries && found.value in entries[n].allowedTopics;
      }
    }
  }

  /** A pattern belongs to one app and one internal topic: every app that lists it agrees. */
  lemma PatternOwner(q: Request, app1: Id, at1: AllowedTopic, app2: Id, at2: AllowedTopic)
    requires Keyed(q.db) && UniqueLiveSlugs(q.db) && PlainSlugs(q.db, q.actor.projectId) && GrantsInProject(q.db, q.actor)
    requires Emits(q, app1, at1) && Emits(q, app2, at2) && at1.pattern == at2.pattern
    ensures app1 == app2 && at1.topic == at2.topic && at1.roomId == at2.roomId
  {
    var access1, room1 := EmittedBy(q, app1, at1);
    var access2, room2 := EmittedBy(q, app2, at2);
    ResolvedIsPlain(q, access1, room1);
    ResolvedIsPlain(q, access2, room2);
    var t1 := TopicOf(q, access1, room1, at1);
    var t2 := TopicOf(q, access2, room2, at2);
    PatternDecodes(access1.app.slug, room1, t1, at1.permission, access2.app.slug, room2, t2, at2.permission, q.scope);
    SameAppRoom(q, access1, room1, access2, room2);
  }

  lemma SameAppRoom(q: Request, access1: AppAccess, room1: Room, access2: AppAccess, room2: Room)
    requires Keyed(q.db) && UniqueLiveSlugs(q.db) && GrantsInProject(q.db, q.actor)
    requires access1 in ValidAccess(q) && access2 in ValidAccess(q) && access1.app.slug == access2.app.slug
    requires room1 in RoomsOf(q.db, access1.app) && room2 in RoomsOf(q.db, access2.app) && room1.slug == room2.slug
    ensures access1.app == access2.app && room1 == room2
  {
    ResolvedApp(q, access1);
    ResolvedApp(q, access2);
    assert SameLiveApp(access1.app, access2.app);
    assert SameLiveRoom(room1, room2);
  }

  /** A subscription is restored under an app exactly when the app still grants its pattern. */
  lemma RestoredIff(q: Request, appId: Id, sub: Subscription)
    requires Keyed(q.db) && UniqueLiveSlugs(q.db) && PlainSlugs(q.db, q.actor.projectId) && GrantsInProject(q.db, q.actor)
    ensures Restored(Resolve(q), appId)(sub).Some? <==> Grants(q, appId, sub.name)
    ensures forall at :: Restored(Resolve(q), appId)(sub).Some? && Emits(q, appId, at) && at.pattern == sub.name ==>
              Restored(Resolve(q), appId)(sub) == Some(ActiveSubscription(sub.name, at.topic, sub))
  {
    hide Keyed, UniqueLiveSlugs, PlainSlugs, GrantsInProject, Resolve, PatternHome;
    HomeIsListed(Resolve(q), sub.name);
    var home := PatternHome(Resolve(q), sub.name);
    if home.Some? {
      var e, at :| e in Resolve(q) && at in e.allowedTopics && at.pattern == sub.name && home == Some((e.appId, at.topic));
      assert Emits(q, e.appId, at);
      forall at' | Emits(q, appId, at') && at'.pattern == sub.name
        ensures e.appId == appId && at.topic == at'.topic
      { PatternOwner(q, e.appId, at, appId, at'); }
    }
  }

  lemma {:induction false} KeptInOrder(recorded: seq<Subscription>, f: Subscription -> Option<ActiveSubscription>, p: Subscription -> bool)
    requires forall s :: s in recorded ==> (f(s).Some? <==> p(s)) && (f(s).Some? ==> f(s).value.recorded == s)
    ensures Map(FilterMap(recorded, f), RecordedOf) == Filter(recorded, p)
  {
    if recorded != [] {
      var n := |recorded| - 1;
      KeptInOrder(recorded[..n], f, p);
      var rest := FilterMap(recorded[..n], f);
      if p(recorded[n]) {
        assert Map(rest + [f(recorded[n]).value], RecordedOf) == Map(rest, RecordedOf) + [recorded[n]];
      }
    }
  }

  /**
   * Restore is exact: an app gets back precisely the recorded subscriptions it still
   * grants, in recorded order, each with the internal topic its pattern resolves to,
   * and no pattern is restored under two apps.
   */
  lemma RestoreExact(q: Request, recorded: seq<Subscription>, appId: Id)
    requires Keyed(q.db) && UniqueLiveSlugs(q.db) && PlainSlugs(q.db, q.actor.projectId) && GrantsInProject(q.db, q.actor)
    ensures Map(FilterMap(recorded, Restored(Resolve(q), appId)), RecordedOf) == Filter(recorded, StillGranted(q, appId))
    ensures forall a :: a in FilterMap(recorded, Restored(Resolve(q), appId)) ==>
              a.pattern == a.recorded.name && exists at :: Emits(q, appId, at) && at.pattern == a.pattern && at.topic == a.topic
    ensures forall other, pattern :: Grants(q, appId, pattern) && Grants(q, other, pattern) ==> other == appId
  {
    forall s | s in recorded
      ensures Restored(Resolve(q), appId)(s).Some? <==> StillGranted(q, appId)(s)
    { RestoredIff(q, appId, s); }
    KeptInOrder(recorded, Restored(Resolve(q), appId), StillGranted(q, appId));
    forall a | a in FilterMap(recorded, Restored(Resolve(q), appId))
      ensures a.pattern == a.recorded.name && exists at :: Emits(q, appId, at) && at.pattern == a.pattern && at.topic == a.topic
    {
      FilterMapMember(recorded, Restored(Resolve(q), appId), a);
      var s :| s in recorded && Restored(Resolve(q), appId)(s) == Some(a);
      RestoredIff(q, appId, s);
    }
    forall other, pattern | Grants(q, appId, pattern) && Grants(q, other, pattern) ensures other == appId {
      var at1 :| Emits(q, appId, at1) && at1.pattern == pattern;
      var at2 :| Emits(q, other, at2) && at2.pattern == pattern;
      PatternOwner(q, appId, at1, other, at2);
    }
  }
}
