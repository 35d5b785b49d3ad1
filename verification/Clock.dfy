/**
 * Access over fixed rows as the clock advances. Grant selection ignores expiry,
 * so nothing an expired grant covered falls through to a wider one, with one
 * exception: a stored grant on an open app gives way to the app's openness.
 */
module Clock {
  import opened Prelude
  import opened Schema
  import opened Resolution
  import opened RoomCheck

  function At(q: Request, t: Time): Request { q.(now := t) }

  /** What the live check allows later it allowed, identically, at every earlier time. */
  lemma LiveAccessOnlyShrinks(db: Db, actorTokenId: Id, pattern: string, t1: Time, t2: Time)
    requires t1 <= t2 && CheckRoomAccess(db, t2, actorTokenId, pattern).Allow?
    ensures CheckRoomAccess(db, t1, actorTokenId, pattern) == CheckRoomAccess(db, t2, actorTokenId, pattern)
  {
    var actor := FindFirst(db.actors, LiveActor(actorTokenId)).value;
    var scope := ResolveScope(db, actor).value;
    var parsed := ParsePattern(scope, pattern).value;
    LiveRoomOnlyShrinks(Request(db, actor, scope, t2), parsed.0, parsed.1, t1);
  }

  lemma LiveRoomOnlyShrinks(q: Request, appSlug: string, roomSlug: string, t1: Time)
    requires t1 <= q.now && CheckRoom(q, appSlug, roomSlug).Allow?
    ensures CheckRoom(At(q, t1), appSlug, roomSlug) == CheckRoom(q, appSlug, roomSlug)
  {
    var app := FindFirst(q.db.apps, ActiveAppBySlug(q.actor.projectId, appSlug)).value;
    var access := LiveAppAccess(q, app).value;
    assert LiveAppAccess(At(q, t1), app) == Some(access);
    var room := FindFirst(q.db.rooms, ActiveRoomBySlug(app.appId, roomSlug)).value;
    assert LiveRoomAccess(At(q, t1), access, room) == LiveRoomAccess(q, access, room);
  }

  /** App-level access held at t2 was held at t1, at every pair of times. */
  ghost predicate AppAccessShrinks(q: Request) {
    forall t1: Time, t2: Time, app: App, permission, topics ::
      t1 <= t2 && AppRule(At(q, t2), app, permission, topics) ==> AppRule(At(q, t1), app, permission, topics)
  }

  /** No stored grant with an expiry narrows an open app. */
  ghost predicate NoExpiringNarrowing(q: Request) {
    forall g, app :: g in q.db.appGrants && app in q.db.apps && StoredOnOpen(q.actor, g, app) && g.expiresAt.Some?
      ==> g.permission == PubSub && g.topics.None?
  }

  lemma AppShrinksOnce(q: Request, t1: Time, t2: Time, app: App, permission: Permission, topics: Option<seq<string>>)
    requires Keyed(q.db) && NoExpiringNarrowing(q) && t1 <= t2 && AppRule(At(q, t2), app, permission, topics)
    ensures AppRule(At(q, t1), app, permission, topics)
  {
    if HoldsAppGrant(At(q, t2), app, permission, topics) {
      var g :| g in q.db.appGrants && Admits(At(q, t2), g, app) && g.permission == permission && g.topics == topics;
      assert HoldsAppGrant(At(q, t1), app, permission, topics);
    } else if HoldsAnyAppGrant(At(q, t1), app) {
      var g :| g in q.db.appGrants && Admits(At(q, t1), g, app);
      assert StoredOnOpen(q.actor, g, app);
      assert g.expiresAt.Some?;
      assert HoldsAppGrant(At(q, t1), app, PubSub, None);
    }
  }

  /** One millisecond after it lapses, a narrowing grant on an open app yields to full access. */
  lemma NarrowingWidens(q: Request, g: AppGrant, app: App)
    requires Keyed(q.db) && AppAccessShrinks(q)
    requires g in q.db.appGrants && app in q.db.apps && StoredOnOpen(q.actor, g, app) && g.expiresAt.Some?
    ensures g.permission == PubSub && g.topics.None?
  {
    var t := g.expiresAt.value;
    OnlyGrant(q.db, q.actor.actorTokenId, app.appId, g);
    assert !HoldsAnyAppGrant(At(q, t + 1), app);
    assert AppRule(At(q, t + 1), app, PubSub, None);
    assert AppRule(At(q, t), app, PubSub, None);
    assert HoldsAnyAppGrant(At(q, t), app);
  }

  /** App-level access only shrinks exactly when no expiring grant narrows an open app. */
  lemma AppShrinksIff(q: Request)
    requires Keyed(q.db)
    ensures AppAccessShrinks(q) <==> NoExpiringNarrowing(q)
  {
    if AppAccessShrinks(q) {
      forall g, app | g in q.db.appGrants && app in q.db.apps && StoredOnOpen(q.actor, g, app) && g.expiresAt.Some?
        ensures g.permission == PubSub && g.topics.None?
      { NarrowingWidens(q, g, app); }
    }
    if NoExpiringNarrowing(q) {
      forall t1: Time, t2: Time, app: App, permission, topics
        | t1 <= t2 && AppRule(At(q, t2), app, permission, topics)
        ensures AppRule(At(q, t1), app, permission, topics)
      { AppShrinksOnce(q, t1, t2, app, permission, topics); }
    }
  }

  /** Under that condition every topic batch emits later it emitted at every earlier time. */
  lemma BatchOnlyShrinks(q: Request, appId: Id, at: AllowedTopic, t1: Time)
    requires Keyed(q.db) && NoExpiringNarrowing(q) && t1 <= q.now && Emits(q, appId, at)
    ensures Emits(At(q, t1), appId, at)
  {
    hide Emits, AppRule, ValidAccess, TopicsInRoom, Keyed, NoExpiringNarrowing;
    var q1 := At(q, t1);
    var access, room := EmittedBy(q, appId, at);
    ValidAccessIsRule(q, access);
    AppShrinksOnce(q, t1, q.now, access.app, access.permission, access.topics);
    ValidAccessIsRule(q1, access);
    RoomOnlyShrinks(q, access, room, at, t1);
    EmittedIn(q1, access, room, at);
  }

  lemma RoomOnlyShrinks(q: Request, access: AppAccess, room: Room, at: AllowedTopic, t1: Time)
    requires t1 <= q.now && at in TopicsInRoom(q, access, room)
    ensures at in TopicsInRoom(At(q, t1), access, room)
  {
    assert DecideRoom(At(q, t1), access, room) == DecideRoom(q, access, room);
  }
}
