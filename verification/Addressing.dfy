/** The wire contract: addresses built by the resolver decode to what they name. */
module Addressing {
  import opened Prelude
  import opened Schema
  import opened Address
  import opened Resolution
  import opened RoomCheck

  ghost predicate GoodScope(scope: ResolvedScope) {
    scope.Scoped? ==> Segment(scope.scopeSlug) && Segment(scope.scopeId)
  }

  ghost predicate GoodRoom(room: Room) {
    Segment(room.slug) && Segment(room.roomId)
  }

  function PatternParts(appSlug: string, room: Room, t: string, scope: ResolvedScope): seq<string> {
    if scope.Scoped? then [appSlug, scope.scopeSlug, room.slug, t] else [appSlug, room.slug, t]
  }

  function TopicParts(room: Room, t: string, scope: ResolvedScope): seq<string> {
    if scope.Scoped? then [scope.scopeId, room.roomId, t] else [room.roomId, t]
  }

  /** Splitting a built address gives back exactly the segments it was built from. */
  lemma AddressRoundTrip(appSlug: string, room: Room, t: string, permission: Permission, scope: ResolvedScope)
    requires Segment(appSlug) && GoodRoom(room) && Segment(t) && GoodScope(scope)
    ensures var at := BuildAllowedTopic(appSlug, room, t, permission, scope);
            Split(at.pattern) == PatternParts(appSlug, room, t, scope) && Split(at.topic) == TopicParts(room, t, scope)
  {
    hide Split;
    SplitOne(t);
    if scope.Scoped? {
      SplitThree(appSlug, scope.scopeSlug, room.slug, t);
      SplitTwo(scope.scopeId, room.roomId, t);
    } else {
      SplitTwo(appSlug, room.slug, t);
      SplitCons(room.roomId, t);
    }
  }

  /** No two (scope, room, topic) triples share an internal topic; scoped and unscoped never meet. */
  lemma TopicInjective(app1: string, room1: Room, t1: string, p1: Permission, scope1: ResolvedScope,
                       app2: string, room2: Room, t2: string, p2: Permission, scope2: ResolvedScope)
    requires Segment(app1) && GoodRoom(room1) && Segment(t1) && GoodScope(scope1)
    requires Segment(app2) && GoodRoom(room2) && Segment(t2) && GoodScope(scope2)
    requires BuildAllowedTopic(app1, room1, t1, p1, scope1).topic == BuildAllowedTopic(app2, room2, t2, p2, scope2).topic
    ensures room1.roomId == room2.roomId && t1 == t2
    ensures scope1.Scoped? == scope2.Scoped? && (scope1.Scoped? ==> scope1.scopeId == scope2.scopeId)
  {
    AddressRoundTrip(app1, room1, t1, p1, scope1);
    AddressRoundTrip(app2, room2, t2, p2, scope2);
    var a, b := TopicParts(room1, t1, scope1), TopicParts(room2, t2, scope2);
    assert a[|a| - 1] == b[|b| - 1] && a[|a| - 2] == b[|b| - 2] && a[0] == b[0];
  }

  lemma PatternInjective(app1: string, room1: Room, t1: string, p1: Permission, scope1: ResolvedScope,
                         app2: string, room2: Room, t2: string, p2: Permission, scope2: ResolvedScope)
    requires Segment(app1) && GoodRoom(room1) && Segment(t1) && GoodScope(scope1)
    requires Segment(app2) && GoodRoom(room2) && Segment(t2) && GoodScope(scope2)
    requires BuildAllowedTopic(app1, room1, t1, p1, scope1).pattern == BuildAllowedTopic(app2, room2, t2, p2, scope2).pattern
    ensures app1 == app2 && room1.slug == room2.slug && t1 == t2
    ensures scope1.Scoped? == scope2.Scoped? && (scope1.Scoped? ==> scope1.scopeSlug == scope2.scopeSlug)
  {
    AddressRoundTrip(app1, room1, t1, p1, scope1);
    AddressRoundTrip(app2, room2, t2, p2, scope2);
    var a, b := PatternParts(app1, room1, t1, scope1), PatternParts(app2, room2, t2, scope2);
    assert a[|a| - 1] == b[|b| - 1] && a[|a| - 2] == b[|b| - 2] && a[0] == b[0];
    if scope1.Scoped? { assert a[1] == b[1]; }
  }

  /* ── addresses as they are handed out, whatever their topics are called ── */

  /** Slugs of the project's live apps and rooms hold no separator; every validator sees to that, of topics only some do. */
  ghost predicate PlainSlugs(db: Db, projectId: Id) {
    forall a :: a in db.apps && AppsIn(projectId)(a) ==> PlainApp(db, a)
  }

  ghost predicate PlainApp(db: Db, a: App) {
    '/' !in a.slug && forall r :: r in db.rooms && RoomsIn(a.appId)(r) ==> '/' !in r.slug
  }

  lemma ResolvedIsPlain(q: Request, access: AppAccess, room: Room)
    requires Keyed(q.db) && GrantsInProject(q.db, q.actor) && PlainSlugs(q.db, q.actor.projectId)
    requires access in ValidAccess(q) && room in RoomsOf(q.db, access.app)
    ensures '/' !in access.app.slug && '/' !in room.slug
  {
    hide Keyed, GrantsInProject, ValidAccess;
    ResolvedApp(q, access);
    assert AppsIn(q.actor.projectId)(access.app) && PlainApp(q.db, access.app);
  }

  lemma TopicOf(q: Request, access: AppAccess, room: Room, at: AllowedTopic) returns (t: string)
    requires at in TopicsInRoom(q, access, room)
    ensures at == BuildAllowedTopic(access.app.slug, room, t, at.permission, q.scope)
  {
    var ra := DecideRoom(q, access, room).value;
    var k :| 0 <= k < |ra.topics| && at == TopicBuilder(access.app.slug, room, ra.permission, q.scope)(ra.topics[k]);
    t := ra.topics[k];
  }

  /** Within one scope a pattern gives back its app, its room and its whole topic, separators and all. */
  lemma PatternDecodes(app1: string, room1: Room, t1: string, p1: Permission,
                       app2: string, room2: Room, t2: string, p2: Permission, scope: ResolvedScope)
    requires '/' !in app1 && '/' !in room1.slug && '/' !in app2 && '/' !in room2.slug
    requires BuildAllowedTopic(app1, room1, t1, p1, scope).pattern == BuildAllowedTopic(app2, room2, t2, p2, scope).pattern
    ensures app1 == app2 && room1.slug == room2.slug && t1 == t2
  {
    var x, y := room1.slug + "/" + t1, room2.slug + "/" + t2;
    if scope.Scoped? && scope.scopeSlug != "" {
      HeadDecodes(app1, scope.scopeSlug + "/" + x, app2, scope.scopeSlug + "/" + y);
      assert x == (scope.scopeSlug + "/" + x)[|scope.scopeSlug| + 1..];
      assert y == (scope.scopeSlug + "/" + y)[|scope.scopeSlug| + 1..];
    } else {
      HeadDecodes(app1, x, app2, y);
    }
    HeadDecodes(room1.slug, t1, room2.slug, t2);
  }

  /** How many segments a built pattern has: those of its form, and one more for each separator in the topic. */
  lemma PatternSegments(appSlug: string, room: Room, t: string, permission: Permission, scope: ResolvedScope)
    requires '/' !in appSlug && '/' !in room.slug && (scope.Scoped? ==> '/' !in scope.scopeSlug)
    ensures Split(BuildAllowedTopic(appSlug, room, t, permission, scope).pattern) ==
            (if scope.Scoped? && scope.scopeSlug != "" then [appSlug, scope.scopeSlug, room.slug] else [appSlug, room.slug]) + Split(t)
    ensures |Split(t)| == 1 <==> '/' !in t
  {
    hide Split;
    if scope.Scoped? && scope.scopeSlug != "" {
      SplitThree(appSlug, scope.scopeSlug, room.slug, t);
    } else {
      SplitTwo(appSlug, room.slug, t);
    }
    SplitSingle(t);
  }

  /** A pattern parses back to its app and room exactly when its topic holds no separator, and otherwise not at all. */
  lemma PatternParsesIff(appSlug: string, room: Room, t: string, permission: Permission, scope: ResolvedScope)
    requires '/' !in appSlug && '/' !in room.slug && (scope.Scoped? ==> '/' !in scope.scopeSlug)
    ensures ParsePattern(scope, BuildAllowedTopic(appSlug, room, t, permission, scope).pattern) ==
            if '/' !in t then Some((appSlug, room.slug)) else None
  {
    PatternSegments(appSlug, room, t, permission, scope);
    var parts := Split(BuildAllowedTopic(appSlug, room, t, permission, scope).pattern);
    assert parts[0] == appSlug;
    if scope.Scoped? && scope.scopeSlug != "" { assert parts[1] == scope.scopeSlug && parts[2] == room.slug; } else { assert parts[1] == room.slug; }
  }

  /** The actor may sign in: live, active and unexpired, in the scope the request names. */
  ghost predicate SignedIn(q: Request) {
    && q.actor in q.db.actors && q.actor.deletedAt.None?
    && q.actor.status == ActorActive && !Expired(q.actor.expiresAt, q.now)
    && ResolveScope(q.db, q.actor) == Some(q.scope)
  }

  /**
   * An address the rule grants is one the live check confirms, with that very entry in
   * its answer, exactly when its topic name holds no separator; otherwise it is denied.
   */
  lemma LiveConfirmsIff(q: Request, app: App, room: Room, permission: Permission, t: string)
    requires Keyed(q.db) && UniqueLiveSlugs(q.db) && OneGrantInProject(q.db, q.actor.projectId) && PlainSlugs(q.db, q.actor.projectId)
    requires GrantsInProject(q.db, q.actor) && OpenGrantsAddNothing(q.db, q.actor)
    requires SignedIn(q) && (q.scope.Scoped? ==> '/' !in q.scope.scopeSlug)
    requires Reach(q, app, room, permission, t)
    ensures var at := BuildAllowedTopic(app.slug, room, t, permission, q.scope);
            var live := CheckRoomAccess(q.db, q.now, q.actor.actorTokenId, at.pattern);
            && (at in Listed(live) <==> '/' !in t)
            && ('/' in t ==> live == Deny)
  {
    hide Keyed, UniqueLiveSlugs, OneGrantInProject, GrantsInProject, OpenGrantsAddNothing, Resolve, ValidAccess, RoomRule, CheckRoom,
         ParsePattern, BatchList, PlainSlugs;
    var at := BuildAllowedTopic(app.slug, room, t, permission, q.scope);
    ReachedEmits(q, app, room, permission, t);
    var access := ReachedAccess(q, app, room, permission, t);
    ResolvedIsPlain(q, access, room);
    PatternParsesIff(app.slug, room, t, permission, q.scope);
    FoundActor(q);
    if '/' !in t {
      ListedInBatch(q, app.slug, at);
      LiveAgreesWithBatch(q.db, q.now, q.actor, q.scope, at.pattern);
      assert Request(q.db, q.actor, q.scope, q.now) == q;
    }
  }

  /** Of the addresses handed out at connect, the live check confirms exactly those whose topic name holds no separator. */
  lemma LiveConfirmsBatch(q: Request, appId: Id, at: AllowedTopic) returns (app: App, room: Room, t: string)
    requires Keyed(q.db) && UniqueLiveSlugs(q.db) && OneGrantInProject(q.db, q.actor.projectId) && PlainSlugs(q.db, q.actor.projectId)
    requires GrantsInProject(q.db, q.actor) && OpenGrantsAddNothing(q.db, q.actor)
    requires SignedIn(q) && (q.scope.Scoped? ==> '/' !in q.scope.scopeSlug)
    requires Emits(q, appId, at)
    ensures app.appId == appId && Reach(q, app, room, at.permission, t) && at == BuildAllowedTopic(app.slug, room, t, at.permission, q.scope)
    ensures at in Listed(CheckRoomAccess(q.db, q.now, q.actor.actorTokenId, at.pattern)) <==> '/' !in t
  {
    hide Keyed, UniqueLiveSlugs, OneGrantInProject, GrantsInProject, OpenGrantsAddNothing, PlainSlugs, SignedIn, Emits, Reach, ValidAccess,
         TopicsInRoom, CheckRoomAccess;
    var access, r := EmittedBy(q, appId, at);
    ResolvedApp(q, access);
    assert OneGrantInApp(q.db, appId) by { InProjectInApp(q, access.app); }
    ResolveIsRule(q, appId, at);
    var permission;
    app, room, permission, t :| app.appId == appId && Reach(q, app, room, permission, t)
      && at == BuildAllowedTopic(app.slug, room, t, permission, q.scope);
    assert at.permission == permission;
    LiveConfirmsIff(q, app, room, permission, t);
  }

  lemma InProjectInApp(q: Request, app: App)
    requires OneGrantInProject(q.db, q.actor.projectId) && app in q.db.apps && AppsIn(q.actor.projectId)(app)
    ensures OneGrantInApp(q.db, app.appId)
  {
  }

  lemma FoundActor(q: Request)
    requires Keyed(q.db) && SignedIn(q)
    ensures FindFirst(q.db.actors, LiveActor(q.actor.actorTokenId)) == Some(q.actor)
  {
    assert LiveActor(q.actor.actorTokenId)(q.actor);
    DistinctByMember(q.db.actors, ActorKey, q.actor, FindFirst(q.db.actors, LiveActor(q.actor.actorTokenId)).value);
  }

  lemma ReachedAccess(q: Request, app: App, room: Room, permission: Permission, t: string) returns (access: AppAccess)
    requires Keyed(q.db) && Reach(q, app, room, permission, t)
    ensures access in ValidAccess(q) && access.app == app && room in RoomsOf(q.db, app)
  {
    hide Keyed, ValidAccess, RoomRule;
    var ra;
    access, ra :| AppRule(q, app, access.permission, access.topics) && access.app == app
                  && RoomRule(q, access, room, ra) && ra.permission == permission && t in ra.topics;
    ValidAccessIsRule(q, access);
  }

  /** What the rule grants is listed under the app's slug. */
  lemma ReachedEmits(q: Request, app: App, room: Room, permission: Permission, t: string)
    requires Keyed(q.db) && OneGrantInProject(q.db, q.actor.projectId) && GrantsInProject(q.db, q.actor)
    requires Reach(q, app, room, permission, t)
    ensures exists e :: e in Resolve(q) && e.appSlug == app.slug
                     && BuildAllowedTopic(app.slug, room, t, permission, q.scope) in e.allowedTopics
  {
    hide Keyed, GrantsInProject, ValidAccess, RoomRule, Resolve, BuildAllowedTopic;
    var access: AppAccess, ra :| AppRule(q, app, access.permission, access.topics) && access.app == app
                  && RoomRule(q, access, room, ra) && ra.permission == permission && t in ra.topics;
    ValidAccessIsRule(q, access);
    ResolvedApp(q, access);
    assert AppsIn(q.actor.projectId)(app) && RoomsIn(app.appId)(room);
    assert OneGrantInApp(q.db, app.appId) && OneGrantOnRoom(q.db, room.roomId);
    DecideIsRule(q, access, room, ra);
    var k :| 0 <= k < |ra.topics| && ra.topics[k] == t;
    var at := BuildAllowedTopic(app.slug, room, t, permission, q.scope);
    assert TopicsInRoom(q, access, room)[k] == at;
    EmittedIn(q, access, room, at);
  }

  lemma ListedInBatch(q: Request, appSlug: string, at: AllowedTopic)
    requires exists e :: e in Resolve(q) && e.appSlug == appSlug && at in e.allowedTopics
    ensures at in BatchList(Resolve(q), appSlug, at.roomSlug)
  {
    var e :| e in Resolve(q) && e.appSlug == appSlug && at in e.allowedTopics;
    InBatchList(Resolve(q), e, at);
  }

  lemma {:induction false} InBatchList(entries: seq<AppEntry>, e: AppEntry, at: AllowedTopic)
    requires e in entries && at in e.allowedTopics
    ensures at in BatchList(entries, e.appSlug, at.roomSlug)
  {
    var n := |entries| - 1;
    if entries[n] != e { InBatchList(entries[..n], e, at); }
  }

  /** A built pattern of a named scope has at least four segments, whatever its parts are. */
  lemma ScopedIsLong(appSlug: string, room: Room, t: string, permission: Permission, scope: ResolvedScope)
    requires scope.Scoped? && scope.scopeSlug != ""
    ensures |Split(BuildAllowedTopic(appSlug, room, t, permission, scope).pattern)| >= 4
  {
    SplitAppend(room.slug, t);
    SplitAppend(scope.scopeSlug, room.slug + "/" + t);
    SplitAppend(appSlug, scope.scopeSlug + "/" + (room.slug + "/" + t));
  }

  /** A scoped actor's three-segment request resolves, but its own pattern is never in the answer. */
  lemma UnscopedRequestNeverListed(db: Db, now: Time, actor: Actor, pattern: string)
    requires actor.scopeId.Some? && |Split(pattern)| == 3
    requires FindFirst(db.actors, LiveActor(actor.actorTokenId)) == Some(actor)
    requires forall s :: s in db.scopes && LiveScopeOf(actor.scopeId.value, actor.projectId)(s) ==> s.slug != ""
    ensures forall at :: at in Listed(CheckRoomAccess(db, now, actor.actorTokenId, pattern)) ==> at.pattern != pattern
  {
    forall at | at in Listed(CheckRoomAccess(db, now, actor.actorTokenId, pattern)) ensures at.pattern != pattern {
      var scope := ResolveScope(db, actor).value;
      var parsed := ParsePattern(scope, pattern).value;
      var q := Request(db, actor, scope, now);
      var app := FindFirst(db.apps, ActiveAppBySlug(actor.projectId, parsed.0)).value;
      var room := FindFirst(db.rooms, ActiveRoomBySlug(app.appId, parsed.1)).value;
      var ra := LiveRoomAccess(q, LiveAppAccess(q, app).value, room).value;
      var k :| 0 <= k < |ra.topics| && at == TopicBuilder(app.slug, room, ra.permission, scope)(ra.topics[k]);
      ScopedIsLong(app.slug, room, ra.topics[k], ra.permission, scope);
    }
  }
}
