/** The live check spelled out over the tables' own columns and the request's own segments. */
module LiveMeaning {
  import opened Prelude
  import opened Schema
  import opened Address
  import opened Resolution
  import opened RoomCheck
  import opened SessionMeaning

  /** Three segments, or four of which the second is the actor's own scope. */
  ghost predicate Requests(pattern: string, scope: ResolvedScope, appSlug: string, roomSlug: string, t: string) {
    && '/' !in appSlug && '/' !in roomSlug && '/' !in t
    && (pattern == appSlug + "/" + roomSlug + "/" + t
        || (scope.Scoped? && scope.scopeSlug != "" && '/' !in scope.scopeSlug
            && pattern == appSlug + "/" + scope.scopeSlug + "/" + roomSlug + "/" + t))
  }

  lemma ThreeSegments(pattern: string, a: string, b: string, t: string)
    ensures Split(pattern) == [a, b, t] <==> '/' !in a && '/' !in b && '/' !in t && pattern == a + "/" + b + "/" + t
  {
    hide Split;
    if Split(pattern) == [a, b, t] {
      assert a == Split(pattern)[0] && b == Split(pattern)[1] && t == Split(pattern)[2];
      assert '/' !in a && '/' !in b && '/' !in t;
      SplitTwo(a, b, t);
      SplitOne(t);
      SplitInjective(pattern, a + "/" + (b + "/" + t));
      assert a + "/" + b + "/" + t == a + "/" + (b + "/" + t);
    } else if '/' !in a && '/' !in b && '/' !in t && pattern == a + "/" + b + "/" + t {
      SplitTwo(a, b, t);
      SplitOne(t);
      assert pattern == a + "/" + (b + "/" + t);
    }
  }

  lemma FourSegments(pattern: string, a: string, s: string, b: string, t: string)
    ensures Split(pattern) == [a, s, b, t] <==>
            '/' !in a && '/' !in s && '/' !in b && '/' !in t && pattern == a + "/" + s + "/" + b + "/" + t
  {
    hide Split;
    var whole := a + "/" + (s + "/" + (b + "/" + t));
    assert a + "/" + s + "/" + b + "/" + t == whole;
    if Split(pattern) == [a, s, b, t] {
      assert a == Split(pattern)[0] && s == Split(pattern)[1] && b == Split(pattern)[2] && t == Split(pattern)[3];
      assert '/' !in a && '/' !in s && '/' !in b && '/' !in t;
      SplitThree(a, s, b, t);
      SplitOne(t);
      SplitInjective(pattern, whole);
    } else if '/' !in a && '/' !in s && '/' !in b && '/' !in t && pattern == whole {
      SplitThree(a, s, b, t);
      SplitOne(t);
    }
  }

  /** A request names an app and a room exactly when it has that form; another scope's address names none. */
  lemma ParsesIff(scope: ResolvedScope, pattern: string, appSlug: string, roomSlug: string)
    ensures ParsePattern(scope, pattern) == Some((appSlug, roomSlug)) <==> exists t :: Requests(pattern, scope, appSlug, roomSlug, t)
  {
    hide Split;
    var parts := Split(pattern);
    if ParsePattern(scope, pattern) == Some((appSlug, roomSlug)) {
      if |parts| == 4 {
        assert parts == [appSlug, scope.scopeSlug, roomSlug, parts[3]];
        FourSegments(pattern, appSlug, scope.scopeSlug, roomSlug, parts[3]);
        assert Requests(pattern, scope, appSlug, roomSlug, parts[3]);
      } else {
        assert parts == [appSlug, roomSlug, parts[2]];
        ThreeSegments(pattern, appSlug, roomSlug, parts[2]);
        assert Requests(pattern, scope, appSlug, roomSlug, parts[2]);
      }
    }
    if t :| Requests(pattern, scope, appSlug, roomSlug, t) {
      ThreeSegments(pattern, appSlug, roomSlug, t);
      if scope.Scoped? { FourSegments(pattern, appSlug, scope.scopeSlug, roomSlug, t); }
    }
  }

  /** Live, switched on, and not past its expiry. */
  ghost predicate MaySignIn(db: Db, actor: Actor, now: Time) {
    && actor in db.actors && actor.deletedAt.None? && actor.status == ActorActive
    && (actor.expiresAt.Some? ==> now <= actor.expiresAt.value)
  }

  /** The app is live, active and of the actor's project: open to it in full, or held by a stored grant. */
  ghost predicate LiveAppRule(q: Request, access: AppAccess) {
    && access.app in q.db.apps && access.app.deletedAt.None? && access.app.status == AppActive
    && access.app.projectId == q.actor.projectId
    && if access.app.accessMode == Open then access.permission == PubSub && access.topics.None?
       else HoldsAppGrant(q, access.app, access.permission, access.topics)
  }

  /** Everything the live check asks for. */
  ghost predicate Permits(q: Request, pattern: string, access: AppAccess, room: Room, ra: RoomAccess) {
    && MaySignIn(q.db, q.actor, q.now) && ScopeRule(q.db, q.actor, q.scope)
    && (exists t :: Requests(pattern, q.scope, access.app.slug, room.slug, t))
    && LiveAppRule(q, access)
    && room in q.db.rooms && room.appId == access.app.appId && room.status == RoomActive && room.deletedAt.None?
    && RoomRule(q, access, room, ra) && ra.topics != []
  }

  /** The answer names that app by its id and lists that room's topics in order, field by field. */
  ghost predicate Answers(r: CheckResult, scope: ResolvedScope, app: App, room: Room, ra: RoomAccess) {
    && r.Allow? && r.appId == app.appId && |r.allowedTopics| == |ra.topics|
    && forall k :: 0 <= k < |ra.topics| ==> Describes(r.allowedTopics[k], scope, app, room, ra.permission, ra.topics[k])
  }

  lemma AppAnswered(q: Request, access: AppAccess)
    requires Keyed(q.db)
    requires access.app in q.db.apps && access.app.deletedAt.None? && access.app.status == AppActive && access.app.projectId == q.actor.projectId
    ensures LiveAppAccess(q, access.app) == Some(access) <==> LiveAppRule(q, access)
  {
    var found := FindFirst(q.db.appGrants, ActiveAppGrantFor(q.actor.actorTokenId, access.app.appId));
    if HoldsAppGrant(q, access.app, access.permission, access.topics) {
      var g :| g in q.db.appGrants && Admits(q, g, access.app) && g.permission == access.permission && g.topics == access.topics;
      assert ActiveAppGrantFor(q.actor.actorTokenId, access.app.appId)(g);
      DistinctByMember(q.db.appGrants, AppGrantKey, g, found.value);
    }
    if found.Some? && !Expired(found.value.expiresAt, q.now) { assert Admits(q, found.value, access.app); }
  }

  lemma ListDescribes(q: Request, app: App, room: Room, ra: RoomAccess)
    ensures Answers(Allow(app.appId, Map(ra.topics, TopicBuilder(app.slug, room, ra.permission, q.scope))), q.scope, app, room, ra)
  {
    hide Describes, BuildAllowedTopic;
    forall k | 0 <= k < |ra.topics|
      ensures Describes(TopicBuilder(app.slug, room, ra.permission, q.scope)(ra.topics[k]), q.scope, app, room, ra.permission, ra.topics[k])
    {
      BuiltDescribes(BuildAllowedTopic(app.slug, room, ra.topics[k], ra.permission, q.scope), q.scope, app, room, ra.permission, ra.topics[k]);
    }
  }

  lemma RoomDecided(q: Request, access: AppAccess, room: Room, ra: RoomAccess)
    requires OneGrantInProject(q.db, q.actor.projectId) && LiveAppRule(q, access)
    requires room in q.db.rooms && room.appId == access.app.appId && room.deletedAt.None?
    ensures LiveRoomAccess(q, access, room) == Some(ra) <==> RoomRule(q, access, room, ra)
  {
    hide LiveRoomAccess, RoomRule, HoldsAppGrant, OneGrantOnRoom;
    assert AppsIn(q.actor.projectId)(access.app) && RoomsIn(access.app.appId)(room);
    RoomOneGrant(q, access.app, room);
    RoomDecisionsAgree(q, access, room);
    DecideIsRule(q, access, room, ra);
  }

  /** The one live active app of a slug in the project, and the one live active room of a slug in the app. */
  lemma FoundBySlug(q: Request, app: App, room: Room)
    requires UniqueLiveSlugs(q.db)
    requires app in q.db.apps && app.deletedAt.None? && app.status == AppActive && app.projectId == q.actor.projectId
    requires room in q.db.rooms && room.appId == app.appId && room.status == RoomActive && room.deletedAt.None?
    ensures FindFirst(q.db.apps, ActiveAppBySlug(q.actor.projectId, app.slug)) == Some(app)
    ensures FindFirst(q.db.rooms, ActiveRoomBySlug(app.appId, room.slug)) == Some(room)
  {
    assert ActiveAppBySlug(q.actor.projectId, app.slug)(app) && ActiveRoomBySlug(app.appId, room.slug)(room);
    assert SameLiveApp(app, FindFirst(q.db.apps, ActiveAppBySlug(q.actor.projectId, app.slug)).value);
    assert SameLiveRoom(room, FindFirst(q.db.rooms, ActiveRoomBySlug(app.appId, room.slug)).value);
  }

  lemma PermittedAnswer(q: Request, pattern: string, access: AppAccess, room: Room, ra: RoomAccess)
    requires Keyed(q.db) && UniqueLiveSlugs(q.db) && OneGrantInProject(q.db, q.actor.projectId)
    requires Permits(q, pattern, access, room, ra)
    ensures Answers(CheckRoomAccess(q.db, q.now, q.actor.actorTokenId, pattern), q.scope, access.app, room, ra)
  {
    hide Keyed, UniqueLiveSlugs, OneGrantInProject, RoomRule, LiveRoomAccess, LiveAppAccess, Answers, ScopeRule, ResolveScope, HoldsAppGrant,
         Requests, ParsePattern;
    TheActor(q.db, q.actor, q.now);
    ScopeMeans(q.db, q.actor, q.scope);
    ParsesIff(q.scope, pattern, access.app.slug, room.slug);
    FoundBySlug(q, access.app, room);
    AppAnswered(q, access);
    RoomDecided(q, access, room, ra);
    ListDescribes(q, access.app, room, ra);
    assert Request(q.db, q.actor, q.scope, q.now) == q;
  }

  lemma TheActor(db: Db, actor: Actor, now: Time)
    requires Keyed(db) && MaySignIn(db, actor, now)
    ensures FindFirst(db.actors, LiveActor(actor.actorTokenId)) == Some(actor) && !Expired(actor.expiresAt, now)
  {
    assert LiveActor(actor.actorTokenId)(actor);
    DistinctByMember(db.actors, ActorKey, actor, FindFirst(db.actors, LiveActor(actor.actorTokenId)).value);
  }

  lemma AllowedIsPermitted(db: Db, now: Time, actorTokenId: Id, pattern: string)
    returns (q: Request, access: AppAccess, room: Room, ra: RoomAccess)
    requires Keyed(db) && forall a :: a in db.actors && a.actorTokenId == actorTokenId ==> OneGrantInProject(db, a.projectId)
    requires CheckRoomAccess(db, now, actorTokenId, pattern).Allow?
    ensures q.db == db && q.now == now && q.actor.actorTokenId == actorTokenId && Permits(q, pattern, access, room, ra)
  {
    hide Keyed, OneGrantInProject, RoomRule, LiveRoomAccess, LiveAppAccess, ScopeRule, ResolveScope, HoldsAppGrant, Requests, ParsePattern;
    var actor := FindFirst(db.actors, LiveActor(actorTokenId)).value;
    var scope := ResolveScope(db, actor).value;
    ScopeMeans(db, actor, scope);
    var parsed := ParsePattern(scope, pattern).value;
    q := Request(db, actor, scope, now);
    var app := FindFirst(db.apps, ActiveAppBySlug(actor.projectId, parsed.0)).value;
    access := LiveAppAccess(q, app).value;
    assert access.app == app by { LiveAccessApp(q, app); }
    AppAnswered(q, access);
    room := FindFirst(db.rooms, ActiveRoomBySlug(app.appId, parsed.1)).value;
    ra := LiveRoomAccess(q, access, room).value;
    RoomDecided(q, access, room, ra);
    ParsesIff(scope, pattern, app.slug, room.slug);
  }

  lemma LiveAccessApp(q: Request, app: App)
    ensures LiveAppAccess(q, app).Some? ==> LiveAppAccess(q, app).value.app == app
  {
  }

  /** The live check allows exactly what the columns permit, and its answer is that app's id and that room's topics. */
  lemma LiveAllowsIff(db: Db, now: Time, actorTokenId: Id, pattern: string)
    requires Keyed(db) && UniqueLiveSlugs(db)
    requires forall a :: a in db.actors && a.actorTokenId == actorTokenId ==> OneGrantInProject(db, a.projectId)
    ensures CheckRoomAccess(db, now, actorTokenId, pattern).Allow? <==>
            exists q: Request, access: AppAccess, room: Room, ra: RoomAccess ::
              q.db == db && q.now == now && q.actor.actorTokenId == actorTokenId && Permits(q, pattern, access, room, ra)
    ensures forall q: Request, access: AppAccess, room: Room, ra: RoomAccess ::
              q.db == db && q.now == now && q.actor.actorTokenId == actorTokenId && Permits(q, pattern, access, room, ra)
              ==> Answers(CheckRoomAccess(db, now, actorTokenId, pattern), q.scope, access.app, room, ra)
  {
    hide CheckRoomAccess, Keyed, UniqueLiveSlugs, OneGrantInProject, Permits, Answers;
    if CheckRoomAccess(db, now, actorTokenId, pattern).Allow? {
      var q, access, room, ra := AllowedIsPermitted(db, now, actorTokenId, pattern);
    }
    forall q: Request, access: AppAccess, room: Room, ra: RoomAccess
      | q.db == db && q.now == now && q.actor.actorTokenId == actorTokenId && Permits(q, pattern, access, room, ra)
      ensures Answers(CheckRoomAccess(db, now, actorTokenId, pattern), q.scope, access.app, room, ra)
    {
      assert q.actor in db.actors by { PermitsActor(q, pattern, access, room, ra); }
      PermittedAnswer(q, pattern, access, room, ra);
    }
    if q: Request, access: AppAccess, room: Room, ra: RoomAccess :|
      q.db == db && q.now == now && q.actor.actorTokenId == actorTokenId && Permits(q, pattern, access, room, ra)
    {
      assert Answers(CheckRoomAccess(db, now, actorTokenId, pattern), q.scope, access.app, room, ra);
      AnswersAllow(CheckRoomAccess(db, now, actorTokenId, pattern), q.scope, access.app, room, ra);
    }
  }

  lemma PermitsActor(q: Request, pattern: string, access: AppAccess, room: Room, ra: RoomAccess)
    requires Permits(q, pattern, access, room, ra)
    ensures q.actor in q.db.actors
  {
  }

  lemma AnswersAllow(r: CheckResult, scope: ResolvedScope, app: App, room: Room, ra: RoomAccess)
    requires Answers(r, scope, app, room, ra)
    ensures r.Allow?
  {
  }
}
