/**
 * The single-room live check a broker makes on a cache miss: parse the pattern,
 * then point lookups. Proved to agree with batch resolution, and to lose access
 * only as the clock advances.
 */
module RoomCheck {
  import opened Prelude
  import opened Schema
  import opened Address
  import opened Resolution
  import opened Authz

  datatype CheckResult = Deny | Allow(appId: Id, allowedTopics: seq<AllowedTopic>)

  function Listed(r: CheckResult): seq<AllowedTopic> {
    if r.Allow? then r.allowedTopics else []
  }

  /** {appSlug}/[{scopeSlug}/]{roomSlug}/{topic}, with a scope segment only if it is the actor's own. */
  function ParsePattern(scope: ResolvedScope, pattern: string): Option<(string, string)> {
    var parts := Split(pattern);
    if |parts| == 4 then
      if scope.Unscoped? || scope.scopeSlug == "" || parts[1] != scope.scopeSlug then None
      else Some((parts[0], parts[2]))
    else if |parts| == 3 then Some((parts[0], parts[1]))
    else None
  }

  /** An open app needs no stored grant, and ignores one. */
  function LiveAppAccess(q: Request, app: App): Option<AppAccess> {
    if app.accessMode == Open then Some(AppAccess(app, PubSub, None))
    else
      match FindFirst(q.db.appGrants, ActiveAppGrantFor(q.actor.actorTokenId, app.appId))
      case None => None
      case Some(g) =>
        if Expired(g.expiresAt, q.now) then None else Some(AppAccess(app, g.permission, g.topics))
  }

  function NamedFor(actorTokenId: Id): RoomGrant -> bool {
    (g: RoomGrant) => g.actorTokenId == Some(actorTokenId) && g.isActive
  }
  function TypedFor(actorType: ActorType): RoomGrant -> bool {
    (g: RoomGrant) => g.actorTokenId.None? && g.actorType == Some(actorType) && g.isActive
  }

  /** The live check takes the first active named grant, else the first active type grant. */
  function LiveRoomAccess(q: Request, access: AppAccess, room: Room): Option<RoomAccess> {
    var entries := Filter(q.db.roomGrants, GrantsOn(room.roomId));
    if entries == [] then
      Some(RoomAccess(access.permission, access.topics.OrElse(access.app.topics).GetOr([])))
    else
      match FindFirst(entries, NamedFor(q.actor.actorTokenId)).OrElse(FindFirst(entries, TypedFor(q.actor.actorType)))
      case None => None
      case Some(g) =>
        if Expired(g.expiresAt, q.now) then None
        else Some(RoomAccess(g.permission, g.topics.OrElse(access.app.topics).GetOr([])))
  }

  function CheckRoom(q: Request, appSlug: string, roomSlug: string): CheckResult {
    match FindFirst(q.db.apps, ActiveAppBySlug(q.actor.projectId, appSlug))
    case None => Deny
    case Some(app) =>
      match LiveAppAccess(q, app)
      case None => Deny
      case Some(access) =>
        match FindFirst(q.db.rooms, ActiveRoomBySlug(app.appId, roomSlug))
        case None => Deny
        case Some(room) =>
          match LiveRoomAccess(q, access, room)
          case None => Deny
          case Some(ra) =>
            if ra.topics == [] then Deny
            else Allow(app.appId, Map(ra.topics, TopicBuilder(app.slug, room, ra.permission, q.scope)))
  }

  function CheckRoomAccess(db: Db, now: Time, actorTokenId: Id, pattern: string): CheckResult {
    match FindFirst(db.actors, LiveActor(actorTokenId))
    case None => Deny
    case Some(actor) =>
      if actor.status != ActorActive || Expired(actor.expiresAt, now) then Deny
      else
        match ResolveScope(db, actor)
        case None => Deny
        case Some(scope) =>
          match ParsePattern(scope, pattern)
          case None => Deny
          case Some(parsed) => CheckRoom(Request(db, actor, scope, now), parsed.0, parsed.1)
  }

  /* ── agreement with batch resolution ─────────────────────────────────── */

  /** Every grant of the actor is on an app of its own project. */
  ghost predicate GrantsInProject(db: Db, actor: Actor) {
    forall g, app :: g in db.appGrants && app in db.apps && ActiveAppGrantFor(actor.actorTokenId, app.appId)(g)
      ==> app.deletedAt.None? ==> app.projectId == actor.projectId
  }

  /** A grant stored on an open app of the project says no more than the app's openness does. */
  ghost predicate OpenGrantsAddNothing(db: Db, actor: Actor) {
    forall g, app :: g in db.appGrants && app in db.apps && StoredOnOpen(actor, g, app)
      ==> g.permission == PubSub && g.topics.None?
  }

  predicate StoredOnOpen(actor: Actor, g: AppGrant, app: App) {
    && ActiveAppGrantFor(actor.actorTokenId, app.appId)(g)
    && OpenAppsIn(actor.projectId)(app)
  }

  function InRoomSlug(roomSlug: string): AllowedTopic -> bool {
    (at: AllowedTopic) => at.roomSlug == roomSlug
  }

  /** The batch answer for one room: its topics in the entry of that app. */
  function BatchList(entries: seq<AppEntry>, appSlug: string, roomSlug: string): seq<AllowedTopic> {
    if entries == [] then [] else
    var last := entries[|entries| - 1];
    BatchList(entries[..|entries| - 1], appSlug, roomSlug)
    + (if last.appSlug == appSlug then Filter(last.allowedTopics, InRoomSlug(roomSlug)) else [])
  }

  lemma {:induction false} BatchListNone(entries: seq<AppEntry>, appSlug: string, roomSlug: string)
    requires forall e :: e in entries ==> e.appSlug != appSlug
    ensures BatchList(entries, appSlug, roomSlug) == []
  {
    if entries != [] { BatchListNone(entries[..|entries| - 1], appSlug, roomSlug); }
  }

  lemma {:induction false} BatchListOne(entries: seq<AppEntry>, appSlug: string, roomSlug: string, i: nat)
    requires i < |entries| && entries[i].appSlug == appSlug
    requires forall j :: 0 <= j < |entries| && j != i ==> entries[j].appSlug != appSlug
    ensures BatchList(entries, appSlug, roomSlug) == Filter(entries[i].allowedTopics, InRoomSlug(roomSlug))
  {
    var n := |entries| - 1;
    if i == n {
      BatchListNone(entries[..n], appSlug, roomSlug);
    } else {
      BatchListOne(entries[..n], appSlug, roomSlug, i);
    }
  }

  lemma RoomTopicsSlug(q: Request, access: AppAccess, room: Room, roomSlug: string)
    ensures Filter(TopicsInRoom(q, access, room), InRoomSlug(roomSlug))
            == if room.slug == roomSlug then TopicsInRoom(q, access, room) else []
  {
    if room.slug == roomSlug {
      FilterAll(TopicsInRoom(q, access, room), InRoomSlug(roomSlug));
    } else {
      FilterNone(TopicsInRoom(q, access, room), InRoomSlug(roomSlug));
    }
  }

  lemma {:induction false} RoomsNone(q: Request, access: AppAccess, rooms: seq<Room>, roomSlug: string)
    requires forall r :: r in rooms ==> r.slug != roomSlug
    ensures Filter(TopicsInRooms(q, access, rooms), InRoomSlug(roomSlug)) == []
  {
    hide TopicsInRoom, InRoomSlug;
    if rooms != [] {
      var n := |rooms| - 1;
      RoomsNone(q, access, rooms[..n], roomSlug);
      FilterAppend(TopicsInRooms(q, access, rooms[..n]), TopicsInRoom(q, access, rooms[n]), InRoomSlug(roomSlug));
      RoomTopicsSlug(q, access, rooms[n], roomSlug);
    }
  }

  /** With one room of the slug, filtering the app's list by slug leaves that room's list. */
  lemma {:induction false} RoomsOne(q: Request, access: AppAccess, rooms: seq<Room>, room: Room)
    requires DistinctBy(rooms, RoomKey) && room in rooms
    requires forall r :: r in rooms && r.slug == room.slug ==> r == room
    ensures Filter(TopicsInRooms(q, access, rooms), InRoomSlug(room.slug)) == TopicsInRoom(q, access, room)
  {
    hide TopicsInRoom, Filter, InRoomSlug;
    var n := |rooms| - 1;
    FilterAppend(TopicsInRooms(q, access, rooms[..n]), TopicsInRoom(q, access, rooms[n]), InRoomSlug(room.slug));
    RoomTopicsSlug(q, access, rooms[n], room.slug);
    assert rooms[n] in rooms;
    if rooms[n] == room {
      forall r | r in rooms[..n] ensures r.slug != room.slug {
        var k :| 0 <= k < n && rooms[k] == r;
        assert RoomKey(rooms[k]) != RoomKey(rooms[n]);
      }
      RoomsNone(q, access, rooms[..n], room.slug);
    } else {
      RoomsOne(q, access, rooms[..n], room);
    }
  }

  /** First-wins and last-wins name the same grant when there is one per target. */
  lemma RoomDecisionsAgree(q: Request, access: AppAccess, room: Room)
    requires OneGrantOnRoom(q.db, room.roomId)
    ensures LiveRoomAccess(q, access, room) == DecideRoom(q, access, room)
  {
    var db, me, kind := q.db, q.actor.actorTokenId, q.actor.actorType;
    var entries := Filter(db.roomGrants, GrantsOn(room.roomId));
    FindFirstFilter(db.roomGrants, GrantsOn(room.roomId), NamedFor(me), NamedActive(room.roomId, me));
    FindFirstFilter(db.roomGrants, GrantsOn(room.roomId), TypedFor(kind), TypeActive(room.roomId, kind));
    var first := FindFirst(db.roomGrants, NamedActive(room.roomId, me));
    var last := FindLast(db.roomGrants, NamedActive(room.roomId, me));
    if first.Some? {
      assert SameTarget(first.value, last.value);
    }
    if entries != [] { assert entries[0] in entries; }
    if IsPrivate(db, room.roomId) { assert FindFirst(db.roomGrants, GrantsOn(room.roomId)).value in entries; }
  }

  /** App level: the live access of an app in reach is the one batch holds for it. */
  lemma AppDecisionsAgree(q: Request, app: App, access: AppAccess)
    requires Keyed(q.db) && OpenGrantsAddNothing(q.db, q.actor)
    requires app in q.db.apps && app.deletedAt.None? && app.status == AppActive && app.projectId == q.actor.projectId
    requires access.app == app
    ensures LiveAppAccess(q, app) == Some(access) <==> access in ValidAccess(q)
  {
    ValidAccessIsRule(q, access);
    var mine := FindFirst(q.db.appGrants, ActiveAppGrantFor(q.actor.actorTokenId, app.appId));
    if mine.Some? {
      OnlyGrant(q.db, q.actor.actorTokenId, app.appId, mine.value);
      if app.accessMode == Open {
        assert StoredOnOpen(q.actor, mine.value, app);
      }
    }
  }

  /** At app level the live check and batch hold the same access. */
  ghost predicate AppDecisionsMatch(q: Request, app: App) {
    forall access: AppAccess :: access.app == app ==> (LiveAppAccess(q, app) == Some(access) <==> access in ValidAccess(q))
  }

  /** Every stored grant that is in force on the app is the full access its openness gives. */
  ghost predicate GrantsAreFull(q: Request, app: App) {
    forall g :: g in q.db.appGrants && Admits(q, g, app)
      ==> g.permission == PubSub && g.topics.None?
  }

  /** On an open app the two agree exactly when no stored grant in force says anything narrower. */
  lemma OpenAppAgreesIff(q: Request, app: App)
    requires Keyed(q.db) && app in q.db.apps && OpenAppsIn(q.actor.projectId)(app)
    ensures AppDecisionsMatch(q, app) <==> GrantsAreFull(q, app)
  {
    hide ValidAccess, Keyed;
    forall access: AppAccess | access.app == app ensures access in ValidAccess(q) <==> AppRule(q, app, access.permission, access.topics) {
      ValidAccessIsRule(q, access);
    }
    if AppDecisionsMatch(q, app) {
      forall g | g in q.db.appGrants && Admits(q, g, app)
        ensures g.permission == PubSub && g.topics.None?
      {
        assert HoldsAppGrant(q, app, g.permission, g.topics);
        assert AppAccess(app, g.permission, g.topics) in ValidAccess(q);
      }
    }
    if GrantsAreFull(q, app) && HoldsAnyAppGrant(q, app) {
      var g :| g in q.db.appGrants && Admits(q, g, app);
      assert HoldsAppGrant(q, app, PubSub, None);
    }
  }

  ghost predicate StaysInProject(q: Request) {
    forall access :: access in ValidAccess(q) ==> access.app.projectId == q.actor.projectId
  }

  predicate InForceOn(q: Request, g: AppGrant, app: App) {
    && app.deletedAt.None? && app.status == AppActive
    && Admits(q, g, app)
  }

  ghost predicate GrantsInForceStayHome(q: Request) {
    forall g, app :: g in q.db.appGrants && app in q.db.apps && InForceOn(q, g, app) ==> app.projectId == q.actor.projectId
  }

  /** Batch never compares projects: it stays in the actor's own exactly when every grant in force does. */
  lemma StaysInProjectIff(q: Request)
    requires Keyed(q.db)
    ensures StaysInProject(q) <==> GrantsInForceStayHome(q)
  {
    hide ValidAccess, Keyed;
    if StaysInProject(q) {
      forall g, app | g in q.db.appGrants && app in q.db.apps && InForceOn(q, g, app) ensures app.projectId == q.actor.projectId {
        var access := AppAccess(app, g.permission, g.topics);
        assert HoldsAppGrant(q, app, g.permission, g.topics);
        ValidAccessIsRule(q, access);
      }
    }
    if GrantsInForceStayHome(q) {
      forall access | access in ValidAccess(q) ensures access.app.projectId == q.actor.projectId {
        ValidAccessIsRule(q, access);
        if HoldsAppGrant(q, access.app, access.permission, access.topics) {
          var g :| g in q.db.appGrants && Admits(q, g, access.app) && g.permission == access.permission && g.topics == access.topics;
          assert InForceOn(q, g, access.app);
        }
      }
    }
  }

  lemma OnlyGrant(db: Db, actorTokenId: Id, appId: Id, g: AppGrant)
    requires Keyed(db) && g in db.appGrants && ActiveAppGrantFor(actorTokenId, appId)(g)
    ensures forall h :: h in db.appGrants && ActiveAppGrantFor(actorTokenId, appId)(h) ==> h == g
  {
    forall h | h in db.appGrants && ActiveAppGrantFor(actorTokenId, appId)(h) ensures h == g {
      DistinctByMember(db.appGrants, AppGrantKey, h, g);
    }
  }

  /** Every app batch resolves is live, active and in the actor's project. */
  lemma ResolvedApp(q: Request, access: AppAccess)
    requires Keyed(q.db) && GrantsInProject(q.db, q.actor) && access in ValidAccess(q)
    ensures access.app in q.db.apps && ActiveAppBySlug(q.actor.projectId, access.app.slug)(access.app)
  {
    ValidAccessIsRule(q, access);
    if HoldsAppGrant(q, access.app, access.permission, access.topics) {
      var g :| g in q.db.appGrants && ActiveAppGrantFor(q.actor.actorTokenId, access.app.appId)(g);
    }
  }

  /** The app a slug names is the only resolved app of that slug. */
  lemma ResolvedAppOfSlug(q: Request, app: App, access: AppAccess)
    requires Keyed(q.db) && UniqueLiveSlugs(q.db) && GrantsInProject(q.db, q.actor)
    requires FindFirst(q.db.apps, ActiveAppBySlug(q.actor.projectId, app.slug)) == Some(app)
    requires access in ValidAccess(q) && access.app.slug == app.slug
    ensures access.app == app
  {
    ResolvedApp(q, access);
    assert SameLiveApp(access.app, app);
  }

  /** The batch list of the room is read from the entry of this app alone. */
  ghost predicate ReadFrom(q: Request, appId: Id, appSlug: string, roomSlug: string, topics: seq<AllowedTopic>) {
    exists e :: e in Resolve(q) && e.appId == appId && e.appSlug == appSlug && topics == Filter(e.allowedTopics, InRoomSlug(roomSlug))
  }

  /** With the app's access in hand, batch lists for the room what the room decision gives. */
  lemma BatchListOfApp(q: Request, access: AppAccess, roomSlug: string)
    requires Keyed(q.db) && UniqueLiveSlugs(q.db) && GrantsInProject(q.db, q.actor) && access in ValidAccess(q)
    ensures BatchList(Resolve(q), access.app.slug, roomSlug) ==
            match FindFirst(q.db.rooms, ActiveRoomBySlug(access.app.appId, roomSlug))
            case None => []
            case Some(room) => TopicsInRoom(q, access, room)
    ensures ReadFrom(q, access.app.appId, access.app.slug, roomSlug, BatchList(Resolve(q), access.app.slug, roomSlug))
  {
    var i :| 0 <= i < |ValidAccess(q)| && ValidAccess(q)[i] == access;
    ValidAccessIds(q);
    ResolvedApp(q, access);
    forall j | 0 <= j < |Resolve(q)| && j != i ensures Resolve(q)[j].appSlug != access.app.slug {
      var other := ValidAccess(q)[j];
      assert AccessAppId(other) != AccessAppId(access);
      ResolvedApp(q, other);
      if other.app.slug == access.app.slug { assert SameLiveApp(other.app, access.app); }
    }
    BatchListOne(Resolve(q), access.app.slug, roomSlug, i);
    assert Resolve(q)[i] in Resolve(q);
    BatchListOfRooms(q, access, roomSlug);
  }

  lemma BatchListOfRooms(q: Request, access: AppAccess, roomSlug: string)
    requires Keyed(q.db) && UniqueLiveSlugs(q.db)
    ensures Filter(TopicsInRooms(q, access, RoomsOf(q.db, access.app)), InRoomSlug(roomSlug)) ==
            match FindFirst(q.db.rooms, ActiveRoomBySlug(access.app.appId, roomSlug))
            case None => []
            case Some(room) => TopicsInRoom(q, access, room)
  {
    var rooms := RoomsOf(q.db, access.app);
    DistinctByFilter(q.db.rooms, ActiveRoomsIn(access.app.appId), RoomKey);
    match FindFirst(q.db.rooms, ActiveRoomBySlug(access.app.appId, roomSlug)) {
      case None =>
        forall r | r in rooms ensures r.slug != roomSlug {
          assert !ActiveRoomBySlug(access.app.appId, roomSlug)(r);
        }
        RoomsNone(q, access, rooms, roomSlug);
      case Some(room) =>
        assert ActiveRoomsIn(access.app.appId)(room);
        forall r | r in rooms && r.slug == room.slug ensures r == room { assert SameLiveRoom(r, room); }
        RoomsOne(q, access, rooms, room);
    }
  }

  lemma LiveListOfRoom(q: Request, access: AppAccess, room: Room)
    requires OneGrantOnRoom(q.db, room.roomId)
    ensures TopicsInRoom(q, access, room) ==
            match LiveRoomAccess(q, access, room)
            case None => []
            case Some(ra) => Map(ra.topics, TopicBuilder(access.app.slug, room, ra.permission, q.scope))
  {
    RoomDecisionsAgree(q, access, room);
  }

  /** Once parsed, the live check answers with exactly the batch list, and allows iff it is not empty. */
  lemma CheckRoomAgrees(q: Request, appSlug: string, roomSlug: string)
    requires Keyed(q.db) && UniqueLiveSlugs(q.db) && OneGrantInProject(q.db, q.actor.projectId)
    requires GrantsInProject(q.db, q.actor) && OpenGrantsAddNothing(q.db, q.actor)
    ensures Listed(CheckRoom(q, appSlug, roomSlug)) == BatchList(Resolve(q), appSlug, roomSlug)
    ensures CheckRoom(q, appSlug, roomSlug).Allow? <==> BatchList(Resolve(q), appSlug, roomSlug) != []
    ensures CheckRoom(q, appSlug, roomSlug).Allow? ==>
              ReadFrom(q, CheckRoom(q, appSlug, roomSlug).appId, appSlug, roomSlug, CheckRoom(q, appSlug, roomSlug).allowedTopics)
  {
    hide Keyed, UniqueLiveSlugs, OneGrantInProject, GrantsInProject, OpenGrantsAddNothing, Resolve, ValidAccess,
         LiveRoomAccess, BatchList, ReadFrom;
    match FindFirst(q.db.apps, ActiveAppBySlug(q.actor.projectId, appSlug)) {
      case None => NoAppNoList(q, appSlug, roomSlug);
      case Some(app) =>
        match LiveAppAccess(q, app) {
          case None => NoAccessNoList(q, app, roomSlug);
          case Some(access) =>
            AppDecisionsAgree(q, app, access);
            BatchListOfApp(q, access, roomSlug);
            var room := FindFirst(q.db.rooms, ActiveRoomBySlug(app.appId, roomSlug));
            if room.Some? {
              RoomOneGrant(q, app, room.value);
              LiveListOfRoom(q, access, room.value);
            }
        }
    }
  }

  lemma RoomOneGrant(q: Request, app: App, room: Room)
    requires OneGrantInProject(q.db, q.actor.projectId) && app in q.db.apps && AppsIn(q.actor.projectId)(app)
    requires room in q.db.rooms && RoomsIn(app.appId)(room)
    ensures OneGrantOnRoom(q.db, room.roomId)
  {
    assert OneGrantInApp(q.db, app.appId);
  }

  lemma NoAppNoList(q: Request, appSlug: string, roomSlug: string)
    requires Keyed(q.db) && GrantsInProject(q.db, q.actor)
    requires FindFirst(q.db.apps, ActiveAppBySlug(q.actor.projectId, appSlug)).None?
    ensures BatchList(Resolve(q), appSlug, roomSlug) == []
  {
    hide Keyed, GrantsInProject, BatchList, ValidAccess;
    forall e | e in Resolve(q) ensures e.appSlug != appSlug {
      var i :| 0 <= i < |Resolve(q)| && Resolve(q)[i] == e;
      ResolvedApp(q, ValidAccess(q)[i]);
    }
    BatchListNone(Resolve(q), appSlug, roomSlug);
  }

  lemma NoAccessNoList(q: Request, app: App, roomSlug: string)
    requires Keyed(q.db) && UniqueLiveSlugs(q.db) && GrantsInProject(q.db, q.actor) && OpenGrantsAddNothing(q.db, q.actor)
    requires FindFirst(q.db.apps, ActiveAppBySlug(q.actor.projectId, app.slug)) == Some(app)
    requires LiveAppAccess(q, app).None?
    ensures BatchList(Resolve(q), app.slug, roomSlug) == []
  {
    forall e | e in Resolve(q) ensures e.appSlug != app.slug {
      var i :| 0 <= i < |Resolve(q)| && Resolve(q)[i] == e;
      if e.appSlug == app.slug {
        ResolvedAppOfSlug(q, app, ValidAccess(q)[i]);
        AppDecisionsAgree(q, app, ValidAccess(q)[i]);
      }
    }
    BatchListNone(Resolve(q), app.slug, roomSlug);
  }

  /**
   * The live check and the connect-time resolution agree on every pattern that parses:
   * the same topics, from the entry of the very app the answer names.
   */
  lemma LiveAgreesWithBatch(db: Db, now: Time, actor: Actor, scope: ResolvedScope, pattern: string)
    requires Keyed(db) && UniqueLiveSlugs(db) && OneGrantInProject(db, actor.projectId)
    requires GrantsInProject(db, actor) && OpenGrantsAddNothing(db, actor)
    requires actor in db.actors && actor.deletedAt.None? && actor.status == ActorActive && !Expired(actor.expiresAt, now)
    requires ResolveScope(db, actor) == Some(scope) && ParsePattern(scope, pattern).Some?
    ensures var parsed := ParsePattern(scope, pattern).value;
            var batch := BatchList(Resolve(Request(db, actor, scope, now)), parsed.0, parsed.1);
            var live := CheckRoomAccess(db, now, actor.actorTokenId, pattern);
            && Listed(live) == batch && (live.Allow? <==> batch != [])
            && (live.Allow? ==> ReadFrom(Request(db, actor, scope, now), live.appId, parsed.0, parsed.1, live.allowedTopics))
  {
    assert LiveActor(actor.actorTokenId)(actor);
    DistinctByMember(db.actors, ActorKey, actor, FindFirst(db.actors, LiveActor(actor.actorTokenId)).value);
    var parsed := ParsePattern(scope, pattern).value;
    CheckRoomAgrees(Request(db, actor, scope, now), parsed.0, parsed.1);
  }
}
