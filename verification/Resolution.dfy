/**
 * What an actor may reach: the batched connect-time resolution written as plain
 * queries, and the declarative access rule it is proved equal to.
 */
module Resolution {
  import opened Prelude
  import opened Schema

  datatype ResolvedScope = Unscoped | Scoped(scopeId: Id, scopeSlug: string, scopeName: string)

  /** None refuses the actor: its scope is missing, deleted, foreign or inactive. */
  function ResolveScope(db: Db, actor: Actor): Option<ResolvedScope> {
    if actor.scopeId.None? then Some(Unscoped)
    else
      match FindFirst(db.scopes, LiveScopeOf(actor.scopeId.value, actor.projectId))
      case None => None
      case Some(s) => if s.isActive then Some(Scoped(s.scopeId, s.slug, s.name)) else None
  }

  datatype AllowedTopic = AllowedTopic(
    pattern: string, topic: string, permission: Permission,
    roomId: Id, roomSlug: string, scope: ResolvedScope)

  /** The single place an address is constructed. */
  function BuildAllowedTopic(appSlug: string, room: Room, topicName: string, permission: Permission,
                             scope: ResolvedScope): AllowedTopic {
    AllowedTopic(
      if scope.Scoped? && scope.scopeSlug != ""
      then appSlug + "/" + (scope.scopeSlug + "/" + (room.slug + "/" + topicName))
      else appSlug + "/" + (room.slug + "/" + topicName),
      if scope.Scoped? && scope.scopeId != ""
      then scope.scopeId + "/" + (room.roomId + "/" + topicName)
      else room.roomId + "/" + topicName,
      permission, room.roomId, room.slug, scope)
  }

  /** One resolution: the tables, who is asking, in which scope, and the clock. */
  datatype Request = Request(db: Db, actor: Actor, scope: ResolvedScope, now: Time)

  /** An app grant joined to its app, or the one synthesised for an open app. */
  datatype AppAccess = AppAccess(app: App, permission: Permission, topics: Option<seq<string>>)

  function JoinApp(db: Db, now: Time): AppGrant -> Option<AppAccess> {
    (g: AppGrant) =>
      match FindFirst(db.apps, LiveApp(g.appId))
      case None => None
      case Some(app) =>
        if app.status != AppActive || Expired(g.expiresAt, now) then None
        else Some(AppAccess(app, g.permission, g.topics))
  }

  function StoredAccess(q: Request): seq<AppAccess> {
    FilterMap(Filter(q.db.appGrants, ActiveAppGrantsOf(q.actor.actorTokenId)), JoinApp(q.db, q.now))
  }

  function ExplicitAppIds(access: seq<AppAccess>): set<Id> {
    set a | a in access :: a.app.appId
  }

  function Synthesise(explicit: set<Id>): App -> Option<AppAccess> {
    (app: App) => if app.appId in explicit then None else Some(AppAccess(app, PubSub, None))
  }

  function ValidAccess(q: Request): seq<AppAccess> {
    var stored := StoredAccess(q);
    stored + FilterMap(Filter(q.db.apps, OpenAppsIn(q.actor.projectId)), Synthesise(ExplicitAppIds(stored)))
  }

  function NamedActive(roomId: Id, actorTokenId: Id): RoomGrant -> bool {
    (g: RoomGrant) => g.roomId == roomId && g.deletedAt.None? && g.actorTokenId == Some(actorTokenId) && g.isActive
  }

  function TypeActive(roomId: Id, actorType: ActorType): RoomGrant -> bool {
    (g: RoomGrant) => g.roomId == roomId && g.deletedAt.None? && g.actorTokenId.None?
                      && g.actorType == Some(actorType) && g.isActive
  }

  /** Any grant row that is not deleted closes the room, active or not. */
  function IsPrivate(db: Db, roomId: Id): bool {
    FindFirst(db.roomGrants, GrantsOn(roomId)).Some?
  }

  /** The connect path keeps the last active named grant, else the first active type grant. */
  function EffectiveGrant(db: Db, actor: Actor, roomId: Id): Option<RoomGrant> {
    FindLast(db.roomGrants, NamedActive(roomId, actor.actorTokenId))
    .OrElse(FindFirst(db.roomGrants, TypeActive(roomId, actor.actorType)))
  }

  datatype RoomAccess = RoomAccess(permission: Permission, topics: seq<string>)

  /** None skips the room. A room's own topic column is never read. */
  function DecideRoom(q: Request, access: AppAccess, room: Room): Option<RoomAccess> {
    if !IsPrivate(q.db, room.roomId) then
      Some(RoomAccess(access.permission, access.topics.OrElse(access.app.topics).GetOr([])))
    else
      match EffectiveGrant(q.db, q.actor, room.roomId)
      case None => None
      case Some(g) =>
        if Expired(g.expiresAt, q.now) then None
        else Some(RoomAccess(g.permission, g.topics.OrElse(access.app.topics).GetOr([])))
  }

  function TopicBuilder(appSlug: string, room: Room, permission: Permission, scope: ResolvedScope): string -> AllowedTopic {
    (t: string) => BuildAllowedTopic(appSlug, room, t, permission, scope)
  }

  function TopicsInRoom(q: Request, access: AppAccess, room: Room): seq<AllowedTopic> {
    match DecideRoom(q, access, room)
    case None => []
    case Some(ra) => Map(ra.topics, TopicBuilder(access.app.slug, room, ra.permission, q.scope))
  }

  function TopicsInRooms(q: Request, access: AppAccess, rooms: seq<Room>): seq<AllowedTopic> {
    if rooms == [] then []
    else TopicsInRooms(q, access, rooms[..|rooms| - 1]) + TopicsInRoom(q, access, rooms[|rooms| - 1])
  }

  function ReachableRoomId(q: Request, access: AppAccess): Room -> Option<Id> {
    (room: Room) => if DecideRoom(q, access, room).Some? then Some(room.roomId) else None
  }

  function RoomsOf(db: Db, app: App): seq<Room> {
    Filter(db.rooms, ActiveRoomsIn(app.appId))
  }

  datatype AppEntry = AppEntry(
    appId: Id, appName: string, appSlug: string,
    hydrationWebhook: Option<Json>, triggerWebhook: Option<Json>,
    allowedTopics: seq<AllowedTopic>, accessibleRoomIds: seq<Id>)

  function EntryBuilder(q: Request): AppAccess -> AppEntry {
    (a: AppAccess) => AppEntry(
        a.app.appId, a.app.name, a.app.slug, a.app.hydrationWebhook, a.app.triggerWebhook,
        TopicsInRooms(q, a, RoomsOf(q.db, a.app)),
        FilterMap(RoomsOf(q.db, a.app), ReachableRoomId(q, a)))
  }

  /** Every app the actor reaches, with its topics, in the order the code lists them. */
  function Resolve(q: Request): seq<AppEntry> {
    Map(ValidAccess(q), EntryBuilder(q))
  }

  /* ── the access rule ─────────────────────────────────────────────────── */

  // The rule is written over the columns themselves, apart from the queries above.

  /** This row is the actor's, on this app, switched on, not deleted and not past its expiry. */
  predicate Admits(q: Request, g: AppGrant, app: App) {
    && g.actorTokenId == q.actor.actorTokenId && g.appId == app.appId && g.isActive && g.deletedAt.None?
    && (g.expiresAt.Some? ==> q.now <= g.expiresAt.value)
  }

  /** A stored grant that admits the actor to the app right now. */
  ghost predicate HoldsAppGrant(q: Request, app: App, permission: Permission, topics: Option<seq<string>>) {
    exists g :: g in q.db.appGrants && Admits(q, g, app) && g.permission == permission && g.topics == topics
  }

  ghost predicate HoldsAnyAppGrant(q: Request, app: App) {
    exists g :: g in q.db.appGrants && Admits(q, g, app)
  }

  /** App level: a live active app, by grant, or because it is open to the actor's project. */
  ghost predicate AppRule(q: Request, app: App, permission: Permission, topics: Option<seq<string>>) {
    && app in q.db.apps && app.deletedAt.None? && app.status == AppActive
    && (HoldsAppGrant(q, app, permission, topics)
        || (app.accessMode == Open && app.projectId == q.actor.projectId
            && !HoldsAnyAppGrant(q, app) && permission == PubSub && topics.None?))
  }

  /** The row is switched on, not deleted, and on this room. */
  ghost predicate InForce(g: RoomGrant, roomId: Id) {
    g.roomId == roomId && g.isActive && g.deletedAt.None?
  }

  /** The grant that speaks for the actor on a private room: its own before its type's. */
  ghost predicate SpeaksFor(q: Request, roomId: Id, g: RoomGrant) {
    && g in q.db.roomGrants && InForce(g, roomId)
    && (g.actorTokenId == Some(q.actor.actorTokenId)
        || (g.actorTokenId.None? && g.actorType == Some(q.actor.actorType)
            && forall h :: h in q.db.roomGrants && InForce(h, roomId) ==> h.actorTokenId != Some(q.actor.actorTokenId)))
  }

  /** The grant's own topics, or the app's where it names none. */
  ghost function Inherited(own: Option<seq<string>>, app: App): seq<string> {
    if own.Some? then own.value else if app.topics.Some? then app.topics.value else []
  }

  /** Room level: public rooms inherit, private rooms answer to the grant that speaks. */
  ghost predicate RoomRule(q: Request, access: AppAccess, room: Room, ra: RoomAccess) {
    if forall g :: g in q.db.roomGrants && g.roomId == room.roomId ==> g.deletedAt.Some? then
      ra.permission == access.permission && ra.topics == Inherited(access.topics, access.app)
    else
      exists g :: SpeaksFor(q, room.roomId, g) && (g.expiresAt.Some? ==> q.now <= g.expiresAt.value)
               && ra.permission == g.permission && ra.topics == Inherited(g.topics, access.app)
  }

  /** The whole rule: the actor may use topic t of the room with this permission. */
  ghost predicate Reach(q: Request, app: App, room: Room, permission: Permission, t: string) {
    && room in q.db.rooms && room.appId == app.appId && room.status == RoomActive && room.deletedAt.None?
    && exists access: AppAccess, ra :: AppRule(q, app, access.permission, access.topics) && access.app == app
         && RoomRule(q, access, room, ra) && ra.permission == permission && t in ra.topics
  }

  /* ── the resolver meets the rule ─────────────────────────────────────── */

  lemma FindLiveApp(db: Db, app: App)
    requires Keyed(db) && app in db.apps && app.deletedAt.None?
    ensures FindFirst(db.apps, LiveApp(app.appId)) == Some(app)
  {
    var found := FindFirst(db.apps, LiveApp(app.appId));
    assert LiveApp(app.appId)(app);
    DistinctByMember(db.apps, AppKey, app, found.value);
  }

  lemma StoredIsRule(q: Request, access: AppAccess)
    requires Keyed(q.db)
    ensures access in StoredAccess(q) <==>
            access.app in q.db.apps && access.app.deletedAt.None? && access.app.status == AppActive
            && HoldsAppGrant(q, access.app, access.permission, access.topics)
  {
    var rows := Filter(q.db.appGrants, ActiveAppGrantsOf(q.actor.actorTokenId));
    FilterMapMember(rows, JoinApp(q.db, q.now), access);
    if access in StoredAccess(q) {
      var g :| g in rows && JoinApp(q.db, q.now)(g) == Some(access);
      assert Admits(q, g, access.app);
    }
    if access.app in q.db.apps && access.app.deletedAt.None? && access.app.status == AppActive
       && HoldsAppGrant(q, access.app, access.permission, access.topics) {
      FindLiveApp(q.db, access.app);
      var g :| g in q.db.appGrants && Admits(q, g, access.app) && g.permission == access.permission && g.topics == access.topics;
      assert ActiveAppGrantsOf(q.actor.actorTokenId)(g);
      assert g in rows && JoinApp(q.db, q.now)(g) == Some(access);
    }
  }

  lemma ExplicitIsHeld(q: Request, app: App)
    requires Keyed(q.db) && app in q.db.apps && app.deletedAt.None? && app.status == AppActive
    ensures app.appId in ExplicitAppIds(StoredAccess(q)) <==> HoldsAnyAppGrant(q, app)
  {
    if app.appId in ExplicitAppIds(StoredAccess(q)) {
      var a :| a in StoredAccess(q) && a.app.appId == app.appId;
      StoredIsRule(q, a);
      DistinctByMember(q.db.apps, AppKey, a.app, app);
    }
    if HoldsAnyAppGrant(q, app) {
      var g :| g in q.db.appGrants && Admits(q, g, app);
      StoredIsRule(q, AppAccess(app, g.permission, g.topics));
    }
  }

  /** App level: the resolver's grants are exactly the rule's. */
  lemma ValidAccessIsRule(q: Request, access: AppAccess)
    requires Keyed(q.db)
    ensures access in ValidAccess(q) <==> AppRule(q, access.app, access.permission, access.topics)
  {
    StoredIsRule(q, access);
    var open := Filter(q.db.apps, OpenAppsIn(q.actor.projectId));
    var explicit := ExplicitAppIds(StoredAccess(q));
    FilterMapMember(open, Synthesise(explicit), access);
    if access.app in q.db.apps && access.app.deletedAt.None? && access.app.status == AppActive {
      ExplicitIsHeld(q, access.app);
      assert OpenAppsIn(q.actor.projectId)(access.app) <==>
             access.app.accessMode == Open && access.app.projectId == q.actor.projectId;
      if access.app in open && access.app.appId !in explicit && access.permission == PubSub && access.topics.None? {
        assert Synthesise(explicit)(access.app) == Some(access);
      }
    }
  }

  /** With one grant per target, last-wins and first-wins pick the grant that speaks. */
  lemma EffectiveSpeaks(q: Request, roomId: Id, g: RoomGrant)
    requires OneGrantOnRoom(q.db, roomId)
    ensures EffectiveGrant(q.db, q.actor, roomId) == Some(g) <==> SpeaksFor(q, roomId, g)
  {
    var named := FindLast(q.db.roomGrants, NamedActive(roomId, q.actor.actorTokenId));
    var typed := FindFirst(q.db.roomGrants, TypeActive(roomId, q.actor.actorType));
    if SpeaksFor(q, roomId, g) {
      if named.Some? {
        assert SameTarget(named.value, g);
      } else {
        assert SameTarget(typed.value, g);
      }
    }
  }

  lemma DecideIsRule(q: Request, access: AppAccess, room: Room, ra: RoomAccess)
    requires OneGrantOnRoom(q.db, room.roomId)
    ensures DecideRoom(q, access, room) == Some(ra) <==> RoomRule(q, access, room, ra)
  {
    var eff := EffectiveGrant(q.db, q.actor, room.roomId);
    if eff.Some? { EffectiveSpeaks(q, room.roomId, eff.value); }
    if IsPrivate(q.db, room.roomId) && RoomRule(q, access, room, ra) {
      var g :| SpeaksFor(q, room.roomId, g) && !Expired(g.expiresAt, q.now)
            && ra == RoomAccess(g.permission, g.topics.OrElse(access.app.topics).GetOr([]));
      EffectiveSpeaks(q, room.roomId, g);
    }
  }

  lemma {:induction false} TopicsInRoomsMember(q: Request, access: AppAccess, rooms: seq<Room>, at: AllowedTopic)
    ensures at in TopicsInRooms(q, access, rooms) <==> exists room :: room in rooms && at in TopicsInRoom(q, access, room)
  {
    hide TopicsInRoom;
    if rooms != [] {
      var n := |rooms| - 1;
      TopicsInRoomsMember(q, access, rooms[..n], at);
      assert forall room :: room in rooms <==> room in rooms[..n] || room == rooms[n];
    }
  }

  /** Some app entry of the resolved session lists this topic under this app. */
  ghost predicate Emits(q: Request, appId: Id, at: AllowedTopic) {
    exists e :: e in Resolve(q) && e.appId == appId && at in e.allowedTopics
  }

  /** The rule grants this address under this app. */
  ghost predicate RuleGrants(q: Request, appId: Id, at: AllowedTopic) {
    exists app: App, room, permission, t ::
      app.appId == appId && Reach(q, app, room, permission, t)
      && at == BuildAllowedTopic(app.slug, room, t, permission, q.scope)
  }

  lemma RoomTopicIsGranted(q: Request, access: AppAccess, room: Room, at: AllowedTopic)
    requires Keyed(q.db) && OneGrantOnRoom(q.db, room.roomId)
    requires access in ValidAccess(q) && room in RoomsOf(q.db, access.app) && at in TopicsInRoom(q, access, room)
    ensures RuleGrants(q, access.app.appId, at)
  {
    var ra := DecideRoom(q, access, room).value;
    DecideIsRule(q, access, room, ra);
    ValidAccessIsRule(q, access);
    var k :| 0 <= k < |ra.topics| && at == TopicBuilder(access.app.slug, room, ra.permission, q.scope)(ra.topics[k]);
    assert Reach(q, access.app, room, ra.permission, ra.topics[k]);
  }

  lemma EmittedBy(q: Request, appId: Id, at: AllowedTopic) returns (access: AppAccess, room: Room)
    requires Emits(q, appId, at)
    ensures access in ValidAccess(q) && access.app.appId == appId
    ensures room in RoomsOf(q.db, access.app) && at in TopicsInRoom(q, access, room)
  {
    var i :| 0 <= i < |Resolve(q)| && Resolve(q)[i].appId == appId && at in Resolve(q)[i].allowedTopics;
    access := ValidAccess(q)[i];
    TopicsInRoomsMember(q, access, RoomsOf(q.db, access.app), at);
    room :| room in RoomsOf(q.db, access.app) && at in TopicsInRoom(q, access, room);
  }

  lemma EmittedIn(q: Request, access: AppAccess, room: Room, at: AllowedTopic)
    requires access in ValidAccess(q) && room in RoomsOf(q.db, access.app) && at in TopicsInRoom(q, access, room)
    ensures Emits(q, access.app.appId, at)
    ensures exists e :: e in Resolve(q) && e.appSlug == access.app.slug && at in e.allowedTopics
  {
    TopicsInRoomsMember(q, access, RoomsOf(q.db, access.app), at);
    var i :| 0 <= i < |ValidAccess(q)| && ValidAccess(q)[i] == access;
    assert Resolve(q)[i].allowedTopics == TopicsInRooms(q, access, RoomsOf(q.db, access.app));
  }

  lemma EmitsComplete(q: Request, appId: Id, at: AllowedTopic)
    requires Keyed(q.db) && OneGrantInApp(q.db, appId) && RuleGrants(q, appId, at)
    ensures Emits(q, appId, at)
  {
    hide Keyed, AppRule, RoomRule, ValidAccess, DecideRoom, OneGrantOnRoom, BuildAllowedTopic, Emits;
    var app: App, room, permission, t :|
      app.appId == appId && Reach(q, app, room, permission, t)
      && at == BuildAllowedTopic(app.slug, room, t, permission, q.scope);
    var access: AppAccess, ra :| AppRule(q, app, access.permission, access.topics) && access.app == app
         && RoomRule(q, access, room, ra) && ra.permission == permission && t in ra.topics;
    ValidAccessIsRule(q, access);
    DecideIsRule(q, access, room, ra);
    var k :| 0 <= k < |ra.topics| && ra.topics[k] == t;
    assert TopicsInRoom(q, access, room)[k] == at;
    EmittedIn(q, access, room, at);
  }

  /** Batch resolution is sound and complete for the access rule. */
  lemma ResolveIsRule(q: Request, appId: Id, at: AllowedTopic)
    requires Keyed(q.db) && OneGrantInApp(q.db, appId)
    ensures Emits(q, appId, at) <==> RuleGrants(q, appId, at)
  {
    if Emits(q, appId, at) {
      var access, room := EmittedBy(q, appId, at);
      RoomTopicIsGranted(q, access, room, at);
    }
    if RuleGrants(q, appId, at) { EmitsComplete(q, appId, at); }
  }
}
