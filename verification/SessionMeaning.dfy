/**
 * The session payload spelled out over the tables' own columns: which apps it
 * lists, every field of every topic under them, and what it restores.
 */
module SessionMeaning {
  import opened Prelude
  import opened Schema
  import opened Resolution
  import opened Authz
  import opened RoomCheck
  import opened Addressing
  import opened Restore

  /* ── addresses and scopes, field by field ────────────────────────────── */

  /** `{app}/[{scope}/]{room}/{topic}`: the name a client uses. */
  ghost predicate PatternNames(pattern: string, scope: ResolvedScope, appSlug: string, roomSlug: string, t: string) {
    match scope
    case Unscoped => pattern == appSlug + "/" + roomSlug + "/" + t
    case Scoped(_, slug, _) =>
      if slug == "" then pattern == appSlug + "/" + roomSlug + "/" + t
      else pattern == appSlug + "/" + slug + "/" + roomSlug + "/" + t
  }

  /** `[{scopeId}/]{roomId}/{topic}`: the name the broker routes on. */
  ghost predicate TopicNames(topic: string, scope: ResolvedScope, roomId: Id, t: string) {
    match scope
    case Unscoped => topic == roomId + "/" + t
    case Scoped(id, _, _) => if id == "" then topic == roomId + "/" + t else topic == id + "/" + roomId + "/" + t
  }

  /** Every field of a handed-out topic. */
  ghost predicate Describes(at: AllowedTopic, scope: ResolvedScope, app: App, room: Room, permission: Permission, t: string) {
    && PatternNames(at.pattern, scope, app.slug, room.slug, t)
    && TopicNames(at.topic, scope, room.roomId, t)
    && at.permission == permission && at.roomId == room.roomId && at.roomSlug == room.slug && at.scope == scope
  }

  lemma BuiltDescribes(at: AllowedTopic, scope: ResolvedScope, app: App, room: Room, permission: Permission, t: string)
    ensures at == BuildAllowedTopic(app.slug, room, t, permission, scope) <==> Describes(at, scope, app, room, permission, t)
  {
    var tail := room.slug + "/" + t;
    assert app.slug + "/" + room.slug + "/" + t == app.slug + "/" + tail;
    if scope.Scoped? {
      assert app.slug + "/" + scope.scopeSlug + "/" + room.slug + "/" + t == app.slug + "/" + (scope.scopeSlug + "/" + tail);
      assert scope.scopeId + "/" + room.roomId + "/" + t == scope.scopeId + "/" + (room.roomId + "/" + t);
    }
  }

  /** An actor with no scope column is unscoped; any other needs its own live active scope of its project, and carries that row's slug and name. */
  ghost predicate ScopeRule(db: Db, actor: Actor, scope: ResolvedScope) {
    match actor.scopeId
    case None => scope == Unscoped
    case Some(id) =>
      exists s :: s in db.scopes && s.scopeId == id && s.projectId == actor.projectId && s.deletedAt.None? && s.isActive
               && scope == Scoped(id, s.slug, s.name)
  }

  lemma ScopeMeans(db: Db, actor: Actor, scope: ResolvedScope)
    requires Keyed(db)
    ensures ResolveScope(db, actor) == Some(scope) <==> ScopeRule(db, actor, scope)
  {
    if ScopeRule(db, actor, scope) && actor.scopeId.Some? {
      var s :| s in db.scopes && s.scopeId == actor.scopeId.value && s.projectId == actor.projectId && s.deletedAt.None? && s.isActive
               && scope == Scoped(actor.scopeId.value, s.slug, s.name);
      assert LiveScopeOf(actor.scopeId.value, actor.projectId)(s);
      DistinctByMember(db.scopes, ScopeKey, s, FindFirst(db.scopes, LiveScopeOf(actor.scopeId.value, actor.projectId)).value);
    }
  }

  /* ── the apps a session lists ────────────────────────────────────────── */

  /** The entry carries this app's own id, name, slug and webhooks. */
  ghost predicate EntryOf(e: AppEntry, app: App) {
    && e.appId == app.appId && e.appName == app.name && e.appSlug == app.slug
    && e.hydrationWebhook == app.hydrationWebhook && e.triggerWebhook == app.triggerWebhook
  }

  ghost predicate Holds(q: Request, app: App) {
    exists permission, topics :: AppRule(q, app, permission, topics)
  }

  function SessionAppId(s: SessionApp): Id { s.entry.appId }

  /** No app is listed twice, and each is an app the rule admits the actor to, with that row's own fields. */
  lemma SessionApps(q: Request, recorded: seq<Subscription>)
    requires Keyed(q.db)
    ensures DistinctBy(Authz.Session(q, recorded), SessionAppId)
    ensures forall s :: s in Authz.Session(q, recorded) ==> exists app :: app in q.db.apps && Holds(q, app) && EntryOf(s.entry, app)
  {
    hide Keyed, ValidAccess, AppRule;
    ValidAccessIds(q);
    forall s | s in Authz.Session(q, recorded) ensures exists app :: app in q.db.apps && Holds(q, app) && EntryOf(s.entry, app) {
      var i :| 0 <= i < |Authz.Session(q, recorded)| && Authz.Session(q, recorded)[i] == s;
      var access := ValidAccess(q)[i];
      ValidAccessIsRule(q, access);
      HeldIsRow(q, access.app, access.permission, access.topics);
      assert EntryOf(s.entry, access.app);
    }
  }

  lemma HeldIsRow(q: Request, app: App, permission: Permission, topics: Option<seq<string>>)
    requires AppRule(q, app, permission, topics)
    ensures app in q.db.apps && Holds(q, app)
  {
  }

  /** An app of the tables is listed exactly when the rule admits the actor to it. */
  lemma SessionListsApp(q: Request, recorded: seq<Subscription>, app: App)
    requires Keyed(q.db) && app in q.db.apps
    ensures (exists s :: s in Authz.Session(q, recorded) && s.entry.appId == app.appId) <==> Holds(q, app)
  {
    hide Keyed, ValidAccess, AppRule;
    if Holds(q, app) {
      var permission, topics :| AppRule(q, app, permission, topics);
      var access := AppAccess(app, permission, topics);
      ValidAccessIsRule(q, access);
      var i :| 0 <= i < |ValidAccess(q)| && ValidAccess(q)[i] == access;
      assert Authz.Session(q, recorded)[i].entry.appId == app.appId;
    }
    if s :| s in Authz.Session(q, recorded) && s.entry.appId == app.appId {
      SessionApps(q, recorded);
      var other :| other in q.db.apps && Holds(q, other) && EntryOf(s.entry, other);
      SameApp(q.db, app, other);
    }
  }

  lemma SameApp(db: Db, app: App, other: App)
    requires Keyed(db) && app in db.apps && other in db.apps && app.appId == other.appId
    ensures app == other
  {
    DistinctByMember(db.apps, AppKey, app, other);
  }

  /** The grant admits the actor to some live active app. */
  ghost function Holding(q: Request): AppGrant -> bool {
    (g: AppGrant) => exists app :: app in q.db.apps && app.deletedAt.None? && app.status == AppActive && Admits(q, g, app)
  }

  /** Open to the actor's project, and no grant admits the actor. */
  ghost function OpenAlone(q: Request): App -> bool {
    (app: App) => app.accessMode == Open && app.projectId == q.actor.projectId && app.status == AppActive && app.deletedAt.None?
                  && !HoldsAnyAppGrant(q, app)
  }

  function GrantAppId(g: AppGrant): Id { g.appId }

  /** Keeping the rows that map to something keeps their keys in order. */
  lemma {:induction false} KeysKept<A(!new), B(!new)>(s: seq<A>, f: A -> Option<B>, p: A -> bool, key: A -> Id, key': B -> Id)
    requires forall x :: x in s ==> (f(x).Some? <==> p(x)) && (f(x).Some? ==> key'(f(x).value) == key(x))
    ensures Map(FilterMap(s, f), key') == Map(Filter(s, p), key)
  {
    if s != [] {
      var n := |s| - 1;
      KeysKept(s[..n], f, p, key, key');
      if p(s[n]) {
        assert Map(Filter(s, p), key) == Map(Filter(s[..n], p), key) + [key(s[n])];
        assert Map(FilterMap(s, f), key') == Map(FilterMap(s[..n], f), key') + [key(s[n])];
      }
    }
  }

  lemma JoinedIff(q: Request, g: AppGrant)
    requires Keyed(q.db)
    ensures ActiveAppGrantsOf(q.actor.actorTokenId)(g) && JoinApp(q.db, q.now)(g).Some? <==> Holding(q)(g)
  {
    hide DistinctBy;
    if app :| app in q.db.apps && app.deletedAt.None? && app.status == AppActive && Admits(q, g, app) {
      FindLiveApp(q.db, app);
    }
    var found := FindFirst(q.db.apps, LiveApp(g.appId));
    if ActiveAppGrantsOf(q.actor.actorTokenId)(g) && JoinApp(q.db, q.now)(g).Some? { assert Admits(q, g, found.value); }
  }

  /** Apps are listed in the order of the grants that hold, then of the open apps without any. */
  lemma SessionOrder(q: Request, recorded: seq<Subscription>)
    requires Keyed(q.db)
    ensures Map(Authz.Session(q, recorded), SessionAppId) ==
            Map(Filter(q.db.appGrants, Holding(q)), GrantAppId) + Map(Filter(q.db.apps, OpenAlone(q)), AppKey)
  {
    hide Keyed, Holding, OpenAlone, JoinApp, HoldsAnyAppGrant, ActiveAppGrantsOf, OpenAppsIn;
    var mine, open := Filter(q.db.appGrants, ActiveAppGrantsOf(q.actor.actorTokenId)), Filter(q.db.apps, OpenAppsIn(q.actor.projectId));
    var stored, explicit := StoredAccess(q), ExplicitAppIds(StoredAccess(q));
    forall g ensures ActiveAppGrantsOf(q.actor.actorTokenId)(g) && JoinApp(q.db, q.now)(g).Some? <==> Holding(q)(g) { JoinedIff(q, g); }
    forall g | g in mine && JoinApp(q.db, q.now)(g).Some? ensures AccessAppId(JoinApp(q.db, q.now)(g).value) == GrantAppId(g) { JoinedId(q, g); }
    KeysKept(mine, JoinApp(q.db, q.now), Holding(q), GrantAppId, AccessAppId);
    FilterFilter(q.db.appGrants, ActiveAppGrantsOf(q.actor.actorTokenId), Holding(q), Holding(q));
    forall app | app in q.db.apps
      ensures OpenAlone(q)(app) <==> OpenAppsIn(q.actor.projectId)(app) && Synthesise(explicit)(app).Some?
    { OpenIff(q, app); }
    KeysKept(open, Synthesise(explicit), OpenAlone(q), AppKey, AccessAppId);
    FilterFilter(q.db.apps, OpenAppsIn(q.actor.projectId), OpenAlone(q), OpenAlone(q));
    var ids := Map(ValidAccess(q), AccessAppId);
    assert ids == Map(stored, AccessAppId) + Map(FilterMap(open, Synthesise(explicit)), AccessAppId);
    assert Map(Authz.Session(q, recorded), SessionAppId) == ids;
  }

  lemma JoinedId(q: Request, g: AppGrant)
    requires JoinApp(q.db, q.now)(g).Some?
    ensures AccessAppId(JoinApp(q.db, q.now)(g).value) == GrantAppId(g)
  {
  }

  lemma OpenIff(q: Request, app: App)
    requires Keyed(q.db) && app in q.db.apps
    ensures OpenAlone(q)(app) <==> OpenAppsIn(q.actor.projectId)(app) && Synthesise(ExplicitAppIds(StoredAccess(q)))(app).Some?
  {
    hide Keyed, StoredAccess, HoldsAnyAppGrant;
    if app.deletedAt.None? && app.status == AppActive { ExplicitIsHeld(q, app); }
  }

  /* ── the topics under each app ───────────────────────────────────────── */

  lemma SessionEntry(q: Request, recorded: seq<Subscription>, s: SessionApp)
    requires s in Authz.Session(q, recorded)
    ensures s.entry in Resolve(q) && s == SessionBuilder(q.db, Resolve(q), recorded)(s.entry)
  {
    hide Resolve;
    var i :| 0 <= i < |Authz.Session(q, recorded)| && Authz.Session(q, recorded)[i] == s;
    assert Resolve(q)[i] == s.entry;
  }

  /** Entries of one app id are one entry. */
  lemma OneEntry(q: Request, e: AppEntry, other: AppEntry)
    requires Keyed(q.db) && e in Resolve(q) && other in Resolve(q) && e.appId == other.appId
    ensures e == other
  {
    hide Keyed, ValidAccess;
    ValidAccessIds(q);
    var i :| 0 <= i < |Resolve(q)| && Resolve(q)[i] == e;
    var j :| 0 <= j < |Resolve(q)| && Resolve(q)[j] == other;
    assert AccessAppId(ValidAccess(q)[i]) == AccessAppId(ValidAccess(q)[j]);
  }

  /** The rule grants a topic of the app that these fields describe. */
  ghost predicate Reachable(q: Request, appId: Id, at: AllowedTopic) {
    exists app: App, room: Room, permission: Permission, t: string ::
      app.appId == appId && Reach(q, app, room, permission, t) && Describes(at, q.scope, app, room, permission, t)
  }

  lemma ReachableIsGranted(q: Request, appId: Id, at: AllowedTopic)
    ensures Reachable(q, appId, at) <==> RuleGrants(q, appId, at)
  {
    hide Reach, Describes, BuildAllowedTopic;
    if app: App, room: Room, permission: Permission, t: string :|
      app.appId == appId && Reach(q, app, room, permission, t) && Describes(at, q.scope, app, room, permission, t)
    {
      BuiltDescribes(at, q.scope, app, room, permission, t);
    }
    if app: App, room: Room, permission: Permission, t: string :|
      app.appId == appId && Reach(q, app, room, permission, t) && at == BuildAllowedTopic(app.slug, room, t, permission, q.scope)
    {
      BuiltDescribes(at, q.scope, app, room, permission, t);
    }
  }

  lemma ListedIsEmitted(q: Request, recorded: seq<Subscription>, s: SessionApp, at: AllowedTopic)
    requires Keyed(q.db) && s in Authz.Session(q, recorded)
    ensures at in s.entry.allowedTopics <==> Emits(q, s.entry.appId, at)
  {
    hide Keyed, Resolve;
    SessionEntry(q, recorded, s);
    if e :| e in Resolve(q) && e.appId == s.entry.appId && at in e.allowedTopics { OneEntry(q, e, s.entry); }
  }

  /** A session lists a topic under an app exactly when the rule grants it there; every field of it is spelled out. */
  lemma SessionTopics(q: Request, recorded: seq<Subscription>, s: SessionApp, at: AllowedTopic)
    requires Keyed(q.db) && OneGrantInApp(q.db, s.entry.appId) && s in Authz.Session(q, recorded)
    ensures at in s.entry.allowedTopics <==> Reachable(q, s.entry.appId, at)
  {
    hide Keyed, OneGrantInApp, Authz.Session, Emits, RuleGrants, Reachable;
    ListedIsEmitted(q, recorded, s, at);
    ResolveIsRule(q, s.entry.appId, at);
    ReachableIsGranted(q, s.entry.appId, at);
  }

  /* ── the subscriptions it restores ───────────────────────────────────── */

  function NamedBy(topics: seq<AllowedTopic>): Subscription -> bool {
    (sub: Subscription) => exists at :: at in topics && at.pattern == sub.name
  }

  /**
   * Restore is exact over the payload itself: under each app come back, in recorded
   * order, just the recorded subscriptions naming one of that app's patterns, each
   * with the internal topic listed beside its pattern.
   */
  lemma SessionRestores(q: Request, recorded: seq<Subscription>, s: SessionApp)
    requires Keyed(q.db) && UniqueLiveSlugs(q.db) && PlainSlugs(q.db, q.actor.projectId) && GrantsInProject(q.db, q.actor)
    requires s in Authz.Session(q, recorded)
    ensures Map(s.activeSubscriptions, RecordedOf) == Filter(recorded, NamedBy(s.entry.allowedTopics))
    ensures forall a, at :: a in s.activeSubscriptions && at in s.entry.allowedTopics && at.pattern == a.pattern ==> a.topic == at.topic
    ensures forall a :: a in s.activeSubscriptions ==> a.pattern == a.recorded.name
  {
    hide Keyed, UniqueLiveSlugs, PlainSlugs, GrantsInProject, Resolve, Emits, Restored;
    SessionEntry(q, recorded, s);
    var appId := s.entry.appId;
    RestoreExact(q, recorded, appId);
    assert s.activeSubscriptions == FilterMap(recorded, Restored(Resolve(q), appId));
    forall at ensures at in s.entry.allowedTopics <==> Emits(q, appId, at) { ListedIsEmitted(q, recorded, s, at); }
    FilterCong(recorded, StillGranted(q, appId), NamedBy(s.entry.allowedTopics));
    forall a, at | a in s.activeSubscriptions && at in s.entry.allowedTopics && at.pattern == a.pattern ensures a.topic == at.topic {
      var at' :| Emits(q, appId, at') && at'.pattern == a.pattern && at'.topic == a.topic;
      PatternOwner(q, appId, at, appId, at');
    }
  }
}
