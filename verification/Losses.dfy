/**
 * What a document cannot carry, and so what moving a project does to access: the
 * moved project grants exactly what the original would after losing those things.
 */
module Losses {
  import opened Prelude
  import opened Schema
  import opened Sorting
  import opened ProjectDoc
  import opened Resolution
  import opened RoomCheck
  import opened ProjectExport
  import opened ExportRefs
  import opened DocAccess
  import opened ExportMeaning
  import opened ProjectImport
  import opened ImportStore
  import opened Transfer

  /** A scope that is gone is not written, so the actor is carried without one. */
  function StripActor(db: Db): Actor -> Actor {
    (a: Actor) =>
      if a.scopeId.Some? && FindFirst(db.scopes, LiveScopeOf(a.scopeId.value, a.projectId)).None?
      then a.(scopeId := None) else a
  }

  /** Grants on apps outside the project are not written. */
  function KeptAppGrant(db: Db, projectId: Id): AppGrant -> bool {
    (g: AppGrant) => exists app :: app in db.apps && AppsIn(projectId)(app) && app.appId == g.appId
  }

  /** Grants to anyone but a live actor of the project are not written. */
  function KeptRoomGrant(db: Db, projectId: Id): RoomGrant -> bool {
    (g: RoomGrant) => g.actorTokenId.None? || exists a :: a in db.actors && ActorsIn(projectId)(a) && a.actorTokenId == g.actorTokenId.value
  }

  /** A type grant's expiry is not written. */
  function StripGrant(g: RoomGrant): RoomGrant {
    if g.actorTokenId.None? then g.(expiresAt := None) else g
  }

  /** The database without what a document of the project cannot say. */
  function Strip(db: Db, projectId: Id): Db {
    db.(actors := Map(db.actors, StripActor(db)),
        appGrants := Filter(db.appGrants, KeptAppGrant(db, projectId)),
        roomGrants := Map(Filter(db.roomGrants, KeptRoomGrant(db, projectId)), StripGrant))
  }

  lemma StripMember(db: Db, projectId: Id, g: RoomGrant)
    ensures g in Strip(db, projectId).roomGrants <==>
            exists h :: h in db.roomGrants && KeptRoomGrant(db, projectId)(h) && g == StripGrant(h)
  {
    MapMember(Filter(db.roomGrants, KeptRoomGrant(db, projectId)), StripGrant, g);
  }

  lemma StripActorMember(db: Db, projectId: Id, a: Actor)
    ensures a in Strip(db, projectId).actors <==> exists b :: b in db.actors && a == StripActor(db)(b)
  {
    MapMember(db.actors, StripActor(db), a);
  }

  lemma StripConsistent(db: Db, projectId: Id)
    requires Consistent(db, projectId)
    ensures Consistent(Strip(db, projectId), projectId)
  {
    hide Filter, Map, StripActor, StripGrant, KeptAppGrant, KeptRoomGrant, DistinctBy, OneGrantInProject;
    forall a ensures ActorKey(StripActor(db)(a)) == ActorKey(a) && ActorKeyId(StripActor(db)(a)) == ActorKeyId(a) { StripActorSame(db, a); }
    forall g ensures RoomGrantKey(StripGrant(g)) == RoomGrantKey(g) { StripGrantSame(g); }
    DistinctByMap(db.actors, StripActor(db), ActorKey, ActorKey);
    DistinctByMap(db.actors, StripActor(db), ActorKeyId, ActorKeyId);
    DistinctByFilter(db.appGrants, KeptAppGrant(db, projectId), AppGrantKey);
    DistinctByFilter(db.roomGrants, KeptRoomGrant(db, projectId), RoomGrantKey);
    DistinctByMap(Filter(db.roomGrants, KeptRoomGrant(db, projectId)), StripGrant, RoomGrantKey, RoomGrantKey);
    StripOneGrant(db, projectId);
  }

  lemma StripActorSame(db: Db, a: Actor)
    ensures var b := StripActor(db)(a);
            b.actorTokenId == a.actorTokenId && b.keyId == a.keyId && b.projectId == a.projectId && b.deletedAt == a.deletedAt
            && b.name == a.name && b.actorType == a.actorType
  {
  }

  lemma StripGrantSame(g: RoomGrant)
    ensures var h := StripGrant(g);
            h.grantId == g.grantId && h.roomId == g.roomId && h.actorTokenId == g.actorTokenId
            && h.actorType == g.actorType && h.deletedAt == g.deletedAt
  {
  }

  lemma StripOneGrant(db: Db, projectId: Id)
    requires OneGrantInProject(db, projectId)
    ensures OneGrantInProject(Strip(db, projectId), projectId)
  {
    hide Strip;
    StripTables(db, projectId);
    var sdb := Strip(db, projectId);
    forall a, r, g, h | a in sdb.apps && AppsIn(projectId)(a) && r in sdb.rooms && RoomsIn(a.appId)(r)
                        && g in sdb.roomGrants && h in sdb.roomGrants && g.roomId == r.roomId && SameTarget(g, h)
      ensures g == h
    {
      StripMember(db, projectId, g);
      StripMember(db, projectId, h);
      var g', h' :| g' in db.roomGrants && h' in db.roomGrants && g == StripGrant(g') && h == StripGrant(h');
      StripGrantSame(g');
      StripGrantSame(h');
      assert OneGrantInApp(db, a.appId) && OneGrantOnRoom(db, r.roomId) && SameTarget(g', h');
    }
  }

  lemma StripWellLinked(db: Db, projectId: Id)
    requires Consistent(db, projectId) && Writable(db, projectId)
    ensures WellLinked(Strip(db, projectId), projectId)
  {
    hide Keyed, UniqueLiveSlugs, OneGrantInProject, LinksInApp, AppWritable, Strip, AppTravels, ActorScoped, GrantsInProject;
    var sdb := Strip(db, projectId);
    StripTables(db, projectId);
    StripLinks(db, projectId);
    forall a | a in sdb.apps && AppsIn(projectId)(a) ensures AppWritable(sdb, a) && AppTravels(sdb, projectId, a) {
      StripAppTravels(db, projectId, a);
      StripAppWritable(db, projectId, a);
    }
    forall a | a in sdb.actors && ActorsIn(projectId)(a) ensures ActorScoped(sdb, a) && GrantsInProject(sdb, a) {
      StripActorMember(db, projectId, a);
      var b :| b in db.actors && a == StripActor(db)(b);
      StripScoped(db, projectId, b);
      StripInProject(db, projectId, a);
    }
  }

  lemma StripTables(db: Db, projectId: Id)
    ensures var s := Strip(db, projectId);
            s.projects == db.projects && s.scopes == db.scopes && s.apps == db.apps && s.rooms == db.rooms
            && s.lobbies == db.lobbies && s.lobbyRooms == db.lobbyRooms && s.signingKeys == db.signingKeys
  {
  }

  lemma StripAppWritable(db: Db, projectId: Id, a: App)
    requires AppWritable(db, a)
    ensures AppWritable(Strip(db, projectId), a)
  {
  }

  lemma StripLinks(db: Db, projectId: Id)
    requires LinksInApp(db, projectId)
    ensures LinksInApp(Strip(db, projectId), projectId)
  {
    hide Strip;
    StripTables(db, projectId);
    forall a, l | a in db.apps && AppsIn(projectId)(a) && l in db.lobbies && LobbiesIn(a.appId)(l)
      ensures LobbyLinksInApp(Strip(db, projectId), a.appId, l)
    {
      assert LobbyLinksInApp(db, a.appId, l);
    }
  }

  lemma StripAppTravels(db: Db, projectId: Id, a: App)
    ensures AppTravels(Strip(db, projectId), projectId, a)
  {
    hide Strip, StripActor;
    var sdb := Strip(db, projectId);
    forall g | g in sdb.roomGrants ensures GrantTravels(sdb, projectId, g) {
      StripMember(db, projectId, g);
      var h :| h in db.roomGrants && KeptRoomGrant(db, projectId)(h) && g == StripGrant(h);
      if h.actorTokenId.Some? {
        var b :| b in db.actors && ActorsIn(projectId)(b) && b.actorTokenId == h.actorTokenId.value;
        StripActorMember(db, projectId, StripActor(db)(b));
        StripActorSame(db, b);
        assert ActorsIn(projectId)(StripActor(db)(b));
      }
    }
  }

  lemma StripScoped(db: Db, projectId: Id, b: Actor)
    requires ActorsIn(projectId)(b) && forall s :: s in db.scopes && ScopesIn(projectId)(s) ==> s.slug != ""
    ensures ActorScoped(Strip(db, projectId), StripActor(db)(b))
  {
    var a := StripActor(db)(b);
    if a.scopeId.Some? {
      var s := FindFirst(db.scopes, LiveScopeOf(a.scopeId.value, a.projectId)).value;
      assert s in Strip(db, projectId).scopes && LiveScopeOf(a.scopeId.value, a.projectId)(s) && ScopesIn(projectId)(s);
    }
  }

  lemma StripInProject(db: Db, projectId: Id, a: Actor)
    requires Keyed(db) && a.projectId == projectId
    ensures GrantsInProject(Strip(db, projectId), a)
  {
    hide DistinctBy;
    var sdb := Strip(db, projectId);
    forall g, app | g in sdb.appGrants && app in sdb.apps && ActiveAppGrantFor(a.actorTokenId, app.appId)(g)
      ensures app.projectId == projectId
    {
      assert KeptAppGrant(db, projectId)(g);
      var other :| other in db.apps && AppsIn(projectId)(other) && other.appId == g.appId;
      DistinctByMember(db.apps, AppKey, other, app);
    }
  }

  /* ── the stripped project exports as the same document ───────────────── */

  lemma StripTypeGrants(db: Db, projectId: Id, r: Room)
    ensures RoomToDoc(Strip(db, projectId))(r) == RoomToDoc(db)(r)
  {
    var kept := Filter(db.roomGrants, KeptRoomGrant(db, projectId));
    FilterOfMap(kept, StripGrant, TypeGrantsOn(r.roomId), TypeGrantsOn(r.roomId));
    FilterFilter(db.roomGrants, KeptRoomGrant(db, projectId), TypeGrantsOn(r.roomId), TypeGrantsOn(r.roomId));
    var rows := Filter(db.roomGrants, TypeGrantsOn(r.roomId));
    assert Map(Map(rows, StripGrant), TypeGrantToDoc) == Map(rows, TypeGrantToDoc);
  }

  lemma {:induction false} StripRefPairs(db: Db, projectId: Id, apps: seq<App>)
    ensures RefPairs(Strip(db, projectId), apps) == RefPairs(db, apps)
  {
    hide Strip;
    StripTables(db, projectId);
    if apps != [] { StripRefPairs(db, projectId, apps[..|apps| - 1]); }
  }

  lemma StripAppDoc(db: Db, projectId: Id, refs: RoomRefs, a: App)
    ensures AppToDoc(Strip(db, projectId), refs, a) == AppToDoc(db, refs, a)
  {
    hide Strip, RoomToDoc;
    StripTables(db, projectId);
    var sdb := Strip(db, projectId);
    forall r ensures RoomToDoc(sdb)(r) == RoomToDoc(db)(r) { StripTypeGrants(db, projectId, r); }
    assert Map(AppRooms(sdb, a.appId), RoomToDoc(sdb)) == Map(AppRooms(db, a.appId), RoomToDoc(db));
    assert Map(AppLobbies(sdb, a.appId), LobbyToDoc(sdb, refs)) == Map(AppLobbies(db, a.appId), LobbyToDoc(db, refs));
  }

  lemma {:induction false} StripAppDocs(db: Db, projectId: Id, apps: seq<App>)
    ensures AppDocs(Strip(db, projectId), apps) == AppDocs(db, apps)
  {
    hide Strip, RefPairs, AppToDoc;
    if apps != [] {
      StripAppDocs(db, projectId, apps[..|apps| - 1]);
      StripRefPairs(db, projectId, apps);
      StripAppDoc(db, projectId, MapOf(RefPairs(db, apps)), apps[|apps| - 1]);
    }
  }

  lemma StripAppAccess(db: Db, projectId: Id, a: Actor)
    ensures FilterMap(Filter(Strip(db, projectId).appGrants, AppGrantsOf(a.actorTokenId)), AppGrantToDoc(AppSlugs(db, projectId)))
         == FilterMap(Filter(db.appGrants, AppGrantsOf(a.actorTokenId)), AppGrantToDoc(AppSlugs(db, projectId)))
  {
    hide AppSlugs;
    var p, k, f := AppGrantsOf(a.actorTokenId), KeptAppGrant(db, projectId), AppGrantToDoc(AppSlugs(db, projectId));
    var both := (g: AppGrant) => p(g) && k(g);
    FilterFilter(db.appGrants, k, p, both);
    FilterFilter(db.appGrants, p, k, both);
    forall g | g in Filter(db.appGrants, p) && !k(g) ensures f(g).None? {
      if g.appId in AppSlugs(db, projectId) { var app := AppSlugNames(db, projectId, g.appId); }
    }
    FilterMapFilter(Filter(db.appGrants, p), k, f);
  }

  lemma StripRoomAccess(db: Db, projectId: Id, a: Actor, refs: RoomRefs)
    requires a in db.actors && ActorsIn(projectId)(a)
    ensures FilterMap(Filter(Strip(db, projectId).roomGrants, RoomGrantsOf(a.actorTokenId)), RoomGrantToDoc(refs))
         == FilterMap(Filter(db.roomGrants, RoomGrantsOf(a.actorTokenId)), RoomGrantToDoc(refs))
  {
    var p, k := RoomGrantsOf(a.actorTokenId), KeptRoomGrant(db, projectId);
    FilterOfMap(Filter(db.roomGrants, k), StripGrant, p, p);
    FilterFilter(db.roomGrants, k, p, p);
    FilterMapOfMap(Filter(db.roomGrants, p), StripGrant, RoomGrantToDoc(refs), RoomGrantToDoc(refs));
  }

  lemma StripScopeSlug(db: Db, projectId: Id, a: Actor)
    requires a.projectId == projectId
    ensures (if StripActor(db)(a).scopeId.Some? then Lookup(ScopeSlugs(db, projectId), StripActor(db)(a).scopeId.value) else None)
         == (if a.scopeId.Some? then Lookup(ScopeSlugs(db, projectId), a.scopeId.value) else None)
  {
    hide ProjectScopes;
    var scopes := ProjectScopes(db, projectId);
    if a.scopeId.Some? && a.scopeId.value in ScopeSlugs(db, projectId) {
      var n :| 0 <= n < |scopes| && ScopePair(scopes[n]) == (a.scopeId.value, ScopeSlugs(db, projectId)[a.scopeId.value]);
      ProjectScopesMember(db, projectId, scopes[n]);
      assert LiveScopeOf(a.scopeId.value, a.projectId)(scopes[n]);
    }
  }

  lemma StripMaps(db: Db, projectId: Id)
    ensures ScopeSlugs(Strip(db, projectId), projectId) == ScopeSlugs(db, projectId)
    ensures AppSlugs(Strip(db, projectId), projectId) == AppSlugs(db, projectId)
    ensures AllRefs(Strip(db, projectId), projectId) == AllRefs(db, projectId)
  {
    hide Strip, RefPairs;
    StripTables(db, projectId);
    StripRefPairs(db, projectId, ProjectApps(db, projectId));
  }

  lemma StripActorDoc(db: Db, projectId: Id, a: Actor)
    requires a in db.actors && ActorsIn(projectId)(a)
    ensures ActorDocFn(Strip(db, projectId), projectId)(StripActor(db)(a)) == ActorDocFn(db, projectId)(a)
  {
    hide Strip, ScopeSlugs, AppSlugs, AllRefs, AppGrantToDoc, RoomGrantToDoc, AppGrantsOf, RoomGrantsOf;
    StripMaps(db, projectId);
    StripAppAccess(db, projectId, a);
    StripRoomAccess(db, projectId, a, AllRefs(db, projectId));
    StripScopeSlug(db, projectId, a);
  }

  lemma StripActors(db: Db, projectId: Id)
    ensures Map(ProjectActors(Strip(db, projectId), projectId), ActorDocFn(Strip(db, projectId), projectId))
         == Map(ProjectActors(db, projectId), ActorDocFn(db, projectId))
  {
    hide ActorDocFn, SortBy;
    var sdb, f := Strip(db, projectId), StripActor(db);
    var rows := Filter(db.actors, ActorsIn(projectId));
    FilterOfMap(db.actors, f, ActorsIn(projectId), ActorsIn(projectId));
    SortMap(rows, ActorRowKeyId, f, ActorRowKeyId);
    forall a | a in ProjectActors(db, projectId) ensures ActorDocFn(sdb, projectId)(f(a)) == ActorDocFn(db, projectId)(a) {
      ProjectActorsMember(db, projectId, a);
      StripActorDoc(db, projectId, a);
    }
    assert Map(Map(ProjectActors(db, projectId), f), ActorDocFn(sdb, projectId))
        == Map(ProjectActors(db, projectId), ActorDocFn(db, projectId));
  }

  /** Nothing that is stripped was in the document. */
  lemma StripExports(db: Db, projectId: Id)
    ensures Exported(Strip(db, projectId), projectId) == Exported(db, projectId)
  {
    hide Strip, ActorToDoc, AppDocs, AllRefs;
    StripTables(db, projectId);
    StripActors(db, projectId);
    StripAppDocs(db, projectId, ProjectApps(db, projectId));
  }

  /* ── what moving does to access ──────────────────────────────────────── */

  /**
   * Moving any project that can be written by slug, in whatever state its grants and
   * scopes are: the actor named by the returned credential gets exactly what the
   * stripped one had.
   */
  lemma MovedAccess(db: Db, projectId: Id, target: Db, mint: Mint, at: Time, keyConfigured: bool,
                    creds: Credentials, a: Actor, now: Time, pattern: string, permission: Permission)
    returns (c: Issued, b: Actor)
    requires Consistent(db, projectId) && Writable(db, projectId) && Exported(db, projectId).Some? && Target(target, mint)
    requires DocOf(db, projectId).signingKeys == [] || keyConfigured
    requires creds == AllIssued(DocOf(db, projectId), mint)
    requires a in db.actors && a.projectId == projectId && a.deletedAt.None?
    ensures CarriedBy(a, creds, c, Imported(target, DocOf(db, projectId), mint, at), b)
    ensures SessionGrants(Imported(target, DocOf(db, projectId), mint, at), b, now, pattern, permission) <==>
            SessionGrants(Strip(db, projectId), StripActor(db)(a), now, pattern, permission)
  {
    hide Consistent, Writable, Exported, Target, Imported, Strip, StripActor, SessionGrants, WellLinked, AllIssued;
    StripConsistent(db, projectId);
    StripWellLinked(db, projectId);
    StripExports(db, projectId);
    StripActorSame(db, a);
    StripActorMember(db, projectId, StripActor(db)(a));
    c, b := AccessSurvives(Strip(db, projectId), projectId, target, mint, at, keyConfigured, creds, StripActor(db)(a), now, pattern, permission);
  }

  /** Closed by grants none of which a document carries. */
  ghost predicate LosesPrivacy(db: Db, projectId: Id, roomId: Id) {
    && IsPrivate(db, roomId)
    && forall g :: g in db.roomGrants && GrantsOn(roomId)(g) ==> !KeptRoomGrant(db, projectId)(g)
  }

  /** The actor's type decides, and its grant has run out. */
  predicate SpentTypeGrant(q: Request, roomId: Id) {
    var g := EffectiveGrant(q.db, q.actor, roomId);
    g.Some? && g.value.actorTokenId.None? && Expired(g.value.expiresAt, q.now)
  }

  lemma StripPrivacy(db: Db, projectId: Id, roomId: Id)
    ensures IsPrivate(Strip(db, projectId), roomId) <==>
            exists g :: g in db.roomGrants && GrantsOn(roomId)(g) && KeptRoomGrant(db, projectId)(g)
  {
    hide Strip, KeptRoomGrant;
    if IsPrivate(Strip(db, projectId), roomId) {
      var g := FindFirst(Strip(db, projectId).roomGrants, GrantsOn(roomId)).value;
      StripMember(db, projectId, g);
      var h :| h in db.roomGrants && KeptRoomGrant(db, projectId)(h) && g == StripGrant(h);
      StripGrantSame(h);
      assert GrantsOn(roomId)(h);
    }
    if h :| h in db.roomGrants && GrantsOn(roomId)(h) && KeptRoomGrant(db, projectId)(h) {
      StripMember(db, projectId, StripGrant(h));
      StripGrantSame(h);
      assert GrantsOn(roomId)(StripGrant(h));
    }
  }

  /** A query that returns no grant to an outsider returns the same grants, stripped. */
  lemma StripFinds(db: Db, projectId: Id, p: RoomGrant -> bool)
    requires forall g :: g in db.roomGrants && p(g) ==> KeptRoomGrant(db, projectId)(g)
    requires forall g :: p(StripGrant(g)) == p(g)
    ensures FindLast(Strip(db, projectId).roomGrants, p) ==
            match FindLast(db.roomGrants, p) case None => None case Some(g) => Some(StripGrant(g))
    ensures FindFirst(Strip(db, projectId).roomGrants, p) ==
            match FindFirst(db.roomGrants, p) case None => None case Some(g) => Some(StripGrant(g))
  {
    hide KeptRoomGrant, StripGrant;
    var k := KeptRoomGrant(db, projectId);
    FindLastOfMap(Filter(db.roomGrants, k), StripGrant, p, p);
    FindFirstOfMap(Filter(db.roomGrants, k), StripGrant, p, p);
    FindLastFilter(db.roomGrants, k, p, p);
    FindFirstFilter(db.roomGrants, k, p, p);
  }

  lemma StripEffective(db: Db, projectId: Id, a: Actor, roomId: Id)
    requires a in db.actors && ActorsIn(projectId)(a)
    ensures EffectiveGrant(Strip(db, projectId), StripActor(db)(a), roomId) ==
            match EffectiveGrant(db, a, roomId) case None => None case Some(g) => Some(StripGrant(g))
  {
    hide Strip, StripGrant, StripActor, KeptRoomGrant;
    StripNamed(db, projectId, a, roomId);
    StripTyped(db, projectId, a, roomId);
    StripActorSame(db, a);
    assert StripActor(db)(a).actorType == a.actorType by { StripActorType(db, a); }
  }

  lemma StripActorType(db: Db, a: Actor)
    ensures StripActor(db)(a).actorType == a.actorType
  {
  }

  lemma StripNamed(db: Db, projectId: Id, a: Actor, roomId: Id)
    requires a in db.actors && ActorsIn(projectId)(a)
    ensures FindLast(Strip(db, projectId).roomGrants, NamedActive(roomId, a.actorTokenId)) ==
            match FindLast(db.roomGrants, NamedActive(roomId, a.actorTokenId)) case None => None case Some(g) => Some(StripGrant(g))
  {
    hide Strip;
    StripFinds(db, projectId, NamedActive(roomId, a.actorTokenId));
  }

  lemma StripTyped(db: Db, projectId: Id, a: Actor, roomId: Id)
    ensures FindFirst(Strip(db, projectId).roomGrants, TypeActive(roomId, a.actorType)) ==
            match FindFirst(db.roomGrants, TypeActive(roomId, a.actorType)) case None => None case Some(g) => Some(StripGrant(g))
  {
    hide Strip;
    StripFinds(db, projectId, TypeActive(roomId, a.actorType));
  }

  /** A stripped room decision differs exactly when the room loses its privacy or a spent type grant comes back to life. */
  lemma RoomDecisionKeptIff(db: Db, projectId: Id, a: Actor, scope: ResolvedScope, now: Time, access: AppAccess, room: Room)
    requires a in db.actors && ActorsIn(projectId)(a)
    ensures DecideRoom(Request(Strip(db, projectId), StripActor(db)(a), scope, now), access, room)
         == DecideRoom(Request(db, a, scope, now), access, room)
       <==> !LosesPrivacy(db, projectId, room.roomId)
            && !SpentTypeGrant(Request(db, a, scope, now), room.roomId)
  {
    hide Strip, StripActor, KeptRoomGrant, EffectiveGrant;
    StripPrivacy(db, projectId, room.roomId);
    StripEffective(db, projectId, a, room.roomId);
    EffectiveKept(db, projectId, a, room.roomId);
  }

  lemma EffectiveKept(db: Db, projectId: Id, a: Actor, roomId: Id)
    requires a in db.actors && ActorsIn(projectId)(a)
    ensures var g := EffectiveGrant(db, a, roomId);
            g.Some? ==> g.value in db.roomGrants && GrantsOn(roomId)(g.value) && KeptRoomGrant(db, projectId)(g.value)
  {
  }

  /** A refused actor is admitted after the move exactly when its scope was gone, not merely inactive. */
  lemma ScopeKeptIff(db: Db, projectId: Id, a: Actor)
    ensures ResolveScope(Strip(db, projectId), StripActor(db)(a)) == ResolveScope(db, a)
       <==> (a.scopeId.Some? ==> exists s :: s in db.scopes && LiveScopeOf(a.scopeId.value, a.projectId)(s))
  {
    hide Strip;
    StripTables(db, projectId);
  }

  /** App by app, an actor keeps its access inside the project and loses it everywhere else. */
  lemma AppRuleKeptIff(db: Db, projectId: Id, a: Actor, scope: ResolvedScope, now: Time,
                       app: App, permission: Permission, topics: Option<seq<string>>)
    requires Keyed(db) && a.projectId == projectId && app in db.apps && app.deletedAt.None?
    ensures AppRule(Request(Strip(db, projectId), StripActor(db)(a), scope, now), app, permission, topics) <==>
            app.projectId == projectId && AppRule(Request(db, a, scope, now), app, permission, topics)
  {
    hide DistinctBy;
    var sdb := Strip(db, projectId);
    forall g | g in db.appGrants && ActiveAppGrantFor(a.actorTokenId, app.appId)(g)
      ensures g in sdb.appGrants <==> app.projectId == projectId
    {
      if other :| other in db.apps && AppsIn(projectId)(other) && other.appId == g.appId {
        DistinctByMember(db.apps, AppKey, other, app);
      }
    }
  }

  /* ── one project that loses both ─────────────────────────────────────── */

  const EXAMPLE_ACTOR := Actor("a", "p", "k", "h", "", User, ActorActive, None, None, None, None)
  const EXAMPLE_ROOM := Room("r", "app", "r", "", None, RoomActive, None, None, None)

  /** One room, closed by a single grant. */
  function ExampleDb(g: RoomGrant): Db {
    Db([], [], [], [EXAMPLE_ROOM], [], [], [EXAMPLE_ACTOR], [], [g], [])
  }

  const STRANGER := RoomGrant("g", "r", Some("x"), None, PubSub, None, true, None, None, None, None)
  const SPENT := RoomGrant("g", "r", None, Some(User), PubSub, None, true, Some(0), None, None, None)

  /** A room reserved for a stranger opens to everyone; a lapsed type grant admits again. */
  lemma ExampleLosses(scope: ResolvedScope, access: AppAccess)
    ensures var db := ExampleDb(STRANGER);
            && DecideRoom(Request(db, EXAMPLE_ACTOR, scope, 1), access, EXAMPLE_ROOM).None?
            && DecideRoom(Request(Strip(db, "p"), StripActor(db)(EXAMPLE_ACTOR), scope, 1), access, EXAMPLE_ROOM).Some?
    ensures var db := ExampleDb(SPENT);
            && DecideRoom(Request(db, EXAMPLE_ACTOR, scope, 1), access, EXAMPLE_ROOM).None?
            && DecideRoom(Request(Strip(db, "p"), StripActor(db)(EXAMPLE_ACTOR), scope, 1), access, EXAMPLE_ROOM).Some?
  {
    hide Strip;
    assert GrantsOn("r")(STRANGER) && !KeptRoomGrant(ExampleDb(STRANGER), "p")(STRANGER);
    RoomDecisionKeptIff(ExampleDb(STRANGER), "p", EXAMPLE_ACTOR, scope, 1, access, EXAMPLE_ROOM);
    assert TypeActive("r", User)(SPENT) && GrantsOn("r")(SPENT) && Expired(SPENT.expiresAt, 1);
    assert SpentTypeGrant(Request(ExampleDb(SPENT), EXAMPLE_ACTOR, scope, 1), "r");
    RoomDecisionKeptIff(ExampleDb(SPENT), "p", EXAMPLE_ACTOR, scope, 1, access, EXAMPLE_ROOM);
  }
}
