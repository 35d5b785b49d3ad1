/** What an export writes down is what the resolver grants. */
module ExportMeaning {
  import opened Prelude
  import opened Schema
  import opened ProjectDoc
  import opened Resolution
  import opened Authz
  import opened RoomCheck
  import opened ProjectExport
  import opened ExportRefs
  import opened DocAccess

  ghost predicate ActorScoped(db: Db, a: Actor) {
    a.scopeId.Some? ==> exists s :: s in db.scopes && LiveScopeOf(a.scopeId.value, a.projectId)(s) && s.slug != ""
  }

  ghost predicate NamesActorOf(db: Db, projectId: Id, actorTokenId: Id) {
    exists a :: a in db.actors && ActorsIn(projectId)(a) && a.actorTokenId == actorTokenId
  }

  /** A document can say it: a type grant without an expiry, or a grant to a live actor of the project. */
  ghost predicate GrantTravels(db: Db, projectId: Id, g: RoomGrant) {
    if g.actorTokenId.None? then g.expiresAt.None? else NamesActorOf(db, projectId, g.actorTokenId.value)
  }

  ghost predicate RoomTravels(db: Db, projectId: Id, r: Room) {
    forall g :: g in db.roomGrants && GrantsOn(r.roomId)(g) ==> GrantTravels(db, projectId, g)
  }

  predicate Segmented(slug: string) { slug != "" && '/' !in slug }

  ghost predicate AppWritable(db: Db, a: App) {
    Segmented(a.slug) && forall r :: r in db.rooms && RoomsIn(a.appId)(r) ==> '/' !in r.slug
  }

  /** The project's scopes, apps, rooms and lobbies can be written by slug. */
  ghost predicate Writable(db: Db, projectId: Id) {
    && LinksInApp(db, projectId)
    && (forall s :: s in db.scopes && ScopesIn(projectId)(s) ==> s.slug != "")
    && (forall a :: a in db.apps && AppsIn(projectId)(a) ==> AppWritable(db, a))
  }

  /** Every grant on the app's rooms can be written in a document. */
  ghost predicate AppTravels(db: Db, projectId: Id, a: App) {
    forall r :: r in db.rooms && RoomsIn(a.appId)(r) ==> RoomTravels(db, projectId, r)
  }

  /** Everything that decides access within the project is linked within the project and can be written by slug. */
  ghost predicate WellLinked(db: Db, projectId: Id) {
    && Writable(db, projectId)
    && (forall a :: a in db.apps && AppsIn(projectId)(a) ==> AppTravels(db, projectId, a))
    && (forall a :: a in db.actors && ActorsIn(projectId)(a) ==> ActorScoped(db, a) && GrantsInProject(db, a))
  }

  /** Keys and slugs of the database are in order, and so are the grant targets of this project. */
  ghost predicate Consistent(db: Db, projectId: Id) {
    Keyed(db) && UniqueLiveSlugs(db) && OneGrantInProject(db, projectId)
  }

  /* ── the document's apps, rooms and actors are the project's ─────────── */

  /** The document an existing project exports as. */
  function DocOf(db: Db, projectId: Id): Doc
    requires Exported(db, projectId).Some?
  {
    Exported(db, projectId).value
  }

  lemma DocParts(db: Db, projectId: Id)
    requires Keyed(db) && LinksInApp(db, projectId) && Exported(db, projectId).Some?
    ensures var d := DocOf(db, projectId);
            && d.version == DOC_VERSION
            && d.apps == Map(ProjectApps(db, projectId), AppDocFn(db, AllRefs(db, projectId)))
            && d.actors == Map(ProjectActors(db, projectId), ActorDocFn(db, projectId))
            && d.accessScopes == Map(ProjectScopes(db, projectId), ScopeToDoc)
            && d.signingKeys == Map(ProjectKeys(db, projectId), KeyToDoc)
  {
    hide Keyed, AppDocs, ProjectApps, ProjectActors, ProjectScopes, ProjectKeys, ActorToDoc, AppToDoc, RefPairs, LinksInApp;
    forall a | a in ProjectApps(db, projectId) ensures a in db.apps && AppsIn(projectId)(a) { ProjectAppsMember(db, projectId, a); }
    AppDocsUniform(db, projectId, ProjectApps(db, projectId), ProjectApps(db, projectId));
  }

  function AppDocOf(db: Db, projectId: Id, a: App): AppDoc {
    AppToDoc(db, AllRefs(db, projectId), a)
  }

  lemma DocApp(db: Db, projectId: Id, a: App)
    requires Keyed(db) && LinksInApp(db, projectId) && Exported(db, projectId).Some?
    requires a in db.apps && AppsIn(projectId)(a)
    ensures AppDocOf(db, projectId, a) in DocOf(db, projectId).apps
  {
    hide Keyed, DocOf, ProjectApps, AppToDoc, LinksInApp, AllRefs;
    DocParts(db, projectId);
    ProjectAppsMember(db, projectId, a);
    MapMember(ProjectApps(db, projectId), AppDocFn(db, AllRefs(db, projectId)), AppDocOf(db, projectId, a));
    assert AppDocFn(db, AllRefs(db, projectId))(a) == AppDocOf(db, projectId, a);
  }

  lemma DocAppFrom(db: Db, projectId: Id, x: AppDoc) returns (a: App)
    requires Keyed(db) && LinksInApp(db, projectId) && Exported(db, projectId).Some?
    requires x in DocOf(db, projectId).apps
    ensures a in db.apps && AppsIn(projectId)(a) && x == AppDocOf(db, projectId, a)
  {
    hide Keyed, DocOf, ProjectApps, AppToDoc, LinksInApp, AllRefs;
    DocParts(db, projectId);
    MapMember(ProjectApps(db, projectId), AppDocFn(db, AllRefs(db, projectId)), x);
    a :| a in ProjectApps(db, projectId) && AppDocFn(db, AllRefs(db, projectId))(a) == x;
    ProjectAppsMember(db, projectId, a);
  }

  lemma AppDocFields(db: Db, projectId: Id, a: App)
    ensures var x := AppDocOf(db, projectId, a);
            x.slug == a.slug && x.status == Some(a.status) && x.accessMode == Some(a.accessMode) && x.topics == a.topics.GetOr([])
  {
  }

  lemma DocRoom(db: Db, projectId: Id, a: App, x: RoomDoc)
    ensures x in AppDocOf(db, projectId, a).rooms <==> exists r :: r in db.rooms && RoomsIn(a.appId)(r) && x == RoomToDoc(db)(r)
  {
    hide AppRooms, RoomToDoc, AppLobbies, LobbyToDoc;
    MapMember(AppRooms(db, a.appId), RoomToDoc(db), x);
    forall r ensures r in AppRooms(db, a.appId) <==> r in db.rooms && RoomsIn(a.appId)(r) { AppRoomsMember(db, a.appId, r); }
  }

  lemma DocActor(db: Db, projectId: Id, x: ActorDoc)
    requires Keyed(db) && LinksInApp(db, projectId) && Exported(db, projectId).Some?
    ensures x in DocOf(db, projectId).actors <==>
            exists a :: a in db.actors && ActorsIn(projectId)(a) && x == ActorDocFn(db, projectId)(a)
  {
    hide Keyed, DocOf, ProjectActors, ActorDocFn, LinksInApp;
    DocParts(db, projectId);
    MapMember(ProjectActors(db, projectId), ActorDocFn(db, projectId), x);
    forall a ensures a in ProjectActors(db, projectId) <==> a in db.actors && ActorsIn(projectId)(a) {
      ProjectActorsMember(db, projectId, a);
    }
  }

  /* ── app level ───────────────────────────────────────────────────────── */

  /** The document form of the actor's stored grants on one app of the project. */
  lemma AppGrantDocs(db: Db, projectId: Id, actor: Actor, app: App, d: AppGrantDoc)
    requires Keyed(db) && UniqueLiveSlugs(db) && app in db.apps && AppsIn(projectId)(app) && app.slug != ""
    ensures (d in ActorDocFn(db, projectId)(actor).appAccess && d.appSlug == app.slug) <==>
            (exists g :: g in db.appGrants && AppGrantsOf(actor.actorTokenId)(g) && g.appId == app.appId
                      && d == AppGrantDoc(app.slug, g.permission, g.topics, Some(g.isActive), g.expiresAt))
  {
    hide Keyed, AllRefs, ScopeSlugs, AppSlugs, RoomGrantToDoc;
    var slugs := AppSlugs(db, projectId);
    AppSlugKnown(db, projectId, app);
    FilterMapMember(Filter(db.appGrants, AppGrantsOf(actor.actorTokenId)), AppGrantToDoc(slugs), d);
    if d in ActorDocFn(db, projectId)(actor).appAccess && d.appSlug == app.slug {
      var g :| g in Filter(db.appGrants, AppGrantsOf(actor.actorTokenId)) && AppGrantToDoc(slugs)(g) == Some(d);
      var other := AppSlugNames(db, projectId, g.appId);
      assert SameLiveApp(other, app);
    }
  }

  lemma AppHeldIff(q: Request, projectId: Id, app: App, permission: Permission, topics: Option<seq<string>>)
    requires Keyed(q.db) && UniqueLiveSlugs(q.db) && app in q.db.apps && AppsIn(projectId)(app) && app.slug != ""
    ensures HoldsAppGrant(q, app, permission, topics) <==>
            DocHoldsAppGrant(ActorDocFn(q.db, projectId)(q.actor), app.slug, q.now, permission, topics)
  {
    hide Keyed, UniqueLiveSlugs, ActorDocFn;
    var ad := ActorDocFn(q.db, projectId)(q.actor);
    if HoldsAppGrant(q, app, permission, topics) {
      var g :| g in q.db.appGrants && Admits(q, g, app) && g.permission == permission && g.topics == topics;
      AppGrantDocs(q.db, projectId, q.actor, app, AppGrantDoc(app.slug, g.permission, g.topics, Some(g.isActive), g.expiresAt));
    }
    if DocHoldsAppGrant(ad, app.slug, q.now, permission, topics) {
      var d :| d in ad.appAccess && d.appSlug == app.slug && On(d.isActive) && !Expired(d.expiresAt, q.now)
            && d.permission == permission && d.topics == topics;
      AppGrantDocs(q.db, projectId, q.actor, app, d);
    }
  }

  lemma AnyAppGrantIff(q: Request, projectId: Id, app: App)
    requires Keyed(q.db) && UniqueLiveSlugs(q.db) && app in q.db.apps && AppsIn(projectId)(app) && app.slug != ""
    ensures HoldsAnyAppGrant(q, app) <==> DocHoldsAnyAppGrant(ActorDocFn(q.db, projectId)(q.actor), app.slug, q.now)
  {
    hide Keyed, UniqueLiveSlugs, ActorDocFn;
    var ad := ActorDocFn(q.db, projectId)(q.actor);
    if HoldsAnyAppGrant(q, app) {
      var g :| g in q.db.appGrants && Admits(q, g, app);
      AppHeldIff(q, projectId, app, g.permission, g.topics);
    }
    if DocHoldsAnyAppGrant(ad, app.slug, q.now) {
      var d :| d in ad.appAccess && d.appSlug == app.slug && On(d.isActive) && !Expired(d.expiresAt, q.now);
      AppHeldIff(q, projectId, app, d.permission, d.topics);
    }
  }

  lemma AppRuleIff(q: Request, app: App, permission: Permission, topics: Option<seq<string>>)
    requires Keyed(q.db) && UniqueLiveSlugs(q.db) && app in q.db.apps && AppsIn(q.actor.projectId)(app) && app.slug != ""
    ensures AppRule(q, app, permission, topics) <==>
            DocAppRule(ActorDocFn(q.db, q.actor.projectId)(q.actor), q.now, AppDocOf(q.db, q.actor.projectId, app), permission, topics)
  {
    hide Keyed, UniqueLiveSlugs, ActorDocFn, AppDocOf, HoldsAppGrant, HoldsAnyAppGrant, DocHoldsAppGrant, DocHoldsAnyAppGrant;
    AppDocFields(q.db, q.actor.projectId, app);
    AppHeldIff(q, q.actor.projectId, app, permission, topics);
    AnyAppGrantIff(q, q.actor.projectId, app);
  }

  /* ── room level ──────────────────────────────────────────────────────── */

  /** The document form of an actor's own grants on one room of the project. */
  lemma RoomGrantDocs(db: Db, projectId: Id, actor: Actor, app: App, room: Room, d: RoomGrantDoc)
    requires Keyed(db) && UniqueLiveSlugs(db) && app in db.apps && AppsIn(projectId)(app)
    requires room in db.rooms && RoomsIn(app.appId)(room)
    ensures (d in ActorDocFn(db, projectId)(actor).roomAccess && GrantNames(d, app.slug, room.slug)) <==>
            (exists g :: g in db.roomGrants && RoomGrantsOf(actor.actorTokenId)(g) && g.roomId == room.roomId
                      && d == RoomGrantDoc(app.slug, room.slug, g.permission, g.topics, Some(g.isActive), g.expiresAt, g.role))
  {
    hide Keyed, RefPairs, ScopeSlugs, AppSlugs, AppGrantToDoc, ProjectApps;
    var apps, refs := ProjectApps(db, projectId), AllRefs(db, projectId);
    forall x ensures x in apps <==> x in db.apps && AppsIn(projectId)(x) { ProjectAppsMember(db, projectId, x); }
    RefKnown(db, apps, app, room);
    FilterMapMember(Filter(db.roomGrants, RoomGrantsOf(actor.actorTokenId)), RoomGrantToDoc(refs), d);
    if d in ActorDocFn(db, projectId)(actor).roomAccess && GrantNames(d, app.slug, room.slug) {
      var g :| g in Filter(db.roomGrants, RoomGrantsOf(actor.actorTokenId)) && RoomGrantToDoc(refs)(g) == Some(d);
      var a, r := RefNamed(db, apps, g.roomId);
      assert SameLiveApp(a, app) && SameLiveRoom(r, room);
    }
  }

  lemma NamesRoomIff(db: Db, projectId: Id, actor: Actor, app: App, room: Room)
    requires Keyed(db) && UniqueLiveSlugs(db) && app in db.apps && AppsIn(projectId)(app)
    requires room in db.rooms && RoomsIn(app.appId)(room)
    ensures NamesRoom(ActorDocFn(db, projectId)(actor), app.slug, room.slug) <==>
            exists g :: g in db.roomGrants && GrantsOn(room.roomId)(g) && g.actorTokenId == Some(actor.actorTokenId)
  {
    hide Keyed, UniqueLiveSlugs, ActorDocFn;
    var ad := ActorDocFn(db, projectId)(actor);
    if d :| d in ad.roomAccess && GrantNames(d, app.slug, room.slug) {
      RoomGrantDocs(db, projectId, actor, app, room, d);
    }
    if g :| g in db.roomGrants && GrantsOn(room.roomId)(g) && g.actorTokenId == Some(actor.actorTokenId) {
      var d := RoomGrantDoc(app.slug, room.slug, g.permission, g.topics, Some(g.isActive), g.expiresAt, g.role);
      RoomGrantDocs(db, projectId, actor, app, room, d);
      assert d in ad.roomAccess && GrantNames(d, app.slug, room.slug);
    }
  }

  lemma TypeGrantDocs(db: Db, room: Room, d: TypeGrantDoc)
    ensures d in RoomToDoc(db)(room).typeGrants <==>
            exists g :: g in db.roomGrants && TypeGrantsOn(room.roomId)(g) && TypeGrantToDoc(g) == d
    ensures RoomToDoc(db)(room).typeGrants == [] <==> forall g :: g in db.roomGrants ==> !TypeGrantsOn(room.roomId)(g)
  {
    var rows := Filter(db.roomGrants, TypeGrantsOn(room.roomId));
    MapMember(rows, TypeGrantToDoc, d);
    if rows != [] { assert rows[0] in rows; }
  }

  /** A re-imported room is closed exactly when a type grant or a live project actor's grant closed it. */
  lemma PrivateIff(db: Db, projectId: Id, app: App, room: Room)
    requires Keyed(db) && UniqueLiveSlugs(db) && LinksInApp(db, projectId) && Exported(db, projectId).Some?
    requires app in db.apps && AppsIn(projectId)(app) && room in db.rooms && RoomsIn(app.appId)(room)
    ensures DocPrivate(DocOf(db, projectId), app.slug, RoomToDoc(db)(room)) <==>
            exists g :: g in db.roomGrants && GrantsOn(room.roomId)(g)
                     && (g.actorTokenId.None? || NamesActorOf(db, projectId, g.actorTokenId.value))
  {
    hide Keyed, UniqueLiveSlugs, LinksInApp, DocOf, ActorDocFn, NamesRoom, RoomToDoc, Exported;
    var d, x := DocOf(db, projectId), RoomToDoc(db)(room);
    assert x.slug == room.slug by { RoomDocFields(db, room); }
    TypeGrantDocs(db, room, TypeGrantDoc(None, PubSub, None, None));
    if ad :| ad in d.actors && NamesRoom(ad, app.slug, room.slug) {
      DocActor(db, projectId, ad);
      var a :| a in db.actors && ActorsIn(projectId)(a) && ad == ActorDocFn(db, projectId)(a);
      NamesRoomIff(db, projectId, a, app, room);
      var g :| g in db.roomGrants && GrantsOn(room.roomId)(g) && g.actorTokenId == Some(a.actorTokenId);
      assert NamesActorOf(db, projectId, g.actorTokenId.value);
    }
    if g :| g in db.roomGrants && GrantsOn(room.roomId)(g) && g.actorTokenId.Some? && NamesActorOf(db, projectId, g.actorTokenId.value) {
      var a :| a in db.actors && ActorsIn(projectId)(a) && a.actorTokenId == g.actorTokenId.value;
      DocActor(db, projectId, ActorDocFn(db, projectId)(a));
      NamesRoomIff(db, projectId, a, app, room);
    }
    if g :| g in db.roomGrants && GrantsOn(room.roomId)(g) && g.actorTokenId.None? {
      assert TypeGrantsOn(room.roomId)(g);
    }
    if h :| h in db.roomGrants && TypeGrantsOn(room.roomId)(h) {
      assert GrantsOn(room.roomId)(h);
    }
  }

  lemma RoomDocFields(db: Db, room: Room)
    ensures RoomToDoc(db)(room).slug == room.slug && RoomToDoc(db)(room).status == Some(room.status)
  {
  }

  /** The actor's own unexpired grant on the room, and what it gives. */
  ghost predicate NamedRule(q: Request, app: App, room: Room, ra: RoomAccess) {
    exists g :: g in q.db.roomGrants && NamedActive(room.roomId, q.actor.actorTokenId)(g) && !Expired(g.expiresAt, q.now)
             && ra == RoomAccess(g.permission, g.topics.OrElse(app.topics).GetOr([]))
  }

  ghost predicate HasNamed(q: Request, room: Room) {
    exists g :: g in q.db.roomGrants && NamedActive(room.roomId, q.actor.actorTokenId)(g)
  }

  ghost predicate TypeRule(q: Request, app: App, room: Room, ra: RoomAccess) {
    && !HasNamed(q, room)
    && exists g :: g in q.db.roomGrants && TypeActive(room.roomId, q.actor.actorType)(g) && !Expired(g.expiresAt, q.now)
                && ra == RoomAccess(g.permission, g.topics.OrElse(app.topics).GetOr([]))
  }

  lemma RoomRuleSplit(q: Request, access: AppAccess, room: Room, ra: RoomAccess)
    ensures RoomRule(q, access, room, ra) <==>
            if forall g :: g in q.db.roomGrants ==> !GrantsOn(room.roomId)(g)
            then ra == RoomAccess(access.permission, access.topics.OrElse(access.app.topics).GetOr([]))
            else NamedRule(q, access.app, room, ra) || TypeRule(q, access.app, room, ra)
  {
    if RoomRule(q, access, room, ra) && !(forall g :: g in q.db.roomGrants ==> !GrantsOn(room.roomId)(g)) {
      var g :| SpeaksFor(q, room.roomId, g) && !Expired(g.expiresAt, q.now)
            && ra == RoomAccess(g.permission, g.topics.OrElse(access.app.topics).GetOr([]));
    }
    if NamedRule(q, access.app, room, ra) {
      var g :| g in q.db.roomGrants && NamedActive(room.roomId, q.actor.actorTokenId)(g) && !Expired(g.expiresAt, q.now)
            && ra == RoomAccess(g.permission, g.topics.OrElse(access.app.topics).GetOr([]));
      assert GrantsOn(room.roomId)(g) && SpeaksFor(q, room.roomId, g);
    }
    if TypeRule(q, access.app, room, ra) {
      var g :| g in q.db.roomGrants && TypeActive(room.roomId, q.actor.actorType)(g) && !Expired(g.expiresAt, q.now)
            && ra == RoomAccess(g.permission, g.topics.OrElse(access.app.topics).GetOr([]));
      assert GrantsOn(room.roomId)(g) && SpeaksFor(q, room.roomId, g);
    }
  }

  ghost predicate RoomOfProject(db: Db, projectId: Id, app: App, room: Room) {
    app in db.apps && AppsIn(projectId)(app) && room in db.rooms && RoomsIn(app.appId)(room)
  }

  lemma NamedRuleIff(q: Request, app: App, room: Room, ra: RoomAccess)
    requires Keyed(q.db) && UniqueLiveSlugs(q.db) && RoomOfProject(q.db, q.actor.projectId, app, room)
    ensures var ad := ActorDocFn(q.db, q.actor.projectId)(q.actor);
            && (NamedRule(q, app, room, ra) <==>
                DocNamedRule(ad, q.now, AppDocOf(q.db, q.actor.projectId, app), RoomToDoc(q.db)(room), ra))
            && (HasNamed(q, room) <==> exists d :: DocNamed(ad, app.slug, room.slug, d))
  {
    hide Keyed, UniqueLiveSlugs, ActorDocFn, AppDocOf, RoomToDoc;
    var pid := q.actor.projectId;
    var ad, x, y := ActorDocFn(q.db, pid)(q.actor), AppDocOf(q.db, pid, app), RoomToDoc(q.db)(room);
    AppDocFields(q.db, pid, app);
    RoomDocFields(q.db, room);
    forall g | g in q.db.roomGrants && NamedActive(room.roomId, q.actor.actorTokenId)(g)
      ensures DocNamed(ad, app.slug, room.slug,
                RoomGrantDoc(app.slug, room.slug, g.permission, g.topics, Some(g.isActive), g.expiresAt, g.role))
    {
      RoomGrantDocs(q.db, pid, q.actor, app, room,
        RoomGrantDoc(app.slug, room.slug, g.permission, g.topics, Some(g.isActive), g.expiresAt, g.role));
    }
    forall d | DocNamed(ad, app.slug, room.slug, d)
      ensures exists g :: g in q.db.roomGrants && NamedActive(room.roomId, q.actor.actorTokenId)(g)
                       && d == RoomGrantDoc(app.slug, room.slug, g.permission, g.topics, Some(g.isActive), g.expiresAt, g.role)
    {
      RoomGrantDocs(q.db, pid, q.actor, app, room, d);
      var g :| g in q.db.roomGrants && RoomGrantsOf(q.actor.actorTokenId)(g) && g.roomId == room.roomId
            && d == RoomGrantDoc(app.slug, room.slug, g.permission, g.topics, Some(g.isActive), g.expiresAt, g.role);
      assert NamedActive(room.roomId, q.actor.actorTokenId)(g);
    }
    if NamedRule(q, app, room, ra) {
      var g :| g in q.db.roomGrants && NamedActive(room.roomId, q.actor.actorTokenId)(g) && !Expired(g.expiresAt, q.now)
            && ra == RoomAccess(g.permission, g.topics.OrElse(app.topics).GetOr([]));
      var d := RoomGrantDoc(app.slug, room.slug, g.permission, g.topics, Some(g.isActive), g.expiresAt, g.role);
      assert DocNamed(ad, x.slug, y.slug, d);
    }
    if DocNamedRule(ad, q.now, x, y, ra) {
      var d :| DocNamed(ad, x.slug, y.slug, d) && !Expired(d.expiresAt, q.now)
            && ra == RoomAccess(d.permission, d.topics.GetOr(x.topics));
      var g :| g in q.db.roomGrants && NamedActive(room.roomId, q.actor.actorTokenId)(g)
            && d == RoomGrantDoc(app.slug, room.slug, g.permission, g.topics, Some(g.isActive), g.expiresAt, g.role);
    }
  }

  lemma ActorDocType(db: Db, projectId: Id, a: Actor)
    ensures ActorDocFn(db, projectId)(a).actorType == a.actorType && ActorDocFn(db, projectId)(a).ref == a.keyId
  {
  }

  lemma TypeRuleIff(q: Request, app: App, room: Room, ra: RoomAccess)
    requires Keyed(q.db) && UniqueLiveSlugs(q.db) && RoomOfProject(q.db, q.actor.projectId, app, room)
    requires RoomTravels(q.db, q.actor.projectId, room)
    ensures TypeRule(q, app, room, ra) <==>
            DocTypeRule(ActorDocFn(q.db, q.actor.projectId)(q.actor), AppDocOf(q.db, q.actor.projectId, app), RoomToDoc(q.db)(room), ra)
  {
    hide Keyed, UniqueLiveSlugs, ActorDocFn, AppDocOf, RoomToDoc, HasNamed, DocNamed;
    var pid := q.actor.projectId;
    var ad, x, y := ActorDocFn(q.db, pid)(q.actor), AppDocOf(q.db, pid, app), RoomToDoc(q.db)(room);
    NamedRuleIff(q, app, room, ra);
    AppDocFields(q.db, pid, app);
    RoomDocFields(q.db, room);
    ActorDocType(q.db, pid, q.actor);
    forall d ensures d in y.typeGrants <==> exists g :: g in q.db.roomGrants && TypeGrantsOn(room.roomId)(g) && TypeGrantToDoc(g) == d {
      TypeGrantDocs(q.db, room, d);
    }
    if TypeRule(q, app, room, ra) {
      var g :| g in q.db.roomGrants && TypeActive(room.roomId, q.actor.actorType)(g) && !Expired(g.expiresAt, q.now)
            && ra == RoomAccess(g.permission, g.topics.OrElse(app.topics).GetOr([]));
      assert TypeGrantsOn(room.roomId)(g) && TypeGrantToDoc(g) in y.typeGrants;
    }
    if DocTypeRule(ad, x, y, ra) {
      var d :| d in y.typeGrants && d.actorType == Some(ad.actorType) && On(d.isActive)
            && ra == RoomAccess(d.permission, d.topics.GetOr(x.topics));
      var g :| g in q.db.roomGrants && TypeGrantsOn(room.roomId)(g) && TypeGrantToDoc(g) == d;
      assert GrantsOn(room.roomId)(g) && TypeActive(room.roomId, q.actor.actorType)(g);
    }
  }

  lemma RoomRuleIff(q: Request, access: AppAccess, room: Room, ra: RoomAccess)
    requires Keyed(q.db) && UniqueLiveSlugs(q.db) && LinksInApp(q.db, q.actor.projectId)
    requires Exported(q.db, q.actor.projectId).Some? && RoomOfProject(q.db, q.actor.projectId, access.app, room)
    requires RoomTravels(q.db, q.actor.projectId, room)
    ensures RoomRule(q, access, room, ra) <==>
            DocRoomRule(DocOf(q.db, q.actor.projectId), ActorDocFn(q.db, q.actor.projectId)(q.actor), q.now,
                        AppDocOf(q.db, q.actor.projectId, access.app), RoomToDoc(q.db)(room), access.permission, access.topics, ra)
  {
    hide Keyed, UniqueLiveSlugs, LinksInApp, ActorDocFn, AppDocOf, RoomToDoc, DocOf, RoomRule, NamedRule, TypeRule,
         DocNamedRule, DocTypeRule, DocPrivate, Exported;
    RoomRuleSplit(q, access, room, ra);
    NamedRuleIff(q, access.app, room, ra);
    TypeRuleIff(q, access.app, room, ra);
    PrivateIff(q.db, q.actor.projectId, access.app, room);
    AppDocFields(q.db, q.actor.projectId, access.app);
    if g :| g in q.db.roomGrants && GrantsOn(room.roomId)(g) {
      assert GrantTravels(q.db, q.actor.projectId, g);
    }
  }

  /* ── the whole rule ──────────────────────────────────────────────────── */

  lemma AppOfProject(q: Request, app: App, permission: Permission, topics: Option<seq<string>>)
    requires GrantsInProject(q.db, q.actor) && AppRule(q, app, permission, topics)
    ensures app in q.db.apps && AppsIn(q.actor.projectId)(app)
  {
    if HoldsAppGrant(q, app, permission, topics) {
      var g :| g in q.db.appGrants && Admits(q, g, app) && g.permission == permission && g.topics == topics;
    }
  }

  lemma ReachIff(q: Request, app: App, room: Room, permission: Permission, t: string)
    requires Keyed(q.db) && UniqueLiveSlugs(q.db) && WellLinked(q.db, q.actor.projectId)
    requires Exported(q.db, q.actor.projectId).Some? && RoomOfProject(q.db, q.actor.projectId, app, room)
    ensures Reach(q, app, room, permission, t) <==>
            DocReach(DocOf(q.db, q.actor.projectId), ActorDocFn(q.db, q.actor.projectId)(q.actor), q.now,
                     AppDocOf(q.db, q.actor.projectId, app), RoomToDoc(q.db)(room), permission, t)
  {
    hide Keyed, UniqueLiveSlugs, LinksInApp, ActorDocFn, AppDocOf, RoomToDoc, DocOf, RoomRule, DocRoomRule, AppRule, DocAppRule, Exported,
         GrantTravels;
    var pid := q.actor.projectId;
    var ad, d, x, y := ActorDocFn(q.db, pid)(q.actor), DocOf(q.db, pid), AppDocOf(q.db, pid, app), RoomToDoc(q.db)(room);
    assert AppWritable(q.db, app) && AppTravels(q.db, pid, app) && RoomTravels(q.db, pid, room);
    DocApp(q.db, pid, app);
    DocRoom(q.db, pid, app, y);
    RoomDocFields(q.db, room);
    forall p, ts ensures AppRule(q, app, p, ts) <==> DocAppRule(ad, q.now, x, p, ts) { AppRuleIff(q, app, p, ts); }
    forall access: AppAccess, ra | access.app == app
      ensures RoomRule(q, access, room, ra) <==> DocRoomRule(d, ad, q.now, x, y, access.permission, access.topics, ra)
    { RoomRuleIff(q, access, room, ra); }
    if Reach(q, app, room, permission, t) {
      var access: AppAccess, ra :| AppRule(q, app, access.permission, access.topics) && access.app == app
           && RoomRule(q, access, room, ra) && ra.permission == permission && t in ra.topics;
      assert DocAppRule(ad, q.now, x, access.permission, access.topics);
    }
    if DocReach(d, ad, q.now, x, y, permission, t) {
      var p, ts, ra: RoomAccess :| DocAppRule(ad, q.now, x, p, ts) && DocRoomRule(d, ad, q.now, x, y, p, ts, ra)
         && ra.permission == permission && t in ra.topics;
      assert AppRule(q, app, AppAccess(app, p, ts).permission, AppAccess(app, p, ts).topics);
      assert RoomRule(q, AppAccess(app, p, ts), room, ra);
    }
  }

  /** The connect-time session of an actor lists this address with this permission. */
  ghost predicate SessionGrants(db: Db, actor: Actor, now: Time, pattern: string, permission: Permission) {
    && ResolveScope(db, actor).Some?
    && exists s, at: AllowedTopic ::
         s in Authz.Session(Request(db, actor, ResolveScope(db, actor).value, now), []) && at in s.entry.allowedTopics
         && at.pattern == pattern && at.permission == permission
  }

  function SlugIn(scope: ResolvedScope): Option<string> {
    match scope
    case Unscoped => None
    case Scoped(_, slug, _) => Some(slug)
  }

  /** The rule grants this address by this app, room and topic name. */
  ghost predicate ReachAt(q: Request, pattern: string, permission: Permission, app: App, room: Room, t: string) {
    Reach(q, app, room, permission, t) && BuildAllowedTopic(app.slug, room, t, permission, q.scope).pattern == pattern
  }

  lemma ScopeDocs(db: Db, projectId: Id, x: ScopeDoc)
    requires Keyed(db) && LinksInApp(db, projectId) && Exported(db, projectId).Some?
    ensures x in DocOf(db, projectId).accessScopes <==> exists s :: s in db.scopes && ScopesIn(projectId)(s) && x == ScopeToDoc(s)
  {
    hide Keyed, DocOf, ProjectScopes, LinksInApp, Exported;
    DocParts(db, projectId);
    MapMember(ProjectScopes(db, projectId), ScopeToDoc, x);
    forall s ensures s in ProjectScopes(db, projectId) <==> s in db.scopes && ScopesIn(projectId)(s) {
      ProjectScopesMember(db, projectId, s);
    }
  }

  lemma ActorDocScope(db: Db, a: Actor, s: Scope)
    requires Keyed(db) && a.scopeId == Some(s.scopeId) && s in db.scopes && ScopesIn(a.projectId)(s)
    ensures ActorDocFn(db, a.projectId)(a).scopeSlug == Some(s.slug)
  {
    hide Keyed, AppSlugs, AllRefs, ScopeSlugs;
    ScopeSlugKnown(db, a.projectId, s);
  }

  /** An exported actor is refused exactly when the actor is, and is addressed under the same scope. */
  lemma ScopeIff(db: Db, a: Actor)
    requires Keyed(db) && UniqueLiveSlugs(db) && LinksInApp(db, a.projectId) && Exported(db, a.projectId).Some? && ActorScoped(db, a)
    ensures var ad := ActorDocFn(db, a.projectId)(a);
            && (ResolveScope(db, a).Some? <==> ScopeAdmits(DocOf(db, a.projectId), ad))
            && (ResolveScope(db, a).Some? ==> ScopeSlugOf(ad) == SlugIn(ResolveScope(db, a).value))
  {
    hide Keyed, LinksInApp, DocOf, Exported, ActorDocFn;
    var ad, d := ActorDocFn(db, a.projectId)(a), DocOf(db, a.projectId);
    if a.scopeId.None? {
      assert ad.scopeSlug.None? by { UnscopedDoc(db, a); }
    } else {
      var s :| s in db.scopes && LiveScopeOf(a.scopeId.value, a.projectId)(s) && s.slug != "";
      ActorDocScope(db, a, s);
      var found := FindFirst(db.scopes, LiveScopeOf(a.scopeId.value, a.projectId));
      assert found == Some(s) by {
        assert LiveScopeOf(a.scopeId.value, a.projectId)(s);
        ScopeUnique(db, found.value, s);
      }
      ScopeDocs(db, a.projectId, ScopeToDoc(s));
      forall x | x in d.accessScopes && x.slug == s.slug ensures x == ScopeToDoc(s) {
        ScopeDocs(db, a.projectId, x);
        var s' :| s' in db.scopes && ScopesIn(a.projectId)(s') && x == ScopeToDoc(s');
        assert SameLiveScope(s, s');
      }
    }
  }

  lemma UnscopedDoc(db: Db, a: Actor)
    requires a.scopeId.None?
    ensures ActorDocFn(db, a.projectId)(a).scopeSlug.None?
  {
  }

  lemma ScopeUnique(db: Db, s: Scope, s': Scope)
    requires Keyed(db) && s in db.scopes && s' in db.scopes && s.scopeId == s'.scopeId
    ensures s == s'
  {
    DistinctByMember(db.scopes, ScopeKey, s, s');
  }

  lemma AddressSame(app: App, room: Room, t: string, permission: Permission, scope: ResolvedScope)
    requires scope.Scoped? ==> scope.scopeSlug != ""
    ensures BuildAllowedTopic(app.slug, room, t, permission, scope).pattern ==
            DocAddress(app.slug, SlugIn(scope), room.slug, t)
  {
  }

  lemma EmittedOneGrant(q: Request, appId: Id, at: AllowedTopic)
    requires Keyed(q.db) && OneGrantInProject(q.db, q.actor.projectId) && GrantsInProject(q.db, q.actor) && Emits(q, appId, at)
    ensures OneGrantInApp(q.db, appId)
  {
    hide Keyed, GrantsInProject, Emits, ValidAccess, OneGrantInApp, TopicsInRoom;
    var access, room := EmittedBy(q, appId, at);
    ResolvedApp(q, access);
    assert AppsIn(q.actor.projectId)(access.app);
  }

  lemma ReachedOneGrant(q: Request, app: App, room: Room, permission: Permission, t: string)
    requires OneGrantInProject(q.db, q.actor.projectId) && GrantsInProject(q.db, q.actor) && Reach(q, app, room, permission, t)
    ensures OneGrantInApp(q.db, app.appId)
  {
    hide GrantsInProject, Reach, OneGrantInApp;
    ReachInProject(q, app, room, permission, t);
  }

  lemma SessionIsRule(db: Db, actor: Actor, now: Time, pattern: string, permission: Permission)
    requires Keyed(db) && OneGrantInProject(db, actor.projectId) && GrantsInProject(db, actor) && ResolveScope(db, actor).Some?
    ensures var q := Request(db, actor, ResolveScope(db, actor).value, now);
            SessionGrants(db, actor, now, pattern, permission) <==>
            exists app, room, t :: ReachAt(q, pattern, permission, app, room, t)
  {
    hide Keyed, OneGrantInProject, GrantsInProject, OneGrantInApp, Resolve, Authz.Session, Reach, BuildAllowedTopic, ResolveScope;
    var q := Request(db, actor, ResolveScope(db, actor).value, now);
    if s, at: AllowedTopic :| s in Authz.Session(q, []) && at in s.entry.allowedTopics && at.pattern == pattern && at.permission == permission {
      var e := s.entry;
      SessionEntries(q, [], e);
      assert Emits(q, e.appId, at);
      EmittedOneGrant(q, e.appId, at);
      ResolveIsRule(q, e.appId, at);
      var app: App, room, p, t :| app.appId == e.appId && Reach(q, app, room, p, t) && at == BuildAllowedTopic(app.slug, room, t, p, q.scope);
      assert p == permission by { BuiltPermission(app.slug, room, t, p, q.scope); }
      assert ReachAt(q, pattern, permission, app, room, t);
    }
    if app, room, t :| ReachAt(q, pattern, permission, app, room, t) {
      var at := BuildAllowedTopic(app.slug, room, t, permission, q.scope);
      BuiltPermission(app.slug, room, t, permission, q.scope);
      assert RuleGrants(q, app.appId, at);
      ReachedOneGrant(q, app, room, permission, t);
      ResolveIsRule(q, app.appId, at);
      var e :| e in Resolve(q) && e.appId == app.appId && at in e.allowedTopics;
      SessionEntries(q, [], e);
    }
  }

  lemma BuiltPermission(appSlug: string, room: Room, t: string, permission: Permission, scope: ResolvedScope)
    ensures BuildAllowedTopic(appSlug, room, t, permission, scope).permission == permission
  {
  }

  /** The export of an actor grants exactly what the actor's session does. */
  lemma ExportGrantsSession(db: Db, a: Actor, now: Time, pattern: string, permission: Permission)
    requires Consistent(db, a.projectId) && WellLinked(db, a.projectId) && Exported(db, a.projectId).Some?
    requires a in db.actors && a.deletedAt.None?
    ensures SessionGrants(db, a, now, pattern, permission) <==>
            DocGrants(DocOf(db, a.projectId), ActorDocFn(db, a.projectId)(a), now, pattern, permission)
  {
    hide Keyed, UniqueLiveSlugs, OneGrantInProject, LinksInApp, DocOf, ActorDocFn, AppDocOf, RoomToDoc, Reach, DocReach, SessionGrants,
         ScopeAdmits, ScopeSlugOf, ResolveScope, Exported, AppTravels, BuildAllowedTopic, DocAddress, GrantsInProject;
    var pid := a.projectId;
    var d, ad := DocOf(db, pid), ActorDocFn(db, pid)(a);
    assert ActorsIn(pid)(a);
    ScopeIff(db, a);
    if ResolveScope(db, a).Some? {
      var q := Request(db, a, ResolveScope(db, a).value, now);
      SessionIsRule(db, a, now, pattern, permission);
      ScopeSlugSet(db, a);
      if app, room, t :| ReachAt(q, pattern, permission, app, room, t) {
        ReachInProject(q, app, room, permission, t);
        ReachIff(q, app, room, permission, t);
        AddressSame(app, room, t, permission, q.scope);
        AppDocFields(db, pid, app);
        RoomDocFields(db, room);
        assert DocGrantsAt(d, ad, now, pattern, permission, AppDocOf(db, pid, app), RoomToDoc(db)(room), t);
      }
      if x, y, t :| DocGrantsAt(d, ad, now, pattern, permission, x, y, t) {
        ReachIn(d, ad, now, x, y, permission, t);
        var app := DocAppFrom(db, pid, x);
        DocRoom(db, pid, app, y);
        var room :| room in db.rooms && RoomsIn(app.appId)(room) && y == RoomToDoc(db)(room);
        ReachIff(q, app, room, permission, t);
        AddressSame(app, room, t, permission, q.scope);
        AppDocFields(db, pid, app);
        RoomDocFields(db, room);
        assert ReachAt(q, pattern, permission, app, room, t);
      }
    } else {
      assert !SessionGrants(db, a, now, pattern, permission) by { Refused(db, a, now, pattern, permission); }
    }
  }

  lemma Refused(db: Db, a: Actor, now: Time, pattern: string, permission: Permission)
    requires ResolveScope(db, a).None?
    ensures !SessionGrants(db, a, now, pattern, permission)
  {
  }

  lemma ScopeSlugSet(db: Db, a: Actor)
    requires Keyed(db) && ActorScoped(db, a) && ResolveScope(db, a).Some?
    ensures ResolveScope(db, a).value.Scoped? ==> ResolveScope(db, a).value.scopeSlug != ""
  {
    hide Keyed;
    if a.scopeId.Some? {
      var s :| s in db.scopes && LiveScopeOf(a.scopeId.value, a.projectId)(s) && s.slug != "";
      ScopeUnique(db, FindFirst(db.scopes, LiveScopeOf(a.scopeId.value, a.projectId)).value, s);
    }
  }

  lemma ReachInProject(q: Request, app: App, room: Room, permission: Permission, t: string)
    requires GrantsInProject(q.db, q.actor) && Reach(q, app, room, permission, t)
    ensures RoomOfProject(q.db, q.actor.projectId, app, room)
  {
    hide GrantsInProject, RoomRule, AppRule;
    var access: AppAccess, ra :| AppRule(q, app, access.permission, access.topics) && access.app == app
         && RoomRule(q, access, room, ra) && ra.permission == permission && t in ra.topics;
    AppOfProject(q, app, access.permission, access.topics);
  }
}
