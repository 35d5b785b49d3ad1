/** Which rows an export writes, read off the tables' own columns: nothing deleted, nothing of another project, and all of the rest. */
module ExportListing {
  import opened Prelude
  import opened Schema
  import opened Sorting
  import opened ProjectDoc
  import opened ProjectExport
  import opened ExportRefs
  import opened DocAccess
  import opened ExportMeaning

  ghost predicate LiveRoomOf(db: Db, appId: Id, r: Room) {
    r in db.rooms && r.appId == appId && r.deletedAt.None?
  }

  ghost predicate LiveAppOf(db: Db, projectId: Id, a: App) {
    a in db.apps && a.projectId == projectId && a.deletedAt.None?
  }

  /** A type grant of the room that is not deleted; its expiry, role and metadata are not written. */
  ghost predicate WritesTypeGrant(db: Db, roomId: Id, x: TypeGrantDoc) {
    exists g :: g in db.roomGrants && g.roomId == roomId && g.actorTokenId.None? && g.deletedAt.None?
             && x == TypeGrantDoc(g.actorType, g.permission, g.topics, Some(g.isActive))
  }

  ghost predicate WritesRoom(db: Db, x: RoomDoc, r: Room) {
    && x.slug == r.slug && x.name == r.name && x.description == r.description && x.status == Some(r.status)
    && x.topics == r.topics && x.metadata == r.metadata
    && forall y :: y in x.typeGrants <==> WritesTypeGrant(db, r.roomId, y)
  }

  lemma RoomWrites(db: Db, x: RoomDoc, r: Room)
    requires x == RoomToDoc(db)(r)
    ensures WritesRoom(db, x, r)
  {
    forall y ensures y in x.typeGrants <==> WritesTypeGrant(db, r.roomId, y) {
      TypeGrantDocs(db, r, y);
      if g :| g in db.roomGrants && TypeGrantsOn(r.roomId)(g) && TypeGrantToDoc(g) == y {
        assert WritesTypeGrant(db, r.roomId, y);
      }
      if WritesTypeGrant(db, r.roomId, y) {
        var g :| g in db.roomGrants && g.roomId == r.roomId && g.actorTokenId.None? && g.deletedAt.None?
              && y == TypeGrantDoc(g.actorType, g.permission, g.topics, Some(g.isActive));
        assert TypeGrantsOn(r.roomId)(g) && TypeGrantToDoc(g) == y;
      }
    }
  }

  /** A live link joins the lobby to a live room of this app with this slug. */
  ghost predicate LinksSlug(db: Db, appId: Id, lobbyId: Id, slug: string) {
    exists link: LobbyRoom, r: Room ::
      link in db.lobbyRooms && link.lobbyId == lobbyId && link.deletedAt.None?
      && LiveRoomOf(db, appId, r) && r.roomId == link.roomId && r.slug == slug
  }

  ghost predicate WritesLobby(db: Db, appId: Id, x: LobbyDoc, l: Lobby) {
    && x.slug == l.slug && x.name == l.name && x.description == l.description && x.metadata == l.metadata
    && forall slug :: slug in x.rooms <==> slug != "" && LinksSlug(db, appId, l.lobbyId, slug)
  }

  lemma LobbyWrites(db: Db, projectId: Id, a: App, x: LobbyDoc, l: Lobby)
    requires Keyed(db) && LinksInApp(db, projectId) && a in db.apps && AppsIn(projectId)(a)
    requires l in db.lobbies && LobbiesIn(a.appId)(l) && x == LobbyToDoc(db, AllRefs(db, projectId))(l)
    ensures WritesLobby(db, a.appId, x, l)
  {
    hide Keyed, RefPairs, ProjectApps, MapOf, Lookup, SortBy, FilterMap;
    var apps, refs := ProjectApps(db, projectId), AllRefs(db, projectId);
    forall y ensures y in apps <==> y in db.apps && AppsIn(projectId)(y) { ProjectAppsMember(db, projectId, y); }
    assert LobbyLinksInApp(db, a.appId, l);
    var rows := Filter(db.lobbyRooms, LinksOf(l.lobbyId));
    forall slug ensures slug in x.rooms <==> slug != "" && LinksSlug(db, a.appId, l.lobbyId, slug) {
      SameMembers(FilterMap(rows, LinkSlug(refs)), Self);
      FilterMapMember(rows, LinkSlug(refs), slug);
      if link :| link in rows && LinkSlug(refs)(link) == Some(slug) {
        var r := LinkNamesOwnRoom(db, apps, a, l, link);
        assert LiveRoomOf(db, a.appId, r);
      }
      if slug != "" && LinksSlug(db, a.appId, l.lobbyId, slug) {
        var link: LobbyRoom, r: Room :| link in db.lobbyRooms && link.lobbyId == l.lobbyId && link.deletedAt.None?
          && LiveRoomOf(db, a.appId, r) && r.roomId == link.roomId && r.slug == slug;
        RefFound(db, projectId, a, r);
        assert LinksOf(l.lobbyId)(link) && link in rows;
        assert LinkSlug(refs)(link) == Some(slug);
      }
    }
  }

  lemma RefFound(db: Db, projectId: Id, a: App, r: Room)
    requires Keyed(db) && a in db.apps && AppsIn(projectId)(a) && r in db.rooms && RoomsIn(a.appId)(r)
    ensures r.roomId in AllRefs(db, projectId) && AllRefs(db, projectId)[r.roomId] == (a.slug, r.slug)
  {
    hide Keyed, RefPairs, ProjectApps;
    var apps := ProjectApps(db, projectId);
    forall y ensures y in apps <==> y in db.apps && AppsIn(projectId)(y) { ProjectAppsMember(db, projectId, y); }
    RefKnown(db, apps, a, r);
  }

  ghost predicate WritesApp(db: Db, x: AppDoc, a: App) {
    && x.slug == a.slug && x.name == a.name && x.description == a.description && x.status == Some(a.status)
    && x.accessMode == Some(a.accessMode) && x.topics == (if a.topics.Some? then a.topics.value else [])
    && x.topicConfigs == a.topicConfigs && x.hydrationWebhook == a.hydrationWebhook && x.triggerWebhook == a.triggerWebhook
    && (forall y :: y in x.rooms ==> exists r :: LiveRoomOf(db, a.appId, r) && WritesRoom(db, y, r))
    && (forall r :: LiveRoomOf(db, a.appId, r) ==> exists y :: y in x.rooms && WritesRoom(db, y, r))
    && (forall y :: y in x.lobbies ==> exists l :: l in db.lobbies && l.appId == a.appId && l.deletedAt.None? && WritesLobby(db, a.appId, y, l))
    && (forall l :: l in db.lobbies && l.appId == a.appId && l.deletedAt.None? ==> exists y :: y in x.lobbies && WritesLobby(db, a.appId, y, l))
  }

  lemma AppWrites(db: Db, projectId: Id, x: AppDoc, a: App)
    requires Keyed(db) && LinksInApp(db, projectId) && a in db.apps && AppsIn(projectId)(a) && x == AppDocOf(db, projectId, a)
    ensures WritesApp(db, x, a)
  {
    hide Keyed, LinksInApp, RoomToDoc, LobbyToDoc, WritesRoom, WritesLobby, AppRooms, AppLobbies, AllRefs;
    var refs := AllRefs(db, projectId);
    forall y | y in x.rooms ensures exists r :: LiveRoomOf(db, a.appId, r) && WritesRoom(db, y, r) {
      DocRoom(db, projectId, a, y);
      var r :| r in db.rooms && RoomsIn(a.appId)(r) && y == RoomToDoc(db)(r);
      RoomWrites(db, y, r);
      assert LiveRoomOf(db, a.appId, r);
    }
    forall r | LiveRoomOf(db, a.appId, r) ensures exists y :: y in x.rooms && WritesRoom(db, y, r) {
      DocRoom(db, projectId, a, RoomToDoc(db)(r));
      RoomWrites(db, RoomToDoc(db)(r), r);
    }
    forall y ensures y in x.lobbies <==> exists l :: l in db.lobbies && LobbiesIn(a.appId)(l) && LobbyToDoc(db, refs)(l) == y {
      MapMember(AppLobbies(db, a.appId), LobbyToDoc(db, refs), y);
      forall l ensures l in AppLobbies(db, a.appId) <==> l in db.lobbies && LobbiesIn(a.appId)(l) { AppLobbiesMember(db, a.appId, l); }
    }
    forall y | y in x.lobbies ensures exists l :: l in db.lobbies && l.appId == a.appId && l.deletedAt.None? && WritesLobby(db, a.appId, y, l) {
      var l :| l in db.lobbies && LobbiesIn(a.appId)(l) && LobbyToDoc(db, refs)(l) == y;
      LobbyWrites(db, projectId, a, y, l);
    }
    forall l | l in db.lobbies && l.appId == a.appId && l.deletedAt.None? ensures exists y :: y in x.lobbies && WritesLobby(db, a.appId, y, l) {
      assert LobbiesIn(a.appId)(l) && LobbyToDoc(db, refs)(l) in x.lobbies;
      LobbyWrites(db, projectId, a, LobbyToDoc(db, refs)(l), l);
    }
  }

  /** A stored grant of the actor, not deleted, on a live app of the project with a slug to name it by. */
  ghost predicate WritesAppGrant(db: Db, projectId: Id, actorTokenId: Id, x: AppGrantDoc) {
    x.appSlug != "" && exists g: AppGrant, a: App ::
      g in db.appGrants && g.actorTokenId == actorTokenId && g.deletedAt.None? && LiveAppOf(db, projectId, a) && g.appId == a.appId
      && x == AppGrantDoc(a.slug, g.permission, g.topics, Some(g.isActive), g.expiresAt)
  }

  /** A stored grant naming the actor, not deleted, on a live room of a live app of the project; its metadata is not written. */
  ghost predicate WritesRoomGrant(db: Db, projectId: Id, actorTokenId: Id, x: RoomGrantDoc) {
    exists g: RoomGrant, a: App, r: Room ::
      g in db.roomGrants && g.actorTokenId == Some(actorTokenId) && g.deletedAt.None?
      && LiveAppOf(db, projectId, a) && LiveRoomOf(db, a.appId, r) && g.roomId == r.roomId
      && x == RoomGrantDoc(a.slug, r.slug, g.permission, g.topics, Some(g.isActive), g.expiresAt, g.role)
  }

  ghost predicate WritesActor(db: Db, projectId: Id, x: ActorDoc, a: Actor) {
    && x.ref == a.keyId && x.name == a.name && x.actorType == a.actorType && x.status == Some(a.status)
    && x.expiresAt == a.expiresAt && x.metadata == a.metadata
    && (forall slug :: x.scopeSlug == Some(slug) <==>
          exists s :: s in db.scopes && a.scopeId == Some(s.scopeId) && s.projectId == projectId && s.deletedAt.None? && s.slug == slug)
    && (forall y :: y in x.appAccess <==> WritesAppGrant(db, projectId, a.actorTokenId, y))
    && (forall y :: y in x.roomAccess <==> WritesRoomGrant(db, projectId, a.actorTokenId, y))
  }

  lemma AppGrantWrites(db: Db, projectId: Id, a: Actor, y: AppGrantDoc)
    requires Keyed(db)
    ensures y in ActorDocFn(db, projectId)(a).appAccess <==> WritesAppGrant(db, projectId, a.actorTokenId, y)
  {
    hide Keyed, AllRefs, ScopeSlugs, AppSlugs, RoomGrantToDoc, FilterMap, Lookup;
    var slugs, rows := AppSlugs(db, projectId), Filter(db.appGrants, AppGrantsOf(a.actorTokenId));
    FilterMapMember(rows, AppGrantToDoc(slugs), y);
    if g :| g in rows && AppGrantToDoc(slugs)(g) == Some(y) {
      var app := AppSlugNames(db, projectId, g.appId);
      assert LiveAppOf(db, projectId, app);
    }
    if WritesAppGrant(db, projectId, a.actorTokenId, y) {
      var g: AppGrant, app: App :| g in db.appGrants && g.actorTokenId == a.actorTokenId && g.deletedAt.None?
        && LiveAppOf(db, projectId, app) && g.appId == app.appId
        && y == AppGrantDoc(app.slug, g.permission, g.topics, Some(g.isActive), g.expiresAt);
      SlugFound(db, projectId, app);
      assert AppGrantsOf(a.actorTokenId)(g) && g in rows;
      assert AppGrantToDoc(slugs)(g) == Some(y);
    }
  }

  lemma SlugFound(db: Db, projectId: Id, a: App)
    requires Keyed(db) && LiveAppOf(db, projectId, a)
    ensures a.appId in AppSlugs(db, projectId) && AppSlugs(db, projectId)[a.appId] == a.slug
  {
    hide Keyed, AppSlugs;
    AppSlugKnown(db, projectId, a);
  }

  lemma RoomGrantWrites(db: Db, projectId: Id, a: Actor, y: RoomGrantDoc)
    requires Keyed(db)
    ensures y in ActorDocFn(db, projectId)(a).roomAccess <==> WritesRoomGrant(db, projectId, a.actorTokenId, y)
  {
    hide Keyed, RefPairs, ScopeSlugs, AppSlugs, AppGrantToDoc, ProjectApps, FilterMap, MapOf;
    var refs, rows := AllRefs(db, projectId), Filter(db.roomGrants, RoomGrantsOf(a.actorTokenId));
    FilterMapMember(rows, RoomGrantToDoc(refs), y);
    if g :| g in rows && RoomGrantToDoc(refs)(g) == Some(y) {
      var app, r := RefNamed(db, ProjectApps(db, projectId), g.roomId);
      ProjectAppsMember(db, projectId, app);
      assert LiveAppOf(db, projectId, app) && LiveRoomOf(db, app.appId, r);
    }
    if WritesRoomGrant(db, projectId, a.actorTokenId, y) {
      var g: RoomGrant, app: App, r: Room :| g in db.roomGrants && g.actorTokenId == Some(a.actorTokenId) && g.deletedAt.None?
        && LiveAppOf(db, projectId, app) && LiveRoomOf(db, app.appId, r) && g.roomId == r.roomId
        && y == RoomGrantDoc(app.slug, r.slug, g.permission, g.topics, Some(g.isActive), g.expiresAt, g.role);
      RefFound(db, projectId, app, r);
      assert RoomGrantsOf(a.actorTokenId)(g) && g in rows;
      assert RoomGrantToDoc(refs)(g) == Some(y);
    }
  }

  lemma ScopeSlugWrites(db: Db, projectId: Id, a: Actor, slug: string)
    requires Keyed(db)
    ensures ActorDocFn(db, projectId)(a).scopeSlug == Some(slug) <==>
            exists s :: s in db.scopes && a.scopeId == Some(s.scopeId) && s.projectId == projectId && s.deletedAt.None? && s.slug == slug
  {
    hide Keyed, ScopeSlugs, AllRefs, AppSlugs;
    if ActorDocFn(db, projectId)(a).scopeSlug == Some(slug) {
      var s := ScopeSlugNames(db, projectId, a.scopeId.value);
    }
    if s :| s in db.scopes && a.scopeId == Some(s.scopeId) && s.projectId == projectId && s.deletedAt.None? && s.slug == slug {
      ScopeSlugKnown(db, projectId, s);
    }
  }

  lemma ScopeSlugNames(db: Db, projectId: Id, id: Id) returns (s: Scope)
    requires id in ScopeSlugs(db, projectId)
    ensures s in db.scopes && ScopesIn(projectId)(s) && s.scopeId == id && ScopeSlugs(db, projectId)[id] == s.slug
  {
    hide ProjectScopes;
    var scopes := ProjectScopes(db, projectId);
    var n :| 0 <= n < |scopes| && ScopePair(scopes[n]) == (id, ScopeSlugs(db, projectId)[id]);
    s := scopes[n];
    ProjectScopesMember(db, projectId, s);
  }

  lemma ActorWrites(db: Db, projectId: Id, x: ActorDoc, a: Actor)
    requires Keyed(db) && x == ActorDocFn(db, projectId)(a)
    ensures WritesActor(db, projectId, x, a)
  {
    hide Keyed, ScopeSlugs, AllRefs, AppSlugs, WritesAppGrant, WritesRoomGrant, FilterMap;
    forall y ensures y in x.appAccess <==> WritesAppGrant(db, projectId, a.actorTokenId, y) { AppGrantWrites(db, projectId, a, y); }
    forall y ensures y in x.roomAccess <==> WritesRoomGrant(db, projectId, a.actorTokenId, y) { RoomGrantWrites(db, projectId, a, y); }
    forall slug ensures x.scopeSlug == Some(slug) <==>
      exists s :: s in db.scopes && a.scopeId == Some(s.scopeId) && s.projectId == projectId && s.deletedAt.None? && s.slug == slug
    { ScopeSlugWrites(db, projectId, a, slug); }
  }

  /* ── the whole document ──────────────────────────────────────────────── */

  ghost predicate WritesHead(x: ProjectHead, p: Project) {
    && x.name == p.name && x.description == p.description && x.organizationId == p.organizationId
    && x.limits == if p.limitsSyncedAt.Some? then Some(Limits(p.maxConnections, p.maxMessageSizeBytes, p.sessionExpirySeconds)) else None
  }

  /** A project can be exported exactly when a row of that id is not deleted, and its head is that row's. */
  lemma HeadWritten(db: Db, projectId: Id)
    requires DistinctBy(db.projects, ProjectKey)
    ensures Exported(db, projectId).Some? <==> exists p :: p in db.projects && p.projectId == projectId && p.deletedAt.None?
    ensures forall p :: Exported(db, projectId).Some? && p in db.projects && p.projectId == projectId && p.deletedAt.None? ==>
              WritesHead(Exported(db, projectId).value.project, p)
  {
    hide AppDocs, ProjectApps, ProjectActors, ProjectScopes, ProjectKeys, ActorToDoc;
    var found := FindFirst(db.projects, LiveProject(projectId));
    forall p | p in db.projects && p.projectId == projectId && p.deletedAt.None? ensures found == Some(p) {
      assert LiveProject(projectId)(p);
      DistinctByMember(db.projects, ProjectKey, p, found.value);
    }
    if found.Some? { assert LiveProject(projectId)(found.value); }
  }

  ghost predicate WritesScope(x: ScopeDoc, s: Scope) {
    x.slug == s.slug && x.name == s.name && x.description == s.description && x.metadata == s.metadata && x.isActive == Some(s.isActive)
  }

  /** Scopes and signing keys: a document entry for each row of the project that is not deleted, and no other. */
  lemma FlatListsWritten(db: Db, projectId: Id)
    requires Keyed(db) && LinksInApp(db, projectId) && Exported(db, projectId).Some?
    ensures var d := DocOf(db, projectId);
            && (forall x :: x in d.accessScopes <==>
                  exists s :: s in db.scopes && s.projectId == projectId && s.deletedAt.None? && WritesScope(x, s))
            && (forall x :: x in d.signingKeys <==>
                  exists k :: k in db.signingKeys && k.projectId == projectId && k.deletedAt.None? && x.ref == k.keyId && x.name == k.name)
  {
    hide Keyed, LinksInApp, Exported, DocOf;
    var d := DocOf(db, projectId);
    DocParts(db, projectId);
    forall x ensures x in d.accessScopes <==>
      exists s :: s in db.scopes && s.projectId == projectId && s.deletedAt.None? && WritesScope(x, s)
    {
      ScopeDocs(db, projectId, x);
      if s :| s in db.scopes && ScopesIn(projectId)(s) && x == ScopeToDoc(s) { assert WritesScope(x, s); }
      if s :| s in db.scopes && s.projectId == projectId && s.deletedAt.None? && WritesScope(x, s) {
        assert ScopesIn(projectId)(s) && x == ScopeToDoc(s);
      }
    }
    forall x ensures x in d.signingKeys <==>
      exists k :: k in db.signingKeys && k.projectId == projectId && k.deletedAt.None? && x.ref == k.keyId && x.name == k.name
    {
      MapMember(ProjectKeys(db, projectId), KeyToDoc, x);
      SameMembers(Filter(db.signingKeys, KeysIn(projectId)), KeyRowKeyId);
      if k :| k in ProjectKeys(db, projectId) && KeyToDoc(k) == x { assert KeysIn(projectId)(k); }
      if k :| k in db.signingKeys && k.projectId == projectId && k.deletedAt.None? && x.ref == k.keyId && x.name == k.name {
        assert KeysIn(projectId)(k) && KeyToDoc(k) == x;
      }
    }
  }

  /** Apps with their rooms and lobbies, and actors with their grants: one entry for each live row of the project, written column by column, and no other. */
  lemma NestedListsWritten(db: Db, projectId: Id)
    requires Keyed(db) && LinksInApp(db, projectId) && Exported(db, projectId).Some?
    ensures var d := DocOf(db, projectId);
            && (forall x :: x in d.apps ==> exists a :: LiveAppOf(db, projectId, a) && WritesApp(db, x, a))
            && (forall a :: LiveAppOf(db, projectId, a) ==> exists x :: x in d.apps && WritesApp(db, x, a))
            && (forall x :: x in d.actors ==>
                  exists a :: a in db.actors && a.projectId == projectId && a.deletedAt.None? && WritesActor(db, projectId, x, a))
            && (forall a :: a in db.actors && a.projectId == projectId && a.deletedAt.None? ==>
                  exists x :: x in d.actors && WritesActor(db, projectId, x, a))
  {
    hide Keyed, LinksInApp, Exported, DocOf, AppDocOf, ActorDocFn, WritesApp, WritesActor;
    var d := DocOf(db, projectId);
    forall x | x in d.apps ensures exists a :: LiveAppOf(db, projectId, a) && WritesApp(db, x, a) {
      var a := DocAppFrom(db, projectId, x);
      AppWrites(db, projectId, x, a);
      assert LiveAppOf(db, projectId, a);
    }
    forall a | LiveAppOf(db, projectId, a) ensures exists x :: x in d.apps && WritesApp(db, x, a) {
      DocApp(db, projectId, a);
      AppWrites(db, projectId, AppDocOf(db, projectId, a), a);
    }
    forall x | x in d.actors
      ensures exists a :: a in db.actors && a.projectId == projectId && a.deletedAt.None? && WritesActor(db, projectId, x, a)
    {
      DocActor(db, projectId, x);
      var a :| a in db.actors && ActorsIn(projectId)(a) && x == ActorDocFn(db, projectId)(a);
      ActorWrites(db, projectId, x, a);
    }
    forall a | a in db.actors && a.projectId == projectId && a.deletedAt.None? ensures exists x :: x in d.actors && WritesActor(db, projectId, x, a) {
      assert ActorsIn(projectId)(a);
      DocActor(db, projectId, ActorDocFn(db, projectId)(a));
      ActorWrites(db, projectId, ActorDocFn(db, projectId)(a), a);
    }
  }
}
