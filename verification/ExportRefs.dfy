/** Room references during an export: every room of a live app is known under its own slugs. */
module ExportRefs {
  import opened Prelude
  import opened Schema
  import opened Sorting
  import opened ProjectDoc
  import opened ProjectExport

  lemma AppRoomsMember(db: Db, appId: Id, r: Room)
    ensures r in AppRooms(db, appId) <==> r in db.rooms && RoomsIn(appId)(r)
  {
    SameMembers(Filter(db.rooms, RoomsIn(appId)), RoomRowSlug);
  }

  lemma AppLobbiesMember(db: Db, appId: Id, l: Lobby)
    ensures l in AppLobbies(db, appId) <==> l in db.lobbies && LobbiesIn(appId)(l)
  {
    SameMembers(Filter(db.lobbies, LobbiesIn(appId)), LobbyRowSlug);
  }

  lemma ProjectAppsMember(db: Db, projectId: Id, a: App)
    ensures a in ProjectApps(db, projectId) <==> a in db.apps && AppsIn(projectId)(a)
  {
    SameMembers(Filter(db.apps, AppsIn(projectId)), AppRowSlug);
  }

  lemma ProjectScopesMember(db: Db, projectId: Id, s: Scope)
    ensures s in ProjectScopes(db, projectId) <==> s in db.scopes && ScopesIn(projectId)(s)
  {
    SameMembers(Filter(db.scopes, ScopesIn(projectId)), ScopeRowSlug);
  }

  lemma ProjectActorsMember(db: Db, projectId: Id, a: Actor)
    ensures a in ProjectActors(db, projectId) <==> a in db.actors && ActorsIn(projectId)(a)
  {
    SameMembers(Filter(db.actors, ActorsIn(projectId)), ActorRowKeyId);
  }

  lemma {:induction false} RefPairNamed(db: Db, apps: seq<App>, p: (Id, (string, string))) returns (a: App, r: Room)
    requires p in RefPairs(db, apps)
    ensures a in apps && r in db.rooms && RoomsIn(a.appId)(r) && p == (r.roomId, (a.slug, r.slug))
  {
    hide AppRooms;
    var n := |apps| - 1;
    if p in RefPairs(db, apps[..n]) {
      a, r := RefPairNamed(db, apps[..n], p);
    } else {
      a := apps[n];
      var j :| 0 <= j < |AppRooms(db, a.appId)| && p == RoomRef(a)(AppRooms(db, a.appId)[j]);
      r := AppRooms(db, a.appId)[j];
      AppRoomsMember(db, a.appId, r);
    }
  }

  lemma {:induction false} RefPairKnown(db: Db, apps: seq<App>, a: App, r: Room)
    requires a in apps && r in db.rooms && RoomsIn(a.appId)(r)
    ensures (r.roomId, (a.slug, r.slug)) in RefPairs(db, apps)
  {
    hide AppRooms;
    var n := |apps| - 1;
    if apps[n] == a {
      AppRoomsMember(db, a.appId, r);
      var rooms := AppRooms(db, a.appId);
      var j :| 0 <= j < |rooms| && rooms[j] == r;
      assert Map(rooms, RoomRef(a))[j] == (r.roomId, (a.slug, r.slug));
    } else {
      RefPairKnown(db, apps[..n], a, r);
    }
  }

  /** A room of one of the apps is known under its own slugs. */
  lemma RefKnown(db: Db, apps: seq<App>, a: App, r: Room)
    requires Keyed(db) && forall x :: x in apps ==> x in db.apps
    requires a in apps && r in db.rooms && RoomsIn(a.appId)(r)
    ensures Lookup(MapOf(RefPairs(db, apps)), r.roomId) == Some((a.slug, r.slug))
  {
    hide RefPairs;
    RefPairKnown(db, apps, a, r);
    forall p | p in RefPairs(db, apps) && p.0 == r.roomId ensures p.1 == (a.slug, r.slug) {
      var b, q := RefPairNamed(db, apps, p);
      DistinctByMember(db.rooms, RoomKey, q, r);
      DistinctByMember(db.apps, AppKey, b, a);
    }
    MapOfFinds(RefPairs(db, apps), r.roomId, (a.slug, r.slug));
  }

  lemma RefNamed(db: Db, apps: seq<App>, id: Id) returns (a: App, r: Room)
    requires id in MapOf(RefPairs(db, apps))
    ensures a in apps && r in db.rooms && RoomsIn(a.appId)(r) && r.roomId == id
    ensures MapOf(RefPairs(db, apps))[id] == (a.slug, r.slug)
  {
    hide RefPairs;
    var m := MapOf(RefPairs(db, apps));
    assert (id, m[id]) in RefPairs(db, apps);
    a, r := RefPairNamed(db, apps, (id, m[id]));
  }

  /** Live lobbies of the project's apps link no live room of another app; links to deleted rooms may linger. */
  ghost predicate LinksInApp(db: Db, projectId: Id) {
    forall a, l :: a in db.apps && AppsIn(projectId)(a) && l in db.lobbies && LobbiesIn(a.appId)(l) ==>
      LobbyLinksInApp(db, a.appId, l)
  }

  ghost predicate LobbyLinksInApp(db: Db, appId: Id, l: Lobby) {
    forall link, r :: link in db.lobbyRooms && LinksOf(l.lobbyId)(link) && r in db.rooms && LiveRoom(link.roomId)(r) ==>
      r.appId == appId
  }

  function LiveRoom(roomId: Id): Room -> bool {
    (r: Room) => r.roomId == roomId && r.deletedAt.None?
  }

  /** A link the exporter can name joins a lobby to a live room of the lobby's own app. */
  lemma LinkNamesOwnRoom(db: Db, apps: seq<App>, a: App, l: Lobby, link: LobbyRoom) returns (r: Room)
    requires Keyed(db) && (forall x :: x in apps ==> x in db.apps) && a in db.apps && LobbyLinksInApp(db, a.appId, l)
    requires link in db.lobbyRooms && LinksOf(l.lobbyId)(link) && link.roomId in MapOf(RefPairs(db, apps))
    ensures r in db.rooms && RoomsIn(a.appId)(r) && r.roomId == link.roomId
    ensures MapOf(RefPairs(db, apps))[link.roomId] == (a.slug, r.slug)
  {
    hide RefPairs;
    var b;
    b, r := RefNamed(db, apps, link.roomId);
    assert LiveRoom(link.roomId)(r);
    DistinctByMember(db.apps, AppKey, a, b);
  }

  function AppDocFn(db: Db, refs: RoomRefs): App -> AppDoc {
    (a: App) => AppToDoc(db, refs, a)
  }

  /** How an export writes one actor of the project. */
  function ActorDocFn(db: Db, projectId: Id): Actor -> ActorDoc {
    ActorToDoc(db, ScopeSlugs(db, projectId), AppSlugs(db, projectId), AllRefs(db, projectId))
  }

  lemma AppSlugKnown(db: Db, projectId: Id, a: App)
    requires Keyed(db) && a in db.apps && AppsIn(projectId)(a)
    ensures Lookup(AppSlugs(db, projectId), a.appId) == Some(a.slug)
  {
    hide ProjectApps, DistinctBy;
    var apps := ProjectApps(db, projectId);
    ProjectAppsMember(db, projectId, a);
    var k :| 0 <= k < |apps| && apps[k] == a;
    assert Map(apps, AppPair)[k] == (a.appId, a.slug);
    forall p | p in Map(apps, AppPair) && p.0 == a.appId ensures p.1 == a.slug {
      var n :| 0 <= n < |apps| && p == AppPair(apps[n]);
      ProjectAppsMember(db, projectId, apps[n]);
      DistinctByMember(db.apps, AppKey, apps[n], a);
    }
    MapOfFinds(Map(apps, AppPair), a.appId, a.slug);
  }

  lemma AppSlugNames(db: Db, projectId: Id, id: Id) returns (a: App)
    requires id in AppSlugs(db, projectId)
    ensures a in db.apps && AppsIn(projectId)(a) && a.appId == id && AppSlugs(db, projectId)[id] == a.slug
  {
    hide ProjectApps;
    var apps := ProjectApps(db, projectId);
    var n :| 0 <= n < |apps| && AppPair(apps[n]) == (id, AppSlugs(db, projectId)[id]);
    a := apps[n];
    ProjectAppsMember(db, projectId, a);
  }

  lemma ScopeSlugKnown(db: Db, projectId: Id, s: Scope)
    requires Keyed(db) && s in db.scopes && ScopesIn(projectId)(s)
    ensures Lookup(ScopeSlugs(db, projectId), s.scopeId) == Some(s.slug)
  {
    hide ProjectScopes, DistinctBy;
    var scopes := ProjectScopes(db, projectId);
    ProjectScopesMember(db, projectId, s);
    var k :| 0 <= k < |scopes| && scopes[k] == s;
    assert Map(scopes, ScopePair)[k] == (s.scopeId, s.slug);
    forall p | p in Map(scopes, ScopePair) && p.0 == s.scopeId ensures p.1 == s.slug {
      var n :| 0 <= n < |scopes| && p == ScopePair(scopes[n]);
      ProjectScopesMember(db, projectId, scopes[n]);
      DistinctByMember(db.scopes, ScopeKey, scopes[n], s);
    }
    MapOfFinds(Map(scopes, ScopePair), s.scopeId, s.slug);
  }

  lemma LobbyDocSame(db: Db, projectId: Id, apps: seq<App>, all: seq<App>, a: App, l: Lobby)
    requires Keyed(db) && LinksInApp(db, projectId)
    requires forall x :: x in apps || x in all ==> x in db.apps && AppsIn(projectId)(x)
    requires a in apps && a in all && l in db.lobbies && LobbiesIn(a.appId)(l)
    ensures LobbyToDoc(db, MapOf(RefPairs(db, apps)))(l) == LobbyToDoc(db, MapOf(RefPairs(db, all)))(l)
  {
    hide RefPairs, Keyed, LobbyLinksInApp;
    var links := Filter(db.lobbyRooms, LinksOf(l.lobbyId));
    var f, g := LinkSlug(MapOf(RefPairs(db, apps))), LinkSlug(MapOf(RefPairs(db, all)));
    forall link | link in links ensures f(link) == g(link) {
      if link.roomId in MapOf(RefPairs(db, apps)) {
        var r := LinkNamesOwnRoom(db, apps, a, l, link);
        RefKnown(db, all, a, r);
      } else if link.roomId in MapOf(RefPairs(db, all)) {
        var r := LinkNamesOwnRoom(db, all, a, l, link);
        RefKnown(db, apps, a, r);
      }
    }
    FilterMapCong(links, f, g);
  }

  lemma AppDocSame(db: Db, projectId: Id, apps: seq<App>, all: seq<App>, a: App)
    requires Keyed(db) && LinksInApp(db, projectId)
    requires forall x :: x in apps || x in all ==> x in db.apps && AppsIn(projectId)(x)
    requires a in apps && a in all
    ensures AppToDoc(db, MapOf(RefPairs(db, apps)), a) == AppToDoc(db, MapOf(RefPairs(db, all)), a)
  {
    hide RefPairs, Keyed, LobbyToDoc, RoomToDoc, AppRooms, AppLobbies, LinksInApp;
    var lobbies := AppLobbies(db, a.appId);
    forall i | 0 <= i < |lobbies|
      ensures LobbyToDoc(db, MapOf(RefPairs(db, apps)))(lobbies[i]) == LobbyToDoc(db, MapOf(RefPairs(db, all)))(lobbies[i])
    {
      AppLobbiesMember(db, a.appId, lobbies[i]);
      LobbyDocSame(db, projectId, apps, all, a, lobbies[i]);
    }
    assert Map(lobbies, LobbyToDoc(db, MapOf(RefPairs(db, apps)))) == Map(lobbies, LobbyToDoc(db, MapOf(RefPairs(db, all))));
  }

  /** It makes no difference that an app is written before later apps' rooms are known. */
  lemma {:induction false} AppDocsUniform(db: Db, projectId: Id, apps: seq<App>, all: seq<App>)
    requires Keyed(db) && LinksInApp(db, projectId)
    requires forall x :: x in all ==> x in db.apps && AppsIn(projectId)(x)
    requires forall x :: x in apps ==> x in all
    ensures AppDocs(db, apps) == Map(apps, AppDocFn(db, MapOf(RefPairs(db, all))))
  {
    hide RefPairs, Keyed, AppToDoc, LinksInApp;
    if apps != [] {
      var n := |apps| - 1;
      AppDocsUniform(db, projectId, apps[..n], all);
      AppDocSame(db, projectId, apps, all, apps[n]);
      MapStep(apps, n, AppDocFn(db, MapOf(RefPairs(db, all))));
      assert apps[..n + 1] == apps;
    }
  }
}
