/** Serialising a project: the id-linked rows of one project as a slug-linked document. */
module ProjectExport {
  import opened Prelude
  import opened Schema
  import opened Sorting
  import opened ProjectDoc

  function ScopeRowSlug(s: Scope): string { s.slug }
  function AppRowSlug(a: App): string { a.slug }
  function RoomRowSlug(r: Room): string { r.slug }
  function LobbyRowSlug(l: Lobby): string { l.slug }
  function ActorRowKeyId(a: Actor): string { a.keyId }
  function KeyRowKeyId(k: SigningKey): string { k.keyId }

  // The rows an export visits, in the order it visits them.

  function ProjectScopes(db: Db, projectId: Id): seq<Scope> {
    SortBy(Filter(db.scopes, ScopesIn(projectId)), ScopeRowSlug)
  }
  function ProjectApps(db: Db, projectId: Id): seq<App> {
    SortBy(Filter(db.apps, AppsIn(projectId)), AppRowSlug)
  }
  function AppRooms(db: Db, appId: Id): seq<Room> {
    SortBy(Filter(db.rooms, RoomsIn(appId)), RoomRowSlug)
  }
  function AppLobbies(db: Db, appId: Id): seq<Lobby> {
    SortBy(Filter(db.lobbies, LobbiesIn(appId)), LobbyRowSlug)
  }
  function ProjectActors(db: Db, projectId: Id): seq<Actor> {
    SortBy(Filter(db.actors, ActorsIn(projectId)), ActorRowKeyId)
  }
  function ProjectKeys(db: Db, projectId: Id): seq<SigningKey> {
    SortBy(Filter(db.signingKeys, KeysIn(projectId)), KeyRowKeyId)
  }

  function ScopeToDoc(s: Scope): ScopeDoc {
    ScopeDoc(s.slug, s.name, s.description, s.metadata, Some(s.isActive))
  }
  function TypeGrantToDoc(g: RoomGrant): TypeGrantDoc {
    TypeGrantDoc(g.actorType, g.permission, g.topics, Some(g.isActive))
  }
  function KeyToDoc(k: SigningKey): KeyDoc { KeyDoc(k.keyId, k.name) }

  function RoomToDoc(db: Db): Room -> RoomDoc {
    (r: Room) => RoomDoc(r.slug, r.name, r.description, Some(r.status), r.topics, r.metadata,
                         Map(Filter(db.roomGrants, TypeGrantsOn(r.roomId)), TypeGrantToDoc))
  }

  /** Which app and room slug a room id stands for; filled as the apps are walked. */
  type RoomRefs = map<Id, (string, string)>

  function RoomRef(app: App): Room -> (Id, (string, string)) {
    (r: Room) => (r.roomId, (app.slug, r.slug))
  }

  function RefPairs(db: Db, apps: seq<App>): seq<(Id, (string, string))> {
    if apps == [] then []
    else RefPairs(db, apps[..|apps| - 1])
         + Map(AppRooms(db, apps[|apps| - 1].appId), RoomRef(apps[|apps| - 1]))
  }

  function LinkSlug(refs: RoomRefs): LobbyRoom -> Option<string> {
    (l: LobbyRoom) => if l.roomId in refs && refs[l.roomId].1 != "" then Some(refs[l.roomId].1) else None
  }

  function LobbyToDoc(db: Db, refs: RoomRefs): Lobby -> LobbyDoc {
    (l: Lobby) => LobbyDoc(l.slug, l.name, l.description, l.metadata,
                           SortBy(FilterMap(Filter(db.lobbyRooms, LinksOf(l.lobbyId)), LinkSlug(refs)), Self))
  }

  function AppToDoc(db: Db, refs: RoomRefs, a: App): AppDoc {
    AppDoc(a.slug, a.name, a.description, Some(a.status), Some(a.accessMode), a.topics.GetOr([]),
           a.topicConfigs, a.hydrationWebhook, a.triggerWebhook,
           Map(AppRooms(db, a.appId), RoomToDoc(db)),
           Map(AppLobbies(db, a.appId), LobbyToDoc(db, refs)))
  }

  /** Each app is written while the room references of the apps up to it are known. */
  function AppDocs(db: Db, apps: seq<App>): seq<AppDoc> {
    if apps == [] then []
    else AppDocs(db, apps[..|apps| - 1]) + [AppToDoc(db, MapOf(RefPairs(db, apps)), apps[|apps| - 1])]
  }

  function AppGrantToDoc(appSlugs: map<Id, string>): AppGrant -> Option<AppGrantDoc> {
    (g: AppGrant) =>
      if g.appId in appSlugs && appSlugs[g.appId] != ""
      then Some(AppGrantDoc(appSlugs[g.appId], g.permission, g.topics, Some(g.isActive), g.expiresAt)) else None
  }

  function RoomGrantToDoc(refs: RoomRefs): RoomGrant -> Option<RoomGrantDoc> {
    (g: RoomGrant) =>
      if g.roomId in refs
      then Some(RoomGrantDoc(refs[g.roomId].0, refs[g.roomId].1, g.permission, g.topics, Some(g.isActive), g.expiresAt, g.role))
      else None
  }

  function ActorToDoc(db: Db, scopeSlugs: map<Id, string>, appSlugs: map<Id, string>, refs: RoomRefs): Actor -> ActorDoc {
    (a: Actor) => ActorDoc(a.keyId, a.name, a.actorType, Some(a.status), a.expiresAt, a.metadata,
      if a.scopeId.Some? then Lookup(scopeSlugs, a.scopeId.value) else None,
      FilterMap(Filter(db.appGrants, AppGrantsOf(a.actorTokenId)), AppGrantToDoc(appSlugs)),
      FilterMap(Filter(db.roomGrants, RoomGrantsOf(a.actorTokenId)), RoomGrantToDoc(refs)))
  }

  function ScopePair(s: Scope): (Id, string) { (s.scopeId, s.slug) }
  function AppPair(a: App): (Id, string) { (a.appId, a.slug) }

  function ScopeSlugs(db: Db, projectId: Id): map<Id, string> { MapOf(Map(ProjectScopes(db, projectId), ScopePair)) }
  function AppSlugs(db: Db, projectId: Id): map<Id, string> { MapOf(Map(ProjectApps(db, projectId), AppPair)) }
  function AllRefs(db: Db, projectId: Id): RoomRefs { MapOf(RefPairs(db, ProjectApps(db, projectId))) }

  function HeadOf(p: Project): ProjectHead {
    ProjectHead(p.name, p.description, p.organizationId,
      if p.limitsSyncedAt.Some?
      then Some(Limits(p.maxConnections, p.maxMessageSizeBytes, p.sessionExpirySeconds)) else None)
  }

  /** The exported document, or None when the project does not exist. */
  function Exported(db: Db, projectId: Id): Option<Doc> {
    match FindFirst(db.projects, LiveProject(projectId))
    case None => None
    case Some(p) =>
      Some(Doc(DOC_VERSION, HeadOf(p),
        Map(ProjectScopes(db, projectId), ScopeToDoc),
        AppDocs(db, ProjectApps(db, projectId)),
        Map(ProjectActors(db, projectId),
            ActorToDoc(db, ScopeSlugs(db, projectId), AppSlugs(db, projectId), AllRefs(db, projectId))),
        Map(ProjectKeys(db, projectId), KeyToDoc)))
  }

  /* ── the export as the service runs it ───────────────────────────────── */

  lemma MapNone<A(!new), B(!new)>(f: A -> B)
    ensures Map([], f) == []
  {
  }

  lemma RoomWritten(db: Db, app: App, room: Room)
    ensures RoomRef(app)(room) == (room.roomId, (app.slug, room.slug))
    ensures RoomToDoc(db)(room) ==
            RoomDoc(room.slug, room.name, room.description, Some(room.status), room.topics, room.metadata,
                    Map(Filter(db.roomGrants, TypeGrantsOn(room.roomId)), TypeGrantToDoc))
  {
  }

  /** One app's rooms: a document each, and its reference recorded in the shared map. */
  method ExportRooms(db: Db, app: App, refs: RoomRefs, ghost pairs: seq<(Id, (string, string))>)
    returns (docs: seq<RoomDoc>, refs': RoomRefs)
    requires refs == MapOf(pairs)
    ensures docs == Map(AppRooms(db, app.appId), RoomToDoc(db))
    ensures refs' == MapOf(pairs + Map(AppRooms(db, app.appId), RoomRef(app)))
  {
    hide AppRooms, RoomToDoc, RoomRef, Map, MapOf;
    var rooms := AppRooms(db, app.appId);
    docs, refs' := [], refs;
    assert rooms[..0] == [] && Map(rooms[..0], RoomRef(app)) == [] && Map(rooms[..0], RoomToDoc(db)) == [] by {
      MapNone(RoomRef(app));
      MapNone(RoomToDoc(db));
    }
    assert pairs + [] == pairs;
    for j := 0 to |rooms|
      invariant docs == Map(rooms[..j], RoomToDoc(db))
      invariant refs' == MapOf(pairs + Map(rooms[..j], RoomRef(app)))
    {
      var room := rooms[j];
      MapOfPush(pairs + Map(rooms[..j], RoomRef(app)), room.roomId, (app.slug, room.slug));
      RoomWritten(db, app, room);
      MapStep(rooms, j, RoomRef(app));
      MapStep(rooms, j, RoomToDoc(db));
      assert pairs + Map(rooms[..j + 1], RoomRef(app))
          == pairs + Map(rooms[..j], RoomRef(app)) + [(room.roomId, (app.slug, room.slug))];
      refs' := refs'[room.roomId := (app.slug, room.slug)];
      var grants := Filter(db.roomGrants, TypeGrantsOn(room.roomId));
      docs := docs + [RoomDoc(room.slug, room.name, room.description, Some(room.status), room.topics, room.metadata,
                              Map(grants, TypeGrantToDoc))];
    }
    assert rooms[..|rooms|] == rooms;
  }

  method ExportLobbies(db: Db, app: App, refs: RoomRefs) returns (docs: seq<LobbyDoc>)
    ensures docs == Map(AppLobbies(db, app.appId), LobbyToDoc(db, refs))
  {
    var lobbies := AppLobbies(db, app.appId);
    docs := [];
    for j := 0 to |lobbies|
      invariant docs == Map(lobbies[..j], LobbyToDoc(db, refs))
    {
      var l := lobbies[j];
      MapStep(lobbies, j, LobbyToDoc(db, refs));
      var links := Filter(db.lobbyRooms, LinksOf(l.lobbyId));
      docs := docs + [LobbyDoc(l.slug, l.name, l.description, l.metadata,
                               SortBy(FilterMap(links, LinkSlug(refs)), Self))];
    }
    assert lobbies[..|lobbies|] == lobbies;
  }

  method ExportApps(db: Db, apps: seq<App>) returns (docs: seq<AppDoc>, refs: RoomRefs)
    ensures docs == AppDocs(db, apps) && refs == MapOf(RefPairs(db, apps))
  {
    docs, refs := [], map[];
    for i := 0 to |apps|
      invariant docs == AppDocs(db, apps[..i]) && refs == MapOf(RefPairs(db, apps[..i]))
    {
      var app := apps[i];
      assert apps[..i + 1][..i] == apps[..i];
      var rooms, refs' := ExportRooms(db, app, refs, RefPairs(db, apps[..i]));
      refs := refs';
      var lobbies := ExportLobbies(db, app, refs);
      docs := docs + [AppDoc(app.slug, app.name, app.description, Some(app.status), Some(app.accessMode),
                             app.topics.GetOr([]), app.topicConfigs, app.hydrationWebhook, app.triggerWebhook,
                             rooms, lobbies)];
    }
    assert apps[..|apps|] == apps;
  }

  method ExportActors(db: Db, actors: seq<Actor>, scopeSlugs: map<Id, string>, appSlugs: map<Id, string>, refs: RoomRefs)
    returns (docs: seq<ActorDoc>)
    ensures docs == Map(actors, ActorToDoc(db, scopeSlugs, appSlugs, refs))
  {
    docs := [];
    for i := 0 to |actors|
      invariant docs == Map(actors[..i], ActorToDoc(db, scopeSlugs, appSlugs, refs))
    {
      var a := actors[i];
      MapStep(actors, i, ActorToDoc(db, scopeSlugs, appSlugs, refs));
      var appGrants := Filter(db.appGrants, AppGrantsOf(a.actorTokenId));
      var roomGrants := Filter(db.roomGrants, RoomGrantsOf(a.actorTokenId));
      docs := docs + [ActorDoc(a.keyId, a.name, a.actorType, Some(a.status), a.expiresAt, a.metadata,
                               if a.scopeId.Some? then Lookup(scopeSlugs, a.scopeId.value) else None,
                               FilterMap(appGrants, AppGrantToDoc(appSlugs)),
                               FilterMap(roomGrants, RoomGrantToDoc(refs)))];
    }
    assert actors[..|actors|] == actors;
  }

  /** The service's export: None is its "Project not found". */
  method ExportProject(db: Db, projectId: Id) returns (doc: Option<Doc>)
    ensures doc == Exported(db, projectId)
  {
    var project := FindFirst(db.projects, LiveProject(projectId));
    if project.None? { return None; }
    var scopes := ProjectScopes(db, projectId);
    var apps := ProjectApps(db, projectId);
    var appDocs, refs := ExportApps(db, apps);
    var actorDocs := ExportActors(db, ProjectActors(db, projectId),
                                  MapOf(Map(scopes, ScopePair)), MapOf(Map(apps, AppPair)), refs);
    doc := Some(Doc(DOC_VERSION, HeadOf(project.value), Map(scopes, ScopeToDoc), appDocs, actorDocs,
                    Map(ProjectKeys(db, projectId), KeyToDoc)));
  }
}
