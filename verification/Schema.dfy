/**
 * The authorization tables. A table is the sequence of its rows in the order
 * the database hands them back; `deletedAt` is the soft-delete column.
 */
module Schema {
  import opened Prelude

  /** Primary keys are opaque text. */
  type Id = string
  /** Milliseconds. */
  type Time = int
  /** A jsonb column that is stored and returned but never interpreted. */
  type Json = string

  datatype Permission = Subscribe | Publish | PubSub
  datatype ActorType = Device | Service | Session | User | Agent | Orchestrator | Observer
  datatype ActorStatus = ActorActive | ActorDisabled
  datatype AppStatus = AppActive | AppDisabled | AppSuspended
  datatype AccessMode = Open | Restricted
  datatype RoomStatus = RoomActive | RoomDisabled
  datatype KeyStatus = KeyActive | KeyDisabled

  datatype Project = Project(
    projectId: Id, name: string, description: Option<string>, organizationId: Option<Id>,
    maxConnections: Option<int>, maxMessageSizeBytes: Option<int>, sessionExpirySeconds: Option<int>,
    limitsSyncedAt: Option<Time>, deletedAt: Option<Time>)

  datatype Scope = Scope(
    scopeId: Id, projectId: Id, slug: string, name: string, description: Option<string>,
    metadata: Option<Json>, isActive: bool, deletedAt: Option<Time>)

  datatype App = App(
    appId: Id, projectId: Id, slug: string, name: string, description: Option<string>,
    status: AppStatus, accessMode: AccessMode, topics: Option<seq<string>>, topicConfigs: Option<Json>,
    hydrationWebhook: Option<Json>, triggerWebhook: Option<Json>, deletedAt: Option<Time>)

  datatype Room = Room(
    roomId: Id, appId: Id, slug: string, name: string, description: Option<string>,
    status: RoomStatus, topics: Option<seq<string>>, metadata: Option<Json>, deletedAt: Option<Time>)

  datatype Lobby = Lobby(
    lobbyId: Id, appId: Id, slug: string, name: string, description: Option<string>,
    metadata: Option<Json>, deletedAt: Option<Time>)

  /** The junction row; its primary key is the pair. */
  datatype LobbyRoom = LobbyRoom(lobbyId: Id, roomId: Id, deletedAt: Option<Time>)

  datatype Actor = Actor(
    actorTokenId: Id, projectId: Id, keyId: string, secretHash: string, name: string,
    actorType: ActorType, status: ActorStatus, expiresAt: Option<Time>, metadata: Option<Json>,
    scopeId: Option<Id>, deletedAt: Option<Time>)

  datatype AppGrant = AppGrant(
    grantId: Id, actorTokenId: Id, appId: Id, permission: Permission, topics: Option<seq<string>>,
    isActive: bool, expiresAt: Option<Time>, metadata: Option<Json>, deletedAt: Option<Time>)

  /** Targets one named actor, or every actor of a type. */
  datatype RoomGrant = RoomGrant(
    grantId: Id, roomId: Id, actorTokenId: Option<Id>, actorType: Option<ActorType>,
    permission: Permission, topics: Option<seq<string>>, isActive: bool, expiresAt: Option<Time>,
    role: Option<string>, metadata: Option<Json>, deletedAt: Option<Time>)

  datatype SigningKey = SigningKey(
    signingKeyId: Id, projectId: Id, keyId: string, secretEncrypted: string, name: string,
    status: KeyStatus, deletedAt: Option<Time>)

  datatype Db = Db(
    projects: seq<Project>, scopes: seq<Scope>, apps: seq<App>, rooms: seq<Room>,
    lobbies: seq<Lobby>, lobbyRooms: seq<LobbyRoom>, actors: seq<Actor>,
    appGrants: seq<AppGrant>, roomGrants: seq<RoomGrant>, signingKeys: seq<SigningKey>)

  /** `expiresAt && new Date(expiresAt) < new Date()`. */
  predicate Expired(expiresAt: Option<Time>, now: Time) {
    expiresAt.Some? && expiresAt.value < now
  }

  // The where clauses of the queries, each named once.

  function LiveProject(projectId: Id): Project -> bool {
    (p: Project) => p.projectId == projectId && p.deletedAt.None?
  }
  function LiveScopeOf(scopeId: Id, projectId: Id): Scope -> bool {
    (s: Scope) => s.scopeId == scopeId && s.projectId == projectId && s.deletedAt.None?
  }
  function ScopesIn(projectId: Id): Scope -> bool {
    (s: Scope) => s.projectId == projectId && s.deletedAt.None?
  }
  function LiveApp(appId: Id): App -> bool {
    (a: App) => a.appId == appId && a.deletedAt.None?
  }
  function AppsIn(projectId: Id): App -> bool {
    (a: App) => a.projectId == projectId && a.deletedAt.None?
  }
  function ActiveAppBySlug(projectId: Id, slug: string): App -> bool {
    (a: App) => a.slug == slug && a.projectId == projectId && a.status == AppActive && a.deletedAt.None?
  }
  function OpenAppsIn(projectId: Id): App -> bool {
    (a: App) => a.projectId == projectId && a.accessMode == Open && a.status == AppActive && a.deletedAt.None?
  }
  function RoomsIn(appId: Id): Room -> bool {
    (r: Room) => r.appId == appId && r.deletedAt.None?
  }
  function ActiveRoomsIn(appId: Id): Room -> bool {
    (r: Room) => r.appId == appId && r.status == RoomActive && r.deletedAt.None?
  }
  function ActiveRoomBySlug(appId: Id, slug: string): Room -> bool {
    (r: Room) => r.slug == slug && r.appId == appId && r.status == RoomActive && r.deletedAt.None?
  }
  function LobbiesIn(appId: Id): Lobby -> bool {
    (l: Lobby) => l.appId == appId && l.deletedAt.None?
  }
  function LiveLobby(lobbyId: Id): Lobby -> bool {
    (l: Lobby) => l.lobbyId == lobbyId && l.deletedAt.None?
  }
  function LinksOf(lobbyId: Id): LobbyRoom -> bool {
    (l: LobbyRoom) => l.lobbyId == lobbyId && l.deletedAt.None?
  }
  function LiveActor(actorTokenId: Id): Actor -> bool {
    (a: Actor) => a.actorTokenId == actorTokenId && a.deletedAt.None?
  }
  function ActorsIn(projectId: Id): Actor -> bool {
    (a: Actor) => a.projectId == projectId && a.deletedAt.None?
  }
  function AppGrantsOf(actorTokenId: Id): AppGrant -> bool {
    (g: AppGrant) => g.actorTokenId == actorTokenId && g.deletedAt.None?
  }
  function ActiveAppGrantsOf(actorTokenId: Id): AppGrant -> bool {
    (g: AppGrant) => g.actorTokenId == actorTokenId && g.isActive && g.deletedAt.None?
  }
  function ActiveAppGrantFor(actorTokenId: Id, appId: Id): AppGrant -> bool {
    (g: AppGrant) => g.actorTokenId == actorTokenId && g.appId == appId && g.isActive && g.deletedAt.None?
  }
  function GrantsOn(roomId: Id): RoomGrant -> bool {
    (g: RoomGrant) => g.roomId == roomId && g.deletedAt.None?
  }
  function TypeGrantsOn(roomId: Id): RoomGrant -> bool {
    (g: RoomGrant) => g.roomId == roomId && g.actorTokenId.None? && g.deletedAt.None?
  }
  function RoomGrantsOf(actorTokenId: Id): RoomGrant -> bool {
    (g: RoomGrant) => g.actorTokenId == Some(actorTokenId) && g.deletedAt.None?
  }
  function KeysIn(projectId: Id): SigningKey -> bool {
    (k: SigningKey) => k.projectId == projectId && k.deletedAt.None?
  }

  // The columns behind the primary keys and unique indexes.

  function ProjectKey(p: Project): Id { p.projectId }
  function ScopeKey(s: Scope): Id { s.scopeId }
  function AppKey(a: App): Id { a.appId }
  function RoomKey(r: Room): Id { r.roomId }
  function LobbyKey(l: Lobby): Id { l.lobbyId }
  function LinkKey(l: LobbyRoom): (Id, Id) { (l.lobbyId, l.roomId) }
  function ActorKey(a: Actor): Id { a.actorTokenId }
  function ActorKeyId(a: Actor): string { a.keyId }
  function AppGrantKey(g: AppGrant): (Id, Id) { (g.actorTokenId, g.appId) }
  function RoomGrantKey(g: RoomGrant): Id { g.grantId }
  function SigningKeyId(k: SigningKey): string { k.keyId }

  /** Primary keys, and the unique indexes that also cover deleted rows. */
  ghost predicate Keyed(db: Db) {
    && DistinctBy(db.projects, ProjectKey)
    && DistinctBy(db.scopes, ScopeKey)
    && DistinctBy(db.apps, AppKey)
    && DistinctBy(db.rooms, RoomKey)
    && DistinctBy(db.lobbies, LobbyKey)
    && DistinctBy(db.lobbyRooms, LinkKey)
    && DistinctBy(db.actors, ActorKey)
    && DistinctBy(db.actors, ActorKeyId)
    && DistinctBy(db.appGrants, AppGrantKey)
    && DistinctBy(db.roomGrants, RoomGrantKey)
    && DistinctBy(db.signingKeys, SigningKeyId)
  }

  predicate SameLiveScope(s: Scope, t: Scope) {
    s.deletedAt.None? && t.deletedAt.None? && s.projectId == t.projectId && s.slug == t.slug
  }
  predicate SameLiveApp(a: App, b: App) {
    a.deletedAt.None? && b.deletedAt.None? && a.projectId == b.projectId && a.slug == b.slug
  }
  predicate SameLiveRoom(r: Room, q: Room) {
    r.deletedAt.None? && q.deletedAt.None? && r.appId == q.appId && r.slug == q.slug
  }
  predicate SameLiveLobby(l: Lobby, m: Lobby) {
    l.deletedAt.None? && m.deletedAt.None? && l.appId == m.appId && l.slug == m.slug
  }

  /** The partial unique indexes: slugs are unique among rows that are not deleted. */
  ghost predicate UniqueLiveSlugs(db: Db) {
    && (forall s, t :: s in db.scopes && t in db.scopes && SameLiveScope(s, t) ==> s == t)
    && (forall a, b :: a in db.apps && b in db.apps && SameLiveApp(a, b) ==> a == b)
    && (forall r, q :: r in db.rooms && q in db.rooms && SameLiveRoom(r, q) ==> r == q)
    && (forall l, m :: l in db.lobbies && m in db.lobbies && SameLiveLobby(l, m) ==> l == m)
  }

  /** Two live grants that name the same actor, or the same type, on one room. */
  predicate SameTarget(g: RoomGrant, h: RoomGrant) {
    && g.deletedAt.None? && h.deletedAt.None?
    && g.roomId == h.roomId && g.actorTokenId == h.actorTokenId
    && (g.actorTokenId.None? ==> g.actorType == h.actorType)
  }

  ghost predicate OneGrantOnRoom(db: Db, roomId: Id) {
    forall g, h :: g in db.roomGrants && h in db.roomGrants && g.roomId == roomId && SameTarget(g, h) ==> g == h
  }

  ghost predicate OneGrantInApp(db: Db, appId: Id) {
    forall r :: r in db.rooms && RoomsIn(appId)(r) ==> OneGrantOnRoom(db, r.roomId)
  }

  /** One live grant per target on the live rooms of the project's live apps, whatever other projects hold. */
  ghost predicate OneGrantInProject(db: Db, projectId: Id) {
    forall a :: a in db.apps && AppsIn(projectId)(a) ==> OneGrantInApp(db, a.appId)
  }

  /** At most one live grant on a room for any one named actor, and for any one type. */
  ghost predicate OneGrantPerTarget(db: Db) {
    forall g, h :: g in db.roomGrants && h in db.roomGrants && SameTarget(g, h) ==> g == h
  }
}
