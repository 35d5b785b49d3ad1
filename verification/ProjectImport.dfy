/** Importing a document: a new project and everything under it, in one transaction. */
module ProjectImport {
  import opened Prelude
  import opened Schema
  import opened ProjectDoc
  import opened Tables

  /**
   * The draws an import makes from its random sources, named by what they are for:
   * row ids, public key ids, secrets, and a secret's hash or encrypted form.
   */
  datatype Draw =
    | OfProject | OfScope(i: nat) | OfApp(i: nat) | OfRoom(i: nat, j: nat) | OfTypeGrant(i: nat, j: nat, k: nat)
    | OfLobby(i: nat, j: nat) | OfActor(i: nat) | OfActorKeyId(i: nat) | OfActorSecret(i: nat) | OfActorHash(i: nat)
    | OfAppGrant(i: nat, k: nat) | OfRoomGrant(i: nat, k: nat)
    | OfKey(i: nat) | OfKeyId(i: nat) | OfKeySecret(i: nat) | OfKeyCipher(i: nat)

  type Mint = Draw -> string

  /** Draws never repeat and are never empty. */
  ghost predicate Distinguishes(mint: Mint) {
    && (forall p, q :: mint(p) == mint(q) ==> p == q)
    && (forall p :: mint(p) != "")
  }

  /** No row of the database mentions anything the import will draw. */
  ghost predicate Fresh(db: Db, mint: Mint) {
    && (forall r, d :: r in db.projects ==> r.projectId != mint(d))
    && (forall r, d :: r in db.scopes ==> r.scopeId != mint(d) && r.projectId != mint(d))
    && (forall r, d :: r in db.apps ==> r.appId != mint(d) && r.projectId != mint(d))
    && (forall r, d :: r in db.rooms ==> r.roomId != mint(d) && r.appId != mint(d))
    && (forall r, d :: r in db.lobbies ==> r.lobbyId != mint(d) && r.appId != mint(d))
    && (forall r, d :: r in db.lobbyRooms ==> r.lobbyId != mint(d) && r.roomId != mint(d))
    && (forall r, d :: r in db.actors ==>
          r.actorTokenId != mint(d) && r.projectId != mint(d) && r.keyId != mint(d) && r.scopeId != Some(mint(d)))
    && (forall r, d :: r in db.appGrants ==> r.actorTokenId != mint(d) && r.appId != mint(d))
    && (forall r, d :: r in db.roomGrants ==> r.grantId != mint(d) && r.roomId != mint(d) && r.actorTokenId != Some(mint(d)))
    && (forall r, d :: r in db.signingKeys ==> r.projectId != mint(d) && r.keyId != mint(d))
  }

  /* ── the rows a document becomes ─────────────────────────────────────── */

  function ProjectRow(doc: Doc, mint: Mint, now: Time): Project {
    var limits := doc.project.limits;
    Project(mint(OfProject), doc.project.name, doc.project.description, doc.project.organizationId,
      if limits.Some? then limits.value.maxConnections else None,
      if limits.Some? then limits.value.maxMessageSizeBytes else None,
      if limits.Some? then limits.value.sessionExpirySeconds else None,
      if limits.Some? then Some(now) else None, None)
  }

  function ScopeRow(mint: Mint, i: nat, s: ScopeDoc): Scope {
    Scope(mint(OfScope(i)), mint(OfProject), s.slug, s.name, s.description, s.metadata, s.isActive.GetOr(true), None)
  }

  function AppRow(mint: Mint, i: nat, a: AppDoc): App {
    App(mint(OfApp(i)), mint(OfProject), a.slug, a.name, a.description, a.status.GetOr(AppActive),
        a.accessMode.GetOr(Open), Some(a.topics), a.topicConfigs, a.hydrationWebhook, a.triggerWebhook, None)
  }

  function RoomRow(mint: Mint, i: nat, j: nat, r: RoomDoc): Room {
    Room(mint(OfRoom(i, j)), mint(OfApp(i)), r.slug, r.name, r.description, r.status.GetOr(RoomActive),
         r.topics, r.metadata, None)
  }

  function TypeGrantRow(mint: Mint, i: nat, j: nat, k: nat, g: TypeGrantDoc): RoomGrant {
    RoomGrant(mint(OfTypeGrant(i, j, k)), mint(OfRoom(i, j)), None, g.actorType, g.permission, g.topics,
              g.isActive.GetOr(true), None, None, None, None)
  }

  function LobbyRow(mint: Mint, i: nat, j: nat, l: LobbyDoc): Lobby {
    Lobby(mint(OfLobby(i, j)), mint(OfApp(i)), l.slug, l.name, l.description, l.metadata, None)
  }

  function ActorRow(mint: Mint, k: nat, a: ActorDoc, scopeId: Option<Id>): Actor {
    Actor(mint(OfActor(k)), mint(OfProject), mint(OfActorKeyId(k)), mint(OfActorHash(k)), a.name, a.actorType,
          a.status.GetOr(ActorActive), a.expiresAt, a.metadata, scopeId, None)
  }

  function AppGrantRow(mint: Mint, k: nat, m: nat, appId: Id, g: AppGrantDoc): AppGrant {
    AppGrant(mint(OfAppGrant(k, m)), mint(OfActor(k)), appId, g.permission, g.topics, g.isActive.GetOr(true),
             g.expiresAt, None, None)
  }

  function RoomGrantRow(mint: Mint, k: nat, m: nat, roomId: Id, g: RoomGrantDoc): RoomGrant {
    RoomGrant(mint(OfRoomGrant(k, m)), roomId, Some(mint(OfActor(k))), None, g.permission, g.topics,
              g.isActive.GetOr(true), g.expiresAt, g.role, None, None)
  }

  function KeyRow(mint: Mint, i: nat, k: KeyDoc): SigningKey {
    SigningKey(mint(OfKey(i)), mint(OfProject), mint(OfKeyId(i)), mint(OfKeyCipher(i)), k.name, KeyActive, None)
  }

  /* ── the slug maps the import fills ──────────────────────────────────── */

  function ScopePairs(doc: Doc, mint: Mint): seq<(string, Id)> {
    seq(|doc.accessScopes|, i requires 0 <= i < |doc.accessScopes| => (doc.accessScopes[i].slug, mint(OfScope(i))))
  }

  function AppPairs(doc: Doc, mint: Mint): seq<(string, Id)> {
    seq(|doc.apps|, i requires 0 <= i < |doc.apps| => (doc.apps[i].slug, mint(OfApp(i))))
  }

  /** The template key under which a room is remembered. */
  function RoomKeyOf(appSlug: string, roomSlug: string): string { appSlug + "/" + roomSlug }

  function AppRoomPairs(a: AppDoc, mint: Mint, i: nat): seq<(string, Id)> {
    seq(|a.rooms|, j requires 0 <= j < |a.rooms| => (RoomKeyOf(a.slug, a.rooms[j].slug), mint(OfRoom(i, j))))
  }

  function RoomPairBlock(doc: Doc, mint: Mint): nat -> seq<(string, Id)> {
    (i: nat) => if i < |doc.apps| then AppRoomPairs(doc.apps[i], mint, i) else []
  }

  function ScopeIds(doc: Doc, mint: Mint): map<string, Id> { MapOf(ScopePairs(doc, mint)) }
  function AppIds(doc: Doc, mint: Mint): map<string, Id> { MapOf(AppPairs(doc, mint)) }
  /** What the room map holds once the first n apps are written. */
  function RoomIds(doc: Doc, mint: Mint, n: nat): map<string, Id> { MapOf(Flat(n, RoomPairBlock(doc, mint))) }

  /* ── the batches of rows ─────────────────────────────────────────────── */

  function ScopeRows(doc: Doc, mint: Mint): seq<Scope> {
    seq(|doc.accessScopes|, i requires 0 <= i < |doc.accessScopes| => ScopeRow(mint, i, doc.accessScopes[i]))
  }

  function TypeGrantRows(mint: Mint, i: nat, j: nat, r: RoomDoc): seq<RoomGrant> {
    seq(|r.typeGrants|, k requires 0 <= k < |r.typeGrants| => TypeGrantRow(mint, i, j, k, r.typeGrants[k]))
  }

  function RoomBatch(a: AppDoc, mint: Mint, i: nat): nat -> Db {
    (j: nat) =>
      if j < |a.rooms|
      then EMPTY.(rooms := [RoomRow(mint, i, j, a.rooms[j])], roomGrants := TypeGrantRows(mint, i, j, a.rooms[j]))
      else EMPTY
  }

  /** Saving a link whose key exists updates it in place, so repeats collapse. */
  function SaveLink(links: seq<LobbyRoom>, link: LobbyRoom): seq<LobbyRoom> {
    if link in links then links else links + [link]
  }

  function LinkRows(roomIds: map<string, Id>, appSlug: string, lobbyId: Id, slugs: seq<string>): seq<LobbyRoom> {
    if slugs == [] then []
    else SaveLink(LinkRows(roomIds, appSlug, lobbyId, slugs[..|slugs| - 1]),
                  LobbyRoom(lobbyId, Get(roomIds, RoomKeyOf(appSlug, slugs[|slugs| - 1]), ""), None))
  }

  function LobbyBatch(a: AppDoc, mint: Mint, i: nat, roomIds: map<string, Id>): nat -> Db {
    (j: nat) =>
      if j < |a.lobbies|
      then EMPTY.(lobbies := [LobbyRow(mint, i, j, a.lobbies[j])],
                  lobbyRooms := LinkRows(roomIds, a.slug, mint(OfLobby(i, j)), a.lobbies[j].rooms))
      else EMPTY
  }

  function AppBatch(doc: Doc, mint: Mint): nat -> Db {
    (i: nat) =>
      if i < |doc.apps| then
        Plus(Plus(EMPTY.(apps := [AppRow(mint, i, doc.apps[i])]),
                  Sum(|doc.apps[i].rooms|, RoomBatch(doc.apps[i], mint, i))),
             Sum(|doc.apps[i].lobbies|, LobbyBatch(doc.apps[i], mint, i, RoomIds(doc, mint, i + 1))))
      else EMPTY
  }

  function ScopeIdOf(scopeIds: map<string, Id>, a: ActorDoc): Option<Id> {
    if a.scopeSlug.Some? && a.scopeSlug.value != "" then Lookup(scopeIds, a.scopeSlug.value) else None
  }

  function AppGrantRows(appIds: map<string, Id>, mint: Mint, k: nat, grants: seq<AppGrantDoc>): seq<AppGrant> {
    seq(|grants|, m requires 0 <= m < |grants| => AppGrantRow(mint, k, m, Get(appIds, grants[m].appSlug, ""), grants[m]))
  }

  function NamedGrantRows(roomIds: map<string, Id>, mint: Mint, k: nat, grants: seq<RoomGrantDoc>): seq<RoomGrant> {
    seq(|grants|, m requires 0 <= m < |grants| =>
      RoomGrantRow(mint, k, m, Get(roomIds, RoomKeyOf(grants[m].appSlug, grants[m].roomSlug), ""), grants[m]))
  }

  function ActorBatch(doc: Doc, mint: Mint): nat -> Db {
    (k: nat) =>
      if k < |doc.actors| then
        EMPTY.(actors := [ActorRow(mint, k, doc.actors[k], ScopeIdOf(ScopeIds(doc, mint), doc.actors[k]))],
               appGrants := AppGrantRows(AppIds(doc, mint), mint, k, doc.actors[k].appAccess),
               roomGrants := NamedGrantRows(RoomIds(doc, mint, |doc.apps|), mint, k, doc.actors[k].roomAccess))
      else EMPTY
  }

  function KeyRows(doc: Doc, mint: Mint): seq<SigningKey> {
    seq(|doc.signingKeys|, i requires 0 <= i < |doc.signingKeys| => KeyRow(mint, i, doc.signingKeys[i]))
  }

  /** Every row the import of a document writes. */
  function Batch(doc: Doc, mint: Mint, now: Time): Db {
    Plus(Plus(Plus(EMPTY.(projects := [ProjectRow(doc, mint, now)], scopes := ScopeRows(doc, mint)),
                   Sum(|doc.apps|, AppBatch(doc, mint))),
              Sum(|doc.actors|, ActorBatch(doc, mint))),
         EMPTY.(signingKeys := KeyRows(doc, mint)))
  }

  /** The database after a successful import. */
  function Imported(db: Db, doc: Doc, mint: Mint, now: Time): Db {
    Plus(db, Batch(doc, mint, now))
  }

  /* ── what an import accepts ──────────────────────────────────────────── */

  ghost predicate UniqueSlugs(doc: Doc) {
    && Distinct(Map(doc.accessScopes, ScopeSlug)) && Distinct(Map(doc.apps, AppSlug))
    && Distinct(Map(doc.actors, ActorRef)) && Distinct(Map(doc.signingKeys, KeyRef))
    && forall a :: a in doc.apps ==> Distinct(Map(a.rooms, RoomSlug)) && Distinct(Map(a.lobbies, LobbySlug))
  }

  /** Every room a lobby lists is known when the lobby is written. */
  ghost predicate LobbyResolves(roomIds: map<string, Id>, appSlug: string, l: LobbyDoc) {
    forall s :: s in l.rooms ==> RoomKeyOf(appSlug, s) in roomIds
  }

  ghost predicate AppResolves(doc: Doc, mint: Mint, i: nat)
    requires i < |doc.apps|
  {
    forall l :: l in doc.apps[i].lobbies ==> LobbyResolves(RoomIds(doc, mint, i + 1), doc.apps[i].slug, l)
  }

  ghost predicate ScopeResolves(scopeIds: map<string, Id>, a: ActorDoc) {
    a.scopeSlug.Some? && a.scopeSlug.value != "" ==> a.scopeSlug.value in scopeIds
  }

  /** Its apps are known and none is granted twice: the unique constraint would reject the second. */
  ghost predicate AppAccessResolves(appIds: map<string, Id>, grants: seq<AppGrantDoc>) {
    (forall g :: g in grants ==> g.appSlug in appIds) && Distinct(Map(grants, GrantApp))
  }

  ghost predicate RoomAccessResolves(roomIds: map<string, Id>, grants: seq<RoomGrantDoc>) {
    forall g :: g in grants ==> RoomKeyOf(g.appSlug, g.roomSlug) in roomIds
  }

  ghost predicate ActorResolves(doc: Doc, mint: Mint, a: ActorDoc) {
    && ScopeResolves(ScopeIds(doc, mint), a)
    && AppAccessResolves(AppIds(doc, mint), a.appAccess)
    && RoomAccessResolves(RoomIds(doc, mint, |doc.apps|), a.roomAccess)
  }

  /** The documents an import accepts, given whether an encryption key is configured. */
  ghost predicate Accepts(doc: Doc, mint: Mint, keyConfigured: bool) {
    && doc.version == DOC_VERSION && UniqueSlugs(doc)
    && (forall i :: 0 <= i < |doc.apps| ==> AppResolves(doc, mint, i))
    && (forall a :: a in doc.actors ==> ActorResolves(doc, mint, a))
    && (doc.signingKeys == [] || keyConfigured)
  }
}
