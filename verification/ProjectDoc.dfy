/** A whole project as one document, addressed by slug instead of by id. */
module ProjectDoc {
  import opened Prelude
  import opened Schema
  import opened Sorting

  // Fields a document may leave out are options; a left-out list is the empty list.

  datatype ScopeDoc = ScopeDoc(
    slug: string, name: string, description: Option<string>, metadata: Option<Json>, isActive: Option<bool>)

  datatype TypeGrantDoc = TypeGrantDoc(
    actorType: Option<ActorType>, permission: Permission, topics: Option<seq<string>>, isActive: Option<bool>)

  datatype RoomDoc = RoomDoc(
    slug: string, name: string, description: Option<string>, status: Option<RoomStatus>,
    topics: Option<seq<string>>, metadata: Option<Json>, typeGrants: seq<TypeGrantDoc>)

  datatype LobbyDoc = LobbyDoc(
    slug: string, name: string, description: Option<string>, metadata: Option<Json>, rooms: seq<string>)

  datatype AppDoc = AppDoc(
    slug: string, name: string, description: Option<string>, status: Option<AppStatus>,
    accessMode: Option<AccessMode>, topics: seq<string>, topicConfigs: Option<Json>,
    hydrationWebhook: Option<Json>, triggerWebhook: Option<Json>,
    rooms: seq<RoomDoc>, lobbies: seq<LobbyDoc>)

  datatype AppGrantDoc = AppGrantDoc(
    appSlug: string, permission: Permission, topics: Option<seq<string>>,
    isActive: Option<bool>, expiresAt: Option<Time>)

  datatype RoomGrantDoc = RoomGrantDoc(
    appSlug: string, roomSlug: string, permission: Permission, topics: Option<seq<string>>,
    isActive: Option<bool>, expiresAt: Option<Time>, role: Option<string>)

  datatype ActorDoc = ActorDoc(
    ref: string, name: string, actorType: ActorType, status: Option<ActorStatus>,
    expiresAt: Option<Time>, metadata: Option<Json>, scopeSlug: Option<string>,
    appAccess: seq<AppGrantDoc>, roomAccess: seq<RoomGrantDoc>)

  datatype KeyDoc = KeyDoc(ref: string, name: string)

  datatype Limits = Limits(
    maxConnections: Option<int>, maxMessageSizeBytes: Option<int>, sessionExpirySeconds: Option<int>)

  datatype ProjectHead = ProjectHead(
    name: string, description: Option<string>, organizationId: Option<Id>, limits: Option<Limits>)

  datatype Doc = Doc(
    version: int, project: ProjectHead, accessScopes: seq<ScopeDoc>, apps: seq<AppDoc>,
    actors: seq<ActorDoc>, signingKeys: seq<KeyDoc>)

  const DOC_VERSION := 1

  function ScopeSlug(s: ScopeDoc): string { s.slug }
  function AppSlug(a: AppDoc): string { a.slug }
  function RoomSlug(r: RoomDoc): string { r.slug }
  function LobbySlug(l: LobbyDoc): string { l.slug }
  function ActorRef(a: ActorDoc): string { a.ref }
  function KeyRef(k: KeyDoc): string { k.ref }
  function GrantApp(g: AppGrantDoc): string { g.appSlug }
  function Self(s: string): string { s }
  predicate NotEmpty(s: string) { s != "" }
  predicate NamesApp(g: AppGrantDoc) { g.appSlug != "" }

  /* ── the normal form an import followed by an export leaves ──────────── */

  function NormScope(s: ScopeDoc): ScopeDoc {
    s.(isActive := Some(s.isActive.GetOr(true)))
  }

  function NormTypeGrant(g: TypeGrantDoc): TypeGrantDoc {
    g.(isActive := Some(g.isActive.GetOr(true)))
  }

  function NormRoom(r: RoomDoc): RoomDoc {
    r.(status := Some(r.status.GetOr(RoomActive)), typeGrants := Map(r.typeGrants, NormTypeGrant))
  }

  function NormLobby(l: LobbyDoc): LobbyDoc {
    l.(rooms := SortBy(Filter(Dedup(l.rooms), NotEmpty), Self))
  }

  function NormApp(a: AppDoc): AppDoc {
    a.(status := Some(a.status.GetOr(AppActive)),
       accessMode := Some(a.accessMode.GetOr(Open)),
       rooms := SortBy(Map(a.rooms, NormRoom), RoomSlug),
       lobbies := SortBy(Map(a.lobbies, NormLobby), LobbySlug))
  }

  function NormAppGrant(g: AppGrantDoc): AppGrantDoc {
    g.(isActive := Some(g.isActive.GetOr(true)))
  }

  function NormRoomGrant(g: RoomGrantDoc): RoomGrantDoc {
    g.(isActive := Some(g.isActive.GetOr(true)))
  }

  function NormActor(a: ActorDoc, ref: string): ActorDoc {
    ActorDoc(ref, a.name, a.actorType, Some(a.status.GetOr(ActorActive)), a.expiresAt, a.metadata,
      if a.scopeSlug.Some? && a.scopeSlug.value != "" then a.scopeSlug else None,
      Filter(Map(a.appAccess, NormAppGrant), NamesApp),
      Map(a.roomAccess, NormRoomGrant))
  }

  function RenamedActors(actors: seq<ActorDoc>, refs: seq<string>): seq<ActorDoc>
    requires |refs| == |actors|
  {
    seq(|actors|, i requires 0 <= i < |actors| => NormActor(actors[i], refs[i]))
  }

  /** Actors under their new handles, then in handle order. */
  function NormActors(actors: seq<ActorDoc>, refs: seq<string>): seq<ActorDoc>
    requires |refs| == |actors|
  {
    SortBy(RenamedActors(actors, refs), ActorRef)
  }

  function RenamedKeys(keys: seq<KeyDoc>, refs: seq<string>): seq<KeyDoc>
    requires |refs| == |keys|
  {
    seq(|keys|, i requires 0 <= i < |keys| => keys[i].(ref := refs[i]))
  }

  function NormKeys(keys: seq<KeyDoc>, refs: seq<string>): seq<KeyDoc>
    requires |refs| == |keys|
  {
    SortBy(RenamedKeys(keys, refs), KeyRef)
  }

  /** Defaults filled, lists sorted, handles replaced by the given public key ids. */
  function Normalize(doc: Doc, actorRefs: seq<string>, keyRefs: seq<string>): Doc
    requires |actorRefs| == |doc.actors| && |keyRefs| == |doc.signingKeys|
  {
    Doc(DOC_VERSION, doc.project,
        SortBy(Map(doc.accessScopes, NormScope), ScopeSlug),
        SortBy(Map(doc.apps, NormApp), AppSlug),
        NormActors(doc.actors, actorRefs),
        NormKeys(doc.signingKeys, keyRefs))
  }
}
