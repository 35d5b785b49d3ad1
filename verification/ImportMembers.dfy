/** Which document entry each imported row comes from. */
module ImportMembers {
  import opened Prelude
  import opened Schema
  import opened ProjectDoc
  import opened Tables
  import opened ProjectImport
  import opened ImportTables
  import opened ImportQueries

  lemma RoomMember(doc: Doc, mint: Mint, r: Room) returns (i: nat, j: nat)
    requires r in Flat(|doc.apps|, RoomsPart(AppBatch(doc, mint)))
    ensures i < |doc.apps| && j < |doc.apps[i].rooms| && r == RoomRow(mint, i, j, doc.apps[i].rooms[j])
  {
    hide AppBatch, Flat, RoomRow;
    FlatMember(|doc.apps|, RoomsPart(AppBatch(doc, mint)), r);
    i :| 0 <= i < |doc.apps| && r in RoomsPart(AppBatch(doc, mint))(i);
    AppParts(doc, mint, i);
    j :| 0 <= j < |doc.apps[i].rooms| && r == RoomRows(doc.apps[i], mint, i)[j];
  }

  lemma LobbyMember(doc: Doc, mint: Mint, l: Lobby) returns (i: nat, j: nat)
    requires l in Flat(|doc.apps|, LobbiesPart(AppBatch(doc, mint)))
    ensures i < |doc.apps| && j < |doc.apps[i].lobbies| && l == LobbyRow(mint, i, j, doc.apps[i].lobbies[j])
  {
    hide AppBatch, Flat, LobbyRow;
    FlatMember(|doc.apps|, LobbiesPart(AppBatch(doc, mint)), l);
    i :| 0 <= i < |doc.apps| && l in LobbiesPart(AppBatch(doc, mint))(i);
    AppParts(doc, mint, i);
    j :| 0 <= j < |doc.apps[i].lobbies| && l == LobbyRows(doc.apps[i], mint, i)[j];
  }

  lemma {:induction false} LinkRowMember(roomIds: map<string, Id>, appSlug: string, lobbyId: Id, slugs: seq<string>, l: LobbyRoom)
    returns (s: string)
    requires l in LinkRows(roomIds, appSlug, lobbyId, slugs)
    ensures s in slugs && l == LobbyRoom(lobbyId, Get(roomIds, RoomKeyOf(appSlug, s), ""), None)
  {
    hide RoomKeyOf;
    var n := |slugs| - 1;
    if l in LinkRows(roomIds, appSlug, lobbyId, slugs[..n]) {
      s := LinkRowMember(roomIds, appSlug, lobbyId, slugs[..n], l);
    } else {
      s := slugs[n];
    }
  }

  lemma LinkMember(doc: Doc, mint: Mint, l: LobbyRoom) returns (i: nat, j: nat, s: string)
    requires l in Flat(|doc.apps|, LinksPart(AppBatch(doc, mint)))
    ensures i < |doc.apps| && j < |doc.apps[i].lobbies| && s in doc.apps[i].lobbies[j].rooms
    ensures l == LobbyRoom(mint(OfLobby(i, j)), Get(RoomIds(doc, mint, i + 1), RoomKeyOf(doc.apps[i].slug, s), ""), None)
  {
    hide AppBatch, Flat, RoomIds, RoomKeyOf, LinkRows, LobbyBatch;
    FlatMember(|doc.apps|, LinksPart(AppBatch(doc, mint)), l);
    i :| 0 <= i < |doc.apps| && l in LinksPart(AppBatch(doc, mint))(i);
    AppParts(doc, mint, i);
    var a, roomIds := doc.apps[i], RoomIds(doc, mint, i + 1);
    FlatMember(|a.lobbies|, LinksPart(LobbyBatch(a, mint, i, roomIds)), l);
    j :| 0 <= j < |a.lobbies| && l in LinksPart(LobbyBatch(a, mint, i, roomIds))(j);
    LobbyLinks(a, mint, i, roomIds, j);
    s := LinkRowMember(roomIds, a.slug, mint(OfLobby(i, j)), a.lobbies[j].rooms, l);
  }

  lemma TypeGrantMember(doc: Doc, mint: Mint, g: RoomGrant) returns (i: nat, j: nat, k: nat)
    requires g in Flat(|doc.apps|, RoomGrantsPart(AppBatch(doc, mint)))
    ensures i < |doc.apps| && j < |doc.apps[i].rooms| && k < |doc.apps[i].rooms[j].typeGrants|
    ensures g == TypeGrantRow(mint, i, j, k, doc.apps[i].rooms[j].typeGrants[k])
  {
    hide AppBatch, Flat, RoomBatch, TypeGrantRow;
    FlatMember(|doc.apps|, RoomGrantsPart(AppBatch(doc, mint)), g);
    i :| 0 <= i < |doc.apps| && g in RoomGrantsPart(AppBatch(doc, mint))(i);
    AppParts(doc, mint, i);
    var a := doc.apps[i];
    FlatMember(|a.rooms|, RoomGrantsPart(RoomBatch(a, mint, i)), g);
    j :| 0 <= j < |a.rooms| && g in RoomGrantsPart(RoomBatch(a, mint, i))(j);
    RoomTypeGrants(a, mint, i, j);
    k :| 0 <= k < |a.rooms[j].typeGrants| && g == TypeGrantRows(mint, i, j, a.rooms[j])[k];
  }

  lemma AppGrantMember(doc: Doc, mint: Mint, g: AppGrant) returns (k: nat, m: nat)
    requires g in Flat(|doc.actors|, AppGrantsPart(ActorBatch(doc, mint)))
    ensures k < |doc.actors| && m < |doc.actors[k].appAccess|
    ensures g == AppGrantRow(mint, k, m, Get(AppIds(doc, mint), doc.actors[k].appAccess[m].appSlug, ""), doc.actors[k].appAccess[m])
  {
    hide ActorBatch, Flat, AppGrantRow, AppIds;
    FlatMember(|doc.actors|, AppGrantsPart(ActorBatch(doc, mint)), g);
    k :| 0 <= k < |doc.actors| && g in AppGrantsPart(ActorBatch(doc, mint))(k);
    ActorGrants(doc, mint, k);
    m :| 0 <= m < |doc.actors[k].appAccess| && g == AppGrantRows(AppIds(doc, mint), mint, k, doc.actors[k].appAccess)[m];
  }

  lemma NamedGrantMember(doc: Doc, mint: Mint, g: RoomGrant) returns (k: nat, m: nat)
    requires g in Flat(|doc.actors|, RoomGrantsPart(ActorBatch(doc, mint)))
    ensures k < |doc.actors| && m < |doc.actors[k].roomAccess|
    ensures var d := doc.actors[k].roomAccess[m];
            g == RoomGrantRow(mint, k, m, Get(RoomIds(doc, mint, |doc.apps|), RoomKeyOf(d.appSlug, d.roomSlug), ""), d)
  {
    hide ActorBatch, Flat, RoomGrantRow, RoomIds, RoomKeyOf;
    FlatMember(|doc.actors|, RoomGrantsPart(ActorBatch(doc, mint)), g);
    k :| 0 <= k < |doc.actors| && g in RoomGrantsPart(ActorBatch(doc, mint))(k);
    ActorGrants(doc, mint, k);
    m :| 0 <= m < |doc.actors[k].roomAccess|
      && g == NamedGrantRows(RoomIds(doc, mint, |doc.apps|), mint, k, doc.actors[k].roomAccess)[m];
  }

  lemma AppMember(doc: Doc, mint: Mint, a: App) returns (i: nat)
    requires a in AppRows(doc, mint)
    ensures i < |doc.apps| && a == AppRow(mint, i, doc.apps[i])
  {
    hide AppRow;
    i :| 0 <= i < |doc.apps| && a == AppRows(doc, mint)[i];
  }

  lemma ScopeMember(doc: Doc, mint: Mint, s: Scope) returns (i: nat)
    requires s in ScopeRows(doc, mint)
    ensures i < |doc.accessScopes| && s == ScopeRow(mint, i, doc.accessScopes[i])
  {
    hide ScopeRow;
    i :| 0 <= i < |doc.accessScopes| && s == ScopeRows(doc, mint)[i];
  }

  lemma ActorMember(doc: Doc, mint: Mint, a: Actor) returns (k: nat)
    requires a in ActorRows(doc, mint)
    ensures k < |doc.actors| && a == ActorRow(mint, k, doc.actors[k], ScopeIdOf(ScopeIds(doc, mint), doc.actors[k]))
  {
    hide ActorRow, ScopeIdOf, ScopeIds;
    k :| 0 <= k < |doc.actors| && a == ActorRows(doc, mint)[k];
  }

  /* ── columns no document fills ───────────────────────────────────────── */

  lemma NewRoomGrantPlain(doc: Doc, mint: Mint, g: RoomGrant)
    requires g in Flat(|doc.apps|, RoomGrantsPart(AppBatch(doc, mint))) + Flat(|doc.actors|, RoomGrantsPart(ActorBatch(doc, mint)))
    ensures g.deletedAt.None? && g.metadata.None?
    ensures g.actorTokenId.Some? ==> g.actorType.None?
    ensures g.actorTokenId.None? ==> g.expiresAt.None? && g.role.None?
  {
    hide AppBatch, ActorBatch, Flat, RoomIds, RoomKeyOf;
    if g in Flat(|doc.apps|, RoomGrantsPart(AppBatch(doc, mint))) {
      var i, j, k := TypeGrantMember(doc, mint, g);
    } else {
      var k, m := NamedGrantMember(doc, mint, g);
    }
  }

  lemma NewAppGrantPlain(doc: Doc, mint: Mint, g: AppGrant)
    requires g in Flat(|doc.actors|, AppGrantsPart(ActorBatch(doc, mint)))
    ensures g.deletedAt.None? && g.metadata.None?
  {
    hide ActorBatch, Flat, AppIds;
    var k, m := AppGrantMember(doc, mint, g);
  }

  /**
   * Of the new rows: no grant is deleted or carries metadata, a type grant never
   * expires and has no role, a named grant has no type, and the project's limits count
   * as synced, at that moment, only if the document gave some.
   */
  lemma UnwrittenColumns(db: Db, doc: Doc, mint: Mint, now: Time)
    ensures forall g :: g in Imported(db, doc, mint, now).roomGrants && g !in db.roomGrants ==>
              g.deletedAt.None? && g.metadata.None? && (g.actorTokenId.Some? ==> g.actorType.None?)
              && (g.actorTokenId.None? ==> g.expiresAt.None? && g.role.None?)
    ensures forall g :: g in Imported(db, doc, mint, now).appGrants && g !in db.appGrants ==> g.deletedAt.None? && g.metadata.None?
    ensures forall p :: p in Imported(db, doc, mint, now).projects && p !in db.projects ==>
              p.deletedAt.None? && p.limitsSyncedAt == if doc.project.limits.Some? then Some(now) else None
  {
    hide AppBatch, ActorBatch, Flat, Imported;
    RoomGrantTable(db, doc, mint, now);
    AppGrantTable(db, doc, mint, now);
    ProjectTable(db, doc, mint, now);
    forall g | g in Imported(db, doc, mint, now).roomGrants && g !in db.roomGrants
      ensures g.deletedAt.None? && g.metadata.None? && (g.actorTokenId.Some? ==> g.actorType.None?)
              && (g.actorTokenId.None? ==> g.expiresAt.None? && g.role.None?)
    { NewRoomGrantPlain(doc, mint, g); }
    forall g | g in Imported(db, doc, mint, now).appGrants && g !in db.appGrants ensures g.deletedAt.None? && g.metadata.None? {
      NewAppGrantPlain(doc, mint, g);
    }
  }
}
