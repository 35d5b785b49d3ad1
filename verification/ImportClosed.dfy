/** Every reference an import stores points to a row of the same import. */
module ImportClosed {
  import opened Prelude
  import opened Schema
  import opened ProjectDoc
  import opened Tables
  import opened ProjectImport
  import opened ImportTables
  import opened ImportQueries
  import opened ImportRefs
  import opened ImportMembers
  import opened RoundTrip

  ghost predicate HasRow<T(!new)>(rows: seq<T>, key: T -> Id, id: Id) { exists x :: x in rows && key(x) == id }

  /** No reference leaves the batch. */
  ghost predicate Closed(b: Db) {
    && (forall s :: s in b.scopes ==> HasRow(b.projects, ProjectKey, s.projectId))
    && (forall a :: a in b.apps ==> HasRow(b.projects, ProjectKey, a.projectId))
    && (forall r :: r in b.rooms ==> HasRow(b.apps, AppKey, r.appId))
    && (forall l :: l in b.lobbies ==> HasRow(b.apps, AppKey, l.appId))
    && (forall l :: l in b.lobbyRooms ==> HasRow(b.lobbies, LobbyKey, l.lobbyId) && HasRow(b.rooms, RoomKey, l.roomId))
    && (forall a :: a in b.actors ==> ActorClosed(b, a))
    && (forall g :: g in b.appGrants ==> HasRow(b.actors, ActorKey, g.actorTokenId) && HasRow(b.apps, AppKey, g.appId))
    && (forall g :: g in b.roomGrants ==> RoomGrantClosed(b, g))
    && (forall k :: k in b.signingKeys ==> HasRow(b.projects, ProjectKey, k.projectId))
  }

  ghost predicate ActorClosed(b: Db, a: Actor) {
    && HasRow(b.projects, ProjectKey, a.projectId)
    && (a.scopeId.Some? ==> HasRow(b.scopes, ScopeKey, a.scopeId.value))
  }

  ghost predicate RoomGrantClosed(b: Db, g: RoomGrant) {
    && HasRow(b.rooms, RoomKey, g.roomId)
    && (g.actorTokenId.Some? ==> HasRow(b.actors, ActorKey, g.actorTokenId.value))
  }

  // Each minted id has its row.

  lemma ProjectRowIn(doc: Doc, mint: Mint, now: Time)
    ensures HasRow([ProjectRow(doc, mint, now)], ProjectKey, mint(OfProject))
  {
    assert ProjectRow(doc, mint, now) in [ProjectRow(doc, mint, now)];
  }

  lemma ScopeRowIn(doc: Doc, mint: Mint, i: nat)
    requires i < |doc.accessScopes|
    ensures HasRow(ScopeRows(doc, mint), ScopeKey, mint(OfScope(i)))
  {
    assert ScopeKey(ScopeRows(doc, mint)[i]) == mint(OfScope(i));
  }

  lemma AppRowIn(doc: Doc, mint: Mint, i: nat)
    requires i < |doc.apps|
    ensures HasRow(AppRows(doc, mint), AppKey, mint(OfApp(i)))
  {
    assert AppKey(AppRows(doc, mint)[i]) == mint(OfApp(i));
  }

  lemma ActorRowIn(doc: Doc, mint: Mint, k: nat)
    requires k < |doc.actors|
    ensures HasRow(ActorRows(doc, mint), ActorKey, mint(OfActor(k)))
  {
    hide ScopeIdOf, ScopeIds;
    assert ActorKey(ActorRows(doc, mint)[k]) == mint(OfActor(k));
  }

  lemma RoomRowIn(doc: Doc, mint: Mint, i: nat, j: nat)
    requires i < |doc.apps| && j < |doc.apps[i].rooms|
    ensures HasRow(Flat(|doc.apps|, RoomsPart(AppBatch(doc, mint))), RoomKey, mint(OfRoom(i, j)))
  {
    hide AppBatch, Flat;
    AppParts(doc, mint, i);
    var r := RoomRows(doc.apps[i], mint, i)[j];
    assert r in RoomsPart(AppBatch(doc, mint))(i);
    FlatMember(|doc.apps|, RoomsPart(AppBatch(doc, mint)), r);
    assert RoomKey(r) == mint(OfRoom(i, j));
  }

  lemma LobbyRowIn(doc: Doc, mint: Mint, i: nat, j: nat)
    requires i < |doc.apps| && j < |doc.apps[i].lobbies|
    ensures HasRow(Flat(|doc.apps|, LobbiesPart(AppBatch(doc, mint))), LobbyKey, mint(OfLobby(i, j)))
  {
    hide AppBatch, Flat;
    AppParts(doc, mint, i);
    var l := LobbyRows(doc.apps[i], mint, i)[j];
    assert l in LobbiesPart(AppBatch(doc, mint))(i);
    FlatMember(|doc.apps|, LobbiesPart(AppBatch(doc, mint)), l);
    assert LobbyKey(l) == mint(OfLobby(i, j));
  }

  // Each kind of reference stays inside.

  lemma HeadClosed(doc: Doc, mint: Mint, now: Time)
    ensures var b := Batch(doc, mint, now);
            && (forall s :: s in b.scopes ==> HasRow(b.projects, ProjectKey, s.projectId))
            && (forall a :: a in b.apps ==> HasRow(b.projects, ProjectKey, a.projectId))
            && (forall k :: k in b.signingKeys ==> HasRow(b.projects, ProjectKey, k.projectId))
  {
    hide Batch, AppBatch, ActorBatch, Flat, ActorRows, ProjectRow, HasRow;
    BatchTables(doc, mint, now);
    ProjectRowIn(doc, mint, now);
  }

  lemma RoomsClosed(doc: Doc, mint: Mint, now: Time)
    ensures var b := Batch(doc, mint, now);
            && (forall r :: r in b.rooms ==> HasRow(b.apps, AppKey, r.appId))
            && (forall l :: l in b.lobbies ==> HasRow(b.apps, AppKey, l.appId))
  {
    hide Batch, AppBatch, ActorBatch, Flat, ActorRows, ProjectRow, AppRows, HasRow;
    BatchTables(doc, mint, now);
    var b := Batch(doc, mint, now);
    forall r | r in b.rooms ensures HasRow(b.apps, AppKey, r.appId) {
      var i, j := RoomMember(doc, mint, r);
      AppRowIn(doc, mint, i);
    }
    forall l | l in b.lobbies ensures HasRow(b.apps, AppKey, l.appId) {
      var i, j := LobbyMember(doc, mint, l);
      AppRowIn(doc, mint, i);
    }
  }

  lemma LinksClosed(db: Db, doc: Doc, mint: Mint, now: Time)
    requires GoodImport(db, doc, mint)
    ensures var b := Batch(doc, mint, now);
            forall l :: l in b.lobbyRooms ==> HasRow(b.lobbies, LobbyKey, l.lobbyId) && HasRow(b.rooms, RoomKey, l.roomId)
  {
    hide Batch, AppBatch, ActorBatch, Flat, ActorRows, ProjectRow, AppRows, HasRow, FreshImport, Keyed, SlashFree, UniqueSlugs,
         ActorResolves, RoomIds, RoomKeyOf;
    BatchTables(doc, mint, now);
    var b := Batch(doc, mint, now);
    forall l | l in b.lobbyRooms ensures HasRow(b.lobbies, LobbyKey, l.lobbyId) && HasRow(b.rooms, RoomKey, l.roomId) {
      var i, j, s := LinkMember(doc, mint, l);
      LobbyRowIn(doc, mint, i, j);
      assert AppResolves(doc, mint, i) && doc.apps[i].lobbies[j] in doc.apps[i].lobbies;
      var i', j' := RoomKeyNamed(doc, mint, i + 1, doc.apps[i].slug, s);
      RoomIdKnown(doc, mint, i + 1, i', j');
      RoomRowIn(doc, mint, i', j');
    }
  }

  lemma ActorsClosed(db: Db, doc: Doc, mint: Mint, now: Time)
    requires GoodImport(db, doc, mint)
    ensures var b := Batch(doc, mint, now); forall a :: a in b.actors ==> ActorClosed(b, a)
  {
    hide Batch, AppBatch, ActorBatch, Flat, ActorRows, ProjectRow, AppRows, HasRow, FreshImport, Keyed, SlashFree, UniqueSlugs,
         AppAccessResolves, RoomAccessResolves, ScopeIds, ScopeRows;
    BatchTables(doc, mint, now);
    ProjectRowIn(doc, mint, now);
    var b := Batch(doc, mint, now);
    forall a | a in b.actors ensures ActorClosed(b, a) {
      var k := ActorMember(doc, mint, a);
      assert ActorResolves(doc, mint, doc.actors[k]);
      if a.scopeId.Some? {
        var i := ScopeSlugNamed(doc, mint, doc.actors[k].scopeSlug.value);
        ScopeRowIn(doc, mint, i);
      }
    }
  }

  lemma AppGrantsClosed(db: Db, doc: Doc, mint: Mint, now: Time)
    requires GoodImport(db, doc, mint)
    ensures var b := Batch(doc, mint, now);
            forall g :: g in b.appGrants ==> HasRow(b.actors, ActorKey, g.actorTokenId) && HasRow(b.apps, AppKey, g.appId)
  {
    hide Batch, AppBatch, ActorBatch, Flat, ActorRows, ProjectRow, AppRows, HasRow, FreshImport, Keyed, SlashFree, UniqueSlugs,
         ScopeResolves, RoomAccessResolves, AppIds;
    BatchTables(doc, mint, now);
    var b := Batch(doc, mint, now);
    forall g | g in b.appGrants ensures HasRow(b.actors, ActorKey, g.actorTokenId) && HasRow(b.apps, AppKey, g.appId) {
      var k, m := AppGrantMember(doc, mint, g);
      ActorRowIn(doc, mint, k);
      assert ActorResolves(doc, mint, doc.actors[k]) && doc.actors[k].appAccess[m] in doc.actors[k].appAccess;
      var i := AppSlugNamed(doc, mint, doc.actors[k].appAccess[m].appSlug);
      AppRowIn(doc, mint, i);
    }
  }

  lemma RoomGrantsClosed(db: Db, doc: Doc, mint: Mint, now: Time)
    requires GoodImport(db, doc, mint)
    ensures var b := Batch(doc, mint, now); forall g :: g in b.roomGrants ==> RoomGrantClosed(b, g)
  {
    hide Batch, AppBatch, ActorBatch, Flat, ActorRows, ProjectRow, AppRows, HasRow, FreshImport, Keyed, SlashFree, UniqueSlugs,
         ScopeResolves, AppAccessResolves, RoomIds, RoomKeyOf;
    BatchTables(doc, mint, now);
    var b := Batch(doc, mint, now);
    forall g | g in b.roomGrants ensures RoomGrantClosed(b, g) {
      if g in Flat(|doc.apps|, RoomGrantsPart(AppBatch(doc, mint))) {
        var i, j, k := TypeGrantMember(doc, mint, g);
        RoomRowIn(doc, mint, i, j);
      } else {
        var k, m := NamedGrantMember(doc, mint, g);
        ActorRowIn(doc, mint, k);
        var d := doc.actors[k].roomAccess[m];
        assert ActorResolves(doc, mint, doc.actors[k]) && d in doc.actors[k].roomAccess;
        var i, j := RoomKeyNamed(doc, mint, |doc.apps|, d.appSlug, d.roomSlug);
        RoomIdKnown(doc, mint, |doc.apps|, i, j);
        RoomRowIn(doc, mint, i, j);
      }
    }
  }

  /** An accepted import stores no reference to anything outside it. */
  lemma ImportIsClosed(db: Db, doc: Doc, mint: Mint, now: Time, keyConfigured: bool)
    requires FreshImport(db, mint) && Keyed(db) && SlashFree(doc) && Accepts(doc, mint, keyConfigured)
    ensures Closed(Batch(doc, mint, now))
  {
    hide Batch, HasRow, Keyed, SlashFree, FreshImport, UniqueSlugs, AppResolves, ActorResolves;
    HeadClosed(doc, mint, now);
    RoomsClosed(doc, mint, now);
    LinksClosed(db, doc, mint, now);
    ActorsClosed(db, doc, mint, now);
    AppGrantsClosed(db, doc, mint, now);
    RoomGrantsClosed(db, doc, mint, now);
  }
}
