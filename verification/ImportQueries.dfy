/** Queries scoped to an imported project, app, room, lobby or actor return exactly its rows. */
module ImportQueries {
  import opened Prelude
  import opened Schema
  import opened ProjectDoc
  import opened Tables
  import opened ProjectImport
  import opened ImportTables

  ghost predicate FreshImport(db: Db, mint: Mint) {
    Distinguishes(mint) && Fresh(db, mint)
  }

  lemma ProjectFound(db: Db, doc: Doc, mint: Mint, now: Time)
    requires FreshImport(db, mint)
    ensures FindFirst(Imported(db, doc, mint, now).projects, LiveProject(mint(OfProject))) == Some(ProjectRow(doc, mint, now))
  {
    hide Imported;
    ProjectTable(db, doc, mint, now);
    var p := LiveProject(mint(OfProject));
    FindFirstAppend(db.projects, [ProjectRow(doc, mint, now)], p);
    assert FindFirst(db.projects, p).None?;
  }

  lemma ScopesFound(db: Db, doc: Doc, mint: Mint, now: Time)
    requires FreshImport(db, mint)
    ensures Filter(Imported(db, doc, mint, now).scopes, ScopesIn(mint(OfProject))) == ScopeRows(doc, mint)
  {
    hide Imported;
    ScopeTable(db, doc, mint, now);
    FilterNewRows(db.scopes, ScopeRows(doc, mint), ScopesIn(mint(OfProject)));
    FilterAll(ScopeRows(doc, mint), ScopesIn(mint(OfProject)));
  }

  lemma AppsFound(db: Db, doc: Doc, mint: Mint, now: Time)
    requires FreshImport(db, mint)
    ensures Filter(Imported(db, doc, mint, now).apps, AppsIn(mint(OfProject))) == AppRows(doc, mint)
  {
    hide Imported;
    AppTable(db, doc, mint, now);
    FilterNewRows(db.apps, AppRows(doc, mint), AppsIn(mint(OfProject)));
    FilterAll(AppRows(doc, mint), AppsIn(mint(OfProject)));
  }

  lemma RoomsFound(db: Db, doc: Doc, mint: Mint, now: Time, i: nat)
    requires FreshImport(db, mint) && i < |doc.apps|
    ensures Filter(Imported(db, doc, mint, now).rooms, RoomsIn(mint(OfApp(i)))) == RoomRows(doc.apps[i], mint, i)
  {
    hide Imported, AppBatch, Flat;
    RoomTable(db, doc, mint, now);
    var f, p := RoomsPart(AppBatch(doc, mint)), RoomsIn(mint(OfApp(i)));
    FilterNewRows(db.rooms, Flat(|doc.apps|, f), p);
    forall k: nat, x | k < |doc.apps| && k != i && x in f(k) ensures !p(x) { AppParts(doc, mint, k); }
    FilterFlatBlock(|doc.apps|, f, p, i);
    AppParts(doc, mint, i);
    FilterAll(RoomRows(doc.apps[i], mint, i), p);
  }

  lemma LobbiesFound(db: Db, doc: Doc, mint: Mint, now: Time, i: nat)
    requires FreshImport(db, mint) && i < |doc.apps|
    ensures Filter(Imported(db, doc, mint, now).lobbies, LobbiesIn(mint(OfApp(i)))) == LobbyRows(doc.apps[i], mint, i)
  {
    hide Imported, AppBatch, Flat;
    LobbyTable(db, doc, mint, now);
    var f, p := LobbiesPart(AppBatch(doc, mint)), LobbiesIn(mint(OfApp(i)));
    FilterNewRows(db.lobbies, Flat(|doc.apps|, f), p);
    forall k: nat, x | k < |doc.apps| && k != i && x in f(k) ensures !p(x) { AppParts(doc, mint, k); }
    FilterFlatBlock(|doc.apps|, f, p, i);
    AppParts(doc, mint, i);
    FilterAll(LobbyRows(doc.apps[i], mint, i), p);
  }

  lemma {:induction false} LinkRowsOf(roomIds: map<string, Id>, appSlug: string, lobbyId: Id, slugs: seq<string>)
    ensures forall l :: l in LinkRows(roomIds, appSlug, lobbyId, slugs) ==> l.lobbyId == lobbyId && l.deletedAt.None?
  {
    if slugs != [] { LinkRowsOf(roomIds, appSlug, lobbyId, slugs[..|slugs| - 1]); }
  }

  lemma LobbyLinks(a: AppDoc, mint: Mint, i: nat, roomIds: map<string, Id>, j: nat)
    requires j < |a.lobbies|
    ensures LinksPart(LobbyBatch(a, mint, i, roomIds))(j) == LinkRows(roomIds, a.slug, mint(OfLobby(i, j)), a.lobbies[j].rooms)
    ensures forall l :: l in LinksPart(LobbyBatch(a, mint, i, roomIds))(j) ==> l.lobbyId == mint(OfLobby(i, j)) && l.deletedAt.None?
  {
    hide LinkRows, LobbyRow;
    LinkRowsOf(roomIds, a.slug, mint(OfLobby(i, j)), a.lobbies[j].rooms);
  }

  lemma RoomTypeGrants(a: AppDoc, mint: Mint, i: nat, j: nat)
    requires j < |a.rooms|
    ensures RoomGrantsPart(RoomBatch(a, mint, i))(j) == TypeGrantRows(mint, i, j, a.rooms[j])
    ensures forall g :: g in RoomGrantsPart(RoomBatch(a, mint, i))(j) ==>
              g.roomId == mint(OfRoom(i, j)) && g.actorTokenId.None? && g.deletedAt.None?
  {
    hide RoomRow;
  }

  lemma ActorGrants(doc: Doc, mint: Mint, k: nat)
    requires k < |doc.actors|
    ensures AppGrantsPart(ActorBatch(doc, mint))(k) == AppGrantRows(AppIds(doc, mint), mint, k, doc.actors[k].appAccess)
    ensures RoomGrantsPart(ActorBatch(doc, mint))(k) ==
            NamedGrantRows(RoomIds(doc, mint, |doc.apps|), mint, k, doc.actors[k].roomAccess)
    ensures forall g :: g in AppGrantsPart(ActorBatch(doc, mint))(k) ==>
              g.actorTokenId == mint(OfActor(k)) && g.deletedAt.None?
    ensures forall g :: g in RoomGrantsPart(ActorBatch(doc, mint))(k) ==>
              g.actorTokenId == Some(mint(OfActor(k))) && g.deletedAt.None?
  {
    hide AppIds, RoomIds, ScopeIds, ScopeIdOf, ActorRow;
  }

  lemma LobbyLinkIs(b: AppDoc, mint: Mint, k: nat, roomIds: map<string, Id>, n: nat, i: nat, j: nat)
    requires Distinguishes(mint) && n < |b.lobbies|
    ensures forall x :: x in LinksPart(LobbyBatch(b, mint, k, roomIds))(n) ==>
              (LinksOf(mint(OfLobby(i, j)))(x) <==> k == i && n == j)
  {
    hide LobbyBatch, LinksPart, LinkRows;
    LobbyLinks(b, mint, k, roomIds, n);
    assert OfLobby(k, n) == OfLobby(i, j) <==> k == i && n == j;
  }

  /** Links of the j-th lobby of app i: nothing else carries its id. */
  lemma AppLinksOf(doc: Doc, mint: Mint, i: nat, k: nat, j: nat)
    requires Distinguishes(mint) && i < |doc.apps| && k < |doc.apps| && j < |doc.apps[i].lobbies|
    ensures var a := doc.apps[i];
            Filter(AppBatch(doc, mint)(k).lobbyRooms, LinksOf(mint(OfLobby(i, j)))) ==
            if k == i then LinkRows(RoomIds(doc, mint, i + 1), a.slug, mint(OfLobby(i, j)), a.lobbies[j].rooms) else []
  {
    hide AppBatch, LobbyBatch, LinksPart, LinkRows, RoomIds, Flat, LinksOf, Distinguishes, Filter, RoomRows, LobbyRows, AppRow;
    AppParts(doc, mint, k);
    BatchLinksOf(doc.apps[k], mint, k, RoomIds(doc, mint, k + 1), i, j);
    if k == i { LobbyLinks(doc.apps[i], mint, i, RoomIds(doc, mint, i + 1), j); }
  }

  lemma BatchLinksOf(b: AppDoc, mint: Mint, k: nat, roomIds: map<string, Id>, i: nat, j: nat)
    requires Distinguishes(mint) && (k == i ==> j < |b.lobbies|)
    ensures var f := LinksPart(LobbyBatch(b, mint, k, roomIds));
            Filter(Flat(|b.lobbies|, f), LinksOf(mint(OfLobby(i, j)))) == if k == i then f(j) else []
  {
    hide LobbyBatch, LinksPart, Flat, LinksOf, Distinguishes, Filter;
    var f, p := LinksPart(LobbyBatch(b, mint, k, roomIds)), LinksOf(mint(OfLobby(i, j)));
    forall n: nat, x | n < |b.lobbies| && x in f(n) ensures p(x) <==> k == i && n == j {
      LobbyLinkIs(b, mint, k, roomIds, n, i, j);
    }
    if k == i {
      FilterFlatBlock(|b.lobbies|, f, p, j);
      FilterAll(f(j), p);
    } else {
      FilterFlatNone(|b.lobbies|, f, p);
    }
  }

  lemma LinksFound(db: Db, doc: Doc, mint: Mint, now: Time, i: nat, j: nat)
    requires FreshImport(db, mint) && i < |doc.apps| && j < |doc.apps[i].lobbies|
    ensures Filter(Imported(db, doc, mint, now).lobbyRooms, LinksOf(mint(OfLobby(i, j)))) ==
            LinkRows(RoomIds(doc, mint, i + 1), doc.apps[i].slug, mint(OfLobby(i, j)), doc.apps[i].lobbies[j].rooms)
  {
    hide Imported, AppBatch, LinkRows, RoomIds, Flat;
    LinkTable(db, doc, mint, now);
    var f, p := LinksPart(AppBatch(doc, mint)), LinksOf(mint(OfLobby(i, j)));
    FilterNewRows(db.lobbyRooms, Flat(|doc.apps|, f), p);
    forall k: nat, x | k < |doc.apps| && k != i && x in f(k) ensures !p(x) {
      AppLinksOf(doc, mint, i, k, j);
      assert x !in Filter(f(k), p);
    }
    FilterFlatBlock(|doc.apps|, f, p, i);
    AppLinksOf(doc, mint, i, i, j);
  }

  lemma AppTypeGrantsOn(doc: Doc, mint: Mint, i: nat, j: nat, k: nat)
    requires Distinguishes(mint) && i < |doc.apps| && k < |doc.apps| && j < |doc.apps[i].rooms|
    ensures Filter(AppBatch(doc, mint)(k).roomGrants, TypeGrantsOn(mint(OfRoom(i, j)))) ==
            if k == i then TypeGrantRows(mint, i, j, doc.apps[i].rooms[j]) else []
  {
    hide AppBatch, RoomBatch, RoomGrantsPart, TypeGrantRows, RoomIds, Flat;
    AppParts(doc, mint, k);
    var b, p := doc.apps[k], TypeGrantsOn(mint(OfRoom(i, j)));
    var f := RoomGrantsPart(RoomBatch(b, mint, k));
    forall n: nat, x | n < |b.rooms| && x in f(n) ensures p(x) <==> k == i && n == j {
      RoomTypeGrants(b, mint, k, n);
    }
    if k == i {
      RoomTypeGrants(b, mint, k, j);
      FilterFlatBlock(|b.rooms|, f, p, j);
      FilterAll(f(j), p);
    } else {
      FilterFlatNone(|b.rooms|, f, p);
    }
  }

  lemma RoomGrantsAt(f: nat -> Db, i: nat)
    ensures RoomGrantsPart(f)(i) == f(i).roomGrants
  {
  }

  lemma TypeGrantsFound(db: Db, doc: Doc, mint: Mint, now: Time, i: nat, j: nat)
    requires FreshImport(db, mint) && i < |doc.apps| && j < |doc.apps[i].rooms|
    ensures Filter(Imported(db, doc, mint, now).roomGrants, TypeGrantsOn(mint(OfRoom(i, j)))) ==
            TypeGrantRows(mint, i, j, doc.apps[i].rooms[j])
  {
    hide Imported, AppBatch, ActorBatch, RoomGrantsPart, TypeGrantRows, Flat;
    RoomGrantTable(db, doc, mint, now);
    var f, g, p := RoomGrantsPart(AppBatch(doc, mint)), RoomGrantsPart(ActorBatch(doc, mint)), TypeGrantsOn(mint(OfRoom(i, j)));
    FilterNewRows(db.roomGrants, Flat(|doc.apps|, f) + Flat(|doc.actors|, g), p);
    FilterAppend(Flat(|doc.apps|, f), Flat(|doc.actors|, g), p);
    forall k: nat, x | k < |doc.actors| && x in g(k) ensures !p(x) { ActorGrants(doc, mint, k); }
    FilterFlatNone(|doc.actors|, g, p);
    forall k: nat, x | k < |doc.apps| && k != i && x in f(k) ensures !p(x) {
      AppTypeGrantsOn(doc, mint, i, j, k);
      assert f(k) == AppBatch(doc, mint)(k).roomGrants by { RoomGrantsAt(AppBatch(doc, mint), k); }
      assert x !in Filter(f(k), p);
    }
    FilterFlatBlock(|doc.apps|, f, p, i);
    RoomGrantsAt(AppBatch(doc, mint), i);
    AppTypeGrantsOn(doc, mint, i, j, i);
  }

  lemma AppGrantsUnnamed(doc: Doc, mint: Mint, i: nat)
    requires i < |doc.apps|
    ensures forall x :: x in AppBatch(doc, mint)(i).roomGrants ==> x.actorTokenId.None?
  {
    hide AppBatch, RoomBatch, RoomGrantsPart, RoomIds, Flat;
    AppParts(doc, mint, i);
    var f := RoomGrantsPart(RoomBatch(doc.apps[i], mint, i));
    forall x | x in AppBatch(doc, mint)(i).roomGrants ensures x.actorTokenId.None? {
      FlatMember(|doc.apps[i].rooms|, f, x);
      var j: nat :| j < |doc.apps[i].rooms| && x in f(j);
      RoomTypeGrants(doc.apps[i], mint, i, j);
    }
  }

  lemma ActorsFound(db: Db, doc: Doc, mint: Mint, now: Time)
    requires FreshImport(db, mint)
    ensures Filter(Imported(db, doc, mint, now).actors, ActorsIn(mint(OfProject))) == ActorRows(doc, mint)
  {
    hide Imported, ScopeIdOf, ScopeIds;
    ActorTable(db, doc, mint, now);
    FilterNewRows(db.actors, ActorRows(doc, mint), ActorsIn(mint(OfProject)));
    FilterAll(ActorRows(doc, mint), ActorsIn(mint(OfProject)));
  }

  lemma AppGrantsFound(db: Db, doc: Doc, mint: Mint, now: Time, k: nat)
    requires FreshImport(db, mint) && k < |doc.actors|
    ensures Filter(Imported(db, doc, mint, now).appGrants, AppGrantsOf(mint(OfActor(k)))) ==
            AppGrantRows(AppIds(doc, mint), mint, k, doc.actors[k].appAccess)
  {
    hide Imported, Flat, ActorBatch, AppGrantsPart, AppGrantRows, AppIds, RoomIds, ScopeIds;
    AppGrantTable(db, doc, mint, now);
    var f, p := AppGrantsPart(ActorBatch(doc, mint)), AppGrantsOf(mint(OfActor(k)));
    FilterNewRows(db.appGrants, Flat(|doc.actors|, f), p);
    forall n: nat, x | n < |doc.actors| && x in f(n) ensures p(x) <==> n == k { ActorGrants(doc, mint, n); }
    ActorGrants(doc, mint, k);
    FilterFlatBlock(|doc.actors|, f, p, k);
    FilterAll(f(k), p);
  }

  lemma RoomGrantsFound(db: Db, doc: Doc, mint: Mint, now: Time, k: nat)
    requires FreshImport(db, mint) && k < |doc.actors|
    ensures Filter(Imported(db, doc, mint, now).roomGrants, RoomGrantsOf(mint(OfActor(k)))) ==
            NamedGrantRows(RoomIds(doc, mint, |doc.apps|), mint, k, doc.actors[k].roomAccess)
  {
    hide Imported, Flat, AppBatch, ActorBatch, RoomGrantsPart, NamedGrantRows, AppIds, RoomIds, ScopeIds;
    RoomGrantTable(db, doc, mint, now);
    var f, g, p := RoomGrantsPart(AppBatch(doc, mint)), RoomGrantsPart(ActorBatch(doc, mint)), RoomGrantsOf(mint(OfActor(k)));
    FilterNewRows(db.roomGrants, Flat(|doc.apps|, f) + Flat(|doc.actors|, g), p);
    FilterAppend(Flat(|doc.apps|, f), Flat(|doc.actors|, g), p);
    forall i: nat, x | i < |doc.apps| && x in f(i) ensures !p(x) {
      RoomGrantsAt(AppBatch(doc, mint), i);
      AppGrantsUnnamed(doc, mint, i);
    }
    forall n: nat, x | n < |doc.actors| && x in g(n) ensures p(x) <==> n == k { ActorGrants(doc, mint, n); }
    ActorGrants(doc, mint, k);
    FilterFlatNone(|doc.apps|, f, p);
    FilterFlatBlock(|doc.actors|, g, p, k);
    FilterAll(g(k), p);
  }

  lemma KeysFound(db: Db, doc: Doc, mint: Mint, now: Time)
    requires FreshImport(db, mint)
    ensures Filter(Imported(db, doc, mint, now).signingKeys, KeysIn(mint(OfProject))) == KeyRows(doc, mint)
  {
    hide Imported;
    KeyTable(db, doc, mint, now);
    FilterNewRows(db.signingKeys, KeyRows(doc, mint), KeysIn(mint(OfProject)));
    FilterAll(KeyRows(doc, mint), KeysIn(mint(OfProject)));
  }
}
