/** An accepted import keeps every primary key and every unique index that also covers deleted rows. */
module ImportKeyed {
  import opened Prelude
  import opened Schema
  import opened ProjectDoc
  import opened Tables
  import opened ProjectImport
  import opened ImportTables
  import opened ImportQueries
  import opened ImportRefs
  import opened ImportMembers

  lemma ScopeRowsKeyed(db: Db, doc: Doc, mint: Mint)
    requires FreshImport(db, mint)
    ensures DistinctBy(ScopeRows(doc, mint), ScopeKey)
    ensures forall x, y :: x in db.scopes && y in ScopeRows(doc, mint) ==> ScopeKey(x) != ScopeKey(y)
  {
    forall y | y in ScopeRows(doc, mint) ensures exists d :: ScopeKey(y) == mint(d) { var i := ScopeMember(doc, mint, y); }
  }

  lemma AppRowsKeyed(db: Db, doc: Doc, mint: Mint)
    requires FreshImport(db, mint)
    ensures DistinctBy(AppRows(doc, mint), AppKey)
    ensures forall x, y :: x in db.apps && y in AppRows(doc, mint) ==> AppKey(x) != AppKey(y)
  {
    forall y | y in AppRows(doc, mint) ensures exists d :: AppKey(y) == mint(d) { var i := AppMember(doc, mint, y); }
  }

  lemma KeyRowsKeyed(db: Db, doc: Doc, mint: Mint)
    requires FreshImport(db, mint)
    ensures DistinctBy(KeyRows(doc, mint), SigningKeyId)
    ensures forall x, y :: x in db.signingKeys && y in KeyRows(doc, mint) ==> SigningKeyId(x) != SigningKeyId(y)
  {
    hide Fresh, SigningKeyId;
    KeysUnseen(db, mint);
    forall i: nat | i < |doc.signingKeys| ensures SigningKeyId(KeyRows(doc, mint)[i]) == mint(OfKeyId(i)) { KeyRowAt(mint, i, doc.signingKeys[i]); }
    forall i: nat, k: nat | i < k < |doc.signingKeys| ensures OfKeyId(i) != OfKeyId(k) { }
    forall y | y in KeyRows(doc, mint) ensures exists d :: SigningKeyId(y) == mint(d) {
      var i :| 0 <= i < |doc.signingKeys| && y == KeyRows(doc, mint)[i];
      assert SigningKeyId(y) == mint(OfKeyId(i));
    }
  }

  lemma KeyRowAt(mint: Mint, i: nat, d: KeyDoc)
    ensures SigningKeyId(KeyRow(mint, i, d)) == mint(OfKeyId(i))
  {
  }

  lemma KeysUnseen(db: Db, mint: Mint)
    requires Fresh(db, mint)
    ensures forall r, d :: r in db.signingKeys ==> SigningKeyId(r) != mint(d)
  {
  }

  lemma ActorRowAt(doc: Doc, mint: Mint, k: nat)
    requires k < |doc.actors|
    ensures |ActorRows(doc, mint)| == |doc.actors|
    ensures ActorKey(ActorRows(doc, mint)[k]) == mint(OfActor(k)) && ActorKeyId(ActorRows(doc, mint)[k]) == mint(OfActorKeyId(k))
  {
    hide ScopeIdOf, ScopeIds;
  }

  lemma ActorRowsKeyed(db: Db, doc: Doc, mint: Mint)
    requires FreshImport(db, mint)
    ensures DistinctBy(ActorRows(doc, mint), ActorKey) && DistinctBy(ActorRows(doc, mint), ActorKeyId)
    ensures forall x, y :: x in db.actors && y in ActorRows(doc, mint) ==>
              ActorKey(x) != ActorKey(y) && ActorKeyId(x) != ActorKeyId(y)
  {
    hide ActorRows;
    forall k: nat | k < |doc.actors|
      ensures |ActorRows(doc, mint)| == |doc.actors|
      ensures ActorKey(ActorRows(doc, mint)[k]) == mint(OfActor(k)) && ActorKeyId(ActorRows(doc, mint)[k]) == mint(OfActorKeyId(k))
    { ActorRowAt(doc, mint, k); }
    ActorRowsLength(doc, mint);
  }

  lemma ActorRowsLength(doc: Doc, mint: Mint)
    ensures |ActorRows(doc, mint)| == |doc.actors|
  {
  }

  lemma ProjectRowKeyed(db: Db, doc: Doc, mint: Mint, now: Time)
    requires FreshImport(db, mint)
    ensures forall x :: x in db.projects ==> ProjectKey(x) != ProjectKey(ProjectRow(doc, mint, now))
  {
  }

  lemma HeadKeyed(db: Db, doc: Doc, mint: Mint, now: Time)
    requires FreshImport(db, mint) && Keyed(db)
    ensures DistinctBy(Imported(db, doc, mint, now).projects, ProjectKey)
    ensures DistinctBy(Imported(db, doc, mint, now).scopes, ScopeKey)
    ensures DistinctBy(Imported(db, doc, mint, now).apps, AppKey)
    ensures DistinctBy(Imported(db, doc, mint, now).signingKeys, SigningKeyId)
  {
    hide Imported, DistinctBy, ProjectRow, ScopeRows, AppRows, KeyRows, Fresh, Distinguishes;
    ProjectTable(db, doc, mint, now);
    ScopeTable(db, doc, mint, now);
    AppTable(db, doc, mint, now);
    KeyTable(db, doc, mint, now);
    ProjectRowKeyed(db, doc, mint, now);
    ScopeRowsKeyed(db, doc, mint);
    AppRowsKeyed(db, doc, mint);
    KeyRowsKeyed(db, doc, mint);
    OneKeyed([ProjectRow(doc, mint, now)]);
    DistinctByAppend(db.projects, [ProjectRow(doc, mint, now)], ProjectKey);
    DistinctByAppend(db.scopes, ScopeRows(doc, mint), ScopeKey);
    DistinctByAppend(db.apps, AppRows(doc, mint), AppKey);
    DistinctByAppend(db.signingKeys, KeyRows(doc, mint), SigningKeyId);
  }

  lemma OneKeyed(s: seq<Project>)
    requires |s| == 1
    ensures DistinctBy(s, ProjectKey)
  {
  }

  lemma ActorsKeyed(db: Db, doc: Doc, mint: Mint, now: Time)
    requires FreshImport(db, mint) && Keyed(db)
    ensures DistinctBy(Imported(db, doc, mint, now).actors, ActorKey)
    ensures DistinctBy(Imported(db, doc, mint, now).actors, ActorKeyId)
  {
    hide Imported, DistinctBy, ActorRows, Fresh, Distinguishes;
    ActorTable(db, doc, mint, now);
    ActorRowsKeyed(db, doc, mint);
    DistinctByAppend(db.actors, ActorRows(doc, mint), ActorKey);
    DistinctByAppend(db.actors, ActorRows(doc, mint), ActorKeyId);
  }

  lemma RoomRowsKeyed(a: AppDoc, mint: Mint, i: nat)
    requires Distinguishes(mint)
    ensures DistinctBy(RoomRows(a, mint, i), RoomKey) && DistinctBy(LobbyRows(a, mint, i), LobbyKey)
    ensures forall x :: x in RoomRows(a, mint, i) ==> exists j: nat :: RoomKey(x) == mint(OfRoom(i, j))
    ensures forall x :: x in LobbyRows(a, mint, i) ==> exists j: nat :: LobbyKey(x) == mint(OfLobby(i, j))
  {
    forall x | x in RoomRows(a, mint, i) ensures exists j: nat :: RoomKey(x) == mint(OfRoom(i, j)) {
      var j :| 0 <= j < |a.rooms| && x == RoomRows(a, mint, i)[j];
    }
    forall x | x in LobbyRows(a, mint, i) ensures exists j: nat :: LobbyKey(x) == mint(OfLobby(i, j)) {
      var j :| 0 <= j < |a.lobbies| && x == LobbyRows(a, mint, i)[j];
    }
  }

  lemma AppPartsKeyed(doc: Doc, mint: Mint, i: nat)
    requires Distinguishes(mint) && i < |doc.apps|
    ensures DistinctBy(RoomsPart(AppBatch(doc, mint))(i), RoomKey)
    ensures DistinctBy(LobbiesPart(AppBatch(doc, mint))(i), LobbyKey)
    ensures forall x :: x in RoomsPart(AppBatch(doc, mint))(i) ==> exists j: nat :: RoomKey(x) == mint(OfRoom(i, j))
    ensures forall x :: x in LobbiesPart(AppBatch(doc, mint))(i) ==> exists j: nat :: LobbyKey(x) == mint(OfLobby(i, j))
  {
    hide AppBatch, DistinctBy, RoomRows, LobbyRows, RoomKey, LobbyKey, Distinguishes;
    AppParts(doc, mint, i);
    RoomRowsKeyed(doc.apps[i], mint, i);
  }

  lemma RoomsKeyed(db: Db, doc: Doc, mint: Mint, now: Time)
    requires FreshImport(db, mint) && Keyed(db)
    ensures DistinctBy(Imported(db, doc, mint, now).rooms, RoomKey)
  {
    hide Imported, AppBatch, RoomsPart, Flat, DistinctBy, Fresh, RoomKey;
    RoomTable(db, doc, mint, now);
    var f := RoomsPart(AppBatch(doc, mint));
    forall i: nat | i < |doc.apps| ensures DistinctBy(f(i), RoomKey) { AppPartsKeyed(doc, mint, i); }
    forall i: nat, k: nat, x, y | i < k < |doc.apps| && x in f(i) && y in f(k) ensures RoomKey(x) != RoomKey(y) {
      AppPartsKeyed(doc, mint, i);
      AppPartsKeyed(doc, mint, k);
    }
    DistinctByFlat(|doc.apps|, f, RoomKey);
    forall x, y | x in db.rooms && y in Flat(|doc.apps|, f) ensures RoomKey(x) != RoomKey(y) {
      RoomRowFresh(db, doc, mint, y);
    }
    assert DistinctBy(db.rooms, RoomKey);
    DistinctByAppend(db.rooms, Flat(|doc.apps|, f), RoomKey);
  }

  lemma LobbiesKeyed(db: Db, doc: Doc, mint: Mint, now: Time)
    requires FreshImport(db, mint) && Keyed(db)
    ensures DistinctBy(Imported(db, doc, mint, now).lobbies, LobbyKey)
  {
    hide Imported, AppBatch, LobbiesPart, Flat, DistinctBy, Fresh, LobbyKey;
    LobbyTable(db, doc, mint, now);
    var g := LobbiesPart(AppBatch(doc, mint));
    forall i: nat | i < |doc.apps| ensures DistinctBy(g(i), LobbyKey) { AppPartsKeyed(doc, mint, i); }
    forall i: nat, k: nat, x, y | i < k < |doc.apps| && x in g(i) && y in g(k) ensures LobbyKey(x) != LobbyKey(y) {
      AppPartsKeyed(doc, mint, i);
      AppPartsKeyed(doc, mint, k);
    }
    DistinctByFlat(|doc.apps|, g, LobbyKey);
    forall x, y | x in db.lobbies && y in Flat(|doc.apps|, g) ensures LobbyKey(x) != LobbyKey(y) {
      LobbyRowFresh(db, doc, mint, y);
    }
    assert DistinctBy(db.lobbies, LobbyKey);
    DistinctByAppend(db.lobbies, Flat(|doc.apps|, g), LobbyKey);
  }

  lemma RoomRowFresh(db: Db, doc: Doc, mint: Mint, y: Room)
    requires Fresh(db, mint) && y in Flat(|doc.apps|, RoomsPart(AppBatch(doc, mint)))
    ensures forall x :: x in db.rooms ==> RoomKey(x) != RoomKey(y)
  {
    hide AppBatch, Flat;
    var i, j := RoomMember(doc, mint, y);
  }

  lemma LobbyRowFresh(db: Db, doc: Doc, mint: Mint, y: Lobby)
    requires Fresh(db, mint) && y in Flat(|doc.apps|, LobbiesPart(AppBatch(doc, mint)))
    ensures forall x :: x in db.lobbies ==> LobbyKey(x) != LobbyKey(y)
  {
    hide AppBatch, Flat;
    var i, j := LobbyMember(doc, mint, y);
  }

  lemma {:induction false} LinkRowsKeyed(roomIds: map<string, Id>, appSlug: string, lobbyId: Id, slugs: seq<string>)
    ensures DistinctBy(LinkRows(roomIds, appSlug, lobbyId, slugs), LinkKey)
  {
    hide RoomKeyOf;
    if slugs != [] {
      var n := |slugs| - 1;
      var rest := LinkRows(roomIds, appSlug, lobbyId, slugs[..n]);
      LinkRowsKeyed(roomIds, appSlug, lobbyId, slugs[..n]);
      LinkRowsOf(roomIds, appSlug, lobbyId, slugs[..n]);
      forall i | 0 <= i < |rest| && LinkKey(rest[i]) == (lobbyId, Get(roomIds, RoomKeyOf(appSlug, slugs[n]), ""))
        ensures rest[i] == LobbyRoom(lobbyId, Get(roomIds, RoomKeyOf(appSlug, slugs[n]), ""), None)
      {
        assert rest[i] in rest;
      }
    }
  }

  lemma AppLinksKeyed(doc: Doc, mint: Mint, i: nat)
    requires Distinguishes(mint) && i < |doc.apps|
    ensures DistinctBy(LinksPart(AppBatch(doc, mint))(i), LinkKey)
    ensures forall l :: l in LinksPart(AppBatch(doc, mint))(i) ==> exists j: nat :: l.lobbyId == mint(OfLobby(i, j))
  {
    hide AppBatch, LobbyBatch, Flat, RoomIds, LinkRows, DistinctBy;
    AppParts(doc, mint, i);
    var a, roomIds := doc.apps[i], RoomIds(doc, mint, i + 1);
    var f := LinksPart(LobbyBatch(a, mint, i, roomIds));
    forall j: nat | j < |a.lobbies| ensures DistinctBy(f(j), LinkKey) {
      LobbyLinks(a, mint, i, roomIds, j);
      LinkRowsKeyed(roomIds, a.slug, mint(OfLobby(i, j)), a.lobbies[j].rooms);
    }
    forall j: nat, k: nat, x, y | j < k < |a.lobbies| && x in f(j) && y in f(k) ensures LinkKey(x) != LinkKey(y) {
      LobbyLinks(a, mint, i, roomIds, j);
      LobbyLinks(a, mint, i, roomIds, k);
    }
    DistinctByFlat(|a.lobbies|, f, LinkKey);
    forall l: LobbyRoom | l in Flat(|a.lobbies|, f) ensures exists j: nat :: l.lobbyId == mint(OfLobby(i, j)) {
      FlatMember(|a.lobbies|, f, l);
      var j: nat :| j < |a.lobbies| && l in f(j);
      LobbyLinks(a, mint, i, roomIds, j);
    }
  }

  lemma LinksKeyed(db: Db, doc: Doc, mint: Mint, now: Time)
    requires FreshImport(db, mint) && Keyed(db)
    ensures DistinctBy(Imported(db, doc, mint, now).lobbyRooms, LinkKey)
  {
    hide Imported, AppBatch, LinksPart, Flat, DistinctBy;
    LinkTable(db, doc, mint, now);
    var f := LinksPart(AppBatch(doc, mint));
    forall i: nat | i < |doc.apps| ensures DistinctBy(f(i), LinkKey) { AppLinksKeyed(doc, mint, i); }
    forall i: nat, k: nat, x, y | i < k < |doc.apps| && x in f(i) && y in f(k) ensures LinkKey(x) != LinkKey(y) {
      AppLinksKeyed(doc, mint, i);
      AppLinksKeyed(doc, mint, k);
    }
    DistinctByFlat(|doc.apps|, f, LinkKey);
    forall x, y | x in db.lobbyRooms && y in Flat(|doc.apps|, f) ensures LinkKey(x) != LinkKey(y) {
      var i, j, s := LinkMember(doc, mint, y);
    }
    assert DistinctBy(db.lobbyRooms, LinkKey);
    DistinctByAppend(db.lobbyRooms, Flat(|doc.apps|, f), LinkKey);
  }

  lemma ActorAppGrantsKeyed(doc: Doc, mint: Mint, k: nat)
    requires Distinguishes(mint) && k < |doc.actors| && AppAccessResolves(AppIds(doc, mint), doc.actors[k].appAccess)
    ensures DistinctBy(AppGrantsPart(ActorBatch(doc, mint))(k), AppGrantKey)
  {
    hide ActorBatch, AppIds;
    ActorGrants(doc, mint, k);
    var grants, ids := doc.actors[k].appAccess, AppIds(doc, mint);
    var rows := AppGrantRows(ids, mint, k, grants);
    forall m, n | 0 <= m < n < |rows| ensures AppGrantKey(rows[m]) != AppGrantKey(rows[n]) {
      assert Map(grants, GrantApp)[m] != Map(grants, GrantApp)[n];
      var i := AppSlugNamed(doc, mint, grants[m].appSlug);
      var j := AppSlugNamed(doc, mint, grants[n].appSlug);
    }
  }

  lemma AppGrantsKeyed(db: Db, doc: Doc, mint: Mint, now: Time)
    requires FreshImport(db, mint) && Keyed(db)
    requires forall a :: a in doc.actors ==> ActorResolves(doc, mint, a)
    ensures DistinctBy(Imported(db, doc, mint, now).appGrants, AppGrantKey)
  {
    hide Imported, ActorBatch, AppGrantsPart, AppIds, Flat, DistinctBy, AppAccessResolves, RoomAccessResolves, ScopeResolves;
    AppGrantTable(db, doc, mint, now);
    var f := AppGrantsPart(ActorBatch(doc, mint));
    forall k: nat | k < |doc.actors| ensures DistinctBy(f(k), AppGrantKey) {
      assert ActorResolves(doc, mint, doc.actors[k]);
      ActorAppGrantsKeyed(doc, mint, k);
    }
    forall i: nat, k: nat, x, y | i < k < |doc.actors| && x in f(i) && y in f(k) ensures AppGrantKey(x) != AppGrantKey(y) {
      ActorGrants(doc, mint, i);
      ActorGrants(doc, mint, k);
    }
    DistinctByFlat(|doc.actors|, f, AppGrantKey);
    forall x, y | x in db.appGrants && y in Flat(|doc.actors|, f) ensures AppGrantKey(x) != AppGrantKey(y) {
      var k, m := AppGrantMember(doc, mint, y);
    }
    assert DistinctBy(db.appGrants, AppGrantKey);
    DistinctByAppend(db.appGrants, Flat(|doc.actors|, f), AppGrantKey);
  }

  lemma TypeGrantsKeyed(doc: Doc, mint: Mint, i: nat)
    requires Distinguishes(mint) && i < |doc.apps|
    ensures DistinctBy(RoomGrantsPart(AppBatch(doc, mint))(i), RoomGrantKey)
    ensures forall g :: g in RoomGrantsPart(AppBatch(doc, mint))(i) ==> exists j: nat, k: nat :: g.grantId == mint(OfTypeGrant(i, j, k))
  {
    hide AppBatch, RoomBatch, Flat, TypeGrantRow, RoomIds;
    AppParts(doc, mint, i);
    var a := doc.apps[i];
    var f := RoomGrantsPart(RoomBatch(a, mint, i));
    forall j: nat, x | j < |a.rooms| && x in f(j) ensures exists k: nat :: x.grantId == mint(OfTypeGrant(i, j, k)) {
      RoomTypeGrants(a, mint, i, j);
      var k :| 0 <= k < |a.rooms[j].typeGrants| && x == TypeGrantRows(mint, i, j, a.rooms[j])[k];
      TypeGrantId(mint, i, j, k, a.rooms[j].typeGrants[k]);
    }
    forall j: nat | j < |a.rooms| ensures DistinctBy(f(j), RoomGrantKey) {
      RoomTypeGrants(a, mint, i, j);
      forall k: nat | k < |a.rooms[j].typeGrants| ensures TypeGrantRows(mint, i, j, a.rooms[j])[k].grantId == mint(OfTypeGrant(i, j, k)) {
        TypeGrantId(mint, i, j, k, a.rooms[j].typeGrants[k]);
      }
    }
    DistinctByFlat(|a.rooms|, f, RoomGrantKey);
    forall g: RoomGrant | g in Flat(|a.rooms|, f) ensures exists j: nat, k: nat :: g.grantId == mint(OfTypeGrant(i, j, k)) {
      FlatMember(|a.rooms|, f, g);
      var j: nat :| j < |a.rooms| && g in f(j);
      var k: nat :| g.grantId == mint(OfTypeGrant(i, j, k));
    }
  }

  lemma TypeGrantId(mint: Mint, i: nat, j: nat, k: nat, d: TypeGrantDoc)
    ensures TypeGrantRow(mint, i, j, k, d).grantId == mint(OfTypeGrant(i, j, k))
  {
  }

  lemma NamedGrantsKeyed(doc: Doc, mint: Mint, k: nat)
    requires Distinguishes(mint) && k < |doc.actors|
    ensures DistinctBy(RoomGrantsPart(ActorBatch(doc, mint))(k), RoomGrantKey)
    ensures forall g :: g in RoomGrantsPart(ActorBatch(doc, mint))(k) ==> exists m: nat :: g.grantId == mint(OfRoomGrant(k, m))
  {
    hide ActorBatch, RoomIds, AppIds;
    ActorGrants(doc, mint, k);
    var rows := NamedGrantRows(RoomIds(doc, mint, |doc.apps|), mint, k, doc.actors[k].roomAccess);
    forall g | g in rows ensures exists m: nat :: g.grantId == mint(OfRoomGrant(k, m)) {
      var m :| 0 <= m < |rows| && g == rows[m];
    }
  }

  lemma AllTypeGrantsKeyed(doc: Doc, mint: Mint)
    requires Distinguishes(mint)
    ensures DistinctBy(Flat(|doc.apps|, RoomGrantsPart(AppBatch(doc, mint))), RoomGrantKey)
    ensures forall g :: g in Flat(|doc.apps|, RoomGrantsPart(AppBatch(doc, mint))) ==>
              exists i: nat, j: nat, k: nat :: g.grantId == mint(OfTypeGrant(i, j, k))
  {
    hide AppBatch, Flat, DistinctBy, RoomGrantsPart;
    var f := RoomGrantsPart(AppBatch(doc, mint));
    forall i: nat | i < |doc.apps| ensures DistinctBy(f(i), RoomGrantKey) { TypeGrantsKeyed(doc, mint, i); }
    forall i: nat, k: nat, x, y | i < k < |doc.apps| && x in f(i) && y in f(k) ensures RoomGrantKey(x) != RoomGrantKey(y) {
      TypeGrantsKeyed(doc, mint, i);
      TypeGrantsKeyed(doc, mint, k);
    }
    DistinctByFlat(|doc.apps|, f, RoomGrantKey);
    forall g: RoomGrant | g in Flat(|doc.apps|, f) ensures exists i: nat, j: nat, k: nat :: g.grantId == mint(OfTypeGrant(i, j, k)) {
      FlatMember(|doc.apps|, f, g);
      var i: nat :| i < |doc.apps| && g in f(i);
      TypeGrantsKeyed(doc, mint, i);
    }
  }

  lemma AllNamedGrantsKeyed(doc: Doc, mint: Mint)
    requires Distinguishes(mint)
    ensures DistinctBy(Flat(|doc.actors|, RoomGrantsPart(ActorBatch(doc, mint))), RoomGrantKey)
    ensures forall g :: g in Flat(|doc.actors|, RoomGrantsPart(ActorBatch(doc, mint))) ==>
              exists k: nat, m: nat :: g.grantId == mint(OfRoomGrant(k, m))
  {
    hide ActorBatch, Flat, DistinctBy, RoomGrantsPart;
    var f := RoomGrantsPart(ActorBatch(doc, mint));
    forall i: nat | i < |doc.actors| ensures DistinctBy(f(i), RoomGrantKey) { NamedGrantsKeyed(doc, mint, i); }
    forall i: nat, k: nat, x, y | i < k < |doc.actors| && x in f(i) && y in f(k) ensures RoomGrantKey(x) != RoomGrantKey(y) {
      NamedGrantsKeyed(doc, mint, i);
      NamedGrantsKeyed(doc, mint, k);
    }
    DistinctByFlat(|doc.actors|, f, RoomGrantKey);
    forall g: RoomGrant | g in Flat(|doc.actors|, f) ensures exists k: nat, m: nat :: g.grantId == mint(OfRoomGrant(k, m)) {
      FlatMember(|doc.actors|, f, g);
      var k: nat :| k < |doc.actors| && g in f(k);
      NamedGrantsKeyed(doc, mint, k);
    }
  }

  lemma RoomGrantsKeyed(db: Db, doc: Doc, mint: Mint, now: Time)
    requires FreshImport(db, mint) && Keyed(db)
    ensures DistinctBy(Imported(db, doc, mint, now).roomGrants, RoomGrantKey)
  {
    hide Imported, AppBatch, ActorBatch, Flat, DistinctBy, RoomGrantsPart;
    RoomGrantTable(db, doc, mint, now);
    AllTypeGrantsKeyed(doc, mint);
    AllNamedGrantsKeyed(doc, mint);
    var typed, named := Flat(|doc.apps|, RoomGrantsPart(AppBatch(doc, mint))), Flat(|doc.actors|, RoomGrantsPart(ActorBatch(doc, mint)));
    forall x, y | x in typed && y in named ensures RoomGrantKey(x) != RoomGrantKey(y) {
      var i: nat, j: nat, k: nat :| x.grantId == mint(OfTypeGrant(i, j, k));
      var a: nat, m: nat :| y.grantId == mint(OfRoomGrant(a, m));
    }
    DistinctByAppend(typed, named, RoomGrantKey);
    forall x, y | x in db.roomGrants && y in typed + named ensures RoomGrantKey(x) != RoomGrantKey(y) { }
    assert DistinctBy(db.roomGrants, RoomGrantKey);
    DistinctByAppend(db.roomGrants, typed + named, RoomGrantKey);
  }

  /** No primary key and no unique constraint is broken by an accepted import. */
  lemma ImportedKeyed(db: Db, doc: Doc, mint: Mint, now: Time)
    requires FreshImport(db, mint) && Keyed(db)
    requires forall a :: a in doc.actors ==> ActorResolves(doc, mint, a)
    ensures Keyed(Imported(db, doc, mint, now))
  {
    hide Imported, DistinctBy, ActorResolves;
    HeadKeyed(db, doc, mint, now);
    ActorsKeyed(db, doc, mint, now);
    RoomsKeyed(db, doc, mint, now);
    LobbiesKeyed(db, doc, mint, now);
    LinksKeyed(db, doc, mint, now);
    AppGrantsKeyed(db, doc, mint, now);
    RoomGrantsKeyed(db, doc, mint, now);
  }
}
