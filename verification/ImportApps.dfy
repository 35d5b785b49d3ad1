/** The import as the service runs it: nested loops that save rows and fill slug maps. */
module ImportApps {
  import opened Prelude
  import opened Schema
  import opened ProjectDoc
  import opened Tables
  import opened ProjectImport
  import opened ImportStore

  /** Nothing in the tables names a lobby from (i, j) on, or any actor, this import is still to mint. */
  ghost predicate Ahead(db: Db, mint: Mint, i: nat, j: nat) {
    && (forall l, p: nat, q: nat :: l in db.lobbyRooms && (p > i || (p == i && q >= j)) ==> l.lobbyId != mint(OfLobby(p, q)))
    && (forall g, k: nat :: g in db.appGrants ==> g.actorTokenId != mint(OfActor(k)))
  }

  lemma ScopeSaved(doc: Doc, mint: Mint, i: nat, db: Db)
    requires i < |doc.accessScopes|
    ensures Plus(Plus(db, EMPTY.(scopes := ScopeRows(doc, mint)[..i])), EMPTY.(scopes := [ScopeRow(mint, i, doc.accessScopes[i])]))
            == Plus(db, EMPTY.(scopes := ScopeRows(doc, mint)[..i + 1]))
    ensures MapOf(ScopePairs(doc, mint)[..i + 1]) == MapOf(ScopePairs(doc, mint)[..i])[doc.accessScopes[i].slug := mint(OfScope(i))]
  {
    hide Plus, ScopeRow, MapOf;
    ScopePushed(db, ScopeRows(doc, mint), i);
    var pairs := ScopePairs(doc, mint);
    assert pairs[..i + 1] == pairs[..i] + [pairs[i]];
    MapOfPush(pairs[..i], doc.accessScopes[i].slug, mint(OfScope(i)));
  }

  lemma ScopePushed(db: Db, rows: seq<Scope>, m: nat)
    requires m < |rows|
    ensures Plus(Plus(db, EMPTY.(scopes := rows[..m])), EMPTY.(scopes := [rows[m]])) == Plus(db, EMPTY.(scopes := rows[..m + 1]))
  {
    assert rows[..m + 1] == rows[..m] + [rows[m]];
  }

  method ImportScopes(m: EntityManager, doc: Doc, mint: Mint) returns (scopeIds: map<string, Id>)
    modifies m
    ensures m.db == Plus(old(m.db), EMPTY.(scopes := ScopeRows(doc, mint)))
    ensures scopeIds == ScopeIds(doc, mint)
  {
    ghost var rows, pairs := ScopeRows(doc, mint), ScopePairs(doc, mint);
    scopeIds := map[];
    PlusEmpty(m.db);
    for i := 0 to |doc.accessScopes|
      invariant m.db == Plus(old(m.db), EMPTY.(scopes := rows[..i]))
      invariant scopeIds == MapOf(pairs[..i])
    {
      ScopeSaved(doc, mint, i, old(m.db));
      m.Save(EMPTY.(scopes := [ScopeRow(mint, i, doc.accessScopes[i])]));
      scopeIds := scopeIds[doc.accessScopes[i].slug := mint(OfScope(i))];
    }
    assert rows[..|rows|] == rows && pairs[..|pairs|] == pairs;
  }

  lemma GrantPushed(db: Db, rows: seq<RoomGrant>, m: nat)
    requires m < |rows|
    ensures Plus(Plus(db, EMPTY.(roomGrants := rows[..m])), EMPTY.(roomGrants := [rows[m]])) == Plus(db, EMPTY.(roomGrants := rows[..m + 1]))
  {
    assert rows[..m + 1] == rows[..m] + [rows[m]];
  }

  method ImportTypeGrants(m: EntityManager, mint: Mint, i: nat, j: nat, room: RoomDoc)
    modifies m
    ensures m.db == Plus(old(m.db), EMPTY.(roomGrants := TypeGrantRows(mint, i, j, room)))
  {
    hide Plus, TypeGrantRow;
    ghost var rows := TypeGrantRows(mint, i, j, room);
    PlusEmpty(m.db);
    for k := 0 to |room.typeGrants|
      invariant m.db == Plus(old(m.db), EMPTY.(roomGrants := rows[..k]))
    {
      GrantPushed(old(m.db), rows, k);
      m.Save(EMPTY.(roomGrants := [TypeGrantRow(mint, i, j, k, room.typeGrants[k])]));
    }
    assert rows[..|rows|] == rows;
  }

  lemma RoomSaved(db: Db, app: AppDoc, mint: Mint, i: nat, j: nat)
    requires j < |app.rooms|
    ensures var row, grants := EMPTY.(rooms := [RoomRow(mint, i, j, app.rooms[j])]), EMPTY.(roomGrants := TypeGrantRows(mint, i, j, app.rooms[j]));
            Plus(Plus(db, row), grants) == Plus(db, RoomBatch(app, mint, i)(j))
  {
    hide RoomRow, TypeGrantRows;
    var row, grants := EMPTY.(rooms := [RoomRow(mint, i, j, app.rooms[j])]), EMPTY.(roomGrants := TypeGrantRows(mint, i, j, app.rooms[j]));
    PlusAssoc(db, row, grants);
    assert Plus(row, grants) == RoomBatch(app, mint, i)(j);
  }

  /** A room names no lobby and no app grant. */
  lemma RoomAhead(db: Db, app: AppDoc, mint: Mint, i: nat, j: nat)
    requires j < |app.rooms| && Ahead(db, mint, i, 0)
    ensures Ahead(Plus(db, RoomBatch(app, mint, i)(j)), mint, i, 0)
  {
    hide RoomRow, TypeGrantRows;
    assert Plus(db, RoomBatch(app, mint, i)(j)).lobbyRooms == db.lobbyRooms;
    assert Plus(db, RoomBatch(app, mint, i)(j)).appGrants == db.appGrants;
  }

  /** A room and its type grants are one batch. */
  method ImportRoom(m: EntityManager, app: AppDoc, mint: Mint, i: nat, j: nat)
    requires j < |app.rooms|
    modifies m
    ensures m.db == Plus(old(m.db), RoomBatch(app, mint, i)(j))
    ensures Ahead(old(m.db), mint, i, 0) ==> Ahead(m.db, mint, i, 0)
  {
    hide *;
    ghost var db := m.db;
    m.Save(EMPTY.(rooms := [RoomRow(mint, i, j, app.rooms[j])]));
    ImportTypeGrants(m, mint, i, j, app.rooms[j]);
    RoomSaved(db, app, mint, i, j);
    if Ahead(db, mint, i, 0) { RoomAhead(db, app, mint, i, j); }
  }

  lemma RoomMapped(app: AppDoc, mint: Mint, i: nat, j: nat, before: seq<(string, Id)>)
    requires j < |app.rooms|
    ensures |AppRoomPairs(app, mint, i)| == |app.rooms|
    ensures MapOf(before + AppRoomPairs(app, mint, i)[..j + 1])
            == MapOf(before + AppRoomPairs(app, mint, i)[..j])[RoomKeyOf(app.slug, app.rooms[j].slug) := mint(OfRoom(i, j))]
  {
    var pairs := AppRoomPairs(app, mint, i);
    assert before + pairs[..j + 1] == before + pairs[..j] + [pairs[j]];
    MapOfPush(before + pairs[..j], RoomKeyOf(app.slug, app.rooms[j].slug), mint(OfRoom(i, j)));
  }

  lemma PairsLength(app: AppDoc, mint: Mint, i: nat)
    ensures |AppRoomPairs(app, mint, i)| == |app.rooms|
  {
  }

  method ImportRooms(m: EntityManager, app: AppDoc, mint: Mint, i: nat, roomIds: map<string, Id>,
                     ghost before: seq<(string, Id)>)
    returns (roomIds': map<string, Id>)
    requires roomIds == MapOf(before) && Ahead(m.db, mint, i, 0)
    modifies m
    ensures m.db == Plus(old(m.db), Sum(|app.rooms|, RoomBatch(app, mint, i)))
    ensures Ahead(m.db, mint, i, 0)
    ensures roomIds' == MapOf(before + AppRoomPairs(app, mint, i))
  {
    hide Plus, RoomBatch, Ahead, Sum, MapOf, RoomKeyOf, AppRoomPairs;
    ghost var pairs := AppRoomPairs(app, mint, i);
    PairsLength(app, mint, i);
    roomIds' := roomIds;
    SumSaved(m.db, RoomBatch(app, mint, i), 0);
    assert before + pairs[..0] == before;
    for j := 0 to |app.rooms|
      invariant m.db == Plus(old(m.db), Sum(j, RoomBatch(app, mint, i)))
      invariant Ahead(m.db, mint, i, 0)
      invariant roomIds' == MapOf(before + pairs[..j])
    {
      SumSaved(old(m.db), RoomBatch(app, mint, i), j);
      RoomMapped(app, mint, i, j, before);
      ImportRoom(m, app, mint, i, j);
      roomIds' := roomIds'[RoomKeyOf(app.slug, app.rooms[j].slug) := mint(OfRoom(i, j))];
    }
    assert pairs[..|pairs|] == pairs;
  }

  method ImportLinks(m: EntityManager, roomIds: map<string, Id>, appSlug: string, lobbyId: Id, slugs: seq<string>)
    returns (error: Option<ImportError>)
    requires forall l :: l in m.db.lobbyRooms ==> l.lobbyId != lobbyId
    modifies m
    ensures error.None? <==> forall s :: s in slugs ==> RoomKeyOf(appSlug, s) in roomIds
    ensures error.None? ==> m.db == Plus(old(m.db), EMPTY.(lobbyRooms := LinkRows(roomIds, appSlug, lobbyId, slugs)))
    ensures m.db == old(m.db).(lobbyRooms := m.db.lobbyRooms)
    ensures forall l :: l in m.db.lobbyRooms ==> l in old(m.db).lobbyRooms || l.lobbyId == lobbyId
  {
    PlusEmpty(m.db);
    for k := 0 to |slugs|
      invariant forall n :: 0 <= n < k ==> RoomKeyOf(appSlug, slugs[n]) in roomIds
      invariant m.db.lobbyRooms == old(m.db).lobbyRooms + LinkRows(roomIds, appSlug, lobbyId, slugs[..k])
      invariant m.db == old(m.db).(lobbyRooms := m.db.lobbyRooms)
      invariant forall l :: l in m.db.lobbyRooms ==> l in old(m.db).lobbyRooms || l.lobbyId == lobbyId
    {
      var key := RoomKeyOf(appSlug, slugs[k]);
      if key !in roomIds { return Some(UnknownRoom(slugs[k])); }
      assert slugs[..k + 1][..k] == slugs[..k];
      m.UpsertLink(LobbyRoom(lobbyId, roomIds[key], None));
    }
    assert slugs[..|slugs|] == slugs;
    return None;
  }

  method ImportLobby(m: EntityManager, app: AppDoc, mint: Mint, i: nat, j: nat, roomIds: map<string, Id>)
    returns (error: Option<ImportError>)
    requires j < |app.lobbies| && Distinguishes(mint) && Ahead(m.db, mint, i, j)
    modifies m
    ensures error.None? <==> LobbyResolves(roomIds, app.slug, app.lobbies[j])
    ensures error.None? ==> m.db == Plus(old(m.db), LobbyBatch(app, mint, i, roomIds)(j))
    ensures Ahead(m.db, mint, i, j + 1)
  {
    hide *;
    ghost var db := m.db;
    m.Save(EMPTY.(lobbies := [LobbyRow(mint, i, j, app.lobbies[j])]));
    LobbySaved(db, app, mint, i, j, roomIds);
    error := ImportLinks(m, roomIds, app.slug, mint(OfLobby(i, j)), app.lobbies[j].rooms);
    LinksSaved(Plus(db, EMPTY.(lobbies := [LobbyRow(mint, i, j, app.lobbies[j])])), m.db, mint, i, j);
    assert LobbyResolves(roomIds, app.slug, app.lobbies[j]) <==>
           forall s :: s in app.lobbies[j].rooms ==> RoomKeyOf(app.slug, s) in roomIds by { LobbyResolvesIs(roomIds, app.slug, app.lobbies[j]); }
  }

  lemma LobbyResolvesIs(roomIds: map<string, Id>, appSlug: string, l: LobbyDoc)
    ensures LobbyResolves(roomIds, appSlug, l) <==> forall s :: s in l.rooms ==> RoomKeyOf(appSlug, s) in roomIds
  {
  }

  lemma LobbySaved(db: Db, app: AppDoc, mint: Mint, i: nat, j: nat, roomIds: map<string, Id>)
    requires j < |app.lobbies| && Distinguishes(mint) && Ahead(db, mint, i, j)
    ensures var row := EMPTY.(lobbies := [LobbyRow(mint, i, j, app.lobbies[j])]);
            var links := EMPTY.(lobbyRooms := LinkRows(roomIds, app.slug, mint(OfLobby(i, j)), app.lobbies[j].rooms));
            && Plus(Plus(db, row), links) == Plus(db, LobbyBatch(app, mint, i, roomIds)(j))
            && Ahead(Plus(db, row), mint, i, j)
            && forall l :: l in Plus(db, row).lobbyRooms ==> l.lobbyId != mint(OfLobby(i, j))
  {
    hide LinkRows, LobbyRow, Distinguishes, Plus, LobbyBatch;
    LobbyBatched(db, app, mint, i, j, roomIds);
    LobbyAhead(db, LobbyRow(mint, i, j, app.lobbies[j]), mint, i, j);
  }

  lemma LobbyBatched(db: Db, app: AppDoc, mint: Mint, i: nat, j: nat, roomIds: map<string, Id>)
    requires j < |app.lobbies|
    ensures var row := EMPTY.(lobbies := [LobbyRow(mint, i, j, app.lobbies[j])]);
            var links := EMPTY.(lobbyRooms := LinkRows(roomIds, app.slug, mint(OfLobby(i, j)), app.lobbies[j].rooms));
            Plus(Plus(db, row), links) == Plus(db, LobbyBatch(app, mint, i, roomIds)(j))
  {
    hide LinkRows, LobbyRow;
    var row := EMPTY.(lobbies := [LobbyRow(mint, i, j, app.lobbies[j])]);
    var links := EMPTY.(lobbyRooms := LinkRows(roomIds, app.slug, mint(OfLobby(i, j)), app.lobbies[j].rooms));
    PlusAssoc(db, row, links);
    assert Plus(row, links) == LobbyBatch(app, mint, i, roomIds)(j);
  }

  lemma LobbyAhead(db: Db, l: Lobby, mint: Mint, i: nat, j: nat)
    requires Ahead(db, mint, i, j)
    ensures Ahead(Plus(db, EMPTY.(lobbies := [l])), mint, i, j)
    ensures forall x :: x in Plus(db, EMPTY.(lobbies := [l])).lobbyRooms ==> x.lobbyId != mint(OfLobby(i, j))
  {
    assert Plus(db, EMPTY.(lobbies := [l])).lobbyRooms == db.lobbyRooms;
    assert Plus(db, EMPTY.(lobbies := [l])).appGrants == db.appGrants;
  }

  lemma LinksSaved(before: Db, after: Db, mint: Mint, i: nat, j: nat)
    requires Distinguishes(mint) && Ahead(before, mint, i, j) && after.appGrants == before.appGrants
    requires forall l :: l in after.lobbyRooms ==> l in before.lobbyRooms || l.lobbyId == mint(OfLobby(i, j))
    ensures Ahead(after, mint, i, j + 1)
  {
  }

  method ImportLobbies(m: EntityManager, app: AppDoc, mint: Mint, i: nat, roomIds: map<string, Id>)
    returns (error: Option<ImportError>)
    requires Distinguishes(mint) && Ahead(m.db, mint, i, 0)
    modifies m
    ensures error.None? <==> forall l :: l in app.lobbies ==> LobbyResolves(roomIds, app.slug, l)
    ensures error.None? ==> m.db == Plus(old(m.db), Sum(|app.lobbies|, LobbyBatch(app, mint, i, roomIds)))
    ensures error.None? ==> Ahead(m.db, mint, i + 1, 0)
  {
    hide Plus, LobbyBatch;
    ghost var batch := LobbyBatch(app, mint, i, roomIds);
    SumSaved(m.db, batch, 0);
    for j := 0 to |app.lobbies|
      invariant forall n :: 0 <= n < j ==> LobbyResolves(roomIds, app.slug, app.lobbies[n])
      invariant m.db == Plus(old(m.db), Sum(j, batch))
      invariant Ahead(m.db, mint, i, j)
    {
      SumSaved(old(m.db), batch, j);
      var failed := ImportLobby(m, app, mint, i, j, roomIds);
      if failed.Some? { return failed; }
    }
    return None;
  }

  method ImportApp(m: EntityManager, doc: Doc, mint: Mint, i: nat, roomIds: map<string, Id>)
    returns (error: Option<ImportError>, roomIds': map<string, Id>)
    requires i < |doc.apps| && roomIds == RoomIds(doc, mint, i)
    requires Distinguishes(mint) && Ahead(m.db, mint, i, 0)
    modifies m
    ensures error.None? <==> AppResolves(doc, mint, i)
    ensures error.None? ==> m.db == Plus(old(m.db), AppBatch(doc, mint)(i)) && roomIds' == RoomIds(doc, mint, i + 1)
    ensures error.None? ==> Ahead(m.db, mint, i + 1, 0)
  {
    hide *;
    var app := doc.apps[i];
    ghost var db := m.db;
    var row := AppRow(mint, i, app);
    AppMaps(doc, mint, i);
    AppSaved(db, doc, mint, i);
    m.Save(EMPTY.(apps := [row]));
    StillAhead(db, row, mint, i);
    roomIds' := ImportRooms(m, app, mint, i, roomIds, Flat(i, RoomPairBlock(doc, mint)));
    error := ImportLobbies(m, app, mint, i, roomIds');
  }

  lemma AppMaps(doc: Doc, mint: Mint, i: nat)
    requires i < |doc.apps|
    ensures RoomIds(doc, mint, i) == MapOf(Flat(i, RoomPairBlock(doc, mint)))
    ensures RoomIds(doc, mint, i + 1) == MapOf(Flat(i, RoomPairBlock(doc, mint)) + AppRoomPairs(doc.apps[i], mint, i))
    ensures AppResolves(doc, mint, i) <==>
            forall l :: l in doc.apps[i].lobbies ==> LobbyResolves(RoomIds(doc, mint, i + 1), doc.apps[i].slug, l)
  {
    hide LobbyResolves;
  }

  lemma AppBatchIs(doc: Doc, mint: Mint, i: nat)
    requires i < |doc.apps|
    ensures AppBatch(doc, mint)(i) ==
            Plus(Plus(EMPTY.(apps := [AppRow(mint, i, doc.apps[i])]),
                      Sum(|doc.apps[i].rooms|, RoomBatch(doc.apps[i], mint, i))),
                 Sum(|doc.apps[i].lobbies|, LobbyBatch(doc.apps[i], mint, i, RoomIds(doc, mint, i + 1))))
  {
    hide Plus, Sum, RoomBatch, LobbyBatch, RoomIds, AppRow;
  }

  lemma AppSaved(db: Db, doc: Doc, mint: Mint, i: nat)
    requires i < |doc.apps|
    ensures Plus(Plus(Plus(db, EMPTY.(apps := [AppRow(mint, i, doc.apps[i])])),
                      Sum(|doc.apps[i].rooms|, RoomBatch(doc.apps[i], mint, i))),
                 Sum(|doc.apps[i].lobbies|, LobbyBatch(doc.apps[i], mint, i, RoomIds(doc, mint, i + 1))))
            == Plus(db, AppBatch(doc, mint)(i))
  {
    hide *;
    var row := EMPTY.(apps := [AppRow(mint, i, doc.apps[i])]);
    var rooms := Sum(|doc.apps[i].rooms|, RoomBatch(doc.apps[i], mint, i));
    var lobbies := Sum(|doc.apps[i].lobbies|, LobbyBatch(doc.apps[i], mint, i, RoomIds(doc, mint, i + 1)));
    AppBatchIs(doc, mint, i);
    PlusAssoc(db, row, rooms);
    PlusAssoc(db, Plus(row, rooms), lobbies);
  }

  lemma StillAhead(db: Db, row: App, mint: Mint, i: nat)
    requires Ahead(db, mint, i, 0)
    ensures Ahead(Plus(db, EMPTY.(apps := [row])), mint, i, 0)
  {
  }

  method ImportAllApps(m: EntityManager, doc: Doc, mint: Mint)
    returns (error: Option<ImportError>, appIds: map<string, Id>, roomIds: map<string, Id>)
    requires Distinguishes(mint) && Ahead(m.db, mint, 0, 0)
    modifies m
    ensures error.None? <==> forall i :: 0 <= i < |doc.apps| ==> AppResolves(doc, mint, i)
    ensures error.None? ==> m.db == Plus(old(m.db), Sum(|doc.apps|, AppBatch(doc, mint)))
    ensures error.None? ==> Ahead(m.db, mint, |doc.apps|, 0)
    ensures error.None? ==> appIds == AppIds(doc, mint) && roomIds == RoomIds(doc, mint, |doc.apps|)
  {
    hide *;
    ghost var batch, pairs := AppBatch(doc, mint), AppPairs(doc, mint);
    appIds, roomIds := map[], map[];
    SumSaved(m.db, batch, 0);
    NoAppsYet(doc, mint);
    for i := 0 to |doc.apps|
      invariant forall k :: 0 <= k < i ==> AppResolves(doc, mint, k)
      invariant m.db == Plus(old(m.db), Sum(i, batch))
      invariant Ahead(m.db, mint, i, 0)
      invariant appIds == MapOf(pairs[..i]) && roomIds == RoomIds(doc, mint, i)
    {
      SumSaved(old(m.db), batch, i);
      var failed, filled := ImportApp(m, doc, mint, i, roomIds);
      if failed.Some? { return failed, appIds, roomIds; }
      roomIds := filled;
      AppMapped(doc, mint, i);
      appIds := appIds[doc.apps[i].slug := mint(OfApp(i))];
    }
    assert pairs[..|pairs|] == pairs;
    return None, appIds, roomIds;
  }

  lemma NoAppsYet(doc: Doc, mint: Mint)
    ensures map[] == MapOf(AppPairs(doc, mint)[..0]) && map[] == RoomIds(doc, mint, 0)
    ensures |AppPairs(doc, mint)| == |doc.apps| && AppIds(doc, mint) == MapOf(AppPairs(doc, mint))
  {
  }

  lemma AppMapped(doc: Doc, mint: Mint, i: nat)
    requires i < |doc.apps|
    ensures MapOf(AppPairs(doc, mint)[..i + 1]) == MapOf(AppPairs(doc, mint)[..i])[doc.apps[i].slug := mint(OfApp(i))]
  {
    var pairs := AppPairs(doc, mint);
    assert pairs[..i + 1] == pairs[..i] + [pairs[i]];
    MapOfPush(pairs[..i], doc.apps[i].slug, mint(OfApp(i)));
  }
}
