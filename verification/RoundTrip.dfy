/** Importing a document and exporting the project gives the document back in normal form. */
module RoundTrip {
  import opened Prelude
  import opened Schema
  import opened Sorting
  import opened ProjectDoc
  import opened ProjectExport
  import opened ProjectImport
  import opened ImportTables
  import opened ImportQueries
  import opened ImportRefs
  import opened ImportMembers
  import opened ImportKeyed
  import opened ExportRefs

  /** An accepted import of a document with separator-free slugs, into any keyed database. */
  ghost predicate GoodImport(db: Db, doc: Doc, mint: Mint) {
    && FreshImport(db, mint) && Keyed(db) && SlashFree(doc) && UniqueSlugs(doc)
    && (forall i :: 0 <= i < |doc.apps| ==> AppResolves(doc, mint, i))
    && (forall a :: a in doc.actors ==> ActorResolves(doc, mint, a))
  }

  function ActorRefs(doc: Doc, mint: Mint): (refs: seq<string>)
    ensures |refs| == |doc.actors|
  {
    seq(|doc.actors|, k requires 0 <= k < |doc.actors| => mint(OfActorKeyId(k)))
  }

  function KeyRefs(doc: Doc, mint: Mint): (refs: seq<string>)
    ensures |refs| == |doc.signingKeys|
  {
    seq(|doc.signingKeys|, k requires 0 <= k < |doc.signingKeys| => mint(OfKeyId(k)))
  }

  lemma ScopesBack(db: Db, doc: Doc, mint: Mint, now: Time)
    requires FreshImport(db, mint)
    ensures Map(ProjectScopes(Imported(db, doc, mint, now), mint(OfProject)), ScopeToDoc)
         == SortBy(Map(doc.accessScopes, NormScope), ScopeSlug)
  {
    hide Imported, SortBy;
    ScopesFound(db, doc, mint, now);
    SortMap(ScopeRows(doc, mint), ScopeRowSlug, ScopeToDoc, ScopeSlug);
    assert Map(ScopeRows(doc, mint), ScopeToDoc) == Map(doc.accessScopes, NormScope);
  }

  lemma KeysBack(db: Db, doc: Doc, mint: Mint, now: Time)
    requires FreshImport(db, mint)
    ensures Map(ProjectKeys(Imported(db, doc, mint, now), mint(OfProject)), KeyToDoc)
         == NormKeys(doc.signingKeys, KeyRefs(doc, mint))
  {
    hide Imported, SortBy;
    KeysFound(db, doc, mint, now);
    SortMap(KeyRows(doc, mint), KeyRowKeyId, KeyToDoc, KeyRef);
    assert Map(KeyRows(doc, mint), KeyToDoc) == RenamedKeys(doc.signingKeys, KeyRefs(doc, mint));
  }

  /* ── references come back under the slugs they were given by ─────────── */

  lemma AppRowListed(db: Db, doc: Doc, mint: Mint, now: Time, i: nat)
    requires FreshImport(db, mint) && i < |doc.apps|
    ensures AppRow(mint, i, doc.apps[i]) in ProjectApps(Imported(db, doc, mint, now), mint(OfProject))
  {
    hide Imported, SortBy, AppRow;
    AppsFound(db, doc, mint, now);
    assert AppRows(doc, mint)[i] == AppRow(mint, i, doc.apps[i]);
    SameMembers(AppRows(doc, mint), AppRowSlug);
  }

  lemma RoomRowStored(db: Db, doc: Doc, mint: Mint, now: Time, i: nat, j: nat)
    requires FreshImport(db, mint) && i < |doc.apps| && j < |doc.apps[i].rooms|
    ensures RoomRow(mint, i, j, doc.apps[i].rooms[j]) in Imported(db, doc, mint, now).rooms
  {
    hide Imported, RoomRow;
    RoomsFound(db, doc, mint, now, i);
    assert RoomRows(doc.apps[i], mint, i)[j] == RoomRow(mint, i, j, doc.apps[i].rooms[j]);
  }

  /** The exporter reads an imported room's id as the slugs the document used. */
  lemma RoomRefBack(db: Db, doc: Doc, mint: Mint, now: Time, i: nat, j: nat)
    requires GoodImport(db, doc, mint) && i < |doc.apps| && j < |doc.apps[i].rooms|
    ensures Lookup(AllRefs(Imported(db, doc, mint, now), mint(OfProject)), mint(OfRoom(i, j)))
         == Some((doc.apps[i].slug, doc.apps[i].rooms[j].slug))
  {
    hide Imported, Keyed, SlashFree, UniqueSlugs, AppResolves, ActorResolves, RefPairs, ProjectApps, FreshImport;
    var db1, pid := Imported(db, doc, mint, now), mint(OfProject);
    ImportedKeyed(db, doc, mint, now);
    AppRowListed(db, doc, mint, now, i);
    RoomRowStored(db, doc, mint, now, i, j);
    forall a | a in ProjectApps(db1, pid) ensures a in db1.apps { ProjectAppsMember(db1, pid, a); }
    RefKnown(db1, ProjectApps(db1, pid), AppRow(mint, i, doc.apps[i]), RoomRow(mint, i, j, doc.apps[i].rooms[j]));
  }

  lemma AppSlugBack(db: Db, doc: Doc, mint: Mint, now: Time, i: nat)
    requires GoodImport(db, doc, mint) && i < |doc.apps|
    ensures Lookup(AppSlugs(Imported(db, doc, mint, now), mint(OfProject)), mint(OfApp(i))) == Some(doc.apps[i].slug)
  {
    hide Imported, SlashFree, UniqueSlugs, AppResolves, ActorResolves, ProjectApps, FreshImport, Keyed, AppSlugs;
    ImportedKeyed(db, doc, mint, now);
    AppRowListed(db, doc, mint, now, i);
    ProjectAppsMember(Imported(db, doc, mint, now), mint(OfProject), AppRow(mint, i, doc.apps[i]));
    AppSlugKnown(Imported(db, doc, mint, now), mint(OfProject), AppRow(mint, i, doc.apps[i]));
  }

  lemma ScopeRowListed(db: Db, doc: Doc, mint: Mint, now: Time, i: nat)
    requires FreshImport(db, mint) && i < |doc.accessScopes|
    ensures ScopeRow(mint, i, doc.accessScopes[i]) in ProjectScopes(Imported(db, doc, mint, now), mint(OfProject))
  {
    hide Imported, SortBy, ScopeRow;
    ScopesFound(db, doc, mint, now);
    assert ScopeRows(doc, mint)[i] == ScopeRow(mint, i, doc.accessScopes[i]);
    SameMembers(ScopeRows(doc, mint), ScopeRowSlug);
  }

  lemma ScopeSlugBack(db: Db, doc: Doc, mint: Mint, now: Time, i: nat)
    requires GoodImport(db, doc, mint) && i < |doc.accessScopes|
    ensures Lookup(ScopeSlugs(Imported(db, doc, mint, now), mint(OfProject)), mint(OfScope(i))) == Some(doc.accessScopes[i].slug)
  {
    hide Imported, SlashFree, UniqueSlugs, AppResolves, ActorResolves, ProjectScopes, FreshImport, Keyed, ScopeSlugs;
    ImportedKeyed(db, doc, mint, now);
    ScopeRowListed(db, doc, mint, now, i);
    ProjectScopesMember(Imported(db, doc, mint, now), mint(OfProject), ScopeRow(mint, i, doc.accessScopes[i]));
    ScopeSlugKnown(Imported(db, doc, mint, now), mint(OfProject), ScopeRow(mint, i, doc.accessScopes[i]));
  }

  /** Saving a lobby's links and reading them back keeps first occurrences of the slugs. */
  lemma {:induction false} LinksBack(roomIds: map<string, Id>, appSlug: string, lobbyId: Id, slugs: seq<string>, refs: RoomRefs)
    requires forall s :: s in slugs ==> Lookup(refs, Get(roomIds, RoomKeyOf(appSlug, s), "")) == Some((appSlug, s))
    ensures FilterMap(LinkRows(roomIds, appSlug, lobbyId, slugs), LinkSlug(refs)) == Filter(Dedup(slugs), NotEmpty)
    ensures forall s :: s in slugs ==>
              (LobbyRoom(lobbyId, Get(roomIds, RoomKeyOf(appSlug, s), ""), None) in LinkRows(roomIds, appSlug, lobbyId, slugs))
    ensures forall s :: s in slugs ==> s in Dedup(slugs)
  {
    hide RoomKeyOf, LinkSlug, Filter, FilterMap;
    if slugs == [] {
      NothingLinked(refs);
    } else {
      var n := |slugs| - 1;
      var s := slugs[n];
      LinksBack(roomIds, appSlug, lobbyId, slugs[..n], refs);
      var rest := LinkRows(roomIds, appSlug, lobbyId, slugs[..n]);
      var link := LobbyRoom(lobbyId, Get(roomIds, RoomKeyOf(appSlug, s), ""), None);
      assert s in slugs && slugs == slugs[..n] + [s];
      if link in rest {
        var t := LinkRowMember(roomIds, appSlug, lobbyId, slugs[..n], link);
        assert t == s;
      } else {
        assert s !in slugs[..n];
        assert s !in Dedup(slugs[..n]);
        FilterMapAppend(rest, [link], LinkSlug(refs));
        FilterAppend(Dedup(slugs[..n]), [s], NotEmpty);
        OneLinked(refs, link, appSlug, s);
      }
    }
  }

  lemma NothingLinked(refs: RoomRefs)
    ensures FilterMap([], LinkSlug(refs)) == [] && Filter([], NotEmpty) == []
  {
  }

  lemma OneLinked(refs: RoomRefs, link: LobbyRoom, appSlug: string, s: string)
    requires Lookup(refs, link.roomId) == Some((appSlug, s))
    ensures FilterMap([link], LinkSlug(refs)) == Filter([s], NotEmpty)
  {
    assert LinkSlug(refs)(link) == if s != "" then Some(s) else None;
  }

  /* ── apps ────────────────────────────────────────────────────────────── */

  lemma RoomBack(db: Db, doc: Doc, mint: Mint, now: Time, i: nat, j: nat)
    requires FreshImport(db, mint) && i < |doc.apps| && j < |doc.apps[i].rooms|
    ensures RoomToDoc(Imported(db, doc, mint, now))(RoomRow(mint, i, j, doc.apps[i].rooms[j])) == NormRoom(doc.apps[i].rooms[j])
  {
    hide Imported;
    TypeGrantsFound(db, doc, mint, now, i, j);
    var r := doc.apps[i].rooms[j];
    assert Map(TypeGrantRows(mint, i, j, r), TypeGrantToDoc) == Map(r.typeGrants, NormTypeGrant);
  }

  lemma RoomsBack(db: Db, doc: Doc, mint: Mint, now: Time, i: nat)
    requires FreshImport(db, mint) && i < |doc.apps|
    ensures Map(AppRooms(Imported(db, doc, mint, now), mint(OfApp(i))), RoomToDoc(Imported(db, doc, mint, now)))
         == SortBy(Map(doc.apps[i].rooms, NormRoom), RoomSlug)
  {
    hide Imported, SortBy, NormRoom, FreshImport;
    var db1, a := Imported(db, doc, mint, now), doc.apps[i];
    RoomsFound(db, doc, mint, now, i);
    SortMap(RoomRows(a, mint, i), RoomRowSlug, RoomToDoc(db1), RoomSlug);
    forall j | 0 <= j < |a.rooms| ensures RoomToDoc(db1)(RoomRows(a, mint, i)[j]) == NormRoom(a.rooms[j]) {
      RoomBack(db, doc, mint, now, i, j);
    }
    assert Map(RoomRows(a, mint, i), RoomToDoc(db1)) == Map(a.rooms, NormRoom);
  }

  /** The id a lobby entry resolved to reads back as that entry. */
  lemma LobbyRoomBack(db: Db, doc: Doc, mint: Mint, now: Time, i: nat, s: string)
    requires GoodImport(db, doc, mint) && i < |doc.apps|
    requires RoomKeyOf(doc.apps[i].slug, s) in RoomIds(doc, mint, i + 1)
    ensures Lookup(AllRefs(Imported(db, doc, mint, now), mint(OfProject)),
                   Get(RoomIds(doc, mint, i + 1), RoomKeyOf(doc.apps[i].slug, s), "")) == Some((doc.apps[i].slug, s))
  {
    hide Imported, FreshImport, Keyed, SlashFree, UniqueSlugs, AppResolves, ActorResolves, AllRefs, RoomIds, RoomKeyOf;
    var i', j := RoomKeyNamed(doc, mint, i + 1, doc.apps[i].slug, s);
    RoomIdKnown(doc, mint, i + 1, i', j);
    RoomRefBack(db, doc, mint, now, i', j);
  }

  lemma LobbyBack(db: Db, doc: Doc, mint: Mint, now: Time, i: nat, j: nat)
    requires GoodImport(db, doc, mint) && i < |doc.apps| && j < |doc.apps[i].lobbies|
    ensures LobbyToDoc(Imported(db, doc, mint, now), AllRefs(Imported(db, doc, mint, now), mint(OfProject)))
              (LobbyRow(mint, i, j, doc.apps[i].lobbies[j])) == NormLobby(doc.apps[i].lobbies[j])
  {
    hide Imported, FreshImport, Keyed, SlashFree, UniqueSlugs, ActorResolves, AllRefs, RoomIds, RoomKeyOf;
    var a, roomIds := doc.apps[i], RoomIds(doc, mint, i + 1);
    var refs := AllRefs(Imported(db, doc, mint, now), mint(OfProject));
    LinksFound(db, doc, mint, now, i, j);
    assert AppResolves(doc, mint, i) && a.lobbies[j] in a.lobbies;
    forall s | s in a.lobbies[j].rooms ensures Lookup(refs, Get(roomIds, RoomKeyOf(a.slug, s), "")) == Some((a.slug, s)) {
      LobbyRoomBack(db, doc, mint, now, i, s);
    }
    LinksBack(roomIds, a.slug, mint(OfLobby(i, j)), a.lobbies[j].rooms, refs);
  }

  lemma LobbiesBack(db: Db, doc: Doc, mint: Mint, now: Time, i: nat)
    requires GoodImport(db, doc, mint) && i < |doc.apps|
    ensures var db1 := Imported(db, doc, mint, now);
            Map(AppLobbies(db1, mint(OfApp(i))), LobbyToDoc(db1, AllRefs(db1, mint(OfProject))))
            == SortBy(Map(doc.apps[i].lobbies, NormLobby), LobbySlug)
  {
    hide Imported, SortBy, NormLobby, AllRefs, Keyed, SlashFree, UniqueSlugs, ActorResolves, AppResolves;
    var db1, a := Imported(db, doc, mint, now), doc.apps[i];
    var f := LobbyToDoc(db1, AllRefs(db1, mint(OfProject)));
    LobbiesFound(db, doc, mint, now, i);
    SortMap(LobbyRows(a, mint, i), LobbyRowSlug, f, LobbySlug);
    forall j | 0 <= j < |a.lobbies| ensures f(LobbyRows(a, mint, i)[j]) == NormLobby(a.lobbies[j]) {
      LobbyBack(db, doc, mint, now, i, j);
    }
    assert Map(LobbyRows(a, mint, i), f) == Map(a.lobbies, NormLobby);
  }

  lemma AppBack(db: Db, doc: Doc, mint: Mint, now: Time, i: nat)
    requires GoodImport(db, doc, mint) && i < |doc.apps|
    ensures var db1 := Imported(db, doc, mint, now);
            AppToDoc(db1, AllRefs(db1, mint(OfProject)), AppRow(mint, i, doc.apps[i])) == NormApp(doc.apps[i])
  {
    hide Imported, SortBy, AllRefs, AppRooms, AppLobbies, RoomToDoc, LobbyToDoc, NormRoom, NormLobby,
         Keyed, SlashFree, UniqueSlugs, ActorResolves, AppResolves, FreshImport;
    RoomsBack(db, doc, mint, now, i);
    LobbiesBack(db, doc, mint, now, i);
  }

  /** Imported lobbies link only rooms of their own app. */
  lemma ImportedLinksInApp(db: Db, doc: Doc, mint: Mint, now: Time)
    requires GoodImport(db, doc, mint)
    ensures LinksInApp(Imported(db, doc, mint, now), mint(OfProject))
  {
    hide Imported, Keyed, SlashFree, UniqueSlugs, ActorResolves, AppResolves, FreshImport, AppRow, LobbyRow;
    var db1 := Imported(db, doc, mint, now);
    forall a, l | a in db1.apps && AppsIn(mint(OfProject))(a) && l in db1.lobbies && LobbiesIn(a.appId)(l)
      ensures LobbyLinksInApp(db1, a.appId, l)
    {
      AppsFound(db, doc, mint, now);
      assert a in Filter(db1.apps, AppsIn(mint(OfProject)));
      var i := AppMember(doc, mint, a);
      assert a.appId == mint(OfApp(i)) by { AppRowId(mint, i, doc.apps[i]); }
      LobbiesFound(db, doc, mint, now, i);
      assert l in Filter(db1.lobbies, LobbiesIn(mint(OfApp(i))));
      var j :| 0 <= j < |doc.apps[i].lobbies| && l == LobbyRows(doc.apps[i], mint, i)[j];
      LobbyLinksClosed(db, doc, mint, now, i, j);
    }
  }

  lemma AppRowId(mint: Mint, i: nat, a: AppDoc)
    ensures AppRow(mint, i, a).appId == mint(OfApp(i))
  {
  }

  lemma LobbyLinksClosed(db: Db, doc: Doc, mint: Mint, now: Time, i: nat, j: nat)
    requires GoodImport(db, doc, mint) && i < |doc.apps| && j < |doc.apps[i].lobbies|
    ensures LobbyLinksInApp(Imported(db, doc, mint, now), mint(OfApp(i)), LobbyRow(mint, i, j, doc.apps[i].lobbies[j]))
  {
    hide Imported, FreshImport, Keyed, SlashFree, UniqueSlugs, ActorResolves, RoomIds, RoomKeyOf, LinkRows;
    var db1, a, roomIds := Imported(db, doc, mint, now), doc.apps[i], RoomIds(doc, mint, i + 1);
    LinksFound(db, doc, mint, now, i, j);
    forall link, r | link in db1.lobbyRooms && LinksOf(mint(OfLobby(i, j)))(link) && r in db1.rooms && LiveRoom(link.roomId)(r)
      ensures r.appId == mint(OfApp(i))
    {
      assert link in Filter(db1.lobbyRooms, LinksOf(mint(OfLobby(i, j))));
      var s := LinkRowMember(roomIds, a.slug, mint(OfLobby(i, j)), a.lobbies[j].rooms, link);
      assert AppResolves(doc, mint, i) && a.lobbies[j] in a.lobbies;
      var i', j' := RoomKeyNamed(doc, mint, i + 1, a.slug, s);
      SameApp(doc, i, i');
      RoomIdKnown(doc, mint, i + 1, i', j');
      RoomRowStored(db, doc, mint, now, i, j');
      SameRoomRow(db, doc, mint, now, r, RoomRow(mint, i, j', a.rooms[j']));
    }
  }

  lemma SameRoomRow(db: Db, doc: Doc, mint: Mint, now: Time, r: Room, s: Room)
    requires GoodImport(db, doc, mint) && r.roomId == s.roomId
    requires r in Imported(db, doc, mint, now).rooms && s in Imported(db, doc, mint, now).rooms
    ensures r == s
  {
    hide Imported, DistinctBy, SlashFree, UniqueSlugs, AppResolves, ActorResolves, FreshImport;
    ImportedKeyed(db, doc, mint, now);
    DistinctByMember(Imported(db, doc, mint, now).rooms, RoomKey, r, s);
  }

  lemma SameApp(doc: Doc, i: nat, k: nat)
    requires UniqueSlugs(doc) && i < |doc.apps| && k < |doc.apps| && doc.apps[i].slug == doc.apps[k].slug
    ensures i == k
  {
    assert Map(doc.apps, AppSlug)[i] == Map(doc.apps, AppSlug)[k];
  }

  lemma AppsBack(db: Db, doc: Doc, mint: Mint, now: Time)
    requires GoodImport(db, doc, mint)
    ensures var db1 := Imported(db, doc, mint, now);
            AppDocs(db1, ProjectApps(db1, mint(OfProject))) == SortBy(Map(doc.apps, NormApp), AppSlug)
  {
    hide Imported, SortBy, AppDocs, RefPairs, NormApp, AppToDoc, AppRow,
         Keyed, SlashFree, UniqueSlugs, ActorResolves, AppResolves, LinksInApp;
    var db1, pid := Imported(db, doc, mint, now), mint(OfProject);
    var apps := ProjectApps(db1, pid);
    ImportedKeyed(db, doc, mint, now);
    ImportedLinksInApp(db, doc, mint, now);
    forall a | a in apps ensures a in db1.apps && AppsIn(pid)(a) { ProjectAppsMember(db1, pid, a); }
    AppDocsUniform(db1, pid, apps, apps);
    AppsFound(db, doc, mint, now);
    var f := AppDocFn(db1, AllRefs(db1, pid));
    forall a ensures AppSlug(f(a)) == AppRowSlug(a) { AppDocSlug(db1, AllRefs(db1, pid), a); }
    SortMap(AppRows(doc, mint), AppRowSlug, f, AppSlug);
    forall i | 0 <= i < |doc.apps| ensures f(AppRows(doc, mint)[i]) == NormApp(doc.apps[i]) {
      AppBack(db, doc, mint, now, i);
    }
    assert Map(AppRows(doc, mint), f) == Map(doc.apps, NormApp);
  }

  lemma AppDocSlug(db: Db, refs: RoomRefs, a: App)
    ensures AppToDoc(db, refs, a).slug == a.slug
  {
  }

  /* ── actors ──────────────────────────────────────────────────────────── */

  lemma ScopeBack(db: Db, doc: Doc, mint: Mint, now: Time, k: nat)
    requires GoodImport(db, doc, mint) && k < |doc.actors|
    ensures var scopeId, slug := ScopeIdOf(ScopeIds(doc, mint), doc.actors[k]), doc.actors[k].scopeSlug;
            (if scopeId.Some? then Lookup(ScopeSlugs(Imported(db, doc, mint, now), mint(OfProject)), scopeId.value) else None)
            == if slug.Some? && slug.value != "" then slug else None
  {
    hide Imported, FreshImport, Keyed, SlashFree, UniqueSlugs, AppResolves, ScopeSlugs, ScopeIds, AppAccessResolves, RoomAccessResolves;
    var a := doc.actors[k];
    assert ActorResolves(doc, mint, a);
    if a.scopeSlug.Some? && a.scopeSlug.value != "" {
      var i := ScopeSlugNamed(doc, mint, a.scopeSlug.value);
      ScopeSlugBack(db, doc, mint, now, i);
    }
  }

  lemma {:induction false} AppAccessBack(rows: seq<AppGrant>, grants: seq<AppGrantDoc>, slugs: map<Id, string>)
    requires |rows| == |grants|
    requires forall m :: 0 <= m < |rows| ==>
               Lookup(slugs, rows[m].appId) == Some(grants[m].appSlug)
               && rows[m].permission == grants[m].permission && rows[m].topics == grants[m].topics
               && rows[m].isActive == grants[m].isActive.GetOr(true) && rows[m].expiresAt == grants[m].expiresAt
    ensures FilterMap(rows, AppGrantToDoc(slugs)) == Filter(Map(grants, NormAppGrant), NamesApp)
  {
    if grants != [] {
      var n := |grants| - 1;
      AppAccessBack(rows[..n], grants[..n], slugs);
      assert Map(grants, NormAppGrant)[..n] == Map(grants[..n], NormAppGrant);
    }
  }

  lemma {:induction false} RoomAccessBack(rows: seq<RoomGrant>, grants: seq<RoomGrantDoc>, refs: RoomRefs)
    requires |rows| == |grants|
    requires forall m :: 0 <= m < |rows| ==>
               Lookup(refs, rows[m].roomId) == Some((grants[m].appSlug, grants[m].roomSlug))
               && rows[m].permission == grants[m].permission && rows[m].topics == grants[m].topics
               && rows[m].isActive == grants[m].isActive.GetOr(true) && rows[m].expiresAt == grants[m].expiresAt
               && rows[m].role == grants[m].role
    ensures FilterMap(rows, RoomGrantToDoc(refs)) == Map(grants, NormRoomGrant)
  {
    if grants != [] {
      var n := |grants| - 1;
      RoomAccessBack(rows[..n], grants[..n], refs);
      assert Map(grants, NormRoomGrant) == Map(grants[..n], NormRoomGrant) + [NormRoomGrant(grants[n])];
    }
  }

  lemma ActorAppAccessBack(db: Db, doc: Doc, mint: Mint, now: Time, k: nat)
    requires GoodImport(db, doc, mint) && k < |doc.actors|
    ensures var db1 := Imported(db, doc, mint, now);
            FilterMap(Filter(db1.appGrants, AppGrantsOf(mint(OfActor(k)))), AppGrantToDoc(AppSlugs(db1, mint(OfProject))))
            == Filter(Map(doc.actors[k].appAccess, NormAppGrant), NamesApp)
  {
    hide Imported, Keyed, SlashFree, UniqueSlugs, AppResolves, AppSlugs, AppIds, ScopeResolves, RoomAccessResolves;
    AppGrantsFound(db, doc, mint, now, k);
    var grants, slugs := doc.actors[k].appAccess, AppSlugs(Imported(db, doc, mint, now), mint(OfProject));
    var rows := AppGrantRows(AppIds(doc, mint), mint, k, grants);
    assert ActorResolves(doc, mint, doc.actors[k]);
    forall m | 0 <= m < |grants| ensures Lookup(slugs, rows[m].appId) == Some(grants[m].appSlug) {
      var i := AppSlugNamed(doc, mint, grants[m].appSlug);
      AppSlugBack(db, doc, mint, now, i);
    }
    AppAccessBack(rows, grants, slugs);
  }

  lemma ActorRoomAccessBack(db: Db, doc: Doc, mint: Mint, now: Time, k: nat)
    requires GoodImport(db, doc, mint) && k < |doc.actors|
    ensures var db1 := Imported(db, doc, mint, now);
            FilterMap(Filter(db1.roomGrants, RoomGrantsOf(mint(OfActor(k)))), RoomGrantToDoc(AllRefs(db1, mint(OfProject))))
            == Map(doc.actors[k].roomAccess, NormRoomGrant)
  {
    hide Imported, Keyed, SlashFree, UniqueSlugs, AppResolves, AllRefs, RoomIds, RoomKeyOf, ScopeResolves, AppAccessResolves;
    RoomGrantsFound(db, doc, mint, now, k);
    var grants, refs := doc.actors[k].roomAccess, AllRefs(Imported(db, doc, mint, now), mint(OfProject));
    var rows := NamedGrantRows(RoomIds(doc, mint, |doc.apps|), mint, k, grants);
    assert ActorResolves(doc, mint, doc.actors[k]);
    forall m | 0 <= m < |grants| ensures Lookup(refs, rows[m].roomId) == Some((grants[m].appSlug, grants[m].roomSlug)) {
      var i, j := RoomKeyNamed(doc, mint, |doc.apps|, grants[m].appSlug, grants[m].roomSlug);
      RoomIdKnown(doc, mint, |doc.apps|, i, j);
      RoomRefBack(db, doc, mint, now, i, j);
    }
    RoomAccessBack(rows, grants, refs);
  }

  lemma ActorBack(db: Db, doc: Doc, mint: Mint, now: Time, k: nat)
    requires GoodImport(db, doc, mint) && k < |doc.actors|
    ensures ActorDocFn(Imported(db, doc, mint, now), mint(OfProject))(ActorRows(doc, mint)[k])
         == NormActor(doc.actors[k], mint(OfActorKeyId(k)))
  {
    hide Imported, GoodImport, AppSlugs, AllRefs, ScopeSlugs, ScopeIdOf, ScopeIds, AppGrantToDoc, RoomGrantToDoc,
         AppGrantsOf, RoomGrantsOf, NormAppGrant, NormRoomGrant;
    ActorAppAccessBack(db, doc, mint, now, k);
    ActorRoomAccessBack(db, doc, mint, now, k);
    ScopeBack(db, doc, mint, now, k);
  }

  lemma ActorsBack(db: Db, doc: Doc, mint: Mint, now: Time)
    requires GoodImport(db, doc, mint)
    ensures var db1 := Imported(db, doc, mint, now);
            Map(ProjectActors(db1, mint(OfProject)), ActorDocFn(db1, mint(OfProject)))
            == NormActors(doc.actors, ActorRefs(doc, mint))
  {
    hide Imported, SortBy, NormActor, ActorDocFn, ActorRows, Keyed, SlashFree, UniqueSlugs, AppResolves, ActorResolves;
    var f := ActorDocFn(Imported(db, doc, mint, now), mint(OfProject));
    ActorsFound(db, doc, mint, now);
    forall a ensures ActorRef(f(a)) == ActorRowKeyId(a) { ActorDocRef(Imported(db, doc, mint, now), mint(OfProject), a); }
    SortMap(ActorRows(doc, mint), ActorRowKeyId, f, ActorRef);
    ActorRowsLength(doc, mint);
    forall k | 0 <= k < |doc.actors| ensures f(ActorRows(doc, mint)[k]) == NormActor(doc.actors[k], mint(OfActorKeyId(k))) {
      ActorBack(db, doc, mint, now, k);
    }
    assert Map(ActorRows(doc, mint), f) == RenamedActors(doc.actors, ActorRefs(doc, mint));
  }

  lemma ActorDocRef(db: Db, projectId: Id, a: Actor)
    ensures ActorDocFn(db, projectId)(a).ref == a.keyId
  {
  }

  /**
   * The round trip: exporting an imported document gives it back in normal form,
   * whatever the database held before.
   */
  lemma ImportThenExport(db: Db, doc: Doc, mint: Mint, now: Time, keyConfigured: bool)
    requires FreshImport(db, mint) && Keyed(db) && SlashFree(doc) && Accepts(doc, mint, keyConfigured)
    ensures Exported(Imported(db, doc, mint, now), mint(OfProject))
         == Some(Normalize(doc, ActorRefs(doc, mint), KeyRefs(doc, mint)))
  {
    hide Imported, ProjectScopes, ProjectApps, ProjectActors, ProjectKeys, AppDocs, NormKeys, NormActors, NormScope, NormApp,
         ActorToDoc, Keyed, SlashFree, FreshImport, UniqueSlugs, AppResolves, ActorResolves;
    ProjectFound(db, doc, mint, now);
    ScopesBack(db, doc, mint, now);
    AppsBack(db, doc, mint, now);
    ActorsBack(db, doc, mint, now);
    KeysBack(db, doc, mint, now);
  }
}
