/** Exporting, importing and exporting again gives the same document but for handles and their order. */
module ReExport {
  import opened Prelude
  import opened Schema
  import opened Sorting
  import opened ProjectDoc
  import opened ProjectExport
  import opened ExportRefs
  import opened ExportMeaning
  import opened ExportAccepted
  import opened ProjectImport
  import opened ImportQueries
  import opened ImportRefs
  import opened RoundTrip

  /** The same actors under other handles, in the order of those handles. */
  function Renamed(actors: seq<ActorDoc>, refs: seq<string>): seq<ActorDoc>
    requires |refs| == |actors|
  {
    SortBy(seq(|actors|, i requires 0 <= i < |actors| => actors[i].(ref := refs[i])), ActorRef)
  }

  /** A sorted table stays sorted by the document field its key is written to. */
  lemma MapSorted<A(!new), B(!new)>(s: seq<A>, key: A -> string, f: A -> B, key': B -> string)
    requires SortedBy(s, key) && forall x :: x in s ==> key'(f(x)) == key(x)
    ensures SortBy(Map(s, f), key') == Map(s, f)
  {
    forall i, j | 0 <= i < j < |s| ensures TextLe(key'(Map(s, f)[i]), key'(Map(s, f)[j])) {
      assert s[i] in s && s[j] in s && TextLe(key(s[i]), key(s[j]));
    }
    SortFixed(Map(s, f), key');
  }

  lemma {:induction false} DedupDistinct(s: seq<string>)
    requires Distinct(s)
    ensures Dedup(s) == s
  {
    if s != [] {
      DedupDistinct(s[..|s| - 1]);
      assert s == s[..|s| - 1] + [s[|s| - 1]];
    }
  }

  lemma ScopesFixed(db: Db, projectId: Id)
    ensures var xs := Map(ProjectScopes(db, projectId), ScopeToDoc); SortBy(Map(xs, NormScope), ScopeSlug) == xs
  {
    var rows := ProjectScopes(db, projectId);
    SortSorted(Filter(db.scopes, ScopesIn(projectId)), ScopeRowSlug);
    MapSorted(rows, ScopeRowSlug, ScopeToDoc, ScopeSlug);
    assert Map(Map(rows, ScopeToDoc), NormScope) == Map(rows, ScopeToDoc);
  }

  lemma RoomFixed(db: Db, r: Room)
    ensures NormRoom(RoomToDoc(db)(r)) == RoomToDoc(db)(r)
  {
    var rows := Filter(db.roomGrants, TypeGrantsOn(r.roomId));
    assert Map(Map(rows, TypeGrantToDoc), NormTypeGrant) == Map(rows, TypeGrantToDoc);
  }

  lemma RoomsFixed(db: Db, appId: Id)
    ensures var xs := Map(AppRooms(db, appId), RoomToDoc(db)); SortBy(Map(xs, NormRoom), RoomSlug) == xs
  {
    hide RoomToDoc, NormRoom;
    var rows := AppRooms(db, appId);
    SortSorted(Filter(db.rooms, RoomsIn(appId)), RoomRowSlug);
    forall r ensures RoomSlug(RoomToDoc(db)(r)) == RoomRowSlug(r) && NormRoom(RoomToDoc(db)(r)) == RoomToDoc(db)(r) {
      RoomDocFields(db, r);
      RoomFixed(db, r);
    }
    MapSorted(rows, RoomRowSlug, RoomToDoc(db), RoomSlug);
    assert Map(Map(rows, RoomToDoc(db)), NormRoom) == Map(rows, RoomToDoc(db));
  }

  /** Different linked rooms of one app are written under different slugs. */
  lemma OtherLinkOtherSlug(db: Db, projectId: Id, a: App, l: Lobby, x: LobbyRoom, y: LobbyRoom)
    requires Keyed(db) && UniqueLiveSlugs(db) && LobbyLinksInApp(db, a.appId, l) && a in db.apps && AppsIn(projectId)(a)
    requires x in db.lobbyRooms && y in db.lobbyRooms && LinksOf(l.lobbyId)(x) && LinksOf(l.lobbyId)(y) && x.roomId != y.roomId
    ensures LinkSlug(AllRefs(db, projectId))(x).Some? && LinkSlug(AllRefs(db, projectId))(y).Some? ==>
              LinkSlug(AllRefs(db, projectId))(x) != LinkSlug(AllRefs(db, projectId))(y)
  {
    hide Keyed, AllRefs;
    if LinkSlug(AllRefs(db, projectId))(x).Some? && LinkSlug(AllRefs(db, projectId))(y).Some? {
      var r := LinkedOwnRoom(db, projectId, a, l, x);
      var s := LinkedOwnRoom(db, projectId, a, l, y);
      assert r.slug == s.slug <==> SameLiveRoom(r, s);
    }
  }

  lemma {:induction false} LinkSlugsDistinct(db: Db, projectId: Id, a: App, l: Lobby, rows: seq<LobbyRoom>)
    requires Keyed(db) && UniqueLiveSlugs(db) && LobbyLinksInApp(db, a.appId, l) && a in db.apps && AppsIn(projectId)(a)
    requires DistinctBy(rows, LinkKey) && forall x :: x in rows ==> x in db.lobbyRooms && LinksOf(l.lobbyId)(x)
    ensures Distinct(FilterMap(rows, LinkSlug(AllRefs(db, projectId))))
    ensures forall s :: s in FilterMap(rows, LinkSlug(AllRefs(db, projectId))) ==> s != ""
  {
    hide Keyed, UniqueLiveSlugs, LobbyLinksInApp, AllRefs;
    var f := LinkSlug(AllRefs(db, projectId));
    if rows != [] {
      var n := |rows| - 1;
      LinkSlugsDistinct(db, projectId, a, l, rows[..n]);
      var rest := FilterMap(rows[..n], f);
      if f(rows[n]).Some? {
        forall i | 0 <= i < |rest| ensures rest[i] != f(rows[n]).value {
          FilterMapMember(rows[..n], f, rest[i]);
          var x :| x in rows[..n] && f(x) == Some(rest[i]);
          assert LinkKey(x) != LinkKey(rows[n]);
          OtherLinkOtherSlug(db, projectId, a, l, x, rows[n]);
        }
      }
    }
  }

  lemma SortedDistinct(s: seq<string>)
    requires Distinct(s)
    ensures Distinct(SortBy(s, Self))
  {
    SortDistinct(s, Self, Self);
    assert DistinctBy(SortBy(s, Self), Self);
  }

  lemma LobbyFixed(db: Db, projectId: Id, a: App, l: Lobby)
    requires Keyed(db) && UniqueLiveSlugs(db) && LobbyLinksInApp(db, a.appId, l) && a in db.apps && AppsIn(projectId)(a)
    ensures NormLobby(LobbyToDoc(db, AllRefs(db, projectId))(l)) == LobbyToDoc(db, AllRefs(db, projectId))(l)
  {
    hide UniqueLiveSlugs, LobbyLinksInApp, AllRefs, LinkSlug;
    var rows, f := Filter(db.lobbyRooms, LinksOf(l.lobbyId)), LinkSlug(AllRefs(db, projectId));
    DistinctByFilter(db.lobbyRooms, LinksOf(l.lobbyId), LinkKey);
    LinkSlugsDistinct(db, projectId, a, l, rows);
    SortedRoomsFixed(FilterMap(rows, f));
  }

  lemma SortedRoomsFixed(s: seq<string>)
    requires Distinct(s) && forall x :: x in s ==> x != ""
    ensures SortBy(Filter(Dedup(SortBy(s, Self)), NotEmpty), Self) == SortBy(s, Self)
  {
    var t := SortBy(s, Self);
    SortedDistinct(s);
    DedupDistinct(t);
    SameMembers(s, Self);
    FilterAll(t, NotEmpty);
    SortSorted(s, Self);
    SortFixed(t, Self);
  }

  lemma LobbiesFixed(db: Db, projectId: Id, a: App)
    requires Keyed(db) && UniqueLiveSlugs(db) && LinksInApp(db, projectId) && a in db.apps && AppsIn(projectId)(a)
    ensures var xs := Map(AppLobbies(db, a.appId), LobbyToDoc(db, AllRefs(db, projectId)));
            SortBy(Map(xs, NormLobby), LobbySlug) == xs
  {
    hide Keyed, UniqueLiveSlugs, LobbyToDoc, AllRefs, NormLobby, LobbyLinksInApp;
    var rows, f := AppLobbies(db, a.appId), LobbyToDoc(db, AllRefs(db, projectId));
    SortSorted(Filter(db.lobbies, LobbiesIn(a.appId)), LobbyRowSlug);
    forall l | l in rows ensures LobbySlug(f(l)) == LobbyRowSlug(l) && NormLobby(f(l)) == f(l) {
      AppLobbiesMember(db, a.appId, l);
      LobbyDocSlug(db, AllRefs(db, projectId), l);
      LobbyFixed(db, projectId, a, l);
    }
    MapSorted(rows, LobbyRowSlug, f, LobbySlug);
    assert Map(Map(rows, f), NormLobby) == Map(rows, f);
  }

  lemma AppFixed(db: Db, projectId: Id, a: App)
    requires Keyed(db) && UniqueLiveSlugs(db) && LinksInApp(db, projectId) && a in db.apps && AppsIn(projectId)(a)
    ensures NormApp(AppDocOf(db, projectId, a)) == AppDocOf(db, projectId, a)
  {
    hide Keyed, UniqueLiveSlugs, LinksInApp, AppRooms, AppLobbies, RoomToDoc, LobbyToDoc, AllRefs, NormRoom, NormLobby, SortBy;
    RoomsFixed(db, a.appId);
    LobbiesFixed(db, projectId, a);
  }

  lemma AppsFixed(db: Db, projectId: Id)
    requires Keyed(db) && UniqueLiveSlugs(db) && LinksInApp(db, projectId)
    ensures var xs := Map(ProjectApps(db, projectId), AppDocFn(db, AllRefs(db, projectId)));
            SortBy(Map(xs, NormApp), AppSlug) == xs
  {
    hide Keyed, UniqueLiveSlugs, LinksInApp, AllRefs, NormApp, AppToDoc;
    var rows, f := ProjectApps(db, projectId), AppDocFn(db, AllRefs(db, projectId));
    SortSorted(Filter(db.apps, AppsIn(projectId)), AppRowSlug);
    forall a | a in rows ensures AppSlug(f(a)) == AppRowSlug(a) && NormApp(f(a)) == f(a) {
      ProjectAppsMember(db, projectId, a);
      AppDocFields(db, projectId, a);
      AppFixed(db, projectId, a);
    }
    MapSorted(rows, AppRowSlug, f, AppSlug);
    assert Map(Map(rows, f), NormApp) == Map(rows, f);
  }

  lemma ScopeSlugWritten(db: Db, projectId: Id, a: Actor)
    requires Writable(db, projectId)
    ensures var slug := ActorDocFn(db, projectId)(a).scopeSlug; slug.Some? ==> slug.value != ""
  {
    hide LinksInApp, AppWritable, ProjectScopes, AppSlugs, AllRefs, AppGrantToDoc, RoomGrantToDoc;
    var scopes := ProjectScopes(db, projectId);
    if a.scopeId.Some? && a.scopeId.value in ScopeSlugs(db, projectId) {
      var n :| 0 <= n < |scopes| && ScopePair(scopes[n]) == (a.scopeId.value, ScopeSlugs(db, projectId)[a.scopeId.value]);
      ProjectScopesMember(db, projectId, scopes[n]);
    }
  }

  lemma AppAccessFixed(db: Db, projectId: Id, a: Actor)
    requires Keyed(db) && LinksInApp(db, projectId) && Exported(db, projectId).Some?
    ensures var xs := ActorDocFn(db, projectId)(a).appAccess; Filter(Map(xs, NormAppGrant), NamesApp) == xs
  {
    hide Keyed, LinksInApp, Exported, AllRefs, ScopeSlugs, AppSlugs;
    var xs := ActorDocFn(db, projectId)(a).appAccess;
    forall g | g in xs ensures NormAppGrant(g) == g && NamesApp(g) {
      AppAccessWellFormed(db, projectId, a, g);
      FilterMapMember(Filter(db.appGrants, AppGrantsOf(a.actorTokenId)), AppGrantToDoc(AppSlugs(db, projectId)), g);
    }
    assert Map(xs, NormAppGrant) == xs;
    FilterAll(xs, NamesApp);
  }

  lemma RoomAccessFixed(db: Db, projectId: Id, a: Actor)
    ensures var xs := ActorDocFn(db, projectId)(a).roomAccess; Map(xs, NormRoomGrant) == xs
  {
    hide AllRefs, ScopeSlugs, AppSlugs;
    var xs := ActorDocFn(db, projectId)(a).roomAccess;
    forall g | g in xs ensures NormRoomGrant(g) == g {
      FilterMapMember(Filter(db.roomGrants, RoomGrantsOf(a.actorTokenId)), RoomGrantToDoc(AllRefs(db, projectId)), g);
    }
  }

  lemma ActorFixed(db: Db, projectId: Id, a: Actor, ref: string)
    requires Keyed(db) && Writable(db, projectId) && Exported(db, projectId).Some?
    ensures NormActor(ActorDocFn(db, projectId)(a), ref) == ActorDocFn(db, projectId)(a).(ref := ref)
  {
    hide Keyed, Writable, Exported, AllRefs, ScopeSlugs, AppSlugs, AppGrantToDoc, RoomGrantToDoc, NormAppGrant, NormRoomGrant;
    ScopeSlugWritten(db, projectId, a);
    assert LinksInApp(db, projectId) by { WritableLinks(db, projectId); }
    AppAccessFixed(db, projectId, a);
    RoomAccessFixed(db, projectId, a);
  }

  lemma WritableLinks(db: Db, projectId: Id)
    requires Writable(db, projectId)
    ensures LinksInApp(db, projectId)
  {
  }

  lemma ActorsFixed(db: Db, projectId: Id, refs: seq<string>)
    requires Keyed(db) && Writable(db, projectId) && Exported(db, projectId).Some?
    requires |refs| == |ProjectActors(db, projectId)|
    ensures var xs := Map(ProjectActors(db, projectId), ActorDocFn(db, projectId)); NormActors(xs, refs) == Renamed(xs, refs)
  {
    hide Keyed, Writable, Exported, ActorDocFn, NormActor, SortBy, ProjectActors;
    var xs := Map(ProjectActors(db, projectId), ActorDocFn(db, projectId));
    forall i | 0 <= i < |xs| ensures NormActor(xs[i], refs[i]) == xs[i].(ref := refs[i]) {
      ActorFixed(db, projectId, ProjectActors(db, projectId)[i], refs[i]);
    }
    assert RenamedActors(xs, refs) == seq(|xs|, i requires 0 <= i < |xs| => xs[i].(ref := refs[i]));
  }

  /** A document that was exported is already in normal form, apart from its handles. */
  lemma ExportIsNormal(db: Db, projectId: Id, refs: seq<string>, keyRefs: seq<string>)
    requires Keyed(db) && UniqueLiveSlugs(db) && Writable(db, projectId) && Exported(db, projectId).Some?
    requires |refs| == |DocOf(db, projectId).actors| && |keyRefs| == |DocOf(db, projectId).signingKeys|
    ensures var d := DocOf(db, projectId);
            Normalize(d, refs, keyRefs) == d.(actors := Renamed(d.actors, refs), signingKeys := NormKeys(d.signingKeys, keyRefs))
  {
    hide Keyed, UniqueLiveSlugs, Writable, Exported, DocOf, NormActors, Renamed, NormKeys, SortBy, NormApp, NormScope,
         ProjectScopes, ProjectApps, ProjectActors, ProjectKeys, AllRefs, ActorDocFn, AppToDoc;
    WritableLinks(db, projectId);
    DocParts(db, projectId);
    ScopesFixed(db, projectId);
    AppsFixed(db, projectId);
    ActorsFixed(db, projectId, refs);
  }

  /**
   * Export, import anywhere, export again: the same document, with each actor and
   * signing key under its new public key id and those two lists in the new order.
   */
  lemma ExportImportExport(db: Db, projectId: Id, target: Db, mint: Mint, at: Time, keyConfigured: bool)
    requires Keyed(db) && UniqueLiveSlugs(db) && Writable(db, projectId) && Exported(db, projectId).Some?
    requires DocOf(db, projectId).signingKeys == [] || keyConfigured
    requires Keyed(target) && FreshImport(target, mint)
    ensures var d := DocOf(db, projectId);
            Exported(Imported(target, d, mint, at), mint(OfProject))
            == Some(d.(actors := Renamed(d.actors, ActorRefs(d, mint)), signingKeys := NormKeys(d.signingKeys, KeyRefs(d, mint))))
  {
    hide Keyed, UniqueLiveSlugs, Writable, Exported, DocOf, Imported, FreshImport, Normalize, Renamed, NormKeys, SlashFree, Accepts,
         ActorRefs, KeyRefs;
    var d := DocOf(db, projectId);
    ExportIsAccepted(db, projectId, mint, keyConfigured);
    ExportSlashFree(db, projectId);
    ImportThenExport(target, d, mint, at, keyConfigured);
    assert |ActorRefs(d, mint)| == |d.actors| && |KeyRefs(d, mint)| == |d.signingKeys|;
    ExportIsNormal(db, projectId, ActorRefs(d, mint), KeyRefs(d, mint));
  }
}
