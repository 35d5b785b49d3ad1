/** What a project exports as, an import accepts. */
module ExportAccepted {
  import opened Prelude
  import opened Schema
  import opened Sorting
  import opened ProjectDoc
  import opened DocAccess
  import opened ProjectExport
  import opened ExportRefs
  import opened ExportMeaning
  import opened ProjectImport
  import opened ImportRefs
  import opened ImportConsistent

  /** Rows with distinct ids whose slugs tell them apart are written with distinct slugs. */
  lemma SlugsDistinct<A(!new), B(!new), K(!new)>(rows: seq<A>, id: A -> K, f: A -> B, slug: B -> string)
    requires DistinctBy(rows, id)
    requires forall x, y :: x in rows && y in rows && slug(f(x)) == slug(f(y)) ==> x == y
    ensures Distinct(Map(Map(rows, f), slug))
  {
    forall i, j | 0 <= i < j < |rows| ensures Map(Map(rows, f), slug)[i] != Map(Map(rows, f), slug)[j] {
      assert rows[i] in rows && rows[j] in rows;
    }
  }

  lemma ScopesUnique(db: Db, projectId: Id)
    requires Keyed(db) && UniqueLiveSlugs(db)
    ensures Distinct(Map(Map(ProjectScopes(db, projectId), ScopeToDoc), ScopeSlug))
  {
    var rows := ProjectScopes(db, projectId);
    DistinctByFilter(db.scopes, ScopesIn(projectId), ScopeKey);
    SortDistinct(Filter(db.scopes, ScopesIn(projectId)), ScopeRowSlug, ScopeKey);
    forall x, y | x in rows && y in rows && x.slug == y.slug ensures x == y {
      ProjectScopesMember(db, projectId, x);
      ProjectScopesMember(db, projectId, y);
      assert SameLiveScope(x, y);
    }
    SlugsDistinct(rows, ScopeKey, ScopeToDoc, ScopeSlug);
  }

  lemma AppsUnique(db: Db, projectId: Id)
    requires Keyed(db) && UniqueLiveSlugs(db)
    ensures Distinct(Map(Map(ProjectApps(db, projectId), AppDocFn(db, AllRefs(db, projectId))), AppSlug))
  {
    hide AppToDoc, AllRefs;
    var rows, f := ProjectApps(db, projectId), AppDocFn(db, AllRefs(db, projectId));
    DistinctByFilter(db.apps, AppsIn(projectId), AppKey);
    SortDistinct(Filter(db.apps, AppsIn(projectId)), AppRowSlug, AppKey);
    forall x, y | x in rows && y in rows && AppSlug(f(x)) == AppSlug(f(y)) ensures x == y {
      ProjectAppsMember(db, projectId, x);
      ProjectAppsMember(db, projectId, y);
      AppDocFields(db, projectId, x);
      AppDocFields(db, projectId, y);
      assert SameLiveApp(x, y);
    }
    SlugsDistinct(rows, AppKey, f, AppSlug);
  }

  lemma RoomsUnique(db: Db, projectId: Id, a: App)
    requires Keyed(db) && UniqueLiveSlugs(db)
    ensures Distinct(Map(AppDocOf(db, projectId, a).rooms, RoomSlug))
  {
    hide AllRefs, RoomToDoc, LobbyToDoc, AppLobbies;
    var rows, f := AppRooms(db, a.appId), RoomToDoc(db);
    DistinctByFilter(db.rooms, RoomsIn(a.appId), RoomKey);
    SortDistinct(Filter(db.rooms, RoomsIn(a.appId)), RoomRowSlug, RoomKey);
    forall x, y | x in rows && y in rows && RoomSlug(f(x)) == RoomSlug(f(y)) ensures x == y {
      AppRoomsMember(db, a.appId, x);
      AppRoomsMember(db, a.appId, y);
      RoomDocFields(db, x);
      RoomDocFields(db, y);
      assert SameLiveRoom(x, y);
    }
    SlugsDistinct(rows, RoomKey, f, RoomSlug);
  }

  lemma LobbyDocSlug(db: Db, refs: RoomRefs, l: Lobby)
    ensures LobbyToDoc(db, refs)(l).slug == l.slug
  {
  }

  lemma LobbiesUnique(db: Db, projectId: Id, a: App)
    requires Keyed(db) && UniqueLiveSlugs(db)
    ensures Distinct(Map(AppDocOf(db, projectId, a).lobbies, LobbySlug))
  {
    hide AllRefs, RoomToDoc, LobbyToDoc, AppRooms;
    var rows, f := AppLobbies(db, a.appId), LobbyToDoc(db, AllRefs(db, projectId));
    DistinctByFilter(db.lobbies, LobbiesIn(a.appId), LobbyKey);
    SortDistinct(Filter(db.lobbies, LobbiesIn(a.appId)), LobbyRowSlug, LobbyKey);
    forall x, y | x in rows && y in rows && LobbySlug(f(x)) == LobbySlug(f(y)) ensures x == y {
      AppLobbiesMember(db, a.appId, x);
      AppLobbiesMember(db, a.appId, y);
      LobbyDocSlug(db, AllRefs(db, projectId), x);
      LobbyDocSlug(db, AllRefs(db, projectId), y);
      assert SameLiveLobby(x, y);
    }
    SlugsDistinct(rows, LobbyKey, f, LobbySlug);
  }

  lemma ActorsUnique(db: Db, projectId: Id)
    requires Keyed(db)
    ensures Distinct(Map(Map(ProjectActors(db, projectId), ActorDocFn(db, projectId)), ActorRef))
  {
    hide ActorDocFn;
    var rows, f := ProjectActors(db, projectId), ActorDocFn(db, projectId);
    DistinctByFilter(db.actors, ActorsIn(projectId), ActorKeyId);
    SortDistinct(Filter(db.actors, ActorsIn(projectId)), ActorRowKeyId, ActorKeyId);
    forall i, j | 0 <= i < j < |rows| ensures Map(Map(rows, f), ActorRef)[i] != Map(Map(rows, f), ActorRef)[j] {
      ActorDocType(db, projectId, rows[i]);
      ActorDocType(db, projectId, rows[j]);
    }
  }

  lemma KeysUnique(db: Db, projectId: Id)
    requires Keyed(db)
    ensures Distinct(Map(Map(ProjectKeys(db, projectId), KeyToDoc), KeyRef))
  {
    var rows := ProjectKeys(db, projectId);
    DistinctByFilter(db.signingKeys, KeysIn(projectId), SigningKeyId);
    SortDistinct(Filter(db.signingKeys, KeysIn(projectId)), KeyRowKeyId, SigningKeyId);
    forall i, j | 0 <= i < j < |rows| ensures Map(Map(rows, KeyToDoc), KeyRef)[i] != Map(Map(rows, KeyToDoc), KeyRef)[j] {
      assert SigningKeyId(rows[i]) != SigningKeyId(rows[j]);
    }
  }

  lemma ExportUnique(db: Db, projectId: Id)
    requires Keyed(db) && UniqueLiveSlugs(db) && LinksInApp(db, projectId) && Exported(db, projectId).Some?
    ensures UniqueSlugs(DocOf(db, projectId))
  {
    hide Keyed, UniqueLiveSlugs, LinksInApp, DocOf, Exported, Distinct, ProjectScopes, ProjectApps, ProjectActors, ProjectKeys, AppDocOf,
         AppDocFn, ActorDocFn, ScopeToDoc, KeyToDoc;
    DocParts(db, projectId);
    ScopesUnique(db, projectId);
    AppsUnique(db, projectId);
    ActorsUnique(db, projectId);
    KeysUnique(db, projectId);
    var d := DocOf(db, projectId);
    forall x | x in d.apps ensures Distinct(Map(x.rooms, RoomSlug)) && Distinct(Map(x.lobbies, LobbySlug)) {
      var a := DocAppFrom(db, projectId, x);
      RoomsUnique(db, projectId, a);
      LobbiesUnique(db, projectId, a);
    }
  }

  /* ── references ──────────────────────────────────────────────────────── */

  lemma DocHasApp(db: Db, projectId: Id, a: App)
    requires Keyed(db) && LinksInApp(db, projectId) && Exported(db, projectId).Some? && a in db.apps && AppsIn(projectId)(a)
    ensures HasApp(DocOf(db, projectId), a.slug)
  {
    hide Keyed, LinksInApp, DocOf, Exported, AppDocOf;
    DocApp(db, projectId, a);
    AppDocFields(db, projectId, a);
  }

  lemma DocHasRoom(db: Db, projectId: Id, a: App, r: Room)
    requires r in db.rooms && RoomsIn(a.appId)(r)
    ensures HasRoom(AppDocOf(db, projectId, a), r.slug)
  {
    hide AppDocOf, RoomToDoc;
    DocRoom(db, projectId, a, RoomToDoc(db)(r));
    RoomDocFields(db, r);
  }

  lemma DocHasScope(db: Db, projectId: Id, slug: string)
    requires Keyed(db) && LinksInApp(db, projectId) && Exported(db, projectId).Some?
    requires exists s :: s in db.scopes && ScopesIn(projectId)(s) && s.slug == slug
    ensures HasScope(DocOf(db, projectId), slug)
  {
    hide Keyed, LinksInApp, DocOf, Exported;
    var s :| s in db.scopes && ScopesIn(projectId)(s) && s.slug == slug;
    ScopeDocs(db, projectId, ScopeToDoc(s));
  }

  lemma LobbyDocRooms(db: Db, refs: RoomRefs, l: Lobby, s: string)
    ensures s in LobbyToDoc(db, refs)(l).rooms <==>
            exists link :: link in Filter(db.lobbyRooms, LinksOf(l.lobbyId)) && LinkSlug(refs)(link) == Some(s)
  {
    var links := Filter(db.lobbyRooms, LinksOf(l.lobbyId));
    SameMembers(FilterMap(links, LinkSlug(refs)), Self);
    FilterMapMember(links, LinkSlug(refs), s);
  }

  /** Every room an exported lobby lists is one of its app's rooms. */
  lemma LobbyRefsKnown(db: Db, projectId: Id, a: App, l: Lobby)
    requires Keyed(db) && LinksInApp(db, projectId) && a in db.apps && AppsIn(projectId)(a)
    requires l in db.lobbies && LobbiesIn(a.appId)(l)
    ensures LobbyWellFormed(AppDocOf(db, projectId, a), LobbyToDoc(db, AllRefs(db, projectId))(l))
  {
    hide Keyed, AppDocOf, AllRefs, HasRoom, LobbyToDoc;
    var refs, links := AllRefs(db, projectId), Filter(db.lobbyRooms, LinksOf(l.lobbyId));
    forall s | s in LobbyToDoc(db, refs)(l).rooms ensures HasRoom(AppDocOf(db, projectId, a), s) {
      LobbyDocRooms(db, refs, l, s);
      var link :| link in links && LinkSlug(refs)(link) == Some(s);
      assert LobbyLinksInApp(db, a.appId, l);
      var r := LinkedOwnRoom(db, projectId, a, l, link);
      DocHasRoom(db, projectId, a, r);
    }
  }

  /** A link written out under a slug joins the lobby to that room of its own app. */
  lemma LinkedOwnRoom(db: Db, projectId: Id, a: App, l: Lobby, link: LobbyRoom) returns (r: Room)
    requires Keyed(db) && LobbyLinksInApp(db, a.appId, l) && a in db.apps
    requires link in db.lobbyRooms && LinksOf(l.lobbyId)(link) && LinkSlug(AllRefs(db, projectId))(link).Some?
    ensures r in db.rooms && RoomsIn(a.appId)(r) && r.roomId == link.roomId
    ensures LinkSlug(AllRefs(db, projectId))(link) == Some(r.slug)
  {
    hide Keyed, RefPairs, ProjectApps, LobbyLinksInApp;
    forall x | x in ProjectApps(db, projectId) ensures x in db.apps { ProjectAppsMember(db, projectId, x); }
    r := LinkNamesOwnRoom(db, ProjectApps(db, projectId), a, l, link);
  }

  lemma LobbyOfApp(db: Db, projectId: Id, a: App, x: LobbyDoc) returns (l: Lobby)
    requires x in AppDocOf(db, projectId, a).lobbies
    ensures l in db.lobbies && LobbiesIn(a.appId)(l) && x == LobbyToDoc(db, AllRefs(db, projectId))(l)
  {
    hide AppRooms, RoomToDoc, AppLobbies, LobbyToDoc, AllRefs;
    MapMember(AppLobbies(db, a.appId), LobbyToDoc(db, AllRefs(db, projectId)), x);
    l :| l in AppLobbies(db, a.appId) && LobbyToDoc(db, AllRefs(db, projectId))(l) == x;
    AppLobbiesMember(db, a.appId, l);
  }

  lemma LobbiesWellFormed(db: Db, projectId: Id)
    requires Keyed(db) && LinksInApp(db, projectId) && Exported(db, projectId).Some?
    ensures forall x, l :: x in DocOf(db, projectId).apps && l in x.lobbies ==> LobbyWellFormed(x, l)
  {
    hide Keyed, LinksInApp, DocOf, Exported, AppDocOf, LobbyWellFormed, LobbyToDoc;
    forall x, l | x in DocOf(db, projectId).apps && l in x.lobbies ensures LobbyWellFormed(x, l) {
      var a := DocAppFrom(db, projectId, x);
      var row := LobbyOfApp(db, projectId, a, l);
      LobbyRefsKnown(db, projectId, a, row);
    }
  }

  lemma AppAccessWellFormed(db: Db, projectId: Id, a: Actor, g: AppGrantDoc)
    requires Keyed(db) && LinksInApp(db, projectId) && Exported(db, projectId).Some?
    requires g in ActorDocFn(db, projectId)(a).appAccess
    ensures HasApp(DocOf(db, projectId), g.appSlug) && g.appSlug != ""
  {
    hide Keyed, LinksInApp, DocOf, Exported, AllRefs, ScopeSlugs, AppSlugs, RoomGrantToDoc;
    FilterMapMember(Filter(db.appGrants, AppGrantsOf(a.actorTokenId)), AppGrantToDoc(AppSlugs(db, projectId)), g);
    var row :| row in Filter(db.appGrants, AppGrantsOf(a.actorTokenId)) && AppGrantToDoc(AppSlugs(db, projectId))(row) == Some(g);
    var app := AppSlugNames(db, projectId, row.appId);
    DocHasApp(db, projectId, app);
  }

  lemma {:induction false} AppGrantSlugsDistinct(db: Db, projectId: Id, rows: seq<AppGrant>)
    requires Keyed(db) && UniqueLiveSlugs(db)
    requires DistinctBy(rows, GrantedApp)
    ensures Distinct(Map(FilterMap(rows, AppGrantToDoc(AppSlugs(db, projectId))), GrantApp))
  {
    hide Keyed, UniqueLiveSlugs, AppSlugs;
    var f := AppGrantToDoc(AppSlugs(db, projectId));
    if rows != [] {
      var n := |rows| - 1;
      AppGrantSlugsDistinct(db, projectId, rows[..n]);
      var rest := FilterMap(rows[..n], f);
      if f(rows[n]).Some? {
        forall i | 0 <= i < |rest| ensures rest[i].appSlug != f(rows[n]).value.appSlug {
          FilterMapMember(rows[..n], f, rest[i]);
          var row :| row in rows[..n] && f(row) == Some(rest[i]);
          OtherAppOtherSlug(db, projectId, row, rows[n]);
        }
      }
    }
  }

  function GrantedApp(g: AppGrant): Id { g.appId }

  lemma OtherAppOtherSlug(db: Db, projectId: Id, g: AppGrant, h: AppGrant)
    requires UniqueLiveSlugs(db) && g.appId != h.appId
    requires AppGrantToDoc(AppSlugs(db, projectId))(g).Some? && AppGrantToDoc(AppSlugs(db, projectId))(h).Some?
    ensures AppGrantToDoc(AppSlugs(db, projectId))(g).value.appSlug != AppGrantToDoc(AppSlugs(db, projectId))(h).value.appSlug
  {
    hide AppSlugs;
    var a := AppSlugNames(db, projectId, g.appId);
    var b := AppSlugNames(db, projectId, h.appId);
    assert a.slug == b.slug <==> SameLiveApp(a, b);
  }

  lemma AppAccessDistinct(db: Db, projectId: Id, a: Actor)
    requires Keyed(db) && UniqueLiveSlugs(db)
    ensures Distinct(Map(ActorDocFn(db, projectId)(a).appAccess, GrantApp))
  {
    hide UniqueLiveSlugs, AppGrantToDoc, RoomGrantToDoc, AllRefs, AppSlugs, ScopeSlugs;
    var rows := Filter(db.appGrants, AppGrantsOf(a.actorTokenId));
    DistinctByFilter(db.appGrants, AppGrantsOf(a.actorTokenId), AppGrantKey);
    forall i, j | 0 <= i < j < |rows| ensures GrantedApp(rows[i]) != GrantedApp(rows[j]) {
      assert rows[i] in rows && rows[j] in rows;
      assert AppGrantKey(rows[i]) != AppGrantKey(rows[j]);
    }
    AppGrantSlugsDistinct(db, projectId, rows);
  }

  lemma RoomAccessWellFormed(db: Db, projectId: Id, a: Actor, g: RoomGrantDoc)
    requires Keyed(db) && LinksInApp(db, projectId) && Exported(db, projectId).Some?
    requires g in ActorDocFn(db, projectId)(a).roomAccess
    ensures HasAppRoom(DocOf(db, projectId), g.appSlug, g.roomSlug)
  {
    hide Keyed, LinksInApp, DocOf, Exported, RefPairs, ProjectApps, ScopeSlugs, AppSlugs, AppGrantToDoc, AppDocOf, HasRoom;
    var refs := AllRefs(db, projectId);
    FilterMapMember(Filter(db.roomGrants, RoomGrantsOf(a.actorTokenId)), RoomGrantToDoc(refs), g);
    var row :| row in Filter(db.roomGrants, RoomGrantsOf(a.actorTokenId)) && RoomGrantToDoc(refs)(row) == Some(g);
    var app, r := RefNamed(db, ProjectApps(db, projectId), row.roomId);
    ProjectAppsMember(db, projectId, app);
    DocApp(db, projectId, app);
    AppDocFields(db, projectId, app);
    DocHasRoom(db, projectId, app, r);
  }

  lemma ActorScopeWellFormed(db: Db, projectId: Id, a: Actor)
    requires Keyed(db) && LinksInApp(db, projectId) && Exported(db, projectId).Some?
    ensures var x := ActorDocFn(db, projectId)(a); x.scopeSlug.Some? ==> HasScope(DocOf(db, projectId), x.scopeSlug.value)
  {
    hide Keyed, LinksInApp, DocOf, Exported, AllRefs, ProjectScopes, AppSlugs, AppGrantToDoc, RoomGrantToDoc, HasScope;
    var scopes := ProjectScopes(db, projectId);
    if a.scopeId.Some? && a.scopeId.value in ScopeSlugs(db, projectId) {
      var n :| 0 <= n < |scopes| && ScopePair(scopes[n]) == (a.scopeId.value, ScopeSlugs(db, projectId)[a.scopeId.value]);
      ProjectScopesMember(db, projectId, scopes[n]);
      DocHasScope(db, projectId, scopes[n].slug);
    }
  }

  lemma ActorsWellFormed(db: Db, projectId: Id)
    requires Keyed(db) && UniqueLiveSlugs(db) && LinksInApp(db, projectId) && Exported(db, projectId).Some?
    ensures forall x :: x in DocOf(db, projectId).actors ==> ActorWellFormed(DocOf(db, projectId), x)
  {
    hide Keyed, UniqueLiveSlugs, LinksInApp, DocOf, Exported, ActorDocFn, HasApp, HasScope, HasAppRoom, Distinct;
    forall x | x in DocOf(db, projectId).actors ensures ActorWellFormed(DocOf(db, projectId), x) {
      DocActor(db, projectId, x);
      var a :| a in db.actors && ActorsIn(projectId)(a) && x == ActorDocFn(db, projectId)(a);
      forall g | g in x.appAccess ensures HasApp(DocOf(db, projectId), g.appSlug) { AppAccessWellFormed(db, projectId, a, g); }
      forall g | g in x.roomAccess ensures HasAppRoom(DocOf(db, projectId), g.appSlug, g.roomSlug) { RoomAccessWellFormed(db, projectId, a, g); }
      AppAccessDistinct(db, projectId, a);
      ActorScopeWellFormed(db, projectId, a);
    }
  }

  lemma ExportSlashFree(db: Db, projectId: Id)
    requires Keyed(db) && Writable(db, projectId) && Exported(db, projectId).Some?
    ensures SlashFree(DocOf(db, projectId)) && GoodSlugs(DocOf(db, projectId))
  {
    hide Keyed, LinksInApp, DocOf, Exported, AppDocOf, RoomToDoc;
    forall x | x in DocOf(db, projectId).accessScopes ensures x.slug != "" {
      ScopeDocs(db, projectId, x);
    }
    forall x | x in DocOf(db, projectId).apps
      ensures '/' !in x.slug && x.slug != "" && forall r :: r in x.rooms ==> '/' !in r.slug
    {
      var a := DocAppFrom(db, projectId, x);
      assert AppWritable(db, a);
      AppDocFields(db, projectId, a);
      forall r | r in x.rooms ensures '/' !in r.slug {
        DocRoom(db, projectId, a, r);
        var row :| row in db.rooms && RoomsIn(a.appId)(row) && r == RoomToDoc(db)(row);
        RoomDocFields(db, row);
      }
    }
  }

  /** Whatever a project exports, an import takes, given an encryption key where keys are listed. */
  lemma ExportIsAccepted(db: Db, projectId: Id, mint: Mint, keyConfigured: bool)
    requires Keyed(db) && UniqueLiveSlugs(db) && Writable(db, projectId) && Exported(db, projectId).Some?
    requires DocOf(db, projectId).signingKeys == [] || keyConfigured
    ensures Accepts(DocOf(db, projectId), mint, keyConfigured)
  {
    hide Keyed, UniqueLiveSlugs, LinksInApp, DocOf, Exported, AppWritable, UniqueSlugs, SlashFree, LobbyWellFormed, ActorWellFormed;
    var d := DocOf(db, projectId);
    DocParts(db, projectId);
    ExportUnique(db, projectId);
    LobbiesWellFormed(db, projectId);
    ActorsWellFormed(db, projectId);
    ExportSlashFree(db, projectId);
    assert WellFormed(d, keyConfigured);
    AcceptsIffWellFormed(d, mint, keyConfigured);
  }

  /* ── one grant per target carries over to the document ───────────────── */

  lemma TypesDistinct(db: Db, room: Room)
    requires Keyed(db) && OneGrantOnRoom(db, room.roomId)
    ensures OneTypeGrant(RoomToDoc(db)(room))
  {
    var rows := Filter(db.roomGrants, TypeGrantsOn(room.roomId));
    DistinctByFilter(db.roomGrants, TypeGrantsOn(room.roomId), RoomGrantKey);
    var ds := Map(rows, TypeGrantToDoc);
    forall i, j | 0 <= i < j < |rows| ensures GrantType(ds[i]) != GrantType(ds[j]) {
      assert rows[i] in rows && rows[j] in rows && RoomGrantKey(rows[i]) != RoomGrantKey(rows[j]);
      assert rows[i].actorType == rows[j].actorType <==> SameTarget(rows[i], rows[j]);
    }
  }

  /** Grants the same actor holds on different rooms are written under different slugs. */
  lemma OtherRoomOtherSlugs(db: Db, projectId: Id, actorTokenId: Id, g: RoomGrant, h: RoomGrant)
    requires UniqueLiveSlugs(db) && OneGrantInProject(db, projectId) && g.grantId != h.grantId
    requires g in db.roomGrants && h in db.roomGrants && RoomGrantsOf(actorTokenId)(g) && RoomGrantsOf(actorTokenId)(h)
    requires RoomGrantToDoc(AllRefs(db, projectId))(g).Some? && RoomGrantToDoc(AllRefs(db, projectId))(h).Some?
    ensures GrantRoom(RoomGrantToDoc(AllRefs(db, projectId))(g).value) != GrantRoom(RoomGrantToDoc(AllRefs(db, projectId))(h).value)
  {
    hide RefPairs, ProjectApps, OneGrantOnRoom;
    var a, r := RefNamed(db, ProjectApps(db, projectId), g.roomId);
    var b, s := RefNamed(db, ProjectApps(db, projectId), h.roomId);
    ProjectAppsMember(db, projectId, a);
    ProjectAppsMember(db, projectId, b);
    assert a.slug == b.slug <==> SameLiveApp(a, b);
    assert a.appId == b.appId && r.slug == s.slug <==> SameLiveRoom(r, s);
    assert OneGrantInApp(db, a.appId) && OneGrantOnRoom(db, g.roomId);
    assert g.roomId != h.roomId by { OtherTarget(db, g, h); }
  }

  lemma OtherTarget(db: Db, g: RoomGrant, h: RoomGrant)
    requires OneGrantOnRoom(db, g.roomId) && g in db.roomGrants && h in db.roomGrants && g.grantId != h.grantId
    requires g.deletedAt.None? && h.deletedAt.None? && g.actorTokenId == h.actorTokenId && g.actorTokenId.Some?
    ensures g.roomId != h.roomId
  {
    assert g.roomId == h.roomId <==> SameTarget(g, h);
  }

  lemma {:induction false} RoomGrantsDistinct(db: Db, projectId: Id, actorTokenId: Id, rows: seq<RoomGrant>)
    requires UniqueLiveSlugs(db) && OneGrantInProject(db, projectId) && DistinctBy(rows, RoomGrantKey)
    requires forall g :: g in rows ==> g in db.roomGrants && RoomGrantsOf(actorTokenId)(g)
    ensures DistinctBy(FilterMap(rows, RoomGrantToDoc(AllRefs(db, projectId))), GrantRoom)
  {
    hide UniqueLiveSlugs, OneGrantInProject, AllRefs, RoomGrantToDoc;
    var f := RoomGrantToDoc(AllRefs(db, projectId));
    if rows != [] {
      var n := |rows| - 1;
      RoomGrantsDistinct(db, projectId, actorTokenId, rows[..n]);
      var rest := FilterMap(rows[..n], f);
      if f(rows[n]).Some? {
        forall i | 0 <= i < |rest| ensures GrantRoom(rest[i]) != GrantRoom(f(rows[n]).value) {
          FilterMapMember(rows[..n], f, rest[i]);
          var row :| row in rows[..n] && f(row) == Some(rest[i]);
          assert RoomGrantKey(row) != RoomGrantKey(rows[n]);
          OtherRoomOtherSlugs(db, projectId, actorTokenId, row, rows[n]);
        }
      }
    }
  }

  lemma NamedDistinct(db: Db, projectId: Id, a: Actor)
    requires Keyed(db) && UniqueLiveSlugs(db) && OneGrantInProject(db, projectId)
    ensures OneRoomGrant(ActorDocFn(db, projectId)(a))
  {
    hide UniqueLiveSlugs, OneGrantInProject, AppGrantToDoc, RoomGrantToDoc, AllRefs, AppSlugs, ScopeSlugs;
    DistinctByFilter(db.roomGrants, RoomGrantsOf(a.actorTokenId), RoomGrantKey);
    RoomGrantsDistinct(db, projectId, a.actorTokenId, Filter(db.roomGrants, RoomGrantsOf(a.actorTokenId)));
  }

  lemma RoomHasOneGrant(db: Db, projectId: Id, a: App, r: Room)
    requires OneGrantInProject(db, projectId) && a in db.apps && AppsIn(projectId)(a) && r in db.rooms && RoomsIn(a.appId)(r)
    ensures OneGrantInApp(db, a.appId) && OneGrantOnRoom(db, r.roomId)
  {
  }

  lemma ExportOneGrant(db: Db, projectId: Id)
    requires Consistent(db, projectId) && LinksInApp(db, projectId) && Exported(db, projectId).Some?
    ensures DocOneGrant(DocOf(db, projectId))
  {
    hide Keyed, UniqueLiveSlugs, OneGrantInProject, LinksInApp, DocOf, Exported, AppDocOf, RoomToDoc, ActorDocFn, OneTypeGrant, OneRoomGrant;
    var d := DocOf(db, projectId);
    forall x, r | x in d.apps && r in x.rooms ensures OneTypeGrant(r) {
      var a := DocAppFrom(db, projectId, x);
      DocRoom(db, projectId, a, r);
      var row :| row in db.rooms && RoomsIn(a.appId)(row) && r == RoomToDoc(db)(row);
      assert OneGrantInApp(db, a.appId) && OneGrantOnRoom(db, row.roomId) by { RoomHasOneGrant(db, projectId, a, row); }
      TypesDistinct(db, row);
    }
    forall x | x in d.actors ensures OneRoomGrant(x) {
      DocActor(db, projectId, x);
      var a :| a in db.actors && ActorsIn(projectId)(a) && x == ActorDocFn(db, projectId)(a);
      NamedDistinct(db, projectId, a);
    }
  }
}
