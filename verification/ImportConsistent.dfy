/** An accepted import keeps live slugs unique, and grants one per target when the document does. */
module ImportConsistent {
  import opened Prelude
  import opened Schema
  import opened ProjectDoc
  import opened RoomCheck
  import opened ProjectExport
  import opened ExportRefs
  import opened Tables
  import opened ProjectImport
  import opened ImportTables
  import opened ImportQueries
  import opened ImportRefs
  import opened ImportMembers
  import opened RoundTrip
  import opened ExportMeaning

  /* ── live slugs ──────────────────────────────────────────────────────── */

  lemma ScopeSlugsKept(db: Db, doc: Doc, mint: Mint, now: Time, s: Scope, t: Scope)
    requires FreshImport(db, mint) && UniqueLiveSlugs(db) && UniqueSlugs(doc)
    requires s in Imported(db, doc, mint, now).scopes && t in Imported(db, doc, mint, now).scopes && SameLiveScope(s, t)
    ensures s == t
  {
    hide Imported, ScopeRow, ScopeRows, UniqueSlugs;
    ScopeTable(db, doc, mint, now);
    assert s in ScopeRows(doc, mint) || s in db.scopes;
    if s in ScopeRows(doc, mint) {
      var i := ScopeMember(doc, mint, s);
      assert s.projectId == mint(OfProject) && s.slug == doc.accessScopes[i].slug by { ScopeRowFields(mint, i, doc.accessScopes[i]); }
      assert t in ScopeRows(doc, mint);
      var k := ScopeMember(doc, mint, t);
      ScopeRowFields(mint, k, doc.accessScopes[k]);
      SameScope(doc, i, k);
    } else if t in ScopeRows(doc, mint) {
      var k := ScopeMember(doc, mint, t);
      ScopeRowFields(mint, k, doc.accessScopes[k]);
    }
  }

  lemma ScopeRowFields(mint: Mint, i: nat, d: ScopeDoc)
    ensures ScopeRow(mint, i, d).projectId == mint(OfProject) && ScopeRow(mint, i, d).slug == d.slug
  {
  }

  lemma SameScope(doc: Doc, i: nat, k: nat)
    requires UniqueSlugs(doc) && i < |doc.accessScopes| && k < |doc.accessScopes|
    requires doc.accessScopes[i].slug == doc.accessScopes[k].slug
    ensures i == k
  {
    assert Map(doc.accessScopes, ScopeSlug)[i] == Map(doc.accessScopes, ScopeSlug)[k];
  }

  lemma AppRowFields(mint: Mint, i: nat, d: AppDoc)
    ensures var a := AppRow(mint, i, d);
            a.appId == mint(OfApp(i)) && a.projectId == mint(OfProject) && a.slug == d.slug && a.deletedAt.None?
  {
  }

  lemma AppSlugsKept(db: Db, doc: Doc, mint: Mint, now: Time, a: App, b: App)
    requires FreshImport(db, mint) && UniqueLiveSlugs(db) && UniqueSlugs(doc)
    requires a in Imported(db, doc, mint, now).apps && b in Imported(db, doc, mint, now).apps && SameLiveApp(a, b)
    ensures a == b
  {
    hide Imported, AppRow, AppRows, UniqueSlugs;
    AppTable(db, doc, mint, now);
    assert a in AppRows(doc, mint) || a in db.apps;
    if a in AppRows(doc, mint) {
      var i := AppMember(doc, mint, a);
      AppRowFields(mint, i, doc.apps[i]);
      assert b in AppRows(doc, mint);
      var k := AppMember(doc, mint, b);
      AppRowFields(mint, k, doc.apps[k]);
      SameApp(doc, i, k);
    } else if b in AppRows(doc, mint) {
      var k := AppMember(doc, mint, b);
      AppRowFields(mint, k, doc.apps[k]);
    }
  }

  lemma RoomRowFields(mint: Mint, i: nat, j: nat, d: RoomDoc)
    ensures var r := RoomRow(mint, i, j, d);
            r.roomId == mint(OfRoom(i, j)) && r.appId == mint(OfApp(i)) && r.slug == d.slug && r.deletedAt.None?
  {
  }

  lemma SameRoom(doc: Doc, i: nat, j: nat, k: nat)
    requires UniqueSlugs(doc) && i < |doc.apps| && j < |doc.apps[i].rooms| && k < |doc.apps[i].rooms|
    requires doc.apps[i].rooms[j].slug == doc.apps[i].rooms[k].slug
    ensures j == k
  {
    assert doc.apps[i] in doc.apps;
    assert Map(doc.apps[i].rooms, RoomSlug)[j] == Map(doc.apps[i].rooms, RoomSlug)[k];
  }

  lemma RoomSlugsKept(db: Db, doc: Doc, mint: Mint, now: Time, r: Room, s: Room)
    requires FreshImport(db, mint) && UniqueLiveSlugs(db) && UniqueSlugs(doc)
    requires r in Imported(db, doc, mint, now).rooms && s in Imported(db, doc, mint, now).rooms && SameLiveRoom(r, s)
    ensures r == s
  {
    hide Imported, RoomRow, Flat, AppBatch, UniqueSlugs;
    RoomTable(db, doc, mint, now);
    var added := Flat(|doc.apps|, RoomsPart(AppBatch(doc, mint)));
    assert r in added || r in db.rooms;
    if r in added {
      var i, j := RoomMember(doc, mint, r);
      RoomRowFields(mint, i, j, doc.apps[i].rooms[j]);
      assert s in added;
      var i', j' := RoomMember(doc, mint, s);
      RoomRowFields(mint, i', j', doc.apps[i'].rooms[j']);
      SameRoom(doc, i, j, j');
    } else if s in added {
      var i, j := RoomMember(doc, mint, s);
      RoomRowFields(mint, i, j, doc.apps[i].rooms[j]);
    }
  }

  lemma LobbyRowFields(mint: Mint, i: nat, j: nat, d: LobbyDoc)
    ensures LobbyRow(mint, i, j, d).appId == mint(OfApp(i)) && LobbyRow(mint, i, j, d).slug == d.slug
  {
  }

  lemma SameLobby(doc: Doc, i: nat, j: nat, k: nat)
    requires UniqueSlugs(doc) && i < |doc.apps| && j < |doc.apps[i].lobbies| && k < |doc.apps[i].lobbies|
    requires doc.apps[i].lobbies[j].slug == doc.apps[i].lobbies[k].slug
    ensures j == k
  {
    assert doc.apps[i] in doc.apps;
    assert Map(doc.apps[i].lobbies, LobbySlug)[j] == Map(doc.apps[i].lobbies, LobbySlug)[k];
  }

  lemma LobbySlugsKept(db: Db, doc: Doc, mint: Mint, now: Time, l: Lobby, m: Lobby)
    requires FreshImport(db, mint) && UniqueLiveSlugs(db) && UniqueSlugs(doc)
    requires l in Imported(db, doc, mint, now).lobbies && m in Imported(db, doc, mint, now).lobbies && SameLiveLobby(l, m)
    ensures l == m
  {
    hide Imported, LobbyRow, Flat, AppBatch, UniqueSlugs;
    LobbyTable(db, doc, mint, now);
    var added := Flat(|doc.apps|, LobbiesPart(AppBatch(doc, mint)));
    assert l in added || l in db.lobbies;
    if l in added {
      var i, j := LobbyMember(doc, mint, l);
      LobbyRowFields(mint, i, j, doc.apps[i].lobbies[j]);
      assert m in added;
      var i', j' := LobbyMember(doc, mint, m);
      LobbyRowFields(mint, i', j', doc.apps[i'].lobbies[j']);
      SameLobby(doc, i, j, j');
    } else if m in added {
      var i, j := LobbyMember(doc, mint, m);
      LobbyRowFields(mint, i, j, doc.apps[i].lobbies[j]);
    }
  }

  /** No partial unique index is broken by an accepted import. */
  lemma ImportedSlugs(db: Db, doc: Doc, mint: Mint, now: Time)
    requires FreshImport(db, mint) && UniqueLiveSlugs(db) && UniqueSlugs(doc)
    ensures UniqueLiveSlugs(Imported(db, doc, mint, now))
  {
    hide Imported, UniqueSlugs, FreshImport, SameLiveScope, SameLiveApp, SameLiveRoom, SameLiveLobby;
    var db1 := Imported(db, doc, mint, now);
    forall s, t | s in db1.scopes && t in db1.scopes && SameLiveScope(s, t) ensures s == t { ScopeSlugsKept(db, doc, mint, now, s, t); }
    forall a, b | a in db1.apps && b in db1.apps && SameLiveApp(a, b) ensures a == b { AppSlugsKept(db, doc, mint, now, a, b); }
    forall r, s | r in db1.rooms && s in db1.rooms && SameLiveRoom(r, s) ensures r == s { RoomSlugsKept(db, doc, mint, now, r, s); }
    forall l, m | l in db1.lobbies && m in db1.lobbies && SameLiveLobby(l, m) ensures l == m { LobbySlugsKept(db, doc, mint, now, l, m); }
  }

  /* ── one grant per target ────────────────────────────────────────────── */

  function GrantType(g: TypeGrantDoc): Option<ActorType> { g.actorType }
  function GrantRoom(g: RoomGrantDoc): (string, string) { (g.appSlug, g.roomSlug) }

  ghost predicate OneTypeGrant(r: RoomDoc) { DistinctBy(r.typeGrants, GrantType) }
  ghost predicate OneRoomGrant(a: ActorDoc) { DistinctBy(a.roomAccess, GrantRoom) }

  /** The document lists no type twice on a room and no room twice for an actor. */
  ghost predicate DocOneGrant(doc: Doc) {
    && (forall a, r :: a in doc.apps && r in a.rooms ==> OneTypeGrant(r))
    && (forall a :: a in doc.actors ==> OneRoomGrant(a))
  }

  lemma TypeGrantFields(mint: Mint, i: nat, j: nat, k: nat, d: TypeGrantDoc)
    ensures var g := TypeGrantRow(mint, i, j, k, d);
            g.roomId == mint(OfRoom(i, j)) && g.actorTokenId.None? && g.actorType == d.actorType && g.deletedAt.None?
            && g.grantId == mint(OfTypeGrant(i, j, k)) && g.expiresAt.None?
  {
  }

  lemma NamedGrantFields(mint: Mint, k: nat, m: nat, roomId: Id, d: RoomGrantDoc)
    ensures var g := RoomGrantRow(mint, k, m, roomId, d);
            g.roomId == roomId && g.actorTokenId == Some(mint(OfActor(k))) && g.deletedAt.None?
            && g.grantId == mint(OfRoomGrant(k, m))
  {
  }

  lemma TypeTargets(doc: Doc, mint: Mint, g: RoomGrant, h: RoomGrant)
    requires Distinguishes(mint) && DocOneGrant(doc) && SameTarget(g, h)
    requires g in Flat(|doc.apps|, RoomGrantsPart(AppBatch(doc, mint))) && h in Flat(|doc.apps|, RoomGrantsPart(AppBatch(doc, mint)))
    ensures g == h
  {
    hide Flat, AppBatch, TypeGrantRow;
    var i, j, k := TypeGrantMember(doc, mint, g);
    var i', j', k' := TypeGrantMember(doc, mint, h);
    TypeGrantFields(mint, i, j, k, doc.apps[i].rooms[j].typeGrants[k]);
    TypeGrantFields(mint, i', j', k', doc.apps[i'].rooms[j'].typeGrants[k']);
    assert doc.apps[i] in doc.apps && doc.apps[i].rooms[j] in doc.apps[i].rooms;
    assert OneTypeGrant(doc.apps[i].rooms[j]);
  }

  /** The room a listed grant resolved to. */
  lemma NamedGrantRoom(doc: Doc, mint: Mint, k: nat, m: nat) returns (i: nat, j: nat)
    requires SlashFree(doc) && UniqueSlugs(doc) && k < |doc.actors| && m < |doc.actors[k].roomAccess|
    requires ActorResolves(doc, mint, doc.actors[k])
    ensures i < |doc.apps| && j < |doc.apps[i].rooms|
    ensures var d := doc.actors[k].roomAccess[m];
            && d.appSlug == doc.apps[i].slug && d.roomSlug == doc.apps[i].rooms[j].slug
            && Get(RoomIds(doc, mint, |doc.apps|), RoomKeyOf(d.appSlug, d.roomSlug), "") == mint(OfRoom(i, j))
  {
    hide RoomIds, RoomKeyOf, SlashFree, UniqueSlugs, ScopeResolves, AppAccessResolves;
    var d := doc.actors[k].roomAccess[m];
    i, j := RoomKeyNamed(doc, mint, |doc.apps|, d.appSlug, d.roomSlug);
    RoomIdKnown(doc, mint, |doc.apps|, i, j);
  }

  lemma NamedTargets(doc: Doc, mint: Mint, g: RoomGrant, h: RoomGrant)
    requires Distinguishes(mint) && DocOneGrant(doc) && SameTarget(g, h) && SlashFree(doc) && UniqueSlugs(doc)
    requires forall a :: a in doc.actors ==> ActorResolves(doc, mint, a)
    requires g in Flat(|doc.actors|, RoomGrantsPart(ActorBatch(doc, mint))) && h in Flat(|doc.actors|, RoomGrantsPart(ActorBatch(doc, mint)))
    ensures g == h
  {
    hide Flat, ActorBatch, RoomGrantRow, RoomIds, RoomKeyOf, SlashFree, UniqueSlugs, ActorResolves;
    var k, m := NamedGrantMember(doc, mint, g);
    var k', m' := NamedGrantMember(doc, mint, h);
    var d, d' := doc.actors[k].roomAccess[m], doc.actors[k'].roomAccess[m'];
    var ids := RoomIds(doc, mint, |doc.apps|);
    NamedGrantFields(mint, k, m, Get(ids, RoomKeyOf(d.appSlug, d.roomSlug), ""), d);
    NamedGrantFields(mint, k', m', Get(ids, RoomKeyOf(d'.appSlug, d'.roomSlug), ""), d');
    var i, j := NamedGrantRoom(doc, mint, k, m);
    var i', j' := NamedGrantRoom(doc, mint, k', m');
    assert OneRoomGrant(doc.actors[k]);
  }

  lemma OldGrant(db: Db, doc: Doc, mint: Mint, g: RoomGrant, h: RoomGrant)
    requires FreshImport(db, mint) && g in db.roomGrants
    requires h in Flat(|doc.apps|, RoomGrantsPart(AppBatch(doc, mint))) || h in Flat(|doc.actors|, RoomGrantsPart(ActorBatch(doc, mint)))
    ensures !SameTarget(g, h) && !SameTarget(h, g)
  {
    hide Flat, AppBatch, ActorBatch, TypeGrantRow, RoomGrantRow, RoomIds, RoomKeyOf;
    if h in Flat(|doc.apps|, RoomGrantsPart(AppBatch(doc, mint))) {
      var i, j, k := TypeGrantMember(doc, mint, h);
      TypeGrantFields(mint, i, j, k, doc.apps[i].rooms[j].typeGrants[k]);
    } else {
      var k, m := NamedGrantMember(doc, mint, h);
      var d := doc.actors[k].roomAccess[m];
      NamedGrantFields(mint, k, m, Get(RoomIds(doc, mint, |doc.apps|), RoomKeyOf(d.appSlug, d.roomSlug), ""), d);
    }
  }

  lemma TypeNotNamed(doc: Doc, mint: Mint, g: RoomGrant, h: RoomGrant)
    requires g in Flat(|doc.apps|, RoomGrantsPart(AppBatch(doc, mint))) && h in Flat(|doc.actors|, RoomGrantsPart(ActorBatch(doc, mint)))
    ensures !SameTarget(g, h) && !SameTarget(h, g)
  {
    hide Flat, AppBatch, ActorBatch, TypeGrantRow, RoomGrantRow, RoomIds, RoomKeyOf;
    var i, j, k := TypeGrantMember(doc, mint, g);
    TypeGrantFields(mint, i, j, k, doc.apps[i].rooms[j].typeGrants[k]);
    var k', m := NamedGrantMember(doc, mint, h);
    var d := doc.actors[k'].roomAccess[m];
    NamedGrantFields(mint, k', m, Get(RoomIds(doc, mint, |doc.apps|), RoomKeyOf(d.appSlug, d.roomSlug), ""), d);
  }

  /** The import checks nothing here: it keeps one grant per target because the document does. */
  lemma ImportedOneGrant(db: Db, doc: Doc, mint: Mint, now: Time)
    requires GoodImport(db, doc, mint) && OneGrantPerTarget(db) && DocOneGrant(doc)
    ensures OneGrantPerTarget(Imported(db, doc, mint, now))
  {
    hide Imported, Flat, AppBatch, ActorBatch, FreshImport, Keyed, SlashFree, UniqueSlugs, AppResolves, ActorResolves, DocOneGrant, SameTarget;
    RoomGrantTable(db, doc, mint, now);
    var db1 := Imported(db, doc, mint, now);
    var typed, named := Flat(|doc.apps|, RoomGrantsPart(AppBatch(doc, mint))), Flat(|doc.actors|, RoomGrantsPart(ActorBatch(doc, mint)));
    assert Distinguishes(mint) by { FreshParts(db, mint); }
    forall g, h | g in db1.roomGrants && h in db1.roomGrants && SameTarget(g, h) ensures g == h {
      if g in db.roomGrants && (h in typed || h in named) { OldGrant(db, doc, mint, g, h); }
      if h in db.roomGrants && (g in typed || g in named) { OldGrant(db, doc, mint, h, g); }
      if (g in typed || g in named) && (h in typed || h in named) { NewTargets(db, doc, mint, g, h); }
    }
  }

  lemma FreshParts(db: Db, mint: Mint)
    requires FreshImport(db, mint)
    ensures Distinguishes(mint) && Fresh(db, mint)
  {
  }

  lemma TypeGrantStored(db: Db, doc: Doc, mint: Mint, now: Time, i: nat, j: nat, k: nat)
    requires FreshImport(db, mint) && i < |doc.apps| && j < |doc.apps[i].rooms| && k < |doc.apps[i].rooms[j].typeGrants|
    ensures TypeGrantRow(mint, i, j, k, doc.apps[i].rooms[j].typeGrants[k]) in Imported(db, doc, mint, now).roomGrants
  {
    hide Imported, TypeGrantRow;
    TypeGrantsFound(db, doc, mint, now, i, j);
    var rows := TypeGrantRows(mint, i, j, doc.apps[i].rooms[j]);
    assert rows[k] in rows;
  }

  lemma NamedGrantStored(db: Db, doc: Doc, mint: Mint, now: Time, k: nat, m: nat)
    requires FreshImport(db, mint) && k < |doc.actors| && m < |doc.actors[k].roomAccess|
    ensures var d := doc.actors[k].roomAccess[m];
            RoomGrantRow(mint, k, m, Get(RoomIds(doc, mint, |doc.apps|), RoomKeyOf(d.appSlug, d.roomSlug), ""), d)
            in Imported(db, doc, mint, now).roomGrants
  {
    hide Imported, RoomGrantRow, RoomIds, RoomKeyOf;
    RoomGrantsFound(db, doc, mint, now, k);
    var rows := NamedGrantRows(RoomIds(doc, mint, |doc.apps|), mint, k, doc.actors[k].roomAccess);
    assert rows[m] in rows;
  }

  lemma OneTypeGrantBack(db: Db, doc: Doc, mint: Mint, now: Time, i: nat, j: nat)
    requires GoodImport(db, doc, mint) && i < |doc.apps| && j < |doc.apps[i].rooms|
    requires OneGrantInProject(Imported(db, doc, mint, now), mint(OfProject))
    ensures OneTypeGrant(doc.apps[i].rooms[j])
  {
    hide Imported, TypeGrantRow, OneGrantInProject, OneGrantOnRoom, Fresh, SameTarget, Keyed, SlashFree, UniqueSlugs, AppResolves, ActorResolves;
    ImportedOnRoom(db, doc, mint, now, i, j);
    var ds := doc.apps[i].rooms[j].typeGrants;
    forall k, n | 0 <= k < n < |ds| ensures GrantType(ds[k]) != GrantType(ds[n]) {
      TypeGrantStored(db, doc, mint, now, i, j, k);
      TypeGrantStored(db, doc, mint, now, i, j, n);
      TypeGrantFields(mint, i, j, k, ds[k]);
      TypeGrantFields(mint, i, j, n, ds[n]);
      assert OfTypeGrant(i, j, k) != OfTypeGrant(i, j, n);
      NotSameTarget(Imported(db, doc, mint, now), TypeGrantRow(mint, i, j, k, ds[k]), TypeGrantRow(mint, i, j, n, ds[n]));
    }
  }

  lemma ImportedOnRoom(db: Db, doc: Doc, mint: Mint, now: Time, i: nat, j: nat)
    requires FreshImport(db, mint) && i < |doc.apps| && j < |doc.apps[i].rooms|
    requires OneGrantInProject(Imported(db, doc, mint, now), mint(OfProject))
    ensures OneGrantOnRoom(Imported(db, doc, mint, now), mint(OfRoom(i, j)))
  {
    hide Imported, FreshImport, OneGrantOnRoom, AppRow, RoomRow, ProjectApps;
    AppRowListed(db, doc, mint, now, i);
    ProjectAppsMember(Imported(db, doc, mint, now), mint(OfProject), AppRow(mint, i, doc.apps[i]));
    RoomRowStored(db, doc, mint, now, i, j);
    AppRowFields(mint, i, doc.apps[i]);
    RoomRowFields(mint, i, j, doc.apps[i].rooms[j]);
    assert OneGrantInApp(Imported(db, doc, mint, now), mint(OfApp(i)));
  }

  lemma NotSameTarget(db: Db, g: RoomGrant, h: RoomGrant)
    requires OneGrantOnRoom(db, g.roomId) && g in db.roomGrants && h in db.roomGrants && g.grantId != h.grantId
    requires g.deletedAt.None? && h.deletedAt.None? && g.roomId == h.roomId && g.actorTokenId == h.actorTokenId
    ensures g.actorTokenId.None? && g.actorType != h.actorType
  {
    assert (g.actorTokenId.None? ==> g.actorType == h.actorType) <==> SameTarget(g, h);
  }

  lemma OneRoomGrantBack(db: Db, doc: Doc, mint: Mint, now: Time, k: nat)
    requires GoodImport(db, doc, mint) && k < |doc.actors|
    requires OneGrantInProject(Imported(db, doc, mint, now), mint(OfProject))
    ensures OneRoomGrant(doc.actors[k])
  {
    hide Imported, RoomGrantRow, RoomIds, RoomKeyOf, OneGrantInProject, OneGrantOnRoom, Fresh, SameTarget, Keyed, SlashFree, UniqueSlugs,
         AppResolves, ActorResolves;
    assert ActorResolves(doc, mint, doc.actors[k]);
    var ds, ids := doc.actors[k].roomAccess, RoomIds(doc, mint, |doc.apps|);
    forall m, n | 0 <= m < n < |ds| ensures GrantRoom(ds[m]) != GrantRoom(ds[n]) {
      NamedGrantStored(db, doc, mint, now, k, m);
      NamedGrantStored(db, doc, mint, now, k, n);
      NamedGrantFields(mint, k, m, Get(ids, RoomKeyOf(ds[m].appSlug, ds[m].roomSlug), ""), ds[m]);
      NamedGrantFields(mint, k, n, Get(ids, RoomKeyOf(ds[n].appSlug, ds[n].roomSlug), ""), ds[n]);
      assert OfRoomGrant(k, m) != OfRoomGrant(k, n);
      var i, j := NamedGrantRoom(doc, mint, k, m);
      ImportedOnRoom(db, doc, mint, now, i, j);
      if GrantRoom(ds[m]) == GrantRoom(ds[n]) {
        NotSameTarget(Imported(db, doc, mint, now),
          RoomGrantRow(mint, k, m, Get(ids, RoomKeyOf(ds[m].appSlug, ds[m].roomSlug), ""), ds[m]),
          RoomGrantRow(mint, k, n, Get(ids, RoomKeyOf(ds[n].appSlug, ds[n].roomSlug), ""), ds[n]));
      }
    }
  }

  /** A grant on an imported room is an imported grant. */
  lemma GrantIsNew(db: Db, doc: Doc, mint: Mint, now: Time, i: nat, j: nat, g: RoomGrant)
    requires FreshImport(db, mint) && g in Imported(db, doc, mint, now).roomGrants && g.roomId == mint(OfRoom(i, j))
    ensures g in Flat(|doc.apps|, RoomGrantsPart(AppBatch(doc, mint))) || g in Flat(|doc.actors|, RoomGrantsPart(ActorBatch(doc, mint)))
  {
    hide Imported, Flat, AppBatch, ActorBatch;
    RoomGrantTable(db, doc, mint, now);
    assert g !in db.roomGrants;
  }

  /** New grants with one target are one grant. */
  lemma NewTargets(db: Db, doc: Doc, mint: Mint, g: RoomGrant, h: RoomGrant)
    requires GoodImport(db, doc, mint) && DocOneGrant(doc) && SameTarget(g, h)
    requires g in Flat(|doc.apps|, RoomGrantsPart(AppBatch(doc, mint))) || g in Flat(|doc.actors|, RoomGrantsPart(ActorBatch(doc, mint)))
    requires h in Flat(|doc.apps|, RoomGrantsPart(AppBatch(doc, mint))) || h in Flat(|doc.actors|, RoomGrantsPart(ActorBatch(doc, mint)))
    ensures g == h
  {
    hide Flat, AppBatch, ActorBatch, FreshImport, Keyed, SlashFree, UniqueSlugs, AppResolves, ActorResolves, DocOneGrant, SameTarget;
    var typed, named := Flat(|doc.apps|, RoomGrantsPart(AppBatch(doc, mint))), Flat(|doc.actors|, RoomGrantsPart(ActorBatch(doc, mint)));
    assert Distinguishes(mint) by { FreshParts(db, mint); }
    if g in typed && h in named { TypeNotNamed(doc, mint, g, h); }
    if h in typed && g in named { TypeNotNamed(doc, mint, h, g); }
    if g in typed && h in typed { TypeTargets(doc, mint, g, h); }
    if g in named && h in named { NamedTargets(doc, mint, g, h); }
  }

  /** The new project's grants depend on the document alone, not on what the database held. */
  lemma ImportedOneGrantHere(db: Db, doc: Doc, mint: Mint, now: Time)
    requires GoodImport(db, doc, mint) && DocOneGrant(doc)
    ensures OneGrantInProject(Imported(db, doc, mint, now), mint(OfProject))
  {
    hide Imported, Flat, AppBatch, ActorBatch, Keyed, SlashFree, UniqueSlugs, AppResolves, ActorResolves, DocOneGrant, SameTarget,
         AppRow, RoomRow, FreshImport;
    var db1 := Imported(db, doc, mint, now);
    forall a, r, g, h | a in db1.apps && AppsIn(mint(OfProject))(a) && r in db1.rooms && RoomsIn(a.appId)(r)
                        && g in db1.roomGrants && h in db1.roomGrants && g.roomId == r.roomId && SameTarget(g, h)
      ensures g == h
    {
      var i := ImportedAppOf(db, doc, mint, now, a);
      AppRowFields(mint, i, doc.apps[i]);
      var j := ImportedRoomOf(db, doc, mint, now, i, r);
      RoomRowFields(mint, i, j, doc.apps[i].rooms[j]);
      assert h.roomId == g.roomId by { SameTargetRoom(g, h); }
      GrantIsNew(db, doc, mint, now, i, j, g);
      GrantIsNew(db, doc, mint, now, i, j, h);
      NewTargets(db, doc, mint, g, h);
    }
  }

  lemma SameTargetRoom(g: RoomGrant, h: RoomGrant)
    requires SameTarget(g, h)
    ensures g.roomId == h.roomId
  {
  }

  lemma GlobalIsLocal(db: Db, projectId: Id)
    requires OneGrantPerTarget(db)
    ensures OneGrantInProject(db, projectId)
  {
  }

  /** One grant per target after an import: exactly when the document lists none twice. */
  lemma OneGrantIffDoc(db: Db, doc: Doc, mint: Mint, now: Time)
    requires GoodImport(db, doc, mint)
    ensures OneGrantInProject(Imported(db, doc, mint, now), mint(OfProject)) <==> DocOneGrant(doc)
    ensures OneGrantPerTarget(db) ==> (OneGrantPerTarget(Imported(db, doc, mint, now)) <==> DocOneGrant(doc))
  {
    hide Imported, FreshImport, Keyed, SlashFree, UniqueSlugs, AppResolves, ActorResolves, OneTypeGrant, OneRoomGrant, OneGrantPerTarget,
         OneGrantInProject;
    if DocOneGrant(doc) {
      ImportedOneGrantHere(db, doc, mint, now);
      if OneGrantPerTarget(db) { ImportedOneGrant(db, doc, mint, now); }
    }
    if OneGrantPerTarget(Imported(db, doc, mint, now)) { GlobalIsLocal(Imported(db, doc, mint, now), mint(OfProject)); }
    if OneGrantInProject(Imported(db, doc, mint, now), mint(OfProject)) {
      forall a, r | a in doc.apps && r in a.rooms ensures OneTypeGrant(r) {
        var i :| 0 <= i < |doc.apps| && doc.apps[i] == a;
        var j :| 0 <= j < |a.rooms| && a.rooms[j] == r;
        OneTypeGrantBack(db, doc, mint, now, i, j);
      }
      forall a | a in doc.actors ensures OneRoomGrant(a) {
        var k :| 0 <= k < |doc.actors| && doc.actors[k] == a;
        OneRoomGrantBack(db, doc, mint, now, k);
      }
    }
  }

  /* ── an imported project is well linked ──────────────────────────────── */

  predicate GoodSlugs(doc: Doc) {
    (forall a :: a in doc.apps ==> a.slug != "") && (forall s :: s in doc.accessScopes ==> s.slug != "")
  }

  lemma ImportedRoomOf(db: Db, doc: Doc, mint: Mint, now: Time, i: nat, r: Room) returns (j: nat)
    requires FreshImport(db, mint) && i < |doc.apps| && r in Imported(db, doc, mint, now).rooms && RoomsIn(mint(OfApp(i)))(r)
    ensures j < |doc.apps[i].rooms| && r == RoomRow(mint, i, j, doc.apps[i].rooms[j])
  {
    hide Imported, RoomRow;
    RoomsFound(db, doc, mint, now, i);
    assert r in Filter(Imported(db, doc, mint, now).rooms, RoomsIn(mint(OfApp(i))));
    j :| 0 <= j < |doc.apps[i].rooms| && r == RoomRows(doc.apps[i], mint, i)[j];
  }

  lemma ImportedAppOf(db: Db, doc: Doc, mint: Mint, now: Time, a: App) returns (i: nat)
    requires FreshImport(db, mint) && a in Imported(db, doc, mint, now).apps && AppsIn(mint(OfProject))(a)
    ensures i < |doc.apps| && a == AppRow(mint, i, doc.apps[i])
  {
    hide Imported, AppRow;
    AppsFound(db, doc, mint, now);
    assert a in Filter(Imported(db, doc, mint, now).apps, AppsIn(mint(OfProject)));
    i := AppMember(doc, mint, a);
  }

  lemma ImportedActorOf(db: Db, doc: Doc, mint: Mint, now: Time, a: Actor) returns (k: nat)
    requires FreshImport(db, mint) && a in Imported(db, doc, mint, now).actors && ActorsIn(mint(OfProject))(a)
    ensures k < |doc.actors| && a == ActorRow(mint, k, doc.actors[k], ScopeIdOf(ScopeIds(doc, mint), doc.actors[k]))
  {
    hide Imported, ActorRow, ScopeIdOf, ScopeIds;
    ActorsFound(db, doc, mint, now);
    assert a in Filter(Imported(db, doc, mint, now).actors, ActorsIn(mint(OfProject)));
    k := ActorMember(doc, mint, a);
  }

  lemma ActorRowFields(mint: Mint, k: nat, d: ActorDoc, scopeId: Option<Id>)
    ensures var a := ActorRow(mint, k, d, scopeId);
            a.actorTokenId == mint(OfActor(k)) && a.projectId == mint(OfProject) && a.scopeId == scopeId
            && a.deletedAt.None? && a.keyId == mint(OfActorKeyId(k))
  {
  }

  lemma ActorRowStored(db: Db, doc: Doc, mint: Mint, now: Time, k: nat)
    requires FreshImport(db, mint) && k < |doc.actors|
    ensures ActorRows(doc, mint)[k] in Imported(db, doc, mint, now).actors
    ensures ActorsIn(mint(OfProject))(ActorRows(doc, mint)[k])
    ensures ActorRows(doc, mint)[k].actorTokenId == mint(OfActor(k)) && ActorRows(doc, mint)[k].keyId == mint(OfActorKeyId(k))
  {
    hide Imported, ScopeIdOf, ScopeIds;
    ActorTable(db, doc, mint, now);
  }

  lemma ImportedGrantTravels(db: Db, doc: Doc, mint: Mint, now: Time, i: nat, j: nat, g: RoomGrant)
    requires FreshImport(db, mint) && i < |doc.apps| && j < |doc.apps[i].rooms|
    requires g in Imported(db, doc, mint, now).roomGrants && g.roomId == mint(OfRoom(i, j))
    ensures GrantTravels(Imported(db, doc, mint, now), mint(OfProject), g)
  {
    hide Imported, Flat, AppBatch, ActorBatch, TypeGrantRow, RoomGrantRow, RoomIds, RoomKeyOf, ActorRows;
    RoomGrantTable(db, doc, mint, now);
    assert g !in db.roomGrants;
    if g in Flat(|doc.apps|, RoomGrantsPart(AppBatch(doc, mint))) {
      var i', j', k := TypeGrantMember(doc, mint, g);
      TypeGrantFields(mint, i', j', k, doc.apps[i'].rooms[j'].typeGrants[k]);
    } else {
      var k, m := NamedGrantMember(doc, mint, g);
      var d := doc.actors[k].roomAccess[m];
      NamedGrantFields(mint, k, m, Get(RoomIds(doc, mint, |doc.apps|), RoomKeyOf(d.appSlug, d.roomSlug), ""), d);
      ActorRowStored(db, doc, mint, now, k);
    }
  }

  lemma ImportedAppTravels(db: Db, doc: Doc, mint: Mint, now: Time, a: App)
    requires FreshImport(db, mint) && SlashFree(doc) && GoodSlugs(doc)
    requires a in Imported(db, doc, mint, now).apps && AppsIn(mint(OfProject))(a)
    ensures AppWritable(Imported(db, doc, mint, now), a)
    ensures AppTravels(Imported(db, doc, mint, now), mint(OfProject), a)
  {
    hide Imported, AppRow, RoomRow, FreshImport, GrantTravels;
    var i := ImportedAppOf(db, doc, mint, now, a);
    AppRowFields(mint, i, doc.apps[i]);
    assert doc.apps[i] in doc.apps;
    var db1 := Imported(db, doc, mint, now);
    forall r | r in db1.rooms && RoomsIn(a.appId)(r) ensures '/' !in r.slug && RoomTravels(db1, mint(OfProject), r) {
      var j := ImportedRoomOf(db, doc, mint, now, i, r);
      RoomRowFields(mint, i, j, doc.apps[i].rooms[j]);
      assert doc.apps[i].rooms[j] in doc.apps[i].rooms;
      forall g | g in db1.roomGrants && GrantsOn(r.roomId)(g) ensures GrantTravels(db1, mint(OfProject), g) {
        ImportedGrantTravels(db, doc, mint, now, i, j, g);
      }
    }
  }

  lemma ImportedActorScoped(db: Db, doc: Doc, mint: Mint, now: Time, a: Actor)
    requires FreshImport(db, mint) && a in Imported(db, doc, mint, now).actors && ActorsIn(mint(OfProject))(a)
    ensures ActorScoped(Imported(db, doc, mint, now), a)
  {
    hide Imported, ActorRow, ScopeIds, ScopeRow;
    var k := ImportedActorOf(db, doc, mint, now, a);
    ActorRowFields(mint, k, doc.actors[k], ScopeIdOf(ScopeIds(doc, mint), doc.actors[k]));
    if a.scopeId.Some? {
      var i := ScopeSlugNamed(doc, mint, doc.actors[k].scopeSlug.value);
      ScopeTable(db, doc, mint, now);
      var s := ScopeRows(doc, mint)[i];
      assert LiveScopeOf(a.scopeId.value, a.projectId)(s) && s.slug != "" by { ScopeRowLive(mint, i, doc.accessScopes[i]); }
    }
  }

  lemma ScopeRowLive(mint: Mint, i: nat, d: ScopeDoc)
    ensures LiveScopeOf(mint(OfScope(i)), mint(OfProject))(ScopeRow(mint, i, d)) && ScopeRow(mint, i, d).slug == d.slug
  {
  }

  lemma ImportedGrantsInProject(db: Db, doc: Doc, mint: Mint, now: Time, a: Actor)
    requires GoodImport(db, doc, mint) && a in Imported(db, doc, mint, now).actors && ActorsIn(mint(OfProject))(a)
    ensures GrantsInProject(Imported(db, doc, mint, now), a)
  {
    hide Imported, ActorRow, ScopeIds, ScopeIdOf, AppRow, AppRows, AppIds, Flat, ActorBatch, AppGrantRow, Keyed, SlashFree, UniqueSlugs,
         ScopeResolves, RoomAccessResolves;
    var db1 := Imported(db, doc, mint, now);
    var k := ImportedActorOf(db, doc, mint, now, a);
    ActorRowFields(mint, k, doc.actors[k], ScopeIdOf(ScopeIds(doc, mint), doc.actors[k]));
    AppTable(db, doc, mint, now);
    forall g, app | g in db1.appGrants && app in db1.apps && ActiveAppGrantFor(a.actorTokenId, app.appId)(g)
      ensures app.projectId == a.projectId
    {
      AppGrantsFound(db, doc, mint, now, k);
      assert g in Filter(db1.appGrants, AppGrantsOf(mint(OfActor(k))));
      GrantAppMinted(doc, mint, k, g);
      assert app !in db.apps;
      var i := AppMember(doc, mint, app);
      AppRowFields(mint, i, doc.apps[i]);
    }
  }

  lemma GrantAppMinted(doc: Doc, mint: Mint, k: nat, g: AppGrant)
    requires k < |doc.actors| && ActorResolves(doc, mint, doc.actors[k])
    requires g in AppGrantRows(AppIds(doc, mint), mint, k, doc.actors[k].appAccess)
    ensures exists d :: g.appId == mint(d)
  {
    hide AppIds, ScopeResolves, RoomAccessResolves;
    var m :| 0 <= m < |doc.actors[k].appAccess| && g == AppGrantRows(AppIds(doc, mint), mint, k, doc.actors[k].appAccess)[m];
    var i := AppSlugNamed(doc, mint, doc.actors[k].appAccess[m].appSlug);
  }

  lemma ImportedScopeSlugs(db: Db, doc: Doc, mint: Mint, now: Time, s: Scope)
    requires FreshImport(db, mint) && GoodSlugs(doc)
    requires s in Imported(db, doc, mint, now).scopes && ScopesIn(mint(OfProject))(s)
    ensures s.slug != ""
  {
    hide Imported, ScopeRow;
    ScopesFound(db, doc, mint, now);
    assert s in Filter(Imported(db, doc, mint, now).scopes, ScopesIn(mint(OfProject)));
    var i := ScopeMember(doc, mint, s);
    ScopeRowLive(mint, i, doc.accessScopes[i]);
  }

  lemma ImportedWellLinked(db: Db, doc: Doc, mint: Mint, now: Time)
    requires GoodImport(db, doc, mint) && GoodSlugs(doc)
    ensures WellLinked(Imported(db, doc, mint, now), mint(OfProject))
  {
    hide Imported, Keyed, UniqueSlugs, AppResolves, ActorResolves, AppWritable, AppTravels, ActorScoped, GrantsInProject, LinksInApp, FreshImport, SlashFree;
    var db1 := Imported(db, doc, mint, now);
    ImportedLinksInApp(db, doc, mint, now);
    forall s | s in db1.scopes && ScopesIn(mint(OfProject))(s) ensures s.slug != "" { ImportedScopeSlugs(db, doc, mint, now, s); }
    forall a | a in db1.apps && AppsIn(mint(OfProject))(a) ensures AppWritable(db1, a) && AppTravels(db1, mint(OfProject), a) {
      ImportedAppTravels(db, doc, mint, now, a);
    }
    forall a | a in db1.actors && ActorsIn(mint(OfProject))(a) ensures ActorScoped(db1, a) && GrantsInProject(db1, a) {
      ImportedActorScoped(db, doc, mint, now, a);
      ImportedGrantsInProject(db, doc, mint, now, a);
    }
  }
}
