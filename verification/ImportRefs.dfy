/** Slug references of a document: what each one resolves to during an import. */
module ImportRefs {
  import opened Prelude
  import opened Schema
  import opened Address
  import opened ProjectDoc
  import opened ProjectImport

  /** App and room slugs as the document validator requires them: no separator inside. */
  ghost predicate SlashFree(doc: Doc) {
    forall a :: a in doc.apps ==> '/' !in a.slug && forall r :: r in a.rooms ==> '/' !in r.slug
  }

  lemma RoomPairIn(doc: Doc, mint: Mint, n: nat, p: (string, Id)) returns (i: nat, j: nat)
    requires n <= |doc.apps| && p in Flat(n, RoomPairBlock(doc, mint))
    ensures i < n && j < |doc.apps[i].rooms|
    ensures p == (RoomKeyOf(doc.apps[i].slug, doc.apps[i].rooms[j].slug), mint(OfRoom(i, j)))
  {
    hide RoomKeyOf;
    FlatMember(n, RoomPairBlock(doc, mint), p);
    i :| 0 <= i < n && p in RoomPairBlock(doc, mint)(i);
    j :| 0 <= j < |doc.apps[i].rooms| && p == AppRoomPairs(doc.apps[i], mint, i)[j];
  }

  lemma RoomPairAt(doc: Doc, mint: Mint, n: nat, i: nat, j: nat)
    requires i < n <= |doc.apps| && j < |doc.apps[i].rooms|
    ensures (RoomKeyOf(doc.apps[i].slug, doc.apps[i].rooms[j].slug), mint(OfRoom(i, j))) in Flat(n, RoomPairBlock(doc, mint))
  {
    hide RoomKeyOf;
    var p := (RoomKeyOf(doc.apps[i].slug, doc.apps[i].rooms[j].slug), mint(OfRoom(i, j)));
    assert AppRoomPairs(doc.apps[i], mint, i)[j] == p;
    assert p in RoomPairBlock(doc, mint)(i);
    FlatMember(n, RoomPairBlock(doc, mint), p);
  }

  lemma SameSlugs(doc: Doc, i: nat, j: nat, i': nat, j': nat)
    requires UniqueSlugs(doc) && i < |doc.apps| && i' < |doc.apps|
    requires j < |doc.apps[i].rooms| && j' < |doc.apps[i'].rooms|
    requires doc.apps[i].slug == doc.apps[i'].slug && doc.apps[i].rooms[j].slug == doc.apps[i'].rooms[j'].slug
    ensures i == i' && j == j'
  {
    assert Map(doc.apps, AppSlug)[i] == Map(doc.apps, AppSlug)[i'];
    assert doc.apps[i] in doc.apps;
    assert Map(doc.apps[i].rooms, RoomSlug)[j] == Map(doc.apps[i].rooms, RoomSlug)[j'];
  }

  /** A room of an earlier app is found under its own key. */
  lemma RoomIdKnown(doc: Doc, mint: Mint, n: nat, i: nat, j: nat)
    requires UniqueSlugs(doc) && SlashFree(doc) && i < n <= |doc.apps| && j < |doc.apps[i].rooms|
    ensures Lookup(RoomIds(doc, mint, n), RoomKeyOf(doc.apps[i].slug, doc.apps[i].rooms[j].slug)) == Some(mint(OfRoom(i, j)))
  {
    hide RoomPairBlock, Flat, UniqueSlugs;
    var pairs := Flat(n, RoomPairBlock(doc, mint));
    var key := RoomKeyOf(doc.apps[i].slug, doc.apps[i].rooms[j].slug);
    RoomPairAt(doc, mint, n, i, j);
    forall p | p in pairs && p.0 == key ensures p.1 == mint(OfRoom(i, j)) {
      var i', j' := RoomPairIn(doc, mint, n, p);
      assert doc.apps[i'] in doc.apps && doc.apps[i'].rooms[j'] in doc.apps[i'].rooms;
      PairDecodes(doc.apps[i'].slug, doc.apps[i'].rooms[j'].slug, doc.apps[i].slug, doc.apps[i].rooms[j].slug);
      SameSlugs(doc, i, j, i', j');
    }
    MapOfFinds(pairs, key, mint(OfRoom(i, j)));
  }

  /** A key that resolves names one app and room of the document by their slugs. */
  lemma RoomKeyNamed(doc: Doc, mint: Mint, n: nat, x: string, y: string) returns (i: nat, j: nat)
    requires SlashFree(doc) && n <= |doc.apps| && RoomKeyOf(x, y) in RoomIds(doc, mint, n)
    ensures i < n && j < |doc.apps[i].rooms| && doc.apps[i].slug == x && doc.apps[i].rooms[j].slug == y
  {
    hide RoomPairBlock, Flat;
    var key := RoomKeyOf(x, y);
    assert (key, RoomIds(doc, mint, n)[key]) in Flat(n, RoomPairBlock(doc, mint));
    i, j := RoomPairIn(doc, mint, n, (key, RoomIds(doc, mint, n)[key]));
    assert doc.apps[i] in doc.apps && doc.apps[i].rooms[j] in doc.apps[i].rooms;
    PairDecodes(doc.apps[i].slug, doc.apps[i].rooms[j].slug, x, y);
  }

  lemma AppIdKnown(doc: Doc, mint: Mint, i: nat)
    requires UniqueSlugs(doc) && i < |doc.apps|
    ensures Lookup(AppIds(doc, mint), doc.apps[i].slug) == Some(mint(OfApp(i)))
  {
    var pairs := AppPairs(doc, mint);
    assert pairs[i] == (doc.apps[i].slug, mint(OfApp(i)));
    forall p | p in pairs && p.0 == doc.apps[i].slug ensures p.1 == mint(OfApp(i)) {
      var k :| 0 <= k < |doc.apps| && p == pairs[k];
      assert Map(doc.apps, AppSlug)[i] == Map(doc.apps, AppSlug)[k];
    }
    MapOfFinds(pairs, doc.apps[i].slug, mint(OfApp(i)));
  }

  lemma AppSlugNamed(doc: Doc, mint: Mint, slug: string) returns (i: nat)
    requires slug in AppIds(doc, mint)
    ensures i < |doc.apps| && doc.apps[i].slug == slug && AppIds(doc, mint)[slug] == mint(OfApp(i))
  {
    i :| 0 <= i < |doc.apps| && AppPairs(doc, mint)[i] == (slug, AppIds(doc, mint)[slug]);
  }

  lemma ScopeIdKnown(doc: Doc, mint: Mint, i: nat)
    requires UniqueSlugs(doc) && i < |doc.accessScopes|
    ensures Lookup(ScopeIds(doc, mint), doc.accessScopes[i].slug) == Some(mint(OfScope(i)))
  {
    var pairs := ScopePairs(doc, mint);
    assert pairs[i] == (doc.accessScopes[i].slug, mint(OfScope(i)));
    forall p | p in pairs && p.0 == doc.accessScopes[i].slug ensures p.1 == mint(OfScope(i)) {
      var k :| 0 <= k < |doc.accessScopes| && p == pairs[k];
      assert Map(doc.accessScopes, ScopeSlug)[i] == Map(doc.accessScopes, ScopeSlug)[k];
    }
    MapOfFinds(pairs, doc.accessScopes[i].slug, mint(OfScope(i)));
  }

  lemma ScopeSlugNamed(doc: Doc, mint: Mint, slug: string) returns (i: nat)
    requires slug in ScopeIds(doc, mint)
    ensures i < |doc.accessScopes| && doc.accessScopes[i].slug == slug && ScopeIds(doc, mint)[slug] == mint(OfScope(i))
  {
    i :| 0 <= i < |doc.accessScopes| && ScopePairs(doc, mint)[i] == (slug, ScopeIds(doc, mint)[slug]);
  }

  /* ── the documents an import accepts, in the document's own terms ────── */

  ghost predicate HasScope(doc: Doc, slug: string) { exists s :: s in doc.accessScopes && s.slug == slug }
  ghost predicate HasApp(doc: Doc, slug: string) { exists a :: a in doc.apps && a.slug == slug }
  ghost predicate HasRoom(a: AppDoc, slug: string) { exists r :: r in a.rooms && r.slug == slug }
  ghost predicate HasAppRoom(doc: Doc, appSlug: string, roomSlug: string) {
    exists a :: a in doc.apps && a.slug == appSlug && HasRoom(a, roomSlug)
  }

  ghost predicate ActorWellFormed(doc: Doc, a: ActorDoc) {
    && (a.scopeSlug.Some? && a.scopeSlug.value != "" ==> HasScope(doc, a.scopeSlug.value))
    && (forall g :: g in a.appAccess ==> HasApp(doc, g.appSlug)) && Distinct(Map(a.appAccess, GrantApp))
    && (forall g :: g in a.roomAccess ==> HasAppRoom(doc, g.appSlug, g.roomSlug))
  }

  ghost predicate LobbyWellFormed(a: AppDoc, l: LobbyDoc) {
    forall s :: s in l.rooms ==> HasRoom(a, s)
  }

  /** Version 1, unique slugs and handles, every reference resolving, no repeated app grant, keys only with an encryption key. */
  ghost predicate WellFormed(doc: Doc, keyConfigured: bool) {
    && doc.version == DOC_VERSION && UniqueSlugs(doc)
    && (forall a, l :: a in doc.apps && l in a.lobbies ==> LobbyWellFormed(a, l))
    && (forall a :: a in doc.actors ==> ActorWellFormed(doc, a))
    && (doc.signingKeys == [] || keyConfigured)
  }

  lemma LobbyAccepted(doc: Doc, mint: Mint, i: nat, l: LobbyDoc)
    requires UniqueSlugs(doc) && SlashFree(doc) && i < |doc.apps|
    ensures LobbyResolves(RoomIds(doc, mint, i + 1), doc.apps[i].slug, l) <==> LobbyWellFormed(doc.apps[i], l)
  {
    hide RoomIds, RoomKeyOf, SlashFree;
    var a := doc.apps[i];
    if LobbyResolves(RoomIds(doc, mint, i + 1), a.slug, l) {
      forall s | s in l.rooms ensures HasRoom(a, s) {
        var i', j' := RoomKeyNamed(doc, mint, i + 1, a.slug, s);
        assert Map(doc.apps, AppSlug)[i'] == Map(doc.apps, AppSlug)[i];
        assert a.rooms[j'] in a.rooms;
      }
    }
    if LobbyWellFormed(a, l) {
      forall s | s in l.rooms ensures RoomKeyOf(a.slug, s) in RoomIds(doc, mint, i + 1) {
        assert HasRoom(a, s);
        var j :| 0 <= j < |a.rooms| && a.rooms[j].slug == s;
        RoomIdKnown(doc, mint, i + 1, i, j);
      }
    }
  }

  lemma RoomAccessAccepted(doc: Doc, mint: Mint, x: string, y: string)
    requires UniqueSlugs(doc) && SlashFree(doc)
    ensures RoomKeyOf(x, y) in RoomIds(doc, mint, |doc.apps|) <==> HasAppRoom(doc, x, y)
  {
    hide RoomIds, RoomKeyOf, SlashFree, UniqueSlugs;
    if RoomKeyOf(x, y) in RoomIds(doc, mint, |doc.apps|) {
      var i, j := RoomKeyNamed(doc, mint, |doc.apps|, x, y);
      assert doc.apps[i] in doc.apps && doc.apps[i].rooms[j] in doc.apps[i].rooms;
      assert HasRoom(doc.apps[i], y);
    }
    if HasAppRoom(doc, x, y) {
      var a :| a in doc.apps && a.slug == x && HasRoom(a, y);
      var i :| 0 <= i < |doc.apps| && doc.apps[i] == a;
      var j :| 0 <= j < |a.rooms| && a.rooms[j].slug == y;
      RoomIdKnown(doc, mint, |doc.apps|, i, j);
    }
  }

  lemma AppAccepted(doc: Doc, mint: Mint, slug: string)
    requires UniqueSlugs(doc)
    ensures slug in AppIds(doc, mint) <==> HasApp(doc, slug)
  {
    hide AppIds, UniqueSlugs;
    if slug in AppIds(doc, mint) { var i := AppSlugNamed(doc, mint, slug); assert doc.apps[i] in doc.apps; }
    if HasApp(doc, slug) {
      var i :| 0 <= i < |doc.apps| && doc.apps[i].slug == slug;
      AppIdKnown(doc, mint, i);
    }
  }

  lemma ScopeAccepted(doc: Doc, mint: Mint, slug: string)
    requires UniqueSlugs(doc)
    ensures slug in ScopeIds(doc, mint) <==> HasScope(doc, slug)
  {
    hide ScopeIds, UniqueSlugs;
    if slug in ScopeIds(doc, mint) { var i := ScopeSlugNamed(doc, mint, slug); assert doc.accessScopes[i] in doc.accessScopes; }
    if HasScope(doc, slug) {
      var i :| 0 <= i < |doc.accessScopes| && doc.accessScopes[i].slug == slug;
      ScopeIdKnown(doc, mint, i);
    }
  }

  lemma ActorAccepted(doc: Doc, mint: Mint, a: ActorDoc)
    requires UniqueSlugs(doc) && SlashFree(doc)
    ensures ActorResolves(doc, mint, a) <==> ActorWellFormed(doc, a)
  {
    hide RoomIds, AppIds, ScopeIds, RoomKeyOf, SlashFree, UniqueSlugs, HasApp, HasScope, HasAppRoom, Distinct;
    if a.scopeSlug.Some? { ScopeAccepted(doc, mint, a.scopeSlug.value); }
    forall g | g in a.appAccess ensures g.appSlug in AppIds(doc, mint) <==> HasApp(doc, g.appSlug) {
      AppAccepted(doc, mint, g.appSlug);
    }
    forall g | g in a.roomAccess
      ensures RoomKeyOf(g.appSlug, g.roomSlug) in RoomIds(doc, mint, |doc.apps|) <==> HasAppRoom(doc, g.appSlug, g.roomSlug)
    { RoomAccessAccepted(doc, mint, g.appSlug, g.roomSlug); }
  }

  lemma LobbiesAccepted(doc: Doc, mint: Mint)
    requires UniqueSlugs(doc) && SlashFree(doc)
    ensures (forall i :: 0 <= i < |doc.apps| ==> AppResolves(doc, mint, i))
            <==> (forall a, l :: a in doc.apps && l in a.lobbies ==> LobbyWellFormed(a, l))
  {
    hide RoomIds, SlashFree, UniqueSlugs, LobbyResolves, LobbyWellFormed;
    forall i, l | 0 <= i < |doc.apps| && l in doc.apps[i].lobbies
      ensures LobbyResolves(RoomIds(doc, mint, i + 1), doc.apps[i].slug, l) <==> LobbyWellFormed(doc.apps[i], l)
    { LobbyAccepted(doc, mint, i, l); }
    if forall i :: 0 <= i < |doc.apps| ==> AppResolves(doc, mint, i) {
      forall a, l | a in doc.apps && l in a.lobbies ensures LobbyWellFormed(a, l) {
        var i :| 0 <= i < |doc.apps| && doc.apps[i] == a;
        assert AppResolves(doc, mint, i);
      }
    }
    assert forall i :: 0 <= i < |doc.apps| ==> doc.apps[i] in doc.apps;
  }

  /** An import accepts exactly the well-formed documents. */
  lemma AcceptsIffWellFormed(doc: Doc, mint: Mint, keyConfigured: bool)
    requires SlashFree(doc)
    ensures Accepts(doc, mint, keyConfigured) <==> WellFormed(doc, keyConfigured)
  {
    hide SlashFree, UniqueSlugs, ActorResolves, ActorWellFormed, AppResolves, LobbyWellFormed;
    if UniqueSlugs(doc) {
      LobbiesAccepted(doc, mint);
      forall a | a in doc.actors ensures ActorResolves(doc, mint, a) <==> ActorWellFormed(doc, a) {
        ActorAccepted(doc, mint, a);
      }
    }
  }
}
