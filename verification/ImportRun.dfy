/** The rest of the import: actors with their grants, signing keys, and the transaction around it. */
module ImportRun {
  import opened Prelude
  import opened Schema
  import opened ProjectDoc
  import opened Tables
  import opened ProjectImport
  import opened ImportRefs
  import opened ImportStore
  import opened ImportApps

  /** No app grant in the table belongs to an actor still to be minted. */
  ghost predicate ActorsAhead(db: Db, mint: Mint, k: nat) {
    forall g, q: nat :: g in db.appGrants && q >= k ==> g.actorTokenId != mint(OfActor(q))
  }

  ghost predicate Injective(m: map<string, Id>) {
    forall s, t :: s in m && t in m && m[s] == m[t] ==> s == t
  }

  lemma AppIdsInjective(doc: Doc, mint: Mint)
    requires Distinguishes(mint)
    ensures Injective(AppIds(doc, mint))
  {
    hide AppIds;
    var m := AppIds(doc, mint);
    forall s, t | s in m && t in m && m[s] == m[t] ensures s == t {
      var i := AppSlugNamed(doc, mint, s);
      var k := AppSlugNamed(doc, mint, t);
      assert OfApp(i) == OfApp(k);
    }
  }

  /** Whether the unique constraint lets the next grant in: its app was not granted before. */
  lemma NextGrantFits(appIds: map<string, Id>, mint: Mint, k: nat, grants: seq<AppGrantDoc>, m: nat, rows: seq<AppGrant>)
    requires m < |grants| && Injective(appIds) && grants[m].appSlug in appIds
    requires forall n :: 0 <= n < m ==> grants[n].appSlug in appIds
    requires forall h :: h in rows ==> h.actorTokenId != mint(OfActor(k))
    ensures (forall h :: h in rows + AppGrantRows(appIds, mint, k, grants)[..m] ==>
               AppGrantKey(h) != (mint(OfActor(k)), appIds[grants[m].appSlug]))
            <==> forall n :: 0 <= n < m ==> grants[n].appSlug != grants[m].appSlug
  {
    var mine := AppGrantRows(appIds, mint, k, grants)[..m];
    forall n | 0 <= n < m
      ensures AppGrantKey(mine[n]) == (mint(OfActor(k)), appIds[grants[n].appSlug]) && mine[n] in rows + mine
    {
    }
  }

  lemma RepeatedGrant(appIds: map<string, Id>, grants: seq<AppGrantDoc>, n: nat, m: nat)
    requires n < m < |grants| && grants[n].appSlug == grants[m].appSlug
    ensures !AppAccessResolves(appIds, grants)
  {
    assert Map(grants, GrantApp)[n] == Map(grants, GrantApp)[m];
  }

  lemma AllGrantsFit(appIds: map<string, Id>, grants: seq<AppGrantDoc>)
    requires forall n :: 0 <= n < |grants| ==> grants[n].appSlug in appIds
    requires forall n, m :: 0 <= n < m < |grants| ==> grants[n].appSlug != grants[m].appSlug
    ensures AppAccessResolves(appIds, grants)
  {
  }

  lemma GrantPushed(db: Db, rows: seq<AppGrant>, m: nat)
    requires m < |rows|
    ensures Plus(Plus(db, EMPTY.(appGrants := rows[..m])), EMPTY.(appGrants := [rows[m]]))
            == Plus(db, EMPTY.(appGrants := rows[..m + 1]))
    ensures Plus(db, EMPTY.(appGrants := rows[..m])).appGrants == db.appGrants + rows[..m]
  {
    assert rows[..m + 1] == rows[..m] + [rows[m]];
  }

  method ImportAppAccess(m: EntityManager, appIds: map<string, Id>, mint: Mint, k: nat, grants: seq<AppGrantDoc>)
    returns (error: Option<ImportError>)
    requires Injective(appIds)
    requires forall h :: h in m.db.appGrants ==> h.actorTokenId != mint(OfActor(k))
    modifies m
    ensures error.None? <==> AppAccessResolves(appIds, grants)
    ensures error.None? ==> m.db == Plus(old(m.db), EMPTY.(appGrants := AppGrantRows(appIds, mint, k, grants)))
  {
    hide Plus;
    ghost var rows := AppGrantRows(appIds, mint, k, grants);
    PlusEmpty(m.db);
    for n := 0 to |grants|
      invariant m.db == Plus(old(m.db), EMPTY.(appGrants := rows[..n]))
      invariant forall i :: 0 <= i < n ==> grants[i].appSlug in appIds
      invariant forall i, j :: 0 <= i < j < n ==> grants[i].appSlug != grants[j].appSlug
    {
      if grants[n].appSlug !in appIds { return Some(UnknownApp(grants[n].appSlug)); }
      GrantPushed(old(m.db), rows, n);
      NextGrantFits(appIds, mint, k, grants, n, old(m.db).appGrants);
      var ok := m.InsertAppGrant(AppGrantRow(mint, k, n, appIds[grants[n].appSlug], grants[n]));
      if !ok {
        var i :| 0 <= i < n && grants[i].appSlug == grants[n].appSlug;
        RepeatedGrant(appIds, grants, i, n);
        return Some(UniqueViolation);
      }
    }
    AllGrantsFit(appIds, grants);
    assert rows[..|grants|] == rows;
    return None;
  }

  lemma NamedGrantPushed(db: Db, rows: seq<RoomGrant>, m: nat)
    requires m < |rows|
    ensures Plus(Plus(db, EMPTY.(roomGrants := rows[..m])), EMPTY.(roomGrants := [rows[m]]))
            == Plus(db, EMPTY.(roomGrants := rows[..m + 1]))
  {
    assert rows[..m + 1] == rows[..m] + [rows[m]];
  }

  method ImportRoomAccess(m: EntityManager, roomIds: map<string, Id>, mint: Mint, k: nat, grants: seq<RoomGrantDoc>)
    returns (error: Option<ImportError>)
    modifies m
    ensures error.None? <==> RoomAccessResolves(roomIds, grants)
    ensures error.None? ==> m.db == Plus(old(m.db), EMPTY.(roomGrants := NamedGrantRows(roomIds, mint, k, grants)))
  {
    hide Plus;
    ghost var rows := NamedGrantRows(roomIds, mint, k, grants);
    PlusEmpty(m.db);
    for n := 0 to |grants|
      invariant m.db == Plus(old(m.db), EMPTY.(roomGrants := rows[..n]))
      invariant forall i :: 0 <= i < n ==> RoomKeyOf(grants[i].appSlug, grants[i].roomSlug) in roomIds
    {
      var key := RoomKeyOf(grants[n].appSlug, grants[n].roomSlug);
      if key !in roomIds { return Some(UnknownRoom(key)); }
      NamedGrantPushed(old(m.db), rows, n);
      m.Save(EMPTY.(roomGrants := [RoomGrantRow(mint, k, n, roomIds[key], grants[n])]));
    }
    assert rows[..|grants|] == rows;
    return None;
  }

  lemma ActorSaved(db: Db, doc: Doc, mint: Mint, k: nat)
    requires k < |doc.actors|
    ensures var a := doc.actors[k];
            Plus(Plus(Plus(db, EMPTY.(actors := [ActorRow(mint, k, a, ScopeIdOf(ScopeIds(doc, mint), a))])),
                      EMPTY.(appGrants := AppGrantRows(AppIds(doc, mint), mint, k, a.appAccess))),
                 EMPTY.(roomGrants := NamedGrantRows(RoomIds(doc, mint, |doc.apps|), mint, k, a.roomAccess)))
            == Plus(db, ActorBatch(doc, mint)(k))
  {
    hide AppGrantRows, NamedGrantRows, ScopeIdOf, ActorRow, RoomIds, AppIds, ScopeIds;
  }

  lemma ActorKeepsAhead(db: Db, doc: Doc, mint: Mint, k: nat)
    requires k < |doc.actors| && Distinguishes(mint) && ActorsAhead(db, mint, k)
    ensures ActorsAhead(Plus(db, ActorBatch(doc, mint)(k)), mint, k + 1)
    ensures forall row: Actor :: forall h :: h in Plus(db, EMPTY.(actors := [row])).appGrants ==> h.actorTokenId != mint(OfActor(k))
  {
    hide NamedGrantRows, ScopeIdOf, ActorRow, RoomIds, AppIds, ScopeIds;
  }

  method ImportActor(m: EntityManager, doc: Doc, mint: Mint, k: nat,
                     scopeIds: map<string, Id>, appIds: map<string, Id>, roomIds: map<string, Id>)
    returns (error: Option<ImportError>)
    requires k < |doc.actors| && Distinguishes(mint) && ActorsAhead(m.db, mint, k) && Injective(appIds)
    requires scopeIds == ScopeIds(doc, mint) && appIds == AppIds(doc, mint) && roomIds == RoomIds(doc, mint, |doc.apps|)
    modifies m
    ensures error.None? <==> ActorResolves(doc, mint, doc.actors[k])
    ensures error.None? ==> m.db == Plus(old(m.db), ActorBatch(doc, mint)(k))
  {
    hide Plus, AppAccessResolves, RoomAccessResolves, AppGrantRows, NamedGrantRows, ScopeIds, AppIds, RoomIds, ActorBatch, Injective;
    var a := doc.actors[k];
    var named := a.scopeSlug.Some? && a.scopeSlug.value != "";
    if named && a.scopeSlug.value !in scopeIds { return Some(UnknownScope(a.scopeSlug.value)); }
    var scopeId := if named then Some(scopeIds[a.scopeSlug.value]) else None;
    ActorSaved(m.db, doc, mint, k);
    ActorKeepsAhead(m.db, doc, mint, k);
    m.Save(EMPTY.(actors := [ActorRow(mint, k, a, scopeId)]));
    error := ImportAppAccess(m, appIds, mint, k, a.appAccess);
    if error.Some? { return; }
    error := ImportRoomAccess(m, roomIds, mint, k, a.roomAccess);
  }

  lemma ActorIssued(doc: Doc, mint: Mint, k: nat)
    requires k < |doc.actors|
    ensures |ActorCredentials(doc, mint)| == |doc.actors|
    ensures ActorCredentials(doc, mint)[..k + 1] == ActorCredentials(doc, mint)[..k]
              + [Issued(doc.actors[k].ref, mint(OfActorKeyId(k)), mint(OfActorKeyId(k)) + "." + mint(OfActorSecret(k)))]
  {
  }

  lemma ActorsIssued(doc: Doc, mint: Mint)
    ensures ActorCredentials(doc, mint)[..0] == [] && |ActorCredentials(doc, mint)| == |doc.actors|
    ensures ActorCredentials(doc, mint)[..|doc.actors|] == ActorCredentials(doc, mint)
  {
  }

  method ImportActors(m: EntityManager, doc: Doc, mint: Mint,
                      scopeIds: map<string, Id>, appIds: map<string, Id>, roomIds: map<string, Id>)
    returns (error: Option<ImportError>, credentials: seq<Issued>)
    requires Distinguishes(mint) && ActorsAhead(m.db, mint, 0)
    requires scopeIds == ScopeIds(doc, mint) && appIds == AppIds(doc, mint) && roomIds == RoomIds(doc, mint, |doc.apps|)
    modifies m
    ensures error.None? <==> forall a :: a in doc.actors ==> ActorResolves(doc, mint, a)
    ensures error.None? ==> m.db == Plus(old(m.db), Sum(|doc.actors|, ActorBatch(doc, mint)))
    ensures error.None? ==> credentials == ActorCredentials(doc, mint)
  {
    hide Plus, ActorResolves, ScopeIds, AppIds, RoomIds, ActorBatch, ActorsAhead, Injective, ActorCredentials;
    ghost var batch := ActorBatch(doc, mint);
    ActorsIssued(doc, mint);
    credentials := [];
    SumSaved(m.db, batch, 0);
    AppIdsInjective(doc, mint);
    for k := 0 to |doc.actors|
      invariant forall n :: 0 <= n < k ==> ActorResolves(doc, mint, doc.actors[n])
      invariant m.db == Plus(old(m.db), Sum(k, batch)) && ActorsAhead(m.db, mint, k)
      invariant credentials == ActorCredentials(doc, mint)[..k]
    {
      SumSaved(old(m.db), batch, k);
      ActorKeepsAhead(m.db, doc, mint, k);
      ActorIssued(doc, mint, k);
      var failed := ImportActor(m, doc, mint, k, scopeIds, appIds, roomIds);
      if failed.Some? { return failed, credentials; }
      credentials := credentials + [Issued(doc.actors[k].ref, mint(OfActorKeyId(k)), mint(OfActorKeyId(k)) + "." + mint(OfActorSecret(k)))];
    }
    return None, credentials;
  }

  lemma KeyPushed(db: Db, rows: seq<SigningKey>, m: nat)
    requires m < |rows|
    ensures Plus(Plus(db, EMPTY.(signingKeys := rows[..m])), EMPTY.(signingKeys := [rows[m]]))
            == Plus(db, EMPTY.(signingKeys := rows[..m + 1]))
  {
    assert rows[..m + 1] == rows[..m] + [rows[m]];
  }

  /** Encrypting a secret throws when no encryption key is configured. */
  method ImportKeys(m: EntityManager, doc: Doc, mint: Mint, keyConfigured: bool)
    returns (error: Option<ImportError>, credentials: seq<Issued>)
    modifies m
    ensures error.None? <==> doc.signingKeys == [] || keyConfigured
    ensures error.None? ==> m.db == Plus(old(m.db), EMPTY.(signingKeys := KeyRows(doc, mint)))
    ensures error.None? ==> credentials == KeyCredentials(doc, mint)
  {
    hide Plus;
    ghost var rows := KeyRows(doc, mint);
    credentials := [];
    PlusEmpty(m.db);
    for i := 0 to |doc.signingKeys|
      invariant m.db == Plus(old(m.db), EMPTY.(signingKeys := rows[..i]))
      invariant i > 0 ==> keyConfigured
      invariant credentials == KeyCredentials(doc, mint)[..i]
    {
      if !keyConfigured { return Some(NoEncryptionKey), credentials; }
      KeyPushed(old(m.db), rows, i);
      m.Save(EMPTY.(signingKeys := [KeyRow(mint, i, doc.signingKeys[i])]));
      credentials := credentials + [Issued(doc.signingKeys[i].ref, mint(OfKeyId(i)), mint(OfKeyId(i)) + "." + mint(OfKeySecret(i)))];
    }
    assert rows[..|rows|] == rows;
    return None, credentials;
  }

  lemma HeadSaved(db: Db, doc: Doc, mint: Mint, now: Time)
    requires Fresh(db, mint)
    ensures var head := Plus(Plus(db, EMPTY.(projects := [ProjectRow(doc, mint, now)])), EMPTY.(scopes := ScopeRows(doc, mint)));
            && head == Plus(db, EMPTY.(projects := [ProjectRow(doc, mint, now)], scopes := ScopeRows(doc, mint)))
            && Ahead(head, mint, 0, 0)
  {
    hide ScopeRows, ProjectRow;
  }

  lemma AllSaved(db: Db, doc: Doc, mint: Mint, now: Time)
    ensures Plus(Plus(Plus(Plus(db, EMPTY.(projects := [ProjectRow(doc, mint, now)], scopes := ScopeRows(doc, mint))),
                           Sum(|doc.apps|, AppBatch(doc, mint))),
                      Sum(|doc.actors|, ActorBatch(doc, mint))),
                 EMPTY.(signingKeys := KeyRows(doc, mint)))
            == Imported(db, doc, mint, now)
  {
    hide Plus, Sum, AppBatch, ActorBatch, ScopeRows, ProjectRow, KeyRows;
    var head := EMPTY.(projects := [ProjectRow(doc, mint, now)], scopes := ScopeRows(doc, mint));
    var apps, actors := Sum(|doc.apps|, AppBatch(doc, mint)), Sum(|doc.actors|, ActorBatch(doc, mint));
    PlusAssoc(db, head, apps);
    PlusAssoc(db, Plus(head, apps), actors);
    PlusAssoc(db, Plus(Plus(head, apps), actors), EMPTY.(signingKeys := KeyRows(doc, mint)));
  }

  lemma StillActorsAhead(db: Db, mint: Mint, i: nat)
    requires Ahead(db, mint, i, 0)
    ensures ActorsAhead(db, mint, 0)
  {
  }

  /** The service's import. It may leave rows behind when it throws; its caller owns the transaction. */
  method ImportProject(m: EntityManager, doc: Doc, mint: Mint, now: Time, keyConfigured: bool)
    returns (r: Result<Credentials, ImportError>)
    requires Distinguishes(mint) && Fresh(m.db, mint)
    modifies m
    ensures r.Ok? <==> Accepts(doc, mint, keyConfigured)
    ensures r.Ok? ==> m.db == Imported(old(m.db), doc, mint, now)
    ensures r.Ok? ==> r.value == AllIssued(doc, mint)
    ensures doc.version != DOC_VERSION ==> r == Err(UnsupportedVersion)
    ensures doc.version == DOC_VERSION && !UniqueSlugs(doc) ==> r.Err? && r.error.Duplicate? && m.db == old(m.db)
  {
    hide Plus, Sum, Batch, Imported, AppBatch, ActorBatch, ScopeRows, ProjectRow, KeyRows, UniqueSlugs, ActorResolves,
      AppResolves, Fresh, Ahead, ActorsAhead, ScopeIds, AppIds, RoomIds, ActorCredentials, KeyCredentials;
    if doc.version != DOC_VERSION { return Err(UnsupportedVersion); }
    var error := AssertUniqueSlugs(doc);
    if error.Some? { return Err(error.value); }
    HeadSaved(m.db, doc, mint, now);
    AllSaved(m.db, doc, mint, now);
    m.Save(EMPTY.(projects := [ProjectRow(doc, mint, now)]));
    var scopeIds := ImportScopes(m, doc, mint);
    var failed, appIds, roomIds := ImportAllApps(m, doc, mint);
    if failed.Some? { return Err(failed.value); }
    StillActorsAhead(m.db, mint, |doc.apps|);
    var rejected, actors := ImportActors(m, doc, mint, scopeIds, appIds, roomIds);
    if rejected.Some? { return Err(rejected.value); }
    var unencrypted, keys := ImportKeys(m, doc, mint, keyConfigured);
    if unencrypted.Some? { return Err(unencrypted.value); }
    return Ok(Credentials(mint(OfProject), actors, keys));
  }

  /** The facade's import: all of the document's rows, or none of them. */
  method ImportInTransaction(m: EntityManager, doc: Doc, mint: Mint, now: Time, keyConfigured: bool)
    returns (r: Result<Credentials, ImportError>)
    requires Distinguishes(mint) && Fresh(m.db, mint)
    modifies m
    ensures r.Ok? <==> Accepts(doc, mint, keyConfigured)
    ensures m.db == if r.Ok? then Imported(old(m.db), doc, mint, now) else old(m.db)
    ensures r.Ok? ==> r.value == AllIssued(doc, mint)
  {
    var snapshot := m.db;
    r := ImportProject(m, doc, mint, now, keyConfigured);
    if r.Err? { m.db := snapshot; }
  }
}
