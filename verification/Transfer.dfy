/** Moving a project: export it, import the document elsewhere, and everyone keeps their access. */
module Transfer {
  import opened Prelude
  import opened Schema
  import opened ProjectDoc
  import opened DocAccess
  import opened Resolution
  import opened ProjectExport
  import opened ExportRefs
  import opened ExportMeaning
  import opened ExportAccepted
  import opened ProjectImport
  import opened ImportTables
  import opened ImportQueries
  import opened ImportStore
  import opened ImportIssued
  import opened ImportRefs
  import opened ImportKeyed
  import opened ImportConsistent
  import opened RoundTrip

  /** What a target database must already satisfy, and what the draws must. */
  ghost predicate Target(db: Db, mint: Mint) { Keyed(db) && UniqueLiveSlugs(db) && FreshImport(db, mint) }

  /** The importer has an encryption key if the document lists signing keys. */
  ghost predicate Importable(db: Db, projectId: Id, keyConfigured: bool) {
    && Consistent(db, projectId) && WellLinked(db, projectId) && Exported(db, projectId).Some?
    && (DocOf(db, projectId).signingKeys == [] || keyConfigured)
  }

  lemma AcceptedIsGood(db: Db, doc: Doc, mint: Mint, keyConfigured: bool)
    requires FreshImport(db, mint) && Keyed(db) && SlashFree(doc) && Accepts(doc, mint, keyConfigured)
    ensures GoodImport(db, doc, mint)
  {
    hide FreshImport, Keyed, SlashFree, UniqueSlugs, AppResolves, ActorResolves;
  }

  /** The target stays consistent, and the new project is as well linked as the old one. */
  lemma TargetStaysConsistent(db: Db, projectId: Id, target: Db, mint: Mint, at: Time, keyConfigured: bool)
    requires Importable(db, projectId, keyConfigured) && Target(target, mint)
    ensures var d := DocOf(db, projectId);
            && Accepts(d, mint, keyConfigured) && SlashFree(d) && GoodSlugs(d) && GoodImport(target, d, mint)
            && Consistent(Imported(target, d, mint, at), mint(OfProject)) && WellLinked(Imported(target, d, mint, at), mint(OfProject))
            && (OneGrantPerTarget(target) ==> OneGrantPerTarget(Imported(target, d, mint, at)))
  {
    hide Keyed, UniqueLiveSlugs, OneGrantPerTarget, OneGrantInProject, LinksInApp, AppTravels, DocOf, Exported, Imported, FreshImport,
         UniqueSlugs, SlashFree, GoodSlugs, DocOneGrant, AppResolves, ActorResolves;
    var d := DocOf(db, projectId);
    ExportIsAccepted(db, projectId, mint, keyConfigured);
    ExportSlashFree(db, projectId);
    ExportUnique(db, projectId);
    ExportOneGrant(db, projectId);
    AcceptedIsGood(target, d, mint, keyConfigured);
    ImportedKeyed(target, d, mint, at);
    ImportedSlugs(target, d, mint, at);
    OneGrantIffDoc(target, d, mint, at);
    ImportedWellLinked(target, d, mint, at);
  }

  /** The exported entry of an actor is the one under its key id. */
  lemma EntryOf(db: Db, projectId: Id, a: Actor, k: nat)
    requires Keyed(db) && LinksInApp(db, projectId) && Exported(db, projectId).Some?
    requires a in db.actors && ActorsIn(projectId)(a)
    requires k < |DocOf(db, projectId).actors| && DocOf(db, projectId).actors[k].ref == a.keyId
    ensures DocOf(db, projectId).actors[k] == ActorDocFn(db, projectId)(a)
  {
    hide LinksInApp, Exported, DocOf, ActorDocFn, DistinctBy;
    var x := DocOf(db, projectId).actors[k];
    DocActor(db, projectId, x);
    var b :| b in db.actors && ActorsIn(projectId)(b) && x == ActorDocFn(db, projectId)(b);
    ActorDocType(db, projectId, b);
    DistinctByMember(db.actors, ActorKeyId, a, b);
  }

  /** The imported actor under the key id the import returned, and how it is exported again. */
  lemma ImportedEntry(target: Db, d: Doc, mint: Mint, at: Time, k: nat, b: Actor)
    requires GoodImport(target, d, mint) && Keyed(Imported(target, d, mint, at)) && k < |d.actors|
    requires b in Imported(target, d, mint, at).actors && b.keyId == mint(OfActorKeyId(k))
    ensures b.projectId == mint(OfProject) && b.deletedAt.None?
    ensures ActorDocFn(Imported(target, d, mint, at), mint(OfProject))(b) == NormActor(d.actors[k], mint(OfActorKeyId(k)))
  {
    hide Imported, ActorRows, DistinctBy, SlashFree, UniqueSlugs, AppResolves, ActorResolves, NormActor, ActorDocFn, FreshImport;
    ActorRowsLength(d, mint);
    ActorRowStored(target, d, mint, at, k);
    DistinctByMember(Imported(target, d, mint, at).actors, ActorKeyId, b, ActorRows(d, mint)[k]);
    ActorBack(target, d, mint, at, k);
  }

  /** The actor known by a returned key id resolves to exactly what the exported actor does. */
  lemma EntrySurvives(db: Db, projectId: Id, target: Db, mint: Mint, at: Time, keyConfigured: bool,
                      a: Actor, k: nat, b: Actor, now: Time, pattern: string, permission: Permission)
    requires Importable(db, projectId, keyConfigured) && Target(target, mint)
    requires a in db.actors && ActorsIn(projectId)(a)
    requires k < |DocOf(db, projectId).actors| && DocOf(db, projectId).actors[k].ref == a.keyId
    requires b in Imported(target, DocOf(db, projectId), mint, at).actors && b.keyId == mint(OfActorKeyId(k))
    ensures SessionGrants(db, a, now, pattern, permission) <==>
            SessionGrants(Imported(target, DocOf(db, projectId), mint, at), b, now, pattern, permission)
  {
    hide Keyed, UniqueLiveSlugs, OneGrantPerTarget, OneGrantInProject, LinksInApp, AppTravels, DocOf, Imported, FreshImport, WellLinked, GoodImport,
         UniqueSlugs, SlashFree, AppResolves, ActorResolves, SessionGrants, DocGrants, ActorDocFn, NormActor, Normalize, Accepts, Exported;
    var d, db1 := DocOf(db, projectId), Imported(target, DocOf(db, projectId), mint, at);
    TargetStaysConsistent(db, projectId, target, mint, at, keyConfigured);
    WellLinkedLinks(db, projectId);
    EntryOf(db, projectId, a, k);
    ImportedEntry(target, d, mint, at, k, b);
    ImportThenExport(target, d, mint, at, keyConfigured);
    ExportGrantsSession(db, a, now, pattern, permission);
    NormalizeKeepsAccess(d, ActorRefs(d, mint), KeyRefs(d, mint), d.actors[k], mint(OfActorKeyId(k)), now, pattern, permission);
    assert DocOf(db1, mint(OfProject)) == Normalize(d, ActorRefs(d, mint), KeyRefs(d, mint)) by { DocOfSome(db1, mint(OfProject)); }
    ExportGrantsSession(db1, b, now, pattern, permission);
  }

  /** This returned credential is the one for the exported actor, and b is the one row it names. */
  ghost predicate CarriedBy(a: Actor, creds: Credentials, c: Issued, moved: Db, b: Actor) {
    && c in creds.actors && c.ref == a.keyId && (forall other :: other in creds.actors && other.ref == a.keyId ==> other == c)
    && OneActorUnder(moved, c.keyId, b) && b.projectId == creds.projectId && b.deletedAt.None?
    && b.name == a.name && b.actorType == a.actorType
  }

  /** Every live actor of an exported project is in the document once, under its key id. */
  lemma EntryOfActor(db: Db, projectId: Id, a: Actor) returns (k: nat)
    requires Keyed(db) && LinksInApp(db, projectId) && Exported(db, projectId).Some?
    requires a in db.actors && ActorsIn(projectId)(a)
    ensures k < |DocOf(db, projectId).actors| && DocOf(db, projectId).actors[k] == ActorDocFn(db, projectId)(a)
    ensures DocOf(db, projectId).actors[k].ref == a.keyId
    ensures DocOf(db, projectId).actors[k].name == a.name && DocOf(db, projectId).actors[k].actorType == a.actorType
  {
    hide LinksInApp, Exported, DocOf, Keyed, ScopeSlugs, AppSlugs, AllRefs, AppGrantToDoc, RoomGrantToDoc;
    DocActor(db, projectId, ActorDocFn(db, projectId)(a));
    k :| 0 <= k < |DocOf(db, projectId).actors| && DocOf(db, projectId).actors[k] == ActorDocFn(db, projectId)(a);
  }

  /** One document entry per handle, so one returned credential. */
  lemma OneCredential(d: Doc, mint: Mint, creds: Credentials, k: nat)
    requires UniqueSlugs(d) && creds == AllIssued(d, mint) && k < |d.actors|
    ensures |creds.actors| == |d.actors| && creds.actors[k] in creds.actors
    ensures forall other :: other in creds.actors && other.ref == d.actors[k].ref ==> other == creds.actors[k]
  {
    forall other | other in creds.actors && other.ref == d.actors[k].ref ensures other == creds.actors[k] {
      var n :| 0 <= n < |creds.actors| && creds.actors[n] == other;
      assert Map(d.actors, ActorRef)[n] == Map(d.actors, ActorRef)[k];
    }
  }

  /** The credential an import returns for an exported actor names one live row of the new project, with the actor's name and type. */
  lemma CredentialCarries(db: Db, projectId: Id, target: Db, mint: Mint, at: Time, keyConfigured: bool, creds: Credentials, a: Actor)
    returns (k: nat, b: Actor)
    requires Importable(db, projectId, keyConfigured) && Target(target, mint) && creds == AllIssued(DocOf(db, projectId), mint)
    requires a in db.actors && ActorsIn(projectId)(a)
    ensures k < |DocOf(db, projectId).actors| && DocOf(db, projectId).actors[k].ref == a.keyId && k < |creds.actors|
    ensures b.keyId == mint(OfActorKeyId(k))
    ensures CarriedBy(a, creds, creds.actors[k], Imported(target, DocOf(db, projectId), mint, at), b)
  {
    hide Keyed, UniqueLiveSlugs, OneGrantPerTarget, OneGrantInProject, LinksInApp, AppTravels, DocOf, Imported, FreshImport, WellLinked, GoodImport,
         UniqueSlugs, SlashFree, AppResolves, ActorResolves, ActorDocFn, Accepts, Exported, AllIssued, OneActorUnder;
    var d := DocOf(db, projectId);
    WellLinkedLinks(db, projectId);
    TargetStaysConsistent(db, projectId, target, mint, at, keyConfigured);
    AcceptedUnique(d, mint, keyConfigured);
    k := EntryOfActor(db, projectId, a);
    OneCredential(d, mint, creds, k);
    b := IssuedActor(target, d, mint, at, creds, k);
  }

  lemma AcceptedUnique(d: Doc, mint: Mint, keyConfigured: bool)
    requires Accepts(d, mint, keyConfigured)
    ensures UniqueSlugs(d)
  {
    hide UniqueSlugs;
  }

  /**
   * Export then import preserves meaning: for every live actor of the project the
   * import returns one credential under the actor's old key id, that credential names
   * one live actor of the new project, and the two resolve to the same addresses with
   * the same permissions, at every reading of the clock.
   */
  lemma AccessSurvives(db: Db, projectId: Id, target: Db, mint: Mint, at: Time, keyConfigured: bool,
                       creds: Credentials, a: Actor, now: Time, pattern: string, permission: Permission)
    returns (c: Issued, b: Actor)
    requires Importable(db, projectId, keyConfigured) && Target(target, mint)
    requires creds == AllIssued(DocOf(db, projectId), mint)
    requires a in db.actors && a.projectId == projectId && a.deletedAt.None?
    ensures CarriedBy(a, creds, c, Imported(target, DocOf(db, projectId), mint, at), b)
    ensures SessionGrants(db, a, now, pattern, permission) <==>
            SessionGrants(Imported(target, DocOf(db, projectId), mint, at), b, now, pattern, permission)
  {
    hide Importable, Target, DocOf, Imported, AllIssued, SessionGrants;
    var k;
    k, b := CredentialCarries(db, projectId, target, mint, at, keyConfigured, creds, a);
    c := creds.actors[k];
    EntrySurvives(db, projectId, target, mint, at, keyConfigured, a, k, b, now, pattern, permission);
  }

  lemma WellLinkedLinks(db: Db, projectId: Id)
    requires WellLinked(db, projectId)
    ensures LinksInApp(db, projectId)
  {
  }

  lemma DocOfSome(db: Db, projectId: Id)
    requires Exported(db, projectId).Some?
    ensures Exported(db, projectId) == Some(DocOf(db, projectId))
  {
  }
}
