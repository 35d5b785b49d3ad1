/** The transaction an import runs in, and the checks it makes before writing. */
module ImportStore {
  import opened Prelude
  import opened Schema
  import opened ProjectDoc
  import opened Tables
  import opened ProjectImport

  datatype ImportError =
    | UnsupportedVersion | Duplicate(kind: string, value: string)
    | UnknownRoom(slug: string) | UnknownScope(slug: string) | UnknownApp(slug: string)
    | UniqueViolation | NoEncryptionKey

  /** What comes back once for a document entry: its handle, the public key id minted for it, and the credential to present. */
  datatype Issued = Issued(ref: string, keyId: string, credential: string)

  datatype Credentials = Credentials(projectId: Id, actors: seq<Issued>, signingKeys: seq<Issued>)

  function IssueActor(doc: Doc, mint: Mint, k: nat): Issued
    requires k < |doc.actors|
  {
    Issued(doc.actors[k].ref, mint(OfActorKeyId(k)), mint(OfActorKeyId(k)) + "." + mint(OfActorSecret(k)))
  }

  function IssueKey(doc: Doc, mint: Mint, i: nat): Issued
    requires i < |doc.signingKeys|
  {
    Issued(doc.signingKeys[i].ref, mint(OfKeyId(i)), mint(OfKeyId(i)) + "." + mint(OfKeySecret(i)))
  }

  function ActorCredentials(doc: Doc, mint: Mint): seq<Issued> {
    seq(|doc.actors|, k requires 0 <= k < |doc.actors| => IssueActor(doc, mint, k))
  }

  function KeyCredentials(doc: Doc, mint: Mint): seq<Issued> {
    seq(|doc.signingKeys|, i requires 0 <= i < |doc.signingKeys| => IssueKey(doc, mint, i))
  }

  /** What a successful import returns. */
  function AllIssued(doc: Doc, mint: Mint): Credentials {
    Credentials(mint(OfProject), ActorCredentials(doc, mint), KeyCredentials(doc, mint))
  }

  /** The transaction's entity manager: the tables, changed by saving rows. */
  class EntityManager {
    var db: Db

    constructor (db: Db)
      ensures this.db == db
    {
      this.db := db;
    }

    method Save(rows: Db)
      modifies this
      ensures db == Plus(old(db), rows)
    {
      db := Plus(db, rows);
    }

    /** A link is saved by its primary key: an existing one is only touched. */
    method UpsertLink(link: LobbyRoom)
      requires link.deletedAt.None?
      modifies this
      ensures db == old(db).(lobbyRooms := SaveLink(old(db).lobbyRooms, link))
    {
      db := db.(lobbyRooms := SaveLink(db.lobbyRooms, link));
    }

    /** Rejected by the unique constraint when the actor already has a row for the app. */
    method InsertAppGrant(g: AppGrant) returns (ok: bool)
      modifies this
      ensures ok <==> forall h :: h in old(db).appGrants ==> AppGrantKey(h) != AppGrantKey(g)
      ensures db == if ok then Plus(old(db), EMPTY.(appGrants := [g])) else old(db)
    {
      ok := true;
      for i := 0 to |db.appGrants|
        invariant ok <==> forall j :: 0 <= j < i ==> AppGrantKey(db.appGrants[j]) != AppGrantKey(g)
        invariant db == old(db)
      {
        if AppGrantKey(db.appGrants[i]) == AppGrantKey(g) { ok := false; }
      }
      if ok { db := Plus(db, EMPTY.(appGrants := [g])); }
    }
  }

  /** A set of seen values, as the service checks one list of slugs. */
  method CheckUnique(values: seq<string>) returns (dup: Option<string>)
    ensures dup.None? <==> Distinct(values)
    ensures dup.Some? ==> exists i, j :: 0 <= i < j < |values| && values[i] == values[j] == dup.value
  {
    var seen: set<string> := {};
    for i := 0 to |values|
      invariant seen == set k | 0 <= k < i :: values[k]
      invariant Distinct(values[..i])
    {
      if values[i] in seen { return Some(values[i]); }
      seen := seen + {values[i]};
    }
    assert values[..|values|] == values;
    return None;
  }

  method AssertUniqueSlugs(doc: Doc) returns (error: Option<ImportError>)
    ensures error.None? <==> UniqueSlugs(doc)
    ensures error.Some? ==> error.value.Duplicate?
  {
    var dup := CheckUnique(Map(doc.accessScopes, ScopeSlug));
    if dup.Some? { return Some(Duplicate("access scope slug", dup.value)); }
    dup := CheckUnique(Map(doc.apps, AppSlug));
    if dup.Some? { return Some(Duplicate("app slug", dup.value)); }
    dup := CheckUnique(Map(doc.actors, ActorRef));
    if dup.Some? { return Some(Duplicate("actor ref", dup.value)); }
    dup := CheckUnique(Map(doc.signingKeys, KeyRef));
    if dup.Some? { return Some(Duplicate("signing key ref", dup.value)); }
    for i := 0 to |doc.apps|
      invariant forall k :: 0 <= k < i ==>
                  Distinct(Map(doc.apps[k].rooms, RoomSlug)) && Distinct(Map(doc.apps[k].lobbies, LobbySlug))
    {
      dup := CheckUnique(Map(doc.apps[i].rooms, RoomSlug));
      if dup.Some? { return Some(Duplicate("room slug", dup.value)); }
      dup := CheckUnique(Map(doc.apps[i].lobbies, LobbySlug));
      if dup.Some? { return Some(Duplicate("lobby slug", dup.value)); }
    }
    return None;
  }
}
