/** What an import returns, and what its caller can do with it. */
module ImportIssued {
  import opened Prelude
  import opened Schema
  import opened ProjectDoc
  import opened Tables
  import opened ProjectImport
  import opened ImportStore
  import opened ImportTables
  import opened ImportQueries
  import opened ImportKeyed
  import ActorAuth
  import SigningKeys

  /* ── each handle comes back with the key id of the row made for it ───── */

  /** The actor row made from this document entry and known by the issued key id. */
  ghost predicate ActorMadeFrom(b: Actor, projectId: Id, c: Issued, d: ActorDoc) {
    && b.projectId == projectId && b.keyId == c.keyId && b.deletedAt.None?
    && b.name == d.name && b.actorType == d.actorType && b.expiresAt == d.expiresAt && b.metadata == d.metadata
    && b.status == (if d.status.Some? then d.status.value else ActorActive)
  }

  /** The signing key row made from this document entry: live and active from the start. */
  ghost predicate KeyMadeFrom(b: SigningKey, projectId: Id, c: Issued, d: KeyDoc) {
    && b.projectId == projectId && b.keyId == c.keyId && b.deletedAt.None? && b.name == d.name && b.status == KeyActive
  }

  lemma ActorRowMade(doc: Doc, mint: Mint, k: nat)
    requires k < |doc.actors|
    ensures |ActorRows(doc, mint)| == |doc.actors|
    ensures ActorMadeFrom(ActorRows(doc, mint)[k], mint(OfProject), IssueActor(doc, mint, k), doc.actors[k])
    ensures ActorRows(doc, mint)[k].secretHash == mint(OfActorHash(k))
  {
    hide ScopeIdOf, ScopeIds;
  }

  lemma KeyRowMade(doc: Doc, mint: Mint, i: nat)
    requires i < |doc.signingKeys|
    ensures KeyMadeFrom(KeyRows(doc, mint)[i], mint(OfProject), IssueKey(doc, mint, i), doc.signingKeys[i])
    ensures KeyRows(doc, mint)[i].secretEncrypted == mint(OfKeyCipher(i))
  {
  }

  /** The one row of the database under this key id. */
  ghost predicate OneActorUnder(db: Db, keyId: string, b: Actor) {
    b in db.actors && b.keyId == keyId && forall x :: x in db.actors && x.keyId == keyId ==> x == b
  }

  ghost predicate OneKeyUnder(db: Db, keyId: string, b: SigningKey) {
    b in db.signingKeys && b.keyId == keyId && forall x :: x in db.signingKeys && x.keyId == keyId ==> x == b
  }

  /**
   * Entry by entry and in document order, an import hands back the document's own
   * handle and the key id of the one row it made from that entry, in the new project.
   */
  lemma IssuedActor(db: Db, doc: Doc, mint: Mint, now: Time, creds: Credentials, k: nat) returns (b: Actor)
    requires FreshImport(db, mint) && Keyed(db) && creds == AllIssued(doc, mint) && k < |doc.actors|
    ensures |creds.actors| == |doc.actors| && creds.actors[k].ref == doc.actors[k].ref
    ensures OneActorUnder(Imported(db, doc, mint, now), creds.actors[k].keyId, b) && b !in db.actors
    ensures ActorMadeFrom(b, creds.projectId, creds.actors[k], doc.actors[k])
    ensures b.keyId == mint(OfActorKeyId(k)) && b.secretHash == mint(OfActorHash(k))
  {
    hide Imported, ActorRows, ScopeIdOf, ScopeIds, DistinctBy, Fresh, ActorMadeFrom;
    ActorRowMade(doc, mint, k);
    ActorRowAt(doc, mint, k);
    ActorRowsKeyed(db, doc, mint);
    ActorTable(db, doc, mint, now);
    ActorsKeyed(db, doc, mint, now);
    b := ActorRows(doc, mint)[k];
    assert b in ActorRows(doc, mint);
    forall x | x in Imported(db, doc, mint, now).actors && x.keyId == b.keyId ensures x == b {
      DistinctByMember(Imported(db, doc, mint, now).actors, ActorKeyId, x, b);
    }
  }

  lemma IssuedKey(db: Db, doc: Doc, mint: Mint, now: Time, creds: Credentials, i: nat) returns (b: SigningKey)
    requires FreshImport(db, mint) && Keyed(db) && creds == AllIssued(doc, mint) && i < |doc.signingKeys|
    ensures |creds.signingKeys| == |doc.signingKeys| && creds.signingKeys[i].ref == doc.signingKeys[i].ref
    ensures OneKeyUnder(Imported(db, doc, mint, now), creds.signingKeys[i].keyId, b) && b !in db.signingKeys
    ensures KeyMadeFrom(b, creds.projectId, creds.signingKeys[i], doc.signingKeys[i])
    ensures b.secretEncrypted == mint(OfKeyCipher(i))
  {
    hide Imported, DistinctBy, Fresh;
    KeyRowMade(doc, mint, i);
    KeyRowsKeyed(db, doc, mint);
    KeyTable(db, doc, mint, now);
    HeadKeyed(db, doc, mint, now);
    b := KeyRows(doc, mint)[i];
    assert b in KeyRows(doc, mint);
    forall x | x in Imported(db, doc, mint, now).signingKeys && x.keyId == b.keyId ensures x == b {
      DistinctByMember(Imported(db, doc, mint, now).signingKeys, SigningKeyId, x, b);
    }
  }

  /* ── the returned credentials work ───────────────────────────────────── */

  /** The generator's promise: parts without a dot, and a stored hash that matches the secret. */
  ghost predicate HashesDrawn(mint: Mint, matches: ActorAuth.Hash) {
    forall k: nat :: ActorAuth.Part(mint(OfActorKeyId(k))) && ActorAuth.Part(mint(OfActorSecret(k)))
                  && matches(mint(OfActorHash(k)), mint(OfActorSecret(k)))
  }

  /** An issued actor credential signs in as the row made for its entry, exactly while that entry is active and unexpired. */
  lemma IssuedActorSignsIn(db: Db, doc: Doc, mint: Mint, now: Time, creds: Credentials, k: nat, matches: ActorAuth.Hash, t: Time)
    returns (b: Actor)
    requires FreshImport(db, mint) && Keyed(db) && creds == AllIssued(doc, mint) && k < |doc.actors| && HashesDrawn(mint, matches)
    ensures OneActorUnder(Imported(db, doc, mint, now), creds.actors[k].keyId, b)
    ensures ActorMadeFrom(b, creds.projectId, creds.actors[k], doc.actors[k])
    ensures var d := doc.actors[k];
            ActorAuth.Direct(Imported(db, doc, mint, now).actors, matches, creds.actors[k].credential, t) ==
            if d.status != Some(ActorDisabled) && (d.expiresAt.Some? ==> t <= d.expiresAt.value) then Some(b) else None
  {
    hide Imported, FreshImport, Keyed, ActorAuth.SplitCredential;
    b := IssuedActor(db, doc, mint, now, creds, k);
    ActorAuth.SplitIff(creds.actors[k].credential, b.keyId, mint(OfActorSecret(k)));
    var found := FindFirst(Imported(db, doc, mint, now).actors, ActorAuth.LiveKeyId(b.keyId));
    assert ActorAuth.LiveKeyId(b.keyId)(b);
  }

  /** An issued signing key resolves at once, to the row made for its entry and the secret in the credential. */
  lemma IssuedKeyResolves(db: Db, doc: Doc, mint: Mint, now: Time, creds: Credentials, i: nat, decrypt: string -> Option<string>)
    returns (b: SigningKey, secret: string)
    requires FreshImport(db, mint) && Keyed(db) && creds == AllIssued(doc, mint) && i < |doc.signingKeys|
    requires decrypt(mint(OfKeyCipher(i))) == Some(mint(OfKeySecret(i)))
    ensures OneKeyUnder(Imported(db, doc, mint, now), creds.signingKeys[i].keyId, b)
    ensures KeyMadeFrom(b, creds.projectId, creds.signingKeys[i], doc.signingKeys[i])
    ensures creds.signingKeys[i].credential == b.keyId + "." + secret
    ensures SigningKeys.Direct(Imported(db, doc, mint, now).signingKeys, decrypt, creds.signingKeys[i].keyId)
            == Some(SigningKeys.Resolved(b, secret))
  {
    hide Imported, FreshImport, Keyed;
    b := IssuedKey(db, doc, mint, now, creds, i);
    secret := mint(OfKeySecret(i));
    assert SigningKeys.LiveKid(b.keyId)(b);
  }
}
