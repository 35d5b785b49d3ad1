/** Signing keys: stored rows, and the cache that spares a verification the read and the decryption. */
module SigningKeys {
  import opened Prelude
  import opened Schema
  import TtlCache

  const KID_TTL := 60_000

  datatype Resolved = Resolved(key: SigningKey, secret: string)

  function LiveKid(kid: string): SigningKey -> bool {
    (k: SigningKey) => k.keyId == kid && k.deletedAt.None?
  }

  function KeyById(signingKeyId: Id, projectId: Id): SigningKey -> bool {
    (k: SigningKey) => k.signingKeyId == signingKeyId && k.projectId == projectId && k.deletedAt.None?
  }

  /** What the tables alone say of a key id: the secret does not decrypt when no encryption key is configured. */
  function Direct(keys: seq<SigningKey>, decrypt: string -> Option<string>, kid: string): Option<Resolved> {
    match FindFirst(keys, LiveKid(kid))
    case None => None
    case Some(k) =>
      if k.status != KeyActive then None
      else match decrypt(k.secretEncrypted) case None => None case Some(secret) => Some(Resolved(k, secret))
  }

  datatype Op =
    | Create(signingKeyId: Id, projectId: Id, keyId: string, encrypted: Option<string>, keyName: string)
    | Patch(signingKeyId: Id, projectId: Id, name: Option<string>, status: Option<KeyStatus>)
    | Remove(signingKeyId: Id, projectId: Id)
    | Resolve(kid: string)

  datatype Event = Event(op: Op, now: Time)

  datatype Store = Store(keys: seq<SigningKey>, cache: TtlCache.State<Resolved>)

  datatype Answer = Saved(key: SigningKey) | NoEncryptionKey | NotFound | Found(resolved: Option<Resolved>) | Removed

  function NewRow(signingKeyId: Id, projectId: Id, keyId: string, secretEncrypted: string, name: string): SigningKey {
    SigningKey(signingKeyId, projectId, keyId, secretEncrypted, name, KeyActive, None)
  }

  function PatchRow(op: Op): SigningKey -> SigningKey
    requires op.Patch?
  {
    (k: SigningKey) =>
      if KeyById(op.signingKeyId, op.projectId)(k) then k.(name := op.name.GetOr(k.name), status := op.status.GetOr(k.status)) else k
  }

  function RemoveRow(signingKeyId: Id, projectId: Id, now: Time): SigningKey -> SigningKey {
    (k: SigningKey) => if KeyById(signingKeyId, projectId)(k) then k.(deletedAt := Some(now)) else k
  }

  function Forget(s: TtlCache.State<Resolved>, kid: string, now: Time): TtlCache.State<Resolved> {
    TtlCache.Step(KID_TTL, s, TtlCache.Event(TtlCache.Delete(kid), now)).0
  }

  /** Resolution through the cache. A hit is answered from it; a usable key is put in it. */
  function ResolveKey(s: Store, decrypt: string -> Option<string>, kid: string, now: Time): (Store, Option<Resolved>) {
    var (cache, hit) := TtlCache.Step(KID_TTL, s.cache, TtlCache.Event(TtlCache.Get(kid), now));
    if hit.Some? then (s.(cache := cache), hit)
    else
      match Direct(s.keys, decrypt, kid)
      case None => (s.(cache := cache), None)
      case Some(r) => (s.(cache := TtlCache.Step(KID_TTL, cache, TtlCache.Event(TtlCache.Set(kid, r), now)).0), Some(r))
  }

  function Step(s: Store, decrypt: string -> Option<string>, e: Event): (Store, Answer) {
    match e.op
    case Create(id, projectId, keyId, encrypted, name) =>
      (match encrypted
       case None => (s, NoEncryptionKey)
       case Some(secret) =>
         var row := NewRow(id, projectId, keyId, secret, name);
         (s.(keys := s.keys + [row]), Saved(row)))
    case Patch(id, projectId, _, _) =>
      (match FindFirst(s.keys, KeyById(id, projectId))
       case None => (s, NotFound)
       case Some(k) => (Store(Map(s.keys, PatchRow(e.op)), Forget(s.cache, k.keyId, e.now)), Saved(PatchRow(e.op)(k))))
    case Remove(id, projectId) =>
      (match FindFirst(s.keys, KeyById(id, projectId))
       case None => (s, NotFound)
       case Some(k) => (Store(Map(s.keys, RemoveRow(id, projectId, e.now)), Forget(s.cache, k.keyId, e.now)), Removed))
    case Resolve(kid) => var (s', r) := ResolveKey(s, decrypt, kid, e.now); (s', Found(r))
  }

  /* ── client tokens ───────────────────────────────────────────────────── */

  const MAX_TTL_SECONDS := 3600
  const CLOCK_SKEW_SECONDS := 60

  /** Times in claims are whole seconds. */
  datatype Claims = Claims(sub: Option<string>, exp: Option<int>, nbf: Option<int>, iat: Option<int>)

  /** A presented token: its header, and the claims each secret would open it to, if any. */
  datatype ClientToken = ClientToken(wellShaped: bool, alg: string, kid: Option<string>, opens: string -> Option<Claims>)

  datatype Verified = Verified(key: SigningKey, claims: Claims)

  predicate IsHex(c: char) { '0' <= c <= '9' || 'a' <= c <= 'f' }

  predicate HexAfter(head: string, s: string) {
    head <= s && |s| == |head| + 12 && forall i :: |head| <= i < |s| ==> IsHex(s[i])
  }

  /** `<prefix>_(live|sandbox)_<12 hex>`. */
  predicate IsPublicId(prefix: string, s: string) {
    HexAfter(prefix + "_live_", s) || HexAfter(prefix + "_sandbox_", s)
  }

  /** The checks made before any lookup. */
  predicate HeaderOk(token: ClientToken) {
    token.wellShaped && token.alg == "HS256" && token.kid.Some? && IsPublicId("sk", token.kid.value)
  }

  function Seconds(now: Time): int { now / 1000 }

  /** What verifying the signature also checks, with the tolerance: not expired (RFC 7519, section 4.1.4), not too early (section 4.1.5). */
  predicate InTime(claims: Claims, now: Time) {
    && (claims.exp.Some? ==> Seconds(now) < claims.exp.value + CLOCK_SKEW_SECONDS)
    && (claims.nbf.Some? ==> claims.nbf.value <= Seconds(now) + CLOCK_SKEW_SECONDS)
  }

  /** The checks made once a key is found. */
  function Verify(token: ClientToken, found: Option<Resolved>, now: Time): Option<Verified> {
    if found.None? then None
    else
      match token.opens(found.value.secret)
      case None => None
      case Some(claims) =>
        if !InTime(claims, now) then None
        else if claims.exp.None? || claims.exp.value > Seconds(now) + MAX_TTL_SECONDS + CLOCK_SKEW_SECONDS then None
        else if claims.sub.None? || !IsPublicId("at", claims.sub.value) then None
        else Some(Verified(found.value.key, claims))
  }

  /** Nothing is looked up until the header is known-good; then the claims are judged by the key found. */
  function VerifyToken(s: Store, decrypt: string -> Option<string>, token: ClientToken, now: Time): (Store, Option<Verified>) {
    if !HeaderOk(token) then (s, None)
    else
      var (s', found) := ResolveKey(s, decrypt, token.kid.value, now);
      (s', Verify(token, found, now))
  }

  /* ── the service ─────────────────────────────────────────────────────── */

  class SigningKeyService {
    var keys: seq<SigningKey>
    const kidCache: TtlCache.Cache<Resolved>
    const decrypt: string -> Option<string>

    ghost function Abstract(): Store
      reads this, kidCache
    {
      Store(keys, kidCache.Abstract())
    }

    ghost predicate Valid()
      reads this, kidCache
    {
      kidCache.Valid() && kidCache.ttl == KID_TTL
    }

    constructor (keys: seq<SigningKey>, decrypt: string -> Option<string>)
      ensures Valid() && fresh(kidCache) && this.decrypt == decrypt
      ensures Abstract() == Store(keys, TtlCache.State(map[], 0, 0))
    {
      this.keys, this.decrypt := keys, decrypt;
      kidCache := new TtlCache.Cache(KID_TTL);
    }

    /** Encrypting the drawn secret fails when no encryption key is configured. */
    method CreateSigningKey(signingKeyId: Id, projectId: Id, keyId: string, encrypted: Option<string>, name: string, now: Time)
      returns (answer: Answer)
      requires Valid()
      modifies this
      ensures Valid()
      ensures (Abstract(), answer) == Step(old(Abstract()), decrypt, Event(Create(signingKeyId, projectId, keyId, encrypted, name), now))
    {
      if encrypted.None? { return NoEncryptionKey; }
      var row := SigningKey(signingKeyId, projectId, keyId, encrypted.value, name, KeyActive, None);
      keys := keys + [row];
      return Saved(row);
    }

    method PatchSigningKey(signingKeyId: Id, projectId: Id, name: Option<string>, status: Option<KeyStatus>, now: Time)
      returns (answer: Answer)
      requires Valid()
      modifies this, kidCache
      ensures Valid()
      ensures (Abstract(), answer) == Step(old(Abstract()), decrypt, Event(Patch(signingKeyId, projectId, name, status), now))
    {
      var found := FindFirst(keys, KeyById(signingKeyId, projectId));
      if found.None? { return NotFound; }
      keys := Map(keys, PatchRow(Patch(signingKeyId, projectId, name, status)));
      kidCache.Remove(found.value.keyId);
      return Saved(PatchRow(Patch(signingKeyId, projectId, name, status))(found.value));
    }

    method RemoveSigningKey(signingKeyId: Id, projectId: Id, now: Time) returns (answer: Answer)
      requires Valid()
      modifies this, kidCache
      ensures Valid() && (Abstract(), answer) == Step(old(Abstract()), decrypt, Event(Remove(signingKeyId, projectId), now))
    {
      var found := FindFirst(keys, KeyById(signingKeyId, projectId));
      if found.None? { return NotFound; }
      keys := Map(keys, RemoveRow(signingKeyId, projectId, now));
      kidCache.Remove(found.value.keyId);
      return Removed;
    }

    method ResolveSigningKey(kid: string, now: Time) returns (r: Option<Resolved>)
      requires Valid()
      modifies this, kidCache
      ensures Valid() && (Abstract(), Found(r)) == Step(old(Abstract()), decrypt, Event(Resolve(kid), now))
      ensures keys == old(keys)
    {
      var cached := kidCache.Read(kid, now);
      if cached.Some? { return cached; }
      var found := FindFirst(keys, LiveKid(kid));
      if found.None? { return None; }
      if found.value.status != KeyActive { return None; }
      var secret := decrypt(found.value.secretEncrypted);
      if secret.None? { return None; }
      r := Some(Resolved(found.value, secret.value));
      kidCache.Write(kid, r.value, now);
    }

    method VerifyClientToken(token: ClientToken, now: Time) returns (r: Option<Verified>)
      requires Valid()
      modifies this, kidCache
      ensures Valid() && keys == old(keys)
      ensures (Abstract(), r) == VerifyToken(old(Abstract()), decrypt, token, now)
    {
      if !token.wellShaped || token.alg != "HS256" { return None; }
      if token.kid.None? || !IsPublicId("sk", token.kid.value) { return None; }
      var resolved := ResolveSigningKey(token.kid.value, now);
      if resolved.None? { return None; }
      var claims := token.opens(resolved.value.secret);
      if claims.None? || !InTime(claims.value, now) { return None; }
      if claims.value.exp.None? { return None; }
      if claims.value.exp.value > Seconds(now) + MAX_TTL_SECONDS + CLOCK_SKEW_SECONDS { return None; }
      if claims.value.sub.None? || !IsPublicId("at", claims.value.sub.value) { return None; }
      return Some(Verified(resolved.value.key, claims.value));
    }
  }

  /* ── coherence ───────────────────────────────────────────────────────── */

  /** Every entry, fresh or stale, is what the tables would answer. */
  ghost predicate Coherent(s: Store, decrypt: string -> Option<string>) {
    && DistinctBy(s.keys, SigningKeyId) && DistinctBy(s.keys, RowId)
    && forall kid :: kid in s.cache.entries ==> Direct(s.keys, decrypt, kid) == Some(s.cache.entries[kid].value)
  }

  function RowId(k: SigningKey): Id { k.signingKeyId }

  /** New rows are drawn with ids and public key ids no row has had. */
  ghost predicate FreshOp(s: Store, op: Op) {
    op.Create? ==> forall k :: k in s.keys ==> k.keyId != op.keyId && k.signingKeyId != op.signingKeyId
  }

  /** Changing rows of other key ids, in place, changes no answer for this one. */
  lemma DirectAfterMap(keys: seq<SigningKey>, f: SigningKey -> SigningKey, decrypt: string -> Option<string>, kid: string)
    requires forall k :: k in keys ==> f(k).keyId == k.keyId && (k.keyId == kid ==> f(k) == k)
    ensures Direct(Map(keys, f), decrypt, kid) == Direct(keys, decrypt, kid)
  {
    FindFirstOfMap(keys, f, LiveKid(kid), LiveKid(kid));
  }

  /** A key is the only one of its key id and the only one of its row id. */
  lemma OnlyRow(s: Store, decrypt: string -> Option<string>, k: SigningKey, other: SigningKey)
    requires Coherent(s, decrypt) && k in s.keys && other in s.keys
    ensures k.keyId == other.keyId <==> k == other
    ensures k.signingKeyId == other.signingKeyId <==> k == other
  {
    hide Direct;
    if k.keyId == other.keyId { DistinctByMember(s.keys, SigningKeyId, k, other); }
    if k.signingKeyId == other.signingKeyId { DistinctByMember(s.keys, RowId, k, other); }
  }

  lemma RewriteCoherent(s: Store, decrypt: string -> Option<string>, k: SigningKey, f: SigningKey -> SigningKey, now: Time)
    requires Coherent(s, decrypt) && k in s.keys
    requires forall x :: x in s.keys ==> f(x).keyId == x.keyId && f(x).signingKeyId == x.signingKeyId && (x != k ==> f(x) == x)
    ensures Coherent(Store(Map(s.keys, f), Forget(s.cache, k.keyId, now)), decrypt)
  {
    hide Direct, DistinctBy;
    DistinctByMap(s.keys, f, SigningKeyId, SigningKeyId);
    DistinctByMap(s.keys, f, RowId, RowId);
    forall kid | kid in Forget(s.cache, k.keyId, now).entries
      ensures Direct(Map(s.keys, f), decrypt, kid) == Some(s.cache.entries[kid].value)
    {
      DirectAfterMap(s.keys, f, decrypt, kid);
    }
  }

  lemma CreateCoherent(s: Store, decrypt: string -> Option<string>, row: SigningKey)
    requires Coherent(s, decrypt) && forall k :: k in s.keys ==> k.keyId != row.keyId && k.signingKeyId != row.signingKeyId
    ensures Coherent(s.(keys := s.keys + [row]), decrypt)
  {
    DistinctByAppend(s.keys, [row], SigningKeyId);
    DistinctByAppend(s.keys, [row], RowId);
    forall kid | kid in s.cache.entries ensures Direct(s.keys + [row], decrypt, kid) == Some(s.cache.entries[kid].value) {
      FindFirstAppend(s.keys, [row], LiveKid(kid));
    }
  }

  lemma ResolveCoherent(s: Store, decrypt: string -> Option<string>, kid: string, now: Time)
    requires Coherent(s, decrypt)
    ensures var (s', r) := ResolveKey(s, decrypt, kid, now); Coherent(s', decrypt) && r == Direct(s.keys, decrypt, kid)
  {
    hide Direct, DistinctBy;
  }

  lemma StepCoherent(s: Store, decrypt: string -> Option<string>, e: Event)
    requires Coherent(s, decrypt) && FreshOp(s, e.op)
    ensures Coherent(Step(s, decrypt, e).0, decrypt)
  {
    hide Direct, Coherent, Forget, ResolveKey;
    match e.op
    case Create(id, projectId, keyId, encrypted, name) =>
      if encrypted.Some? { CreateCoherent(s, decrypt, NewRow(id, projectId, keyId, encrypted.value, name)); }
    case Resolve(kid) => ResolveCoherent(s, decrypt, kid, e.now);
    case Patch(id, projectId, _, _) =>
      var found := FindFirst(s.keys, KeyById(id, projectId));
      if found.Some? {
        forall x | x in s.keys ensures x != found.value ==> PatchRow(e.op)(x) == x { OnlyRow(s, decrypt, found.value, x); }
        RewriteCoherent(s, decrypt, found.value, PatchRow(e.op), e.now);
      }
    case Remove(id, projectId) =>
      var found := FindFirst(s.keys, KeyById(id, projectId));
      if found.Some? {
        forall x | x in s.keys ensures x != found.value ==> RemoveRow(id, projectId, e.now)(x) == x { OnlyRow(s, decrypt, found.value, x); }
        RewriteCoherent(s, decrypt, found.value, RemoveRow(id, projectId, e.now), e.now);
      }
  }

  function Run(s: Store, decrypt: string -> Option<string>, events: seq<Event>): Store {
    if events == [] then s else Step(Run(s, decrypt, events[..|events| - 1]), decrypt, events[|events| - 1]).0
  }

  /** Every create of the run draws ids no row of the table has at that moment. */
  ghost predicate FreshRun(s: Store, decrypt: string -> Option<string>, events: seq<Event>) {
    forall n :: 0 <= n < |events| ==> FreshOp(Run(s, decrypt, events[..n]), events[n].op)
  }

  /** Rows with distinct ids, and nothing cached yet. */
  ghost predicate Start(s: Store) {
    DistinctBy(s.keys, SigningKeyId) && DistinctBy(s.keys, RowId) && s.cache == TtlCache.State(map[], 0, 0)
  }

  lemma {:induction false} RunCoherent(s: Store, decrypt: string -> Option<string>, events: seq<Event>)
    requires Start(s) && FreshRun(s, decrypt, events)
    ensures Coherent(Run(s, decrypt, events), decrypt)
  {
    hide Step, FreshOp;
    if events != [] {
      var pre := events[..|events| - 1];
      forall n | 0 <= n < |pre| ensures FreshOp(Run(s, decrypt, pre[..n]), pre[n].op) {
        assert pre[..n] == events[..n];
        assert FreshOp(Run(s, decrypt, events[..n]), events[n].op);
      }
      RunCoherent(s, decrypt, pre);
      StepCoherent(Run(s, decrypt, pre), decrypt, events[|events| - 1]);
    }
  }

  /** In every serial run, at any clock, the cache answers what the tables say at that moment. */
  lemma CachedIsDirect(s: Store, decrypt: string -> Option<string>, events: seq<Event>, kid: string, now: Time)
    requires Start(s) && FreshRun(s, decrypt, events)
    ensures var e := Run(s, decrypt, events);
            Step(e, decrypt, Event(Resolve(kid), now)).1 == Found(Direct(e.keys, decrypt, kid))
  {
    hide Direct;
    RunCoherent(s, decrypt, events);
    ResolveCoherent(Run(s, decrypt, events), decrypt, kid, now);
  }
}
