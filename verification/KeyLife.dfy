/** What a signing key's life means for the tokens it signs, from creation to removal. */
module KeyLife {
  import opened Prelude
  import opened Schema
  import opened SigningKeys

  /* ── what each operation does to the rows ────────────────────────────── */

  /** The live row a request names. */
  ghost predicate Named(k: SigningKey, signingKeyId: Id, projectId: Id) {
    k.signingKeyId == signingKeyId && k.projectId == projectId && k.deletedAt.None?
  }

  /** The fields given are set; every other one stays. */
  ghost predicate PatchedFrom(k: SigningKey, k': SigningKey, name: Option<string>, status: Option<KeyStatus>) {
    && k'.name == (if name.Some? then name.value else k.name)
    && k'.status == (if status.Some? then status.value else k.status)
    && k'.signingKeyId == k.signingKeyId && k'.projectId == k.projectId && k'.keyId == k.keyId
    && k'.secretEncrypted == k.secretEncrypted && k'.deletedAt == k.deletedAt
  }

  /** Deleted at that moment, and otherwise as it was. */
  ghost predicate RemovedFrom(k: SigningKey, k': SigningKey, now: Time) {
    && k'.deletedAt == Some(now) && k'.signingKeyId == k.signingKeyId && k'.projectId == k.projectId && k'.keyId == k.keyId
    && k'.secretEncrypted == k.secretEncrypted && k'.name == k.name && k'.status == k.status
  }

  lemma PatchedRow(op: Op, k: SigningKey)
    requires op.Patch?
    ensures Named(k, op.signingKeyId, op.projectId) ==> PatchedFrom(k, PatchRow(op)(k), op.name, op.status)
    ensures !Named(k, op.signingKeyId, op.projectId) ==> PatchRow(op)(k) == k
  {
    assert KeyById(op.signingKeyId, op.projectId)(k) <==> Named(k, op.signingKeyId, op.projectId);
  }

  lemma FoundIff(keys: seq<SigningKey>, signingKeyId: Id, projectId: Id)
    ensures var found := FindFirst(keys, KeyById(signingKeyId, projectId));
            && (found.Some? <==> exists k :: k in keys && Named(k, signingKeyId, projectId))
            && (found.Some? ==> found.value in keys && Named(found.value, signingKeyId, projectId))
  {
    if k :| k in keys && Named(k, signingKeyId, projectId) { assert KeyById(signingKeyId, projectId)(k); }
  }

  /** A patch sets the fields it gives on the live row it names, leaves every other field and row, and is refused if there is none. */
  lemma PatchMeans(s: Store, decrypt: string -> Option<string>, signingKeyId: Id, projectId: Id,
                   name: Option<string>, status: Option<KeyStatus>, now: Time)
    ensures var (s', answer) := Step(s, decrypt, Event(Patch(signingKeyId, projectId, name, status), now));
            && |s'.keys| == |s.keys|
            && (forall i :: 0 <= i < |s.keys| && !Named(s.keys[i], signingKeyId, projectId) ==> s'.keys[i] == s.keys[i])
            && (forall i :: 0 <= i < |s.keys| && Named(s.keys[i], signingKeyId, projectId) ==>
                  PatchedFrom(s.keys[i], s'.keys[i], name, status))
            && (answer.Saved? <==> exists k :: k in s.keys && Named(k, signingKeyId, projectId))
            && (answer.Saved? ==> answer.key in s'.keys && answer.key.signingKeyId == signingKeyId && answer.key.projectId == projectId)
            && (!answer.Saved? ==> answer == NotFound && s' == s)
  {
    hide Forget, PatchRow, KeyById, PatchedFrom, FindFirst;
    FoundIff(s.keys, signingKeyId, projectId);
    var op := Patch(signingKeyId, projectId, name, status);
    forall k ensures Named(k, signingKeyId, projectId) ==> PatchedFrom(k, PatchRow(op)(k), name, status)
             ensures !Named(k, signingKeyId, projectId) ==> PatchRow(op)(k) == k
    { PatchedRow(op, k); }
    var found := FindFirst(s.keys, KeyById(signingKeyId, projectId));
    if found.Some? {
      var i :| 0 <= i < |s.keys| && s.keys[i] == found.value;
      assert Map(s.keys, PatchRow(op))[i] == PatchRow(op)(found.value);
      PatchKeepsIds(op, found.value);
    } else {
      assert forall k :: k in s.keys ==> !Named(k, signingKeyId, projectId);
    }
  }

  lemma PatchKeepsIds(op: Op, k: SigningKey)
    requires op.Patch?
    ensures var k' := PatchRow(op)(k); k'.signingKeyId == k.signingKeyId && k'.projectId == k.projectId && k'.keyId == k.keyId
  {
  }

  /** A removal marks the live row it names as deleted at that moment and leaves everything else. */
  lemma RemoveMeans(s: Store, decrypt: string -> Option<string>, signingKeyId: Id, projectId: Id, now: Time)
    ensures var (s', answer) := Step(s, decrypt, Event(Remove(signingKeyId, projectId), now));
            && |s'.keys| == |s.keys|
            && (forall i :: 0 <= i < |s.keys| && !Named(s.keys[i], signingKeyId, projectId) ==> s'.keys[i] == s.keys[i])
            && (forall i :: 0 <= i < |s.keys| && Named(s.keys[i], signingKeyId, projectId) ==> RemovedFrom(s.keys[i], s'.keys[i], now))
            && (answer == Removed <==> exists k :: k in s.keys && Named(k, signingKeyId, projectId))
            && (answer != Removed ==> answer == NotFound && s' == s)
  {
    hide Forget, FindFirst;
    FoundIff(s.keys, signingKeyId, projectId);
  }

  /** A creation appends one live active row with the drawn ids, and needs the secret encrypted. */
  lemma CreateMeans(s: Store, decrypt: string -> Option<string>, signingKeyId: Id, projectId: Id, keyId: string,
                    encrypted: Option<string>, name: string, now: Time)
    ensures var (s', answer) := Step(s, decrypt, Event(Create(signingKeyId, projectId, keyId, encrypted, name), now));
            if encrypted.None? then s' == s && answer == NoEncryptionKey
            else
              && answer.Saved? && s'.keys == s.keys + [answer.key] && s'.cache == s.cache
              && Named(answer.key, signingKeyId, projectId) && answer.key.keyId == keyId && answer.key.status == KeyActive
              && answer.key.secretEncrypted == encrypted.value && answer.key.name == name
  {
  }

  /* ── what a resolution answers ───────────────────────────────────────── */

  /** The stored row of this key id is live and active, and its secret decrypts to this one. */
  ghost predicate Usable(keys: seq<SigningKey>, decrypt: string -> Option<string>, kid: string, r: Resolved) {
    && r.key in keys && r.key.keyId == kid && r.key.deletedAt.None? && r.key.status == KeyActive
    && decrypt(r.key.secretEncrypted) == Some(r.secret)
  }

  lemma DirectIff(keys: seq<SigningKey>, decrypt: string -> Option<string>, kid: string, r: Resolved)
    requires DistinctBy(keys, SigningKeyId)
    ensures Direct(keys, decrypt, kid) == Some(r) <==> Usable(keys, decrypt, kid, r)
  {
    hide DistinctBy;
    if Usable(keys, decrypt, kid, r) {
      assert LiveKid(kid)(r.key);
      DistinctByMember(keys, SigningKeyId, r.key, FindFirst(keys, LiveKid(kid)).value);
    }
  }

  /** After any serial run, through the cache, a key id resolves to its stored row exactly while that row is live, active and decrypts. */
  lemma ResolvedIff(s: Store, decrypt: string -> Option<string>, events: seq<Event>, kid: string, now: Time)
    requires Start(s) && FreshRun(s, decrypt, events)
    ensures var e := Run(s, decrypt, events);
            var answer := Step(e, decrypt, Event(Resolve(kid), now)).1;
            && answer.Found?
            && (answer.resolved.Some? <==> exists r :: Usable(e.keys, decrypt, kid, r))
            && (answer.resolved.Some? ==> Usable(e.keys, decrypt, kid, answer.resolved.value))
  {
    hide Step, Start, FreshRun, Direct, Usable, Run, DistinctBy;
    var e := Run(s, decrypt, events);
    CachedIsDirect(s, decrypt, events, kid, now);
    RunDistinct(s, decrypt, events);
    forall r ensures Direct(e.keys, decrypt, kid) == Some(r) <==> Usable(e.keys, decrypt, kid, r) { DirectIff(e.keys, decrypt, kid, r); }
    if Direct(e.keys, decrypt, kid).Some? {
      assert Direct(e.keys, decrypt, kid) == Some(Direct(e.keys, decrypt, kid).value);
    }
  }

  lemma RunDistinct(s: Store, decrypt: string -> Option<string>, events: seq<Event>)
    requires Start(s) && FreshRun(s, decrypt, events)
    ensures DistinctBy(Run(s, decrypt, events).keys, SigningKeyId) && DistinctBy(Run(s, decrypt, events).keys, RowId)
  {
    hide Start, FreshRun, Direct, DistinctBy, Run;
    RunCoherent(s, decrypt, events);
  }

  /* ── switching a key off and on ──────────────────────────────────────── */

  /** The row of this key id and row id is deleted or not active. */
  ghost predicate Off(keys: seq<SigningKey>, signingKeyId: Id, kid: string) {
    && (exists k :: k in keys && k.keyId == kid && k.signingKeyId == signingKeyId)
    && forall k :: k in keys && k.keyId == kid ==> k.signingKeyId == signingKeyId && (k.deletedAt.Some? || k.status != KeyActive)
  }

  /** The request would switch this key on again. */
  ghost predicate Enables(op: Op, signingKeyId: Id) {
    op.Patch? && op.signingKeyId == signingKeyId && op.status == Some(KeyActive)
  }

  /** Rows are rewritten in place, and a row that is off is not switched on by a request that does not enable it. */
  lemma StepInPlace(s: Store, decrypt: string -> Option<string>, e: Event, i: nat)
    requires i < |s.keys|
    ensures var k, after := s.keys[i], Step(s, decrypt, e).0.keys;
            && i < |after| && after[i].keyId == k.keyId && after[i].signingKeyId == k.signingKeyId
            && (k.deletedAt.Some? ==> after[i].deletedAt.Some?)
            && (k.status != KeyActive && !Enables(e.op, k.signingKeyId) ==> after[i].status != KeyActive)
  {
    hide Step, ResolveKey;
    match e.op
    case Create(id, projectId, keyId, encrypted, name) => CreateMeans(s, decrypt, id, projectId, keyId, encrypted, name, e.now);
    case Patch(id, projectId, name, status) => PatchMeans(s, decrypt, id, projectId, name, status, e.now);
    case Remove(id, projectId) => RemoveMeans(s, decrypt, id, projectId, e.now);
    case Resolve(kid) => ResolveKeepsRows(s, decrypt, kid, e.now);
  }

  lemma ResolveKeepsRows(s: Store, decrypt: string -> Option<string>, kid: string, now: Time)
    ensures Step(s, decrypt, Event(Resolve(kid), now)).0.keys == s.keys
  {
    hide Direct, TtlCache.Step;
  }

  /** A row past the end of the old table is a created one, with a key id of its own. */
  lemma StepAppends(s: Store, decrypt: string -> Option<string>, e: Event, j: nat)
    requires FreshOp(s, e.op) && |s.keys| <= j < |Step(s, decrypt, e).0.keys|
    ensures forall k :: k in s.keys ==> k.keyId != Step(s, decrypt, e).0.keys[j].keyId
  {
    hide Step, ResolveKey;
    match e.op
    case Create(id, projectId, keyId, encrypted, name) => CreateMeans(s, decrypt, id, projectId, keyId, encrypted, name, e.now);
    case Patch(id, projectId, name, status) => PatchMeans(s, decrypt, id, projectId, name, status, e.now);
    case Remove(id, projectId) => RemoveMeans(s, decrypt, id, projectId, e.now);
    case Resolve(kid) => ResolveKeepsRows(s, decrypt, kid, e.now);
  }

  lemma StaysOff(s: Store, decrypt: string -> Option<string>, e: Event, signingKeyId: Id, kid: string)
    requires Off(s.keys, signingKeyId, kid) && FreshOp(s, e.op) && !Enables(e.op, signingKeyId)
    ensures Off(Step(s, decrypt, e).0.keys, signingKeyId, kid)
  {
    hide Step, FreshOp, Enables;
    var after := Step(s, decrypt, e).0.keys;
    var i :| 0 <= i < |s.keys| && s.keys[i].keyId == kid && s.keys[i].signingKeyId == signingKeyId;
    StepInPlace(s, decrypt, e, i);
    forall k | k in after && k.keyId == kid ensures k.signingKeyId == signingKeyId && (k.deletedAt.Some? || k.status != KeyActive) {
      var j :| 0 <= j < |after| && after[j] == k;
      if j < |s.keys| {
        StepInPlace(s, decrypt, e, j);
        assert s.keys[j] in s.keys;
      } else {
        StepAppends(s, decrypt, e, j);
      }
    }
  }

  lemma FreshHead(s: Store, decrypt: string -> Option<string>, before: seq<Event>, after: seq<Event>)
    requires FreshRun(s, decrypt, before + after)
    ensures FreshRun(s, decrypt, before)
  {
    hide Run, FreshOp;
    var all := before + after;
    forall n | 0 <= n < |before| ensures FreshOp(Run(s, decrypt, before[..n]), before[n].op) {
      assert all[..n] == before[..n];
      assert FreshOp(Run(s, decrypt, all[..n]), all[n].op);
    }
  }

  /** What remains of a fresh run is a fresh run from where it got to. */
  lemma FreshTail(s: Store, decrypt: string -> Option<string>, before: seq<Event>, after: seq<Event>)
    requires FreshRun(s, decrypt, before + after)
    ensures FreshRun(Run(s, decrypt, before), decrypt, after)
    ensures Run(s, decrypt, before + after) == Run(Run(s, decrypt, before), decrypt, after)
  {
    hide Run, FreshOp;
    RunAppend(s, decrypt, before, after);
    var m, all := Run(s, decrypt, before), before + after;
    forall n | 0 <= n < |after| ensures FreshOp(Run(m, decrypt, after[..n]), after[n].op) {
      RunAppend(s, decrypt, before, after[..n]);
      assert all[..|before| + n] == before + after[..n];
      assert FreshOp(Run(s, decrypt, all[..|before| + n]), all[|before| + n].op);
    }
  }

  lemma {:induction false} RunAppend(s: Store, decrypt: string -> Option<string>, a: seq<Event>, b: seq<Event>)
    ensures Run(s, decrypt, a + b) == Run(Run(s, decrypt, a), decrypt, b)
  {
    hide Step;
    if b == [] {
      assert a + b == a;
    } else {
      RunAppend(s, decrypt, a, b[..|b| - 1]);
      assert (a + b)[..|a + b| - 1] == a + b[..|b| - 1];
    }
  }

  lemma FreshInit(s: Store, decrypt: string -> Option<string>, events: seq<Event>)
    requires events != [] && FreshRun(s, decrypt, events)
    ensures FreshRun(s, decrypt, events[..|events| - 1])
    ensures FreshOp(Run(s, decrypt, events[..|events| - 1]), events[|events| - 1].op)
  {
    hide Step, FreshOp;
    var pre := events[..|events| - 1];
    forall n | 0 <= n < |pre| ensures FreshOp(Run(s, decrypt, pre[..n]), pre[n].op) {
      assert pre[..n] == events[..n];
      assert FreshOp(Run(s, decrypt, events[..n]), events[n].op);
    }
  }

  lemma {:induction false} RunStaysOff(s: Store, decrypt: string -> Option<string>, events: seq<Event>, signingKeyId: Id, kid: string)
    requires Off(s.keys, signingKeyId, kid)
    requires FreshRun(s, decrypt, events) && forall e :: e in events ==> !Enables(e.op, signingKeyId)
    ensures Off(Run(s, decrypt, events).keys, signingKeyId, kid)
  {
    hide Step, Off, FreshOp, FreshRun, Enables;
    if events != [] {
      var pre := events[..|events| - 1];
      FreshInit(s, decrypt, events);
      RunStaysOff(s, decrypt, pre, signingKeyId, kid);
      StaysOff(Run(s, decrypt, pre), decrypt, events[|events| - 1], signingKeyId, kid);
    }
  }

  /** The request disables or removes a key. */
  ghost predicate SwitchesOff(op: Op, signingKeyId: Id, projectId: Id) {
    || (op.Patch? && op.signingKeyId == signingKeyId && op.projectId == projectId && op.status == Some(KeyDisabled))
    || op == Remove(signingKeyId, projectId)
  }

  /** The row the request names is off afterwards, and no row was added. */
  lemma RowSwitchedOff(s: Store, decrypt: string -> Option<string>, e: Event, i: nat)
    requires i < |s.keys| && s.keys[i].deletedAt.None? && SwitchesOff(e.op, s.keys[i].signingKeyId, s.keys[i].projectId)
    ensures var after := Step(s, decrypt, e).0.keys; |after| == |s.keys| && (after[i].deletedAt.Some? || after[i].status != KeyActive)
  {
    hide Step;
    var k := s.keys[i];
    assert Named(k, k.signingKeyId, k.projectId);
    if e.op.Patch? {
      PatchMeans(s, decrypt, e.op.signingKeyId, e.op.projectId, e.op.name, e.op.status, e.now);
    } else {
      RemoveMeans(s, decrypt, k.signingKeyId, k.projectId, e.now);
    }
  }

  lemma SwitchedOff(s: Store, decrypt: string -> Option<string>, e: Event, k: SigningKey)
    requires DistinctBy(s.keys, SigningKeyId)
    requires k in s.keys && k.deletedAt.None? && SwitchesOff(e.op, k.signingKeyId, k.projectId)
    ensures Off(Step(s, decrypt, e).0.keys, k.signingKeyId, k.keyId)
  {
    hide Step, DistinctBy, SwitchesOff, Enables;
    var i :| 0 <= i < |s.keys| && s.keys[i] == k;
    RowSwitchedOff(s, decrypt, e, i);
    StepInPlace(s, decrypt, e, i);
    var after := Step(s, decrypt, e).0.keys;
    forall x | x in after && x.keyId == k.keyId ensures x == after[i] {
      var j :| 0 <= j < |after| && after[j] == x;
      StepInPlace(s, decrypt, e, j);
      DistinctByMember(s.keys, SigningKeyId, s.keys[j], k);
      SamePlace(s.keys, i, j);
    }
  }

  lemma SamePlace(keys: seq<SigningKey>, i: nat, j: nat)
    requires DistinctBy(keys, SigningKeyId) && i < |keys| && j < |keys| && keys[i] == keys[j]
    ensures i == j
  {
    assert SigningKeyId(keys[i]) == SigningKeyId(keys[j]);
  }

  lemma OffIsUnusable(keys: seq<SigningKey>, decrypt: string -> Option<string>, signingKeyId: Id, kid: string)
    requires Off(keys, signingKeyId, kid)
    ensures forall r :: !Usable(keys, decrypt, kid, r)
  {
  }

  /**
   * From the moment a live key is disabled or removed, whatever the cache held, its key
   * id resolves for nobody until a patch switches that very key on again.
   */
  lemma SwitchedOffNeverResolves(s: Store, decrypt: string -> Option<string>, before: seq<Event>, e: Event, after: seq<Event>,
                                 k: SigningKey, now: Time)
    requires Start(s) && FreshRun(s, decrypt, before + [e] + after)
    requires k in Run(s, decrypt, before).keys && k.deletedAt.None? && SwitchesOff(e.op, k.signingKeyId, k.projectId)
    requires forall later :: later in after ==> !Enables(later.op, k.signingKeyId)
    ensures Step(Run(s, decrypt, before + [e] + after), decrypt, Event(Resolve(k.keyId), now)).1 == Found(None)
  {
    hide Step, Off, FreshOp, Run, FreshRun, Start, Enables, SwitchesOff, Usable, DistinctBy;
    var upTo := before + [e];
    FreshTail(s, decrypt, upTo, after);
    FreshHead(s, decrypt, upTo, after);
    FreshHead(s, decrypt, before, [e]);
    RunDistinct(s, decrypt, before);
    RunOne(s, decrypt, before, e);
    SwitchedOff(Run(s, decrypt, before), decrypt, e, k);
    RunStaysOff(Run(s, decrypt, upTo), decrypt, after, k.signingKeyId, k.keyId);
    OffIsUnusable(Run(s, decrypt, upTo + after).keys, decrypt, k.signingKeyId, k.keyId);
    ResolvedIff(s, decrypt, upTo + after, k.keyId, now);
  }

  lemma RunOne(s: Store, decrypt: string -> Option<string>, before: seq<Event>, e: Event)
    ensures Run(s, decrypt, before + [e]) == Step(Run(s, decrypt, before), decrypt, e).0
  {
    hide Step;
    assert (before + [e])[..|before|] == before;
  }

  /** A live key just switched on resolves at once, to its own row with the status active, if its secret decrypts. */
  lemma SwitchedOnResolves(s: Store, decrypt: string -> Option<string>, before: seq<Event>, e: Event, k: SigningKey, now: Time)
    returns (k': SigningKey)
    requires Start(s) && FreshRun(s, decrypt, before + [e])
    requires k in Run(s, decrypt, before).keys && k.deletedAt.None?
    requires Enables(e.op, k.signingKeyId) && e.op.projectId == k.projectId && decrypt(k.secretEncrypted).Some?
    ensures k'.keyId == k.keyId && k'.signingKeyId == k.signingKeyId && k'.projectId == k.projectId && k'.status == KeyActive
    ensures k'.secretEncrypted == k.secretEncrypted && k' in Run(s, decrypt, before + [e]).keys
    ensures Step(Run(s, decrypt, before + [e]), decrypt, Event(Resolve(k.keyId), now)).1
            == Found(Some(Resolved(k', decrypt(k.secretEncrypted).value)))
  {
    hide Step, FreshOp, Run, FreshRun, Start, DistinctBy, Direct;
    RunOne(s, decrypt, before, e);
    var m, after := Run(s, decrypt, before), Run(s, decrypt, before + [e]);
    PatchMeans(m, decrypt, e.op.signingKeyId, e.op.projectId, e.op.name, e.op.status, e.now);
    var i :| 0 <= i < |m.keys| && m.keys[i] == k;
    k' := after.keys[i];
    RunDistinct(s, decrypt, before + [e]);
    CachedIsDirect(s, decrypt, before + [e], k.keyId, now);
    DirectIff(after.keys, decrypt, k.keyId, Resolved(k', decrypt(k.secretEncrypted).value));
  }

  /* ── what an accepted token proves ───────────────────────────────────── */

  /** `<prefix>_live_` or `<prefix>_sandbox_`, and twelve lower-case hexadecimal digits. */
  ghost predicate PublicId(prefix: string, s: string) {
    exists digits :: HexDigits(digits) && (s == prefix + "_live_" + digits || s == prefix + "_sandbox_" + digits)
  }

  ghost predicate HexDigits(s: string) {
    |s| == 12 && forall i :: 0 <= i < 12 ==> s[i] in "0123456789abcdef"
  }

  lemma HexDigit(c: char)
    ensures IsHex(c) <==> c in "0123456789abcdef"
  {
    var digits := "0123456789abcdef";
    if IsHex(c) {
      var n := if c <= '9' then c as int - '0' as int else c as int - 'a' as int + 10;
      assert digits[n] == c;
    }
  }

  lemma HexAfterIff(head: string, s: string)
    ensures HexAfter(head, s) <==> exists digits :: HexDigits(digits) && s == head + digits
  {
    hide IsHex;
    forall c ensures IsHex(c) <==> c in "0123456789abcdef" { HexDigit(c); }
    if HexAfter(head, s) {
      var digits := s[|head|..];
      assert s == head + digits;
      assert HexDigits(digits);
    }
  }

  lemma PublicIdIff(prefix: string, s: string)
    ensures IsPublicId(prefix, s) <==> PublicId(prefix, s)
  {
    hide HexAfter, HexDigits;
    HexAfterIff(prefix + "_live_", s);
    HexAfterIff(prefix + "_sandbox_", s);
  }

  /** The stored row named in the header is live and active, and its own secret opens the token to these claims. */
  ghost predicate Vouches(keys: seq<SigningKey>, decrypt: string -> Option<string>, token: ClientToken, v: Verified) {
    && v.key in keys && token.kid == Some(v.key.keyId) && v.key.deletedAt.None? && v.key.status == KeyActive
    && decrypt(v.key.secretEncrypted).Some? && token.opens(decrypt(v.key.secretEncrypted).value) == Some(v.claims)
  }

  /** The clock is within an hour before the expiry and past any start, give or take a minute; the subject names an actor token. */
  ghost predicate ClaimsOk(claims: Claims, now: Time) {
    && claims.exp.Some? && claims.exp.value - 3660 <= now / 1000 < claims.exp.value + 60
    && (claims.nbf.Some? ==> claims.nbf.value - 60 <= now / 1000)
    && claims.sub.Some? && PublicId("at", claims.sub.value)
  }

  /** Three segments of the right shape, HS256 and nothing else, and a key id of the right form. */
  ghost predicate HeaderGood(token: ClientToken) {
    token.wellShaped && token.alg == "HS256" && token.kid.Some? && PublicId("sk", token.kid.value)
  }

  /** After any serial run, a token is accepted for a key exactly when its header is good, that key vouches for it now and its claims are in order. */
  lemma AcceptedIffVouched(s: Store, decrypt: string -> Option<string>, events: seq<Event>, token: ClientToken, now: Time, v: Verified)
    requires Start(s) && FreshRun(s, decrypt, events)
    ensures var e := Run(s, decrypt, events);
            VerifyToken(e, decrypt, token, now).1 == Some(v) <==>
            HeaderGood(token) && Vouches(e.keys, decrypt, token, v) && ClaimsOk(v.claims, now)
  {
    hide IsPublicId, PublicId, DistinctBy, Run, FreshRun, Start, Direct, ResolveKey;
    var e := Run(s, decrypt, events);
    if token.kid.Some? {
      PublicIdIff("sk", token.kid.value);
      RunCoherent(s, decrypt, events);
      ResolveCoherent(e, decrypt, token.kid.value, now);
      RunDistinct(s, decrypt, events);
      forall r ensures Direct(e.keys, decrypt, token.kid.value) == Some(r) <==> Usable(e.keys, decrypt, token.kid.value, r) {
        DirectIff(e.keys, decrypt, token.kid.value, r);
      }
      if Vouches(e.keys, decrypt, token, v) {
        assert Usable(e.keys, decrypt, token.kid.value, Resolved(v.key, decrypt(v.key.secretEncrypted).value));
      }
      if Direct(e.keys, decrypt, token.kid.value).Some? {
        var r := Direct(e.keys, decrypt, token.kid.value).value;
        assert Usable(e.keys, decrypt, token.kid.value, r);
      }
    }
    forall sub ensures IsPublicId("at", sub) <==> PublicId("at", sub) { PublicIdIff("at", sub); }
  }
}
