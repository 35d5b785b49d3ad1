/** What each scope and actor operation accepts and stores, column by column, and what switching a scope does to sessions. */
module ScopeEffects {
  import opened Prelude
  import opened Schema
  import opened Resolution
  import opened ScopeBinding

  ghost predicate LiveScope(s: Scope, scopeId: Id, projectId: Id) {
    s.scopeId == scopeId && s.projectId == projectId && s.deletedAt.None?
  }

  ghost predicate HasScope(db: Db, scopeId: Id, projectId: Id) {
    exists s :: s in db.scopes && LiveScope(s, scopeId, projectId)
  }

  ghost predicate LiveIn(a: Actor, actorTokenId: Id, projectId: Id) {
    a.actorTokenId == actorTokenId && a.projectId == projectId && a.deletedAt.None?
  }

  ghost predicate HasActor(db: Db, actorTokenId: Id, projectId: Id) {
    exists a :: a in db.actors && LiveIn(a, actorTokenId, projectId)
  }

  lemma ScopeFound(db: Db, scopeId: Id, projectId: Id)
    ensures FindFirst(db.scopes, LiveScopeOf(scopeId, projectId)).Some? <==> HasScope(db, scopeId, projectId)
    ensures ScopeKnown(db, projectId, Some(scopeId)) <==> HasScope(db, scopeId, projectId)
  {
    var p := LiveScopeOf(scopeId, projectId);
    if s :| s in db.scopes && LiveScope(s, scopeId, projectId) { assert p(s) && s in Filter(db.scopes, p); }
    if s :| s in db.scopes && p(s) { assert LiveScope(s, scopeId, projectId); }
    if |Filter(db.scopes, p)| > 0 { assert Filter(db.scopes, p)[0] in Filter(db.scopes, p); }
  }

  lemma ActorFound(db: Db, actorTokenId: Id, projectId: Id)
    ensures FindFirst(db.actors, ActorOf(actorTokenId, projectId)).Some? <==> HasActor(db, actorTokenId, projectId)
  {
    var p := ActorOf(actorTokenId, projectId);
    if a :| a in db.actors && LiveIn(a, actorTokenId, projectId) { assert p(a); }
    if a :| a in db.actors && p(a) { assert LiveIn(a, actorTokenId, projectId); }
  }

  /* ── scopes ──────────────────────────────────────────────────────────── */

  /** A scope is stored as given unless a live one of the project has its slug. */
  lemma CreateScopeMeans(db: Db, row: Scope)
    ensures var (after, refusal) := Step(db, CreateScope(row));
            if exists s :: s in db.scopes && s.projectId == row.projectId && s.slug == row.slug && s.deletedAt.None?
            then after == db && refusal == Some(SlugTaken)
            else refusal == None && after == db.(scopes := after.scopes) && after.scopes == db.scopes + [row]
  {
    var p := ScopeBySlug(row.projectId, row.slug);
    if s :| s in db.scopes && s.projectId == row.projectId && s.slug == row.slug && s.deletedAt.None? { assert p(s); }
  }

  ghost predicate ScopePatched(s: Scope, t: Scope, d: ScopePatch) {
    && t.scopeId == s.scopeId && t.projectId == s.projectId && t.slug == s.slug && t.deletedAt == s.deletedAt
    && t.name == (if d.name.Some? then d.name.value else s.name)
    && t.isActive == (if d.isActive.Some? then d.isActive.value else s.isActive)
    && Sets(d.description, s.description, t.description) && Sets(d.metadata, s.metadata, t.metadata)
  }

  lemma ScopeRowPatched(s: Scope, op: Op)
    requires op.UpdateScope?
    ensures if LiveScope(s, op.scopeId, op.projectId) then ScopePatched(s, PatchScope(op)(s), op.scopePatch) else PatchScope(op)(s) == s
  {
    assert LiveScopeOf(op.scopeId, op.projectId)(s) <==> LiveScope(s, op.scopeId, op.projectId);
  }

  /** An update replaces the given fields of the live scope it names, never its slug or project. */
  lemma UpdateScopeMeans(db: Db, scopeId: Id, projectId: Id, d: ScopePatch)
    ensures var (after, refusal) := Step(db, UpdateScope(scopeId, projectId, d));
            if !HasScope(db, scopeId, projectId) then after == db && refusal == Some(ScopeNotFound)
            else
              && refusal == None && after == db.(scopes := after.scopes) && |after.scopes| == |db.scopes|
              && forall i :: 0 <= i < |db.scopes| ==>
                   if LiveScope(db.scopes[i], scopeId, projectId) then ScopePatched(db.scopes[i], after.scopes[i], d)
                   else after.scopes[i] == db.scopes[i]
  {
    hide HasScope, FindFirst, PatchScope, LiveScope, ScopePatched;
    ScopeFound(db, scopeId, projectId);
    var op := UpdateScope(scopeId, projectId, d);
    forall s ensures if LiveScope(s, scopeId, projectId) then ScopePatched(s, PatchScope(op)(s), d) else PatchScope(op)(s) == s {
      ScopeRowPatched(s, op);
    }
  }

  ghost predicate ScopeDropped(s: Scope, t: Scope, at: Time) {
    && t.deletedAt == Some(at) && t.scopeId == s.scopeId && t.projectId == s.projectId && t.slug == s.slug && t.name == s.name
    && t.description == s.description && t.metadata == s.metadata && t.isActive == s.isActive
  }

  lemma ScopeRowDropped(s: Scope, scopeId: Id, projectId: Id, at: Time)
    ensures if LiveScope(s, scopeId, projectId) then ScopeDropped(s, DropScope(scopeId, projectId, at)(s), at)
            else DropScope(scopeId, projectId, at)(s) == s
  {
    assert LiveScopeOf(scopeId, projectId)(s) <==> LiveScope(s, scopeId, projectId);
  }

  ghost predicate InUse(db: Db, scopeId: Id) {
    exists a :: a in db.actors && a.scopeId == Some(scopeId) && a.deletedAt.None?
  }

  lemma BoundCount(db: Db, scopeId: Id)
    ensures |Filter(db.actors, BoundTo(scopeId))| > 0 <==> InUse(db, scopeId)
  {
    if a :| a in db.actors && a.scopeId == Some(scopeId) && a.deletedAt.None? { assert BoundTo(scopeId)(a) && a in Filter(db.actors, BoundTo(scopeId)); }
    if |Filter(db.actors, BoundTo(scopeId))| > 0 { assert Filter(db.actors, BoundTo(scopeId))[0] in Filter(db.actors, BoundTo(scopeId)); }
  }

  /** A delete marks the live scope it names, unless a live actor of any project is bound to it. */
  lemma DeleteScopeMeans(db: Db, scopeId: Id, projectId: Id, at: Time)
    ensures var (after, refusal) := Step(db, DeleteScope(scopeId, projectId, at));
            if !HasScope(db, scopeId, projectId) then after == db && refusal == Some(ScopeNotFound)
            else if InUse(db, scopeId) then after == db && refusal == Some(ScopeInUse)
            else
              && refusal == None && after == db.(scopes := after.scopes) && |after.scopes| == |db.scopes|
              && forall i :: 0 <= i < |db.scopes| ==>
                   if LiveScope(db.scopes[i], scopeId, projectId) then ScopeDropped(db.scopes[i], after.scopes[i], at)
                   else after.scopes[i] == db.scopes[i]
  {
    hide HasScope, FindFirst, DropScope, LiveScope, ScopeDropped, InUse, Filter;
    ScopeFound(db, scopeId, projectId);
    BoundCount(db, scopeId);
    forall s ensures if LiveScope(s, scopeId, projectId) then ScopeDropped(s, DropScope(scopeId, projectId, at)(s), at)
                     else DropScope(scopeId, projectId, at)(s) == s
    { ScopeRowDropped(s, scopeId, projectId, at); }
  }

  /* ── actors ──────────────────────────────────────────────────────────── */

  /** An actor is stored as given, scope included, unless that scope is not live in its project. */
  lemma CreateActorMeans(db: Db, a: Actor)
    ensures var (after, refusal) := Step(db, CreateActor(a));
            if a.scopeId.Some? && !HasScope(db, a.scopeId.value, a.projectId) then after == db && refusal == Some(ForeignScope)
            else refusal == None && after == db.(actors := after.actors) && after.actors == db.actors + [a]
  {
    hide HasScope, Filter;
    if a.scopeId.Some? { ScopeFound(db, a.scopeId.value, a.projectId); }
  }

  ghost predicate ActorPatched(a: Actor, b: Actor, d: ActorPatch) {
    && b.actorTokenId == a.actorTokenId && b.projectId == a.projectId && b.keyId == a.keyId && b.secretHash == a.secretHash
    && b.actorType == a.actorType && b.deletedAt == a.deletedAt
    && b.name == (if d.name.Some? then d.name.value else a.name)
    && b.status == (if d.status.Some? then d.status.value else a.status)
    && Sets(d.expiresAt, a.expiresAt, b.expiresAt) && Sets(d.metadata, a.metadata, b.metadata) && Sets(d.scopeId, a.scopeId, b.scopeId)
  }

  lemma ActorRowPatched(a: Actor, op: Op)
    requires op.UpdateActor?
    ensures if LiveIn(a, op.actorTokenId, op.projectId) then ActorPatched(a, PatchActor(op)(a), op.patch) else PatchActor(op)(a) == a
  {
    assert ActorOf(op.actorTokenId, op.projectId)(a) <==> LiveIn(a, op.actorTokenId, op.projectId);
  }

  /** An update replaces the given fields of the live actor it names, never its type, key or project; a scope it names must be live in the project. */
  lemma UpdateActorMeans(db: Db, actorTokenId: Id, projectId: Id, d: ActorPatch)
    ensures var (after, refusal) := Step(db, UpdateActor(actorTokenId, projectId, d));
            if !HasActor(db, actorTokenId, projectId) then after == db && refusal == Some(ActorNotFound)
            else if d.scopeId.Value? && !HasScope(db, d.scopeId.value, projectId) then after == db && refusal == Some(ForeignScope)
            else
              && refusal == None && after == db.(actors := after.actors) && |after.actors| == |db.actors|
              && forall i :: 0 <= i < |db.actors| ==>
                   if LiveIn(db.actors[i], actorTokenId, projectId) then ActorPatched(db.actors[i], after.actors[i], d)
                   else after.actors[i] == db.actors[i]
  {
    hide HasActor, HasScope, FindFirst, PatchActor, LiveIn, ActorPatched, Filter;
    ActorFound(db, actorTokenId, projectId);
    if d.scopeId.Value? { ScopeFound(db, d.scopeId.value, projectId); }
    var op := UpdateActor(actorTokenId, projectId, d);
    forall a ensures if LiveIn(a, actorTokenId, projectId) then ActorPatched(a, PatchActor(op)(a), d) else PatchActor(op)(a) == a {
      ActorRowPatched(a, op);
    }
  }

  ghost predicate ActorDropped(a: Actor, b: Actor, at: Time) {
    && b.deletedAt == Some(at) && b.actorTokenId == a.actorTokenId && b.projectId == a.projectId && b.keyId == a.keyId
    && b.secretHash == a.secretHash && b.name == a.name && b.actorType == a.actorType && b.status == a.status
    && b.expiresAt == a.expiresAt && b.metadata == a.metadata && b.scopeId == a.scopeId
  }

  lemma ActorRowDropped(a: Actor, actorTokenId: Id, projectId: Id, at: Time)
    ensures if LiveIn(a, actorTokenId, projectId) then ActorDropped(a, DropActor(actorTokenId, projectId, at)(a), at)
            else DropActor(actorTokenId, projectId, at)(a) == a
  {
    assert ActorOf(actorTokenId, projectId)(a) <==> LiveIn(a, actorTokenId, projectId);
  }

  /** A delete marks the live actor it names and leaves everything else. */
  lemma DeleteActorMeans(db: Db, actorTokenId: Id, projectId: Id, at: Time)
    ensures var (after, refusal) := Step(db, DeleteActor(actorTokenId, projectId, at));
            if !HasActor(db, actorTokenId, projectId) then after == db && refusal == Some(ActorNotFound)
            else
              && refusal == None && after == db.(actors := after.actors) && |after.actors| == |db.actors|
              && forall i :: 0 <= i < |db.actors| ==>
                   if LiveIn(db.actors[i], actorTokenId, projectId) then ActorDropped(db.actors[i], after.actors[i], at)
                   else after.actors[i] == db.actors[i]
  {
    hide HasActor, FindFirst, DropActor, LiveIn, ActorDropped;
    ActorFound(db, actorTokenId, projectId);
    forall a ensures if LiveIn(a, actorTokenId, projectId) then ActorDropped(a, DropActor(actorTokenId, projectId, at)(a), at)
                     else DropActor(actorTokenId, projectId, at)(a) == a
    { ActorRowDropped(a, actorTokenId, projectId, at); }
  }

  /* ── switching a scope off and on ────────────────────────────────────── */

  /** An accepted update that sets the switch refuses, or admits, every live actor bound to the scope. */
  lemma SwitchDecidesSessions(db: Db, scopeId: Id, projectId: Id, d: ScopePatch, a: Actor)
    requires Bound(db) && HasScope(db, scopeId, projectId) && d.isActive.Some?
    requires a in db.actors && a.deletedAt.None? && a.scopeId == Some(scopeId) && a.projectId == projectId
    ensures ResolveScope(Step(db, UpdateScope(scopeId, projectId, d)).0, a).Some? <==> d.isActive.value
  {
    hide Step, Bound, HasScope, DistinctBy, FindFirst;
    var after := Step(db, UpdateScope(scopeId, projectId, d)).0;
    UpdateScopeMeans(db, scopeId, projectId, d);
    StepKeeps(db, UpdateScope(scopeId, projectId, d));
    RefusedOnlyWhenInactive(after, a);
    assert HasScope(db, scopeId, projectId);
    var i := Place(db, scopeId, projectId);
    assert LiveScope(db.scopes[i], scopeId, projectId);
    var t := after.scopes[i];
    assert ScopePatched(db.scopes[i], t, d) && LiveScopeOf(scopeId, projectId)(t);
    forall s | s in after.scopes && LiveScopeOf(scopeId, projectId)(s) ensures s == t { OneScope(after, s, t); }
  }

  lemma Place(db: Db, scopeId: Id, projectId: Id) returns (i: nat)
    requires HasScope(db, scopeId, projectId)
    ensures i < |db.scopes| && LiveScope(db.scopes[i], scopeId, projectId)
  {
    i :| 0 <= i < |db.scopes| && LiveScope(db.scopes[i], scopeId, projectId);
  }

  lemma OneScope(db: Db, s: Scope, t: Scope)
    requires Bound(db) && s in db.scopes && t in db.scopes && s.scopeId == t.scopeId
    ensures s == t
  {
    DistinctByMember(db.scopes, ScopeKey, s, t);
  }
}
