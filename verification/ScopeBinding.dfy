/** Scopes and the actors bound to them: no live actor is ever left pointing at a scope that is gone. */
module ScopeBinding {
  import opened Prelude
  import opened Schema
  import opened Resolution
  import opened ProjectDoc
  import opened ProjectImport
  import opened ImportTables
  import opened ImportQueries
  import opened ImportRefs
  import opened ImportMembers
  import opened ImportKeyed

  datatype ScopePatch = ScopePatch(name: Option<string>, description: Field<string>, metadata: Field<Json>, isActive: Option<bool>)

  datatype ActorPatch = ActorPatch(
    name: Option<string>, status: Option<ActorStatus>, expiresAt: Field<Time>, metadata: Field<Json>, scopeId: Field<Id>)

  datatype Op =
    | CreateScope(row: Scope)
    | UpdateScope(scopeId: Id, projectId: Id, scopePatch: ScopePatch)
    | DeleteScope(scopeId: Id, projectId: Id, at: Time)
    | CreateActor(actor: Actor)
    | UpdateActor(actorTokenId: Id, projectId: Id, patch: ActorPatch)
    | DeleteActor(actorTokenId: Id, projectId: Id, at: Time)
    | Import(doc: Doc, mint: Mint, at: Time, keyConfigured: bool)

  datatype Refusal = SlugTaken | ScopeNotFound | ActorNotFound | ScopeInUse | ForeignScope | Rejected

  function ScopeBySlug(projectId: Id, slug: string): Scope -> bool {
    (s: Scope) => s.slug == slug && s.projectId == projectId && s.deletedAt.None?
  }
  function ActorOf(actorTokenId: Id, projectId: Id): Actor -> bool {
    (a: Actor) => a.actorTokenId == actorTokenId && a.projectId == projectId && a.deletedAt.None?
  }
  function BoundTo(scopeId: Id): Actor -> bool {
    (a: Actor) => a.scopeId == Some(scopeId) && a.deletedAt.None?
  }

  function PatchScope(op: Op): Scope -> Scope
    requires op.UpdateScope?
  {
    (s: Scope) =>
      if LiveScopeOf(op.scopeId, op.projectId)(s)
      then s.(name := op.scopePatch.name.GetOr(s.name), description := op.scopePatch.description.Over(s.description),
              metadata := op.scopePatch.metadata.Over(s.metadata), isActive := op.scopePatch.isActive.GetOr(s.isActive))
      else s
  }
  function DropScope(scopeId: Id, projectId: Id, at: Time): Scope -> Scope {
    (s: Scope) => if LiveScopeOf(scopeId, projectId)(s) then s.(deletedAt := Some(at)) else s
  }
  function PatchActor(op: Op): Actor -> Actor
    requires op.UpdateActor?
  {
    (a: Actor) =>
      if ActorOf(op.actorTokenId, op.projectId)(a)
      then a.(name := op.patch.name.GetOr(a.name), status := op.patch.status.GetOr(a.status),
              expiresAt := op.patch.expiresAt.Over(a.expiresAt), metadata := op.patch.metadata.Over(a.metadata),
              scopeId := op.patch.scopeId.Over(a.scopeId))
      else a
  }
  function DropActor(actorTokenId: Id, projectId: Id, at: Time): Actor -> Actor {
    (a: Actor) => if ActorOf(actorTokenId, projectId)(a) then a.(deletedAt := Some(at)) else a
  }

  /** Only a named scope is checked; leaving it out and clearing it are both allowed. */
  function ScopeKnown(db: Db, projectId: Id, scopeId: Option<Id>): bool {
    scopeId.Some? ==> |Filter(db.scopes, LiveScopeOf(scopeId.value, projectId))| > 0
  }

  function Named(f: Field<Id>): Option<Id> { f.Over(None) }

  ghost function Step(db: Db, op: Op): (Db, Option<Refusal>) {
    match op
    case CreateScope(row) =>
      if FindFirst(db.scopes, ScopeBySlug(row.projectId, row.slug)).Some? then (db, Some(SlugTaken))
      else (db.(scopes := db.scopes + [row]), None)
    case UpdateScope(scopeId, projectId, _) =>
      if FindFirst(db.scopes, LiveScopeOf(scopeId, projectId)).None? then (db, Some(ScopeNotFound))
      else (db.(scopes := Map(db.scopes, PatchScope(op))), None)
    case DeleteScope(scopeId, projectId, at) =>
      if FindFirst(db.scopes, LiveScopeOf(scopeId, projectId)).None? then (db, Some(ScopeNotFound))
      else if |Filter(db.actors, BoundTo(scopeId))| > 0 then (db, Some(ScopeInUse))
      else (db.(scopes := Map(db.scopes, DropScope(scopeId, projectId, at))), None)
    case CreateActor(a) =>
      if !ScopeKnown(db, a.projectId, a.scopeId) then (db, Some(ForeignScope))
      else (db.(actors := db.actors + [a]), None)
    case UpdateActor(id, projectId, patch) =>
      if FindFirst(db.actors, ActorOf(id, projectId)).None? then (db, Some(ActorNotFound))
      else if !ScopeKnown(db, projectId, Named(patch.scopeId)) then (db, Some(ForeignScope))
      else (db.(actors := Map(db.actors, PatchActor(op))), None)
    case DeleteActor(id, projectId, at) =>
      if FindFirst(db.actors, ActorOf(id, projectId)).None? then (db, Some(ActorNotFound))
      else (db.(actors := Map(db.actors, DropActor(id, projectId, at))), None)
    case Import(doc, mint, at, keyConfigured) =>
      if Accepts(doc, mint, keyConfigured) then (Imported(db, doc, mint, at), None) else (db, Some(Rejected))
  }

  /* ── the facades ─────────────────────────────────────────────────────── */

  class ScopeFacades {
    var db: Db

    method CreateScope(row: Scope) returns (refusal: Option<Refusal>)
      modifies this
      ensures (db, refusal) == Step(old(db), Op.CreateScope(row))
    {
      if FindFirst(db.scopes, ScopeBySlug(row.projectId, row.slug)).Some? { return Some(SlugTaken); }
      db := db.(scopes := db.scopes + [row]);
      return None;
    }

    method UpdateScope(scopeId: Id, projectId: Id, patch: ScopePatch) returns (refusal: Option<Refusal>)
      modifies this
      ensures (db, refusal) == Step(old(db), Op.UpdateScope(scopeId, projectId, patch))
    {
      if FindFirst(db.scopes, LiveScopeOf(scopeId, projectId)).None? { return Some(ScopeNotFound); }
      db := db.(scopes := Map(db.scopes, PatchScope(Op.UpdateScope(scopeId, projectId, patch))));
      return None;
    }

    /** Refused while any live actor of any project is bound to the scope. */
    method DeleteScope(scopeId: Id, projectId: Id, at: Time) returns (refusal: Option<Refusal>)
      modifies this
      ensures (db, refusal) == Step(old(db), Op.DeleteScope(scopeId, projectId, at))
    {
      if FindFirst(db.scopes, LiveScopeOf(scopeId, projectId)).None? { return Some(ScopeNotFound); }
      var actorCount := |Filter(db.actors, BoundTo(scopeId))|;
      if actorCount > 0 { return Some(ScopeInUse); }
      db := db.(scopes := Map(db.scopes, DropScope(scopeId, projectId, at)));
      return None;
    }

    method CreateActorToken(actor: Actor) returns (refusal: Option<Refusal>)
      modifies this
      ensures (db, refusal) == Step(old(db), CreateActor(actor))
    {
      if !ScopeKnown(db, actor.projectId, actor.scopeId) { return Some(ForeignScope); }
      db := db.(actors := db.actors + [actor]);
      return None;
    }

    method UpdateActorToken(id: Id, projectId: Id, patch: ActorPatch) returns (refusal: Option<Refusal>)
      modifies this
      ensures (db, refusal) == Step(old(db), UpdateActor(id, projectId, patch))
    {
      if FindFirst(db.actors, ActorOf(id, projectId)).None? { return Some(ActorNotFound); }
      if !ScopeKnown(db, projectId, Named(patch.scopeId)) { return Some(ForeignScope); }
      db := db.(actors := Map(db.actors, PatchActor(UpdateActor(id, projectId, patch))));
      return None;
    }

    method DeleteActorToken(id: Id, projectId: Id, at: Time) returns (refusal: Option<Refusal>)
      modifies this
      ensures (db, refusal) == Step(old(db), DeleteActor(id, projectId, at))
    {
      if FindFirst(db.actors, ActorOf(id, projectId)).None? { return Some(ActorNotFound); }
      db := db.(actors := Map(db.actors, DropActor(id, projectId, at)));
      return None;
    }
  }

  /* ── what every step keeps ───────────────────────────────────────────── */

  ghost predicate ActorBound(scopes: seq<Scope>, a: Actor) {
    a.deletedAt.None? && a.scopeId.Some? ==> exists s :: s in scopes && LiveScopeOf(a.scopeId.value, a.projectId)(s)
  }

  /** Every live actor has no scope, or a live one of its own project. */
  ghost predicate Bound(db: Db) {
    DistinctBy(db.scopes, ScopeKey) && forall a :: a in db.actors ==> ActorBound(db.scopes, a)
  }

  /** Ids are drawn fresh; an import's draws are new to the database. */
  ghost predicate FreshOp(db: Db, op: Op) {
    match op
    case CreateScope(row) => forall s :: s in db.scopes ==> s.scopeId != row.scopeId
    case Import(_, mint, _, _) => FreshImport(db, mint)
    case _ => true
  }

  lemma KnownIsLive(db: Db, projectId: Id, scopeId: Id)
    requires ScopeKnown(db, projectId, Some(scopeId))
    ensures exists s :: s in db.scopes && LiveScopeOf(scopeId, projectId)(s)
  {
    var found := Filter(db.scopes, LiveScopeOf(scopeId, projectId));
    assert found[0] in found;
  }

  lemma PatchScopeKeeps(db: Db, op: Op)
    requires Bound(db) && op.UpdateScope?
    ensures Bound(db.(scopes := Map(db.scopes, PatchScope(op))))
  {
    var f := PatchScope(op);
    DistinctByMap(db.scopes, f, ScopeKey, ScopeKey);
    forall a | a in db.actors ensures ActorBound(Map(db.scopes, f), a) {
      if a.deletedAt.None? && a.scopeId.Some? {
        var i :| 0 <= i < |db.scopes| && LiveScopeOf(a.scopeId.value, a.projectId)(db.scopes[i]);
        assert LiveScopeOf(a.scopeId.value, a.projectId)(Map(db.scopes, f)[i]);
      }
    }
  }

  lemma NotBound(db: Db, scopeId: Id, a: Actor)
    requires |Filter(db.actors, BoundTo(scopeId))| == 0 && a in db.actors && a.deletedAt.None?
    ensures a.scopeId.Some? ==> a.scopeId.value != scopeId
  {
    assert a in Filter(db.actors, BoundTo(scopeId)) <==> BoundTo(scopeId)(a);
  }

  lemma OtherScopeKept(s: Scope, scopeId: Id, projectId: Id, at: Time, other: Id, owner: Id)
    requires other != scopeId
    ensures LiveScopeOf(other, owner)(DropScope(scopeId, projectId, at)(s)) == LiveScopeOf(other, owner)(s)
    ensures LiveScopeOf(other, owner)(s) ==> DropScope(scopeId, projectId, at)(s) == s
  {
    var t := DropScope(scopeId, projectId, at)(s);
    if LiveScopeOf(scopeId, projectId)(s) {
      assert t.scopeId == s.scopeId == scopeId;
      assert !LiveScopeOf(other, owner)(s) && !LiveScopeOf(other, owner)(t);
    } else {
      assert t == s;
    }
  }

  lemma DropScopeKeeps(db: Db, scopeId: Id, projectId: Id, at: Time)
    requires Bound(db) && |Filter(db.actors, BoundTo(scopeId))| == 0
    ensures Bound(db.(scopes := Map(db.scopes, DropScope(scopeId, projectId, at))))
  {
    var f := DropScope(scopeId, projectId, at);
    DistinctByMap(db.scopes, f, ScopeKey, ScopeKey);
    forall a | a in db.actors ensures ActorBound(Map(db.scopes, f), a) {
      if a.deletedAt.None? && a.scopeId.Some? {
        NotBound(db, scopeId, a);
        var i :| 0 <= i < |db.scopes| && LiveScopeOf(a.scopeId.value, a.projectId)(db.scopes[i]);
        OtherScopeKept(db.scopes[i], scopeId, projectId, at, a.scopeId.value, a.projectId);
        assert LiveScopeOf(a.scopeId.value, a.projectId)(Map(db.scopes, f)[i]);
      }
    }
  }

  lemma ActorsMapped(db: Db, f: Actor -> Actor)
    requires Bound(db) && forall a :: a in db.actors ==> ActorBound(db.scopes, f(a))
    ensures Bound(db.(actors := Map(db.actors, f)))
  {
    forall b | b in Map(db.actors, f) ensures ActorBound(db.scopes, b) {
      var i :| 0 <= i < |db.actors| && b == f(db.actors[i]);
      assert db.actors[i] in db.actors;
    }
  }

  lemma PatchedBound(db: Db, op: Op, a: Actor)
    requires ActorBound(db.scopes, a) && op.UpdateActor? && ScopeKnown(db, op.projectId, Named(op.patch.scopeId))
    ensures ActorBound(db.scopes, PatchActor(op)(a))
  {
    hide Filter;
    if ActorOf(op.actorTokenId, op.projectId)(a) && op.patch.scopeId.Value? {
      KnownIsLive(db, op.projectId, op.patch.scopeId.value);
      assert PatchActor(op)(a).scopeId == Some(op.patch.scopeId.value) && PatchActor(op)(a).projectId == op.projectId;
    }
  }

  lemma PatchActorKeeps(db: Db, op: Op)
    requires Bound(db) && op.UpdateActor? && ScopeKnown(db, op.projectId, Named(op.patch.scopeId))
    ensures Bound(db.(actors := Map(db.actors, PatchActor(op))))
  {
    hide DistinctBy;
    forall a | a in db.actors ensures ActorBound(db.scopes, PatchActor(op)(a)) { PatchedBound(db, op, a); }
    ActorsMapped(db, PatchActor(op));
  }

  lemma DropActorKeeps(db: Db, id: Id, projectId: Id, at: Time)
    requires Bound(db)
    ensures Bound(db.(actors := Map(db.actors, DropActor(id, projectId, at))))
  {
    forall a | a in db.actors ensures ActorBound(db.scopes, DropActor(id, projectId, at)(a)) { assert ActorBound(db.scopes, a); }
    ActorsMapped(db, DropActor(id, projectId, at));
  }

  lemma CreatesKeep(db: Db, scopes: seq<Scope>, actors: seq<Actor>)
    requires Bound(db) && DistinctBy(db.scopes + scopes, ScopeKey)
    requires forall a :: a in actors ==> ActorBound(db.scopes + scopes, a)
    ensures Bound(db.(scopes := db.scopes + scopes, actors := db.actors + actors))
  {
    forall a | a in db.actors ensures ActorBound(db.scopes + scopes, a) {
      if a.deletedAt.None? && a.scopeId.Some? {
        var s :| s in db.scopes && LiveScopeOf(a.scopeId.value, a.projectId)(s);
        assert s in db.scopes + scopes;
      }
    }
  }

  lemma ImportKeeps(db: Db, doc: Doc, mint: Mint, at: Time)
    requires Bound(db) && FreshImport(db, mint)
    ensures Bound(Imported(db, doc, mint, at))
  {
    hide Imported, ActorRow, ScopeRow, ScopeIds, DistinctBy, Fresh, Distinguishes;
    ScopeTable(db, doc, mint, at);
    ActorTable(db, doc, mint, at);
    ScopeRowsKeyed(db, doc, mint);
    DistinctByAppend(db.scopes, ScopeRows(doc, mint), ScopeKey);
    var scopes := db.scopes + ScopeRows(doc, mint);
    forall a | a in ActorRows(doc, mint) ensures ActorBound(scopes, a) {
      var k := ActorMember(doc, mint, a);
      ActorRowScope(mint, k, doc.actors[k], ScopeIdOf(ScopeIds(doc, mint), doc.actors[k]));
      if a.scopeId.Some? {
        var i := ScopeSlugNamed(doc, mint, doc.actors[k].scopeSlug.value);
        assert LiveScopeOf(a.scopeId.value, a.projectId)(ScopeRows(doc, mint)[i]) by { ScopeRowIsLive(mint, i, doc.accessScopes[i]); }
        assert ScopeRows(doc, mint)[i] in scopes;
      }
    }
    CreatesKeep(db, ScopeRows(doc, mint), ActorRows(doc, mint));
  }

  lemma ActorRowScope(mint: Mint, k: nat, d: ActorDoc, scopeId: Option<Id>)
    ensures ActorRow(mint, k, d, scopeId).scopeId == scopeId && ActorRow(mint, k, d, scopeId).projectId == mint(OfProject)
  {
  }

  lemma ScopeRowIsLive(mint: Mint, i: nat, d: ScopeDoc)
    ensures LiveScopeOf(mint(OfScope(i)), mint(OfProject))(ScopeRow(mint, i, d))
  {
  }

  lemma CreateScopeKeeps(db: Db, row: Scope)
    requires Bound(db) && forall s :: s in db.scopes ==> s.scopeId != row.scopeId
    ensures Bound(db.(scopes := db.scopes + [row]))
  {
    DistinctByAppend(db.scopes, [row], ScopeKey);
    CreatesKeep(db, [row], []);
    assert db.actors + [] == db.actors;
  }

  lemma CreateActorKeeps(db: Db, a: Actor)
    requires Bound(db) && ScopeKnown(db, a.projectId, a.scopeId)
    ensures Bound(db.(actors := db.actors + [a]))
  {
    hide Filter;
    if a.scopeId.Some? { KnownIsLive(db, a.projectId, a.scopeId.value); }
    assert db.scopes + [] == db.scopes;
    CreatesKeep(db, [], [a]);
  }

  lemma StepKeeps(db: Db, op: Op)
    requires Bound(db) && FreshOp(db, op)
    ensures Bound(Step(db, op).0)
  {
    hide Bound, Filter, FindFirst, Map, Imported, Accepts, FreshImport, ScopeKnown;
    match op
    case CreateScope(row) => CreateScopeKeeps(db, row);
    case UpdateScope(_, _, _) => PatchScopeKeeps(db, op);
    case DeleteScope(scopeId, projectId, at) =>
      if |Filter(db.actors, BoundTo(scopeId))| == 0 { DropScopeKeeps(db, scopeId, projectId, at); }
    case CreateActor(a) => if ScopeKnown(db, a.projectId, a.scopeId) { CreateActorKeeps(db, a); }
    case UpdateActor(_, projectId, patch) => if ScopeKnown(db, projectId, Named(patch.scopeId)) { PatchActorKeeps(db, op); }
    case DeleteActor(id, projectId, at) => DropActorKeeps(db, id, projectId, at);
    case Import(doc, mint, at, keyConfigured) => ImportKeeps(db, doc, mint, at);
  }

  ghost function Run(db: Db, ops: seq<Op>): Db {
    if ops == [] then db else Step(Run(db, ops[..|ops| - 1]), ops[|ops| - 1]).0
  }

  ghost predicate FreshRun(db: Db, ops: seq<Op>) {
    forall n :: 0 <= n < |ops| ==> FreshOp(Run(db, ops[..n]), ops[n])
  }

  /** In every serial run each live actor keeps no scope or a live scope of its own project. */
  lemma {:induction false} RunKeeps(db: Db, ops: seq<Op>)
    requires Bound(db) && FreshRun(db, ops)
    ensures Bound(Run(db, ops))
  {
    hide Step, FreshOp, Bound;
    if ops != [] {
      var pre := ops[..|ops| - 1];
      forall n | 0 <= n < |pre| ensures FreshOp(Run(db, pre[..n]), pre[n]) {
        assert pre[..n] == ops[..n];
        assert FreshOp(Run(db, ops[..n]), ops[n]);
      }
      RunKeeps(db, pre);
      StepKeeps(Run(db, pre), ops[|ops| - 1]);
    }
  }

  /** Bound actors are refused a session exactly when their scope is switched off. */
  lemma RefusedOnlyWhenInactive(db: Db, a: Actor)
    requires Bound(db) && a in db.actors && a.deletedAt.None?
    ensures ResolveScope(db, a).None? <==>
            a.scopeId.Some? && exists s :: s in db.scopes && LiveScopeOf(a.scopeId.value, a.projectId)(s) && !s.isActive
  {
    assert ActorBound(db.scopes, a);
    if a.scopeId.Some? {
      var found := FindFirst(db.scopes, LiveScopeOf(a.scopeId.value, a.projectId));
      forall s | s in db.scopes && LiveScopeOf(a.scopeId.value, a.projectId)(s) ensures found == Some(s) {
        DistinctByMember(db.scopes, ScopeKey, found.value, s);
      }
    }
  }

  /** Deleting a scope, when it is not refused, leaves every live actor's session scope as it was. */
  lemma DeletionWidensNothing(db: Db, scopeId: Id, projectId: Id, at: Time, a: Actor)
    requires Bound(db) && a in db.actors && a.deletedAt.None?
    ensures ResolveScope(Step(db, DeleteScope(scopeId, projectId, at)).0, a) == ResolveScope(db, a)
  {
    hide DistinctBy, Filter, Bound, Map, FindFirst;
    var f := DropScope(scopeId, projectId, at);
    if |Filter(db.actors, BoundTo(scopeId))| == 0 && a.scopeId.Some? {
      NotBound(db, scopeId, a);
      var p := LiveScopeOf(a.scopeId.value, a.projectId);
      forall s | s in db.scopes ensures p(f(s)) == p(s) && (p(s) ==> f(s) == s) {
        OtherScopeKept(s, scopeId, projectId, at, a.scopeId.value, a.projectId);
      }
      FindFirstOfMap(db.scopes, f, p, p);
    }
  }
}
