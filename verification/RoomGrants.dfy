/** The room grant facade: one target per grant, one live grant per room and target. */
module RoomGrants {
  import opened Prelude
  import opened Schema

  datatype CreateDto = CreateDto(
    actorTokenId: Option<Id>, actorType: Option<ActorType>, permission: Permission, topics: Option<seq<string>>,
    isActive: Option<bool>, expiresAt: Option<Time>, role: Option<string>, metadata: Option<Json>)

  datatype UpdateDto = UpdateDto(
    permission: Option<Permission>, topics: Field<seq<string>>, isActive: Option<bool>, expiresAt: Field<Time>,
    role: Field<string>, metadata: Field<Json>)

  datatype GrantError = NoTarget | TwoTargets | AlreadyGranted | NotAnId | NotFound

  datatype Op =
    | Create(grantId: Id, roomId: Id, dto: CreateDto)
    | Update(grantId: Id, patch: UpdateDto)
    | Delete(grantId: Id, at: Time)

  /** The checks read an empty actor id as none; the id column then refuses it. */
  predicate NamesActor(dto: CreateDto) { dto.actorTokenId.Some? && dto.actorTokenId.value != "" }

  /** The row a duplicate check looks for: the type check does not ask that no actor be named. */
  function Rival(roomId: Id, dto: CreateDto): RoomGrant -> bool {
    (g: RoomGrant) =>
      g.roomId == roomId && g.deletedAt.None?
      && if NamesActor(dto) then g.actorTokenId == dto.actorTokenId else g.actorType == dto.actorType
  }

  function NewGrant(grantId: Id, roomId: Id, dto: CreateDto): RoomGrant {
    RoomGrant(grantId, roomId, dto.actorTokenId, dto.actorType, dto.permission, dto.topics,
              dto.isActive.GetOr(true), dto.expiresAt, dto.role, dto.metadata, None)
  }

  function LiveGrant(grantId: Id): RoomGrant -> bool {
    (g: RoomGrant) => g.grantId == grantId && g.deletedAt.None?
  }

  function PatchGrant(g: RoomGrant, d: UpdateDto): RoomGrant {
    g.(permission := d.permission.GetOr(g.permission), topics := d.topics.Over(g.topics), isActive := d.isActive.GetOr(g.isActive),
       expiresAt := d.expiresAt.Over(g.expiresAt), role := d.role.Over(g.role), metadata := d.metadata.Over(g.metadata))
  }

  function Rewrite(grantId: Id, f: RoomGrant -> RoomGrant): RoomGrant -> RoomGrant {
    (g: RoomGrant) => if LiveGrant(grantId)(g) then f(g) else g
  }

  function Patched(d: UpdateDto): RoomGrant -> RoomGrant { (g: RoomGrant) => PatchGrant(g, d) }
  function Deleted(at: Time): RoomGrant -> RoomGrant { (g: RoomGrant) => g.(deletedAt := Some(at)) }

  function Step(grants: seq<RoomGrant>, op: Op): (seq<RoomGrant>, Option<GrantError>) {
    match op
    case Create(grantId, roomId, dto) =>
      if !NamesActor(dto) && dto.actorType.None? then (grants, Some(NoTarget))
      else if NamesActor(dto) && dto.actorType.Some? then (grants, Some(TwoTargets))
      else if FindFirst(grants, Rival(roomId, dto)).Some? then (grants, Some(AlreadyGranted))
      else if dto.actorTokenId == Some("") then (grants, Some(NotAnId))
      else (grants + [NewGrant(grantId, roomId, dto)], None)
    case Update(grantId, d) =>
      if FindFirst(grants, LiveGrant(grantId)).None? then (grants, Some(NotFound))
      else (Map(grants, Rewrite(grantId, Patched(d))), None)
    case Delete(grantId, at) =>
      if FindFirst(grants, LiveGrant(grantId)).None? then (grants, Some(NotFound))
      else (Map(grants, Rewrite(grantId, Deleted(at))), None)
  }

  class RoomActorAccessFacade {
    var grants: seq<RoomGrant>

    method Create(grantId: Id, roomId: Id, dto: CreateDto) returns (error: Option<GrantError>)
      modifies this
      ensures (grants, error) == Step(old(grants), Op.Create(grantId, roomId, dto))
    {
      if !NamesActor(dto) && dto.actorType.None? { return Some(NoTarget); }
      if NamesActor(dto) && dto.actorType.Some? { return Some(TwoTargets); }
      var existing := FindFirst(grants, Rival(roomId, dto));
      if existing.Some? { return Some(AlreadyGranted); }
      if dto.actorTokenId == Some("") { return Some(NotAnId); }
      grants := grants + [NewGrant(grantId, roomId, dto)];
      return None;
    }

    /** Field by field: the target is not among the fields. */
    method Update(grantId: Id, patch: UpdateDto) returns (error: Option<GrantError>)
      modifies this
      ensures (grants, error) == Step(old(grants), Op.Update(grantId, patch))
    {
      var existing := FindFirst(grants, LiveGrant(grantId));
      if existing.None? { return Some(NotFound); }
      grants := Map(grants, Rewrite(grantId, Patched(patch)));
      return None;
    }

    method Delete(grantId: Id, at: Time) returns (error: Option<GrantError>)
      modifies this
      ensures (grants, error) == Step(old(grants), Op.Delete(grantId, at))
    {
      var existing := FindFirst(grants, LiveGrant(grantId));
      if existing.None? { return Some(NotFound); }
      grants := Map(grants, Rewrite(grantId, Deleted(at)));
      return None;
    }
  }

  /* ── what every step keeps ───────────────────────────────────────────── */

  /** A live grant names an actor or a type, never both. */
  ghost predicate OneTarget(grants: seq<RoomGrant>) {
    forall g :: g in grants && g.deletedAt.None? ==> g.actorTokenId.Some? != g.actorType.Some?
  }

  ghost predicate OnePerTarget(grants: seq<RoomGrant>) {
    DistinctBy(grants, RoomGrantKey) && forall g, h :: g in grants && h in grants && SameTarget(g, h) ==> g == h
  }

  ghost predicate Sound(grants: seq<RoomGrant>) { OneTarget(grants) && OnePerTarget(grants) }

  ghost predicate FreshOp(grants: seq<RoomGrant>, op: Op) {
    op.Create? ==> forall g :: g in grants ==> g.grantId != op.grantId
  }

  lemma CreateKeeps(grants: seq<RoomGrant>, grantId: Id, roomId: Id, dto: CreateDto)
    requires Sound(grants) && FreshOp(grants, Create(grantId, roomId, dto))
    ensures Sound(Step(grants, Create(grantId, roomId, dto)).0)
  {
    var g := NewGrant(grantId, roomId, dto);
    DistinctByAppend(grants, [g], RoomGrantKey);
    if NamesActor(dto) != dto.actorType.Some? && FindFirst(grants, Rival(roomId, dto)).None? && dto.actorTokenId != Some("") {
      forall h | h in grants ensures !SameTarget(g, h) && !SameTarget(h, g) {
        assert !Rival(roomId, dto)(h);
      }
    }
  }

  /** Rewriting rows in place, keeping target, room and id and never reviving one. */
  lemma RewriteKeeps(grants: seq<RoomGrant>, f: RoomGrant -> RoomGrant)
    requires Sound(grants)
    requires forall g :: f(g).grantId == g.grantId && f(g).roomId == g.roomId && f(g).actorTokenId == g.actorTokenId
                      && f(g).actorType == g.actorType && (f(g).deletedAt.None? ==> g.deletedAt.None?)
    ensures Sound(Map(grants, f))
  {
    DistinctByMap(grants, f, RoomGrantKey, RoomGrantKey);
    forall g | g in Map(grants, f) && g.deletedAt.None? ensures g.actorTokenId.Some? != g.actorType.Some? {
      var i :| 0 <= i < |grants| && g == f(grants[i]);
      assert grants[i] in grants;
    }
    forall g, h | g in Map(grants, f) && h in Map(grants, f) && SameTarget(g, h) ensures g == h {
      var i :| 0 <= i < |grants| && g == f(grants[i]);
      var j :| 0 <= j < |grants| && h == f(grants[j]);
      assert grants[i] in grants && grants[j] in grants && SameTarget(grants[i], grants[j]);
    }
  }

  lemma StepKeeps(grants: seq<RoomGrant>, op: Op)
    requires Sound(grants) && FreshOp(grants, op)
    ensures Sound(Step(grants, op).0)
  {
    hide Sound, FreshOp, Map, FindFirst;
    match op
    case Create(grantId, roomId, dto) => CreateKeeps(grants, grantId, roomId, dto);
    case Update(grantId, d) => RewriteKeeps(grants, Rewrite(grantId, Patched(d)));
    case Delete(grantId, at) => RewriteKeeps(grants, Rewrite(grantId, Deleted(at)));
  }

  function Run(grants: seq<RoomGrant>, ops: seq<Op>): seq<RoomGrant> {
    if ops == [] then grants else Step(Run(grants, ops[..|ops| - 1]), ops[|ops| - 1]).0
  }

  ghost predicate FreshRun(grants: seq<RoomGrant>, ops: seq<Op>) {
    forall n :: 0 <= n < |ops| ==> FreshOp(Run(grants, ops[..n]), ops[n])
  }

  /** Every serial run of the facade keeps one target per grant and one live grant per target. */
  lemma {:induction false} RunKeeps(grants: seq<RoomGrant>, ops: seq<Op>)
    requires Sound(grants) && FreshRun(grants, ops)
    ensures Sound(Run(grants, ops))
  {
    hide Sound, FreshOp, Step;
    if ops != [] {
      var pre := ops[..|ops| - 1];
      forall n | 0 <= n < |pre| ensures FreshOp(Run(grants, pre[..n]), pre[n]) {
        assert pre[..n] == ops[..n];
        assert FreshOp(Run(grants, ops[..n]), ops[n]);
      }
      RunKeeps(grants, pre);
      StepKeeps(Run(grants, pre), ops[|ops| - 1]);
    }
  }

  /** The resolver's hypothesis holds of any database whose grants such a run produced. */
  lemma ResolverMayAssume(db: Db, grants: seq<RoomGrant>, ops: seq<Op>)
    requires Sound(grants) && FreshRun(grants, ops) && db.roomGrants == Run(grants, ops)
    ensures OneGrantPerTarget(db) && forall projectId :: OneGrantInProject(db, projectId)
  {
    RunKeeps(grants, ops);
  }
}
