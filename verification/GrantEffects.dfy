/** What the room grant facade stores, and what the resolver then decides. */
module GrantEffects {
  import opened Prelude
  import opened Schema
  import opened Resolution
  import opened RoomGrants

  /* ── the rows, column by column ──────────────────────────────────────── */

  /** The row a request asks for, field by field; a grant is on unless told otherwise. */
  ghost predicate StoredAs(g: RoomGrant, grantId: Id, roomId: Id, dto: CreateDto) {
    && g.grantId == grantId && g.roomId == roomId && g.deletedAt.None?
    && g.actorTokenId == dto.actorTokenId && g.actorType == dto.actorType
    && g.permission == dto.permission && g.topics == dto.topics && g.isActive == (dto.isActive != Some(false))
    && g.expiresAt == dto.expiresAt && g.role == dto.role && g.metadata == dto.metadata
  }

  /** A non-empty actor id or a type, and not both. */
  ghost predicate OneNamed(dto: CreateDto) {
    match dto.actorTokenId
    case None => dto.actorType.Some?
    case Some(id) => id != "" && dto.actorType.None?
  }

  /** A live grant on the room already names that actor, or that type. */
  ghost predicate Taken(grants: seq<RoomGrant>, roomId: Id, dto: CreateDto) {
    exists g :: g in grants && g.roomId == roomId && g.deletedAt.None?
             && (if dto.actorTokenId.Some? then g.actorTokenId == dto.actorTokenId else g.actorTokenId.None? && g.actorType == dto.actorType)
  }

  /** A request is accepted exactly when it has one target that is free; then its row is added and nothing else changes. */
  lemma CreateMeans(grants: seq<RoomGrant>, grantId: Id, roomId: Id, dto: CreateDto)
    requires Sound(grants)
    ensures var (after, error) := Step(grants, Create(grantId, roomId, dto));
            && (error.None? <==> OneNamed(dto) && !Taken(grants, roomId, dto))
            && (error.None? ==> exists g :: after == grants + [g] && StoredAs(g, grantId, roomId, dto))
            && (error.Some? ==> after == grants)
  {
    var existing := FindFirst(grants, Rival(roomId, dto));
    if OneNamed(dto) {
      if existing.Some? { assert Taken(grants, roomId, dto); }
      if Taken(grants, roomId, dto) {
        var g :| g in grants && g.roomId == roomId && g.deletedAt.None?
              && if dto.actorTokenId.Some? then g.actorTokenId == dto.actorTokenId else g.actorTokenId.None? && g.actorType == dto.actorType;
        assert Rival(roomId, dto)(g);
      }
    }
    assert StoredAs(NewGrant(grantId, roomId, dto), grantId, roomId, dto);
  }

  /** Each given field replaced, every other one kept; never the target. */
  ghost predicate UpdatedTo(g: RoomGrant, h: RoomGrant, d: UpdateDto) {
    && h.grantId == g.grantId && h.roomId == g.roomId && h.actorTokenId == g.actorTokenId && h.actorType == g.actorType
    && h.deletedAt == g.deletedAt
    && h.permission == (if d.permission.Some? then d.permission.value else g.permission)
    && h.isActive == (if d.isActive.Some? then d.isActive.value else g.isActive)
    && Sets(d.topics, g.topics, h.topics) && Sets(d.expiresAt, g.expiresAt, h.expiresAt)
    && Sets(d.role, g.role, h.role) && Sets(d.metadata, g.metadata, h.metadata)
  }

  ghost predicate DeletedAs(g: RoomGrant, h: RoomGrant, at: Time) {
    && h.deletedAt == Some(at) && h.grantId == g.grantId && h.roomId == g.roomId
    && h.actorTokenId == g.actorTokenId && h.actorType == g.actorType && h.permission == g.permission && h.topics == g.topics
    && h.isActive == g.isActive && h.expiresAt == g.expiresAt && h.role == g.role && h.metadata == g.metadata
  }

  /** The live row a request names. */
  ghost predicate Names(g: RoomGrant, grantId: Id) { g.grantId == grantId && g.deletedAt.None? }

  lemma FoundIff(grants: seq<RoomGrant>, grantId: Id)
    ensures FindFirst(grants, LiveGrant(grantId)).Some? <==> exists g :: g in grants && Names(g, grantId)
  {
    if g :| g in grants && Names(g, grantId) { assert LiveGrant(grantId)(g); }
    if FindFirst(grants, LiveGrant(grantId)).Some? { assert Names(FindFirst(grants, LiveGrant(grantId)).value, grantId); }
  }

  lemma UpdateRow(g: RoomGrant, grantId: Id, d: UpdateDto)
    ensures Names(g, grantId) ==> UpdatedTo(g, Rewrite(grantId, Patched(d))(g), d)
    ensures !Names(g, grantId) ==> Rewrite(grantId, Patched(d))(g) == g
  {
  }

  lemma DeleteRow(g: RoomGrant, grantId: Id, at: Time)
    ensures Names(g, grantId) ==> DeletedAs(g, Rewrite(grantId, Deleted(at))(g), at)
    ensures !Names(g, grantId) ==> Rewrite(grantId, Deleted(at))(g) == g
  {
  }

  /** An update replaces the given fields of the live row it names, and is refused if there is none. */
  lemma UpdateMeans(grants: seq<RoomGrant>, grantId: Id, d: UpdateDto)
    ensures var (after, error) := Step(grants, Update(grantId, d));
            && |after| == |grants|
            && (error.None? <==> exists g :: g in grants && Names(g, grantId)) && (error.Some? ==> error == Some(NotFound))
            && (forall i :: 0 <= i < |grants| && Names(grants[i], grantId) ==> UpdatedTo(grants[i], after[i], d))
            && (forall i :: 0 <= i < |grants| && !Names(grants[i], grantId) ==> after[i] == grants[i])
  {
    hide Names, UpdatedTo, Rewrite, FindFirst;
    FoundIff(grants, grantId);
    forall g ensures Names(g, grantId) ==> UpdatedTo(g, Rewrite(grantId, Patched(d))(g), d)
             ensures !Names(g, grantId) ==> Rewrite(grantId, Patched(d))(g) == g
    { UpdateRow(g, grantId, d); }
  }

  /** A delete marks the live row it names, and is refused if there is none. */
  lemma DeleteMeans(grants: seq<RoomGrant>, grantId: Id, at: Time)
    ensures var (after, error) := Step(grants, Delete(grantId, at));
            && |after| == |grants|
            && (error.None? <==> exists g :: g in grants && Names(g, grantId)) && (error.Some? ==> error == Some(NotFound))
            && (forall i :: 0 <= i < |grants| && Names(grants[i], grantId) ==> DeletedAs(grants[i], after[i], at))
            && (forall i :: 0 <= i < |grants| && !Names(grants[i], grantId) ==> after[i] == grants[i])
  {
    hide Names, DeletedAs, Rewrite, FindFirst;
    FoundIff(grants, grantId);
    forall g ensures Names(g, grantId) ==> DeletedAs(g, Rewrite(grantId, Deleted(at))(g), at)
             ensures !Names(g, grantId) ==> Rewrite(grantId, Deleted(at))(g) == g
    { DeleteRow(g, grantId, at); }
  }

  /* ── what a grant decides ────────────────────────────────────────────── */

  /** The grant names this actor, or its type where no active grant on the room names the actor itself. */
  ghost predicate Reaches(grants: seq<RoomGrant>, g: RoomGrant, actor: Actor) {
    if g.actorTokenId.Some? then g.actorTokenId.value == actor.actorTokenId
    else g.actorType == Some(actor.actorType)
         && forall h :: h in grants && h.roomId == g.roomId && h.isActive && h.deletedAt.None? ==> h.actorTokenId != Some(actor.actorTokenId)
  }

  /** While active, a live grant that reaches the actor decides its room: until it expires by its own permission and topics, afterwards not at all. */
  lemma GrantDecides(q: Request, access: AppAccess, room: Room, g: RoomGrant)
    requires Sound(q.db.roomGrants) && g in q.db.roomGrants && g.deletedAt.None? && g.roomId == room.roomId
    ensures EffectiveGrant(q.db, q.actor, room.roomId) == Some(g) <==> g.isActive && Reaches(q.db.roomGrants, g, q.actor)
    ensures g.isActive && Reaches(q.db.roomGrants, g, q.actor) ==>
              DecideRoom(q, access, room) ==
              if g.expiresAt.Some? && g.expiresAt.value < q.now then None
              else Some(RoomAccess(g.permission, if g.topics.Some? then g.topics.value else if access.app.topics.Some? then access.app.topics.value else []))
  {
    assert OneGrantOnRoom(q.db, room.roomId);
    EffectiveSpeaks(q, room.roomId, g);
    assert SpeaksFor(q, room.roomId, g) <==> g.isActive && Reaches(q.db.roomGrants, g, q.actor);
    assert GrantsOn(room.roomId)(g);
  }

  /** Any live grant closes its room: whoever no active grant reaches is kept out. */
  lemma GrantCloses(q: Request, access: AppAccess, room: Room, g: RoomGrant)
    requires g in q.db.roomGrants && g.deletedAt.None? && g.roomId == room.roomId
    requires forall h :: h in q.db.roomGrants && h.roomId == room.roomId && h.deletedAt.None? && h.isActive ==>
               if h.actorTokenId.Some? then h.actorTokenId.value != q.actor.actorTokenId else h.actorType != Some(q.actor.actorType)
    ensures DecideRoom(q, access, room) == None
  {
    assert GrantsOn(room.roomId)(g);
  }

  /** What the decision is, in the words of a request. */
  ghost predicate DecidedBy(q: Request, access: AppAccess, room: Room, permission: Permission, topics: Option<seq<string>>, expiresAt: Option<Time>) {
    DecideRoom(q, access, room) ==
    if expiresAt.Some? && expiresAt.value < q.now then None
    else Some(RoomAccess(permission, if topics.Some? then topics.value else if access.app.topics.Some? then access.app.topics.value else []))
  }

  /**
   * After an accepted create, whoever holds the app and is the grant's target is decided
   * in that room, at every clock, by the requested permission, topics and expiry, as long
   * as the grant is on and, for a type, no active grant names the actor itself.
   */
  lemma CreatedDecides(grants: seq<RoomGrant>, grantId: Id, roomId: Id, dto: CreateDto, q: Request, access: AppAccess, room: Room)
    returns (g: RoomGrant)
    requires Sound(grants) && FreshOp(grants, Create(grantId, roomId, dto)) && Step(grants, Create(grantId, roomId, dto)).1.None?
    requires q.db.roomGrants == Step(grants, Create(grantId, roomId, dto)).0 && room.roomId == roomId
    ensures q.db.roomGrants == grants + [g] && StoredAs(g, grantId, roomId, dto)
    ensures EffectiveGrant(q.db, q.actor, roomId) == Some(g) <==> dto.isActive != Some(false) && Reaches(q.db.roomGrants, g, q.actor)
    ensures dto.isActive != Some(false) && Reaches(q.db.roomGrants, g, q.actor) ==>
              DecidedBy(q, access, room, dto.permission, dto.topics, dto.expiresAt)
  {
    hide Sound, FreshOp, Step, DecideRoom, EffectiveGrant, Reaches;
    CreateMeans(grants, grantId, roomId, dto);
    StepKeeps(grants, Create(grantId, roomId, dto));
    g :| q.db.roomGrants == grants + [g] && StoredAs(g, grantId, roomId, dto);
    GrantDecides(q, access, room, g);
  }

  /** After an accepted update the same holds of the row it names, with each given field replaced. */
  lemma UpdatedDecides(grants: seq<RoomGrant>, before: RoomGrant, d: UpdateDto, q: Request, access: AppAccess, room: Room)
    returns (g: RoomGrant)
    requires Sound(grants) && before in grants && before.deletedAt.None? && room.roomId == before.roomId
    requires q.db.roomGrants == Step(grants, Update(before.grantId, d)).0
    ensures g in q.db.roomGrants && UpdatedTo(before, g, d)
    ensures EffectiveGrant(q.db, q.actor, room.roomId) == Some(g) <==> g.isActive && Reaches(q.db.roomGrants, g, q.actor)
    ensures g.isActive && Reaches(q.db.roomGrants, g, q.actor) ==> DecidedBy(q, access, room, g.permission, g.topics, g.expiresAt)
  {
    hide Sound, Step, DecideRoom, EffectiveGrant, Reaches;
    UpdateMeans(grants, before.grantId, d);
    StepKeeps(grants, Update(before.grantId, d));
    var i :| 0 <= i < |grants| && grants[i] == before;
    assert Names(before, before.grantId);
    g := q.db.roomGrants[i];
    GrantDecides(q, access, room, g);
  }

  /* ── a deleted grant decides nothing ─────────────────────────────────── */

  function Without(grantId: Id): RoomGrant -> bool { (g: RoomGrant) => g.grantId != grantId }

  /** Rewriting the dropped rows so that they cannot match is dropping them. */
  lemma {:induction false} LastWithout<T(!new)>(s: seq<T>, f: T -> T, keep: T -> bool, p: T -> bool)
    requires forall x :: x in s ==> if keep(x) then f(x) == x else !p(f(x))
    ensures FindLast(Map(s, f), p) == FindLast(Filter(s, keep), p)
  {
    if s != [] {
      var n := |s| - 1;
      LastWithout(s[..n], f, keep, p);
      assert Map(s, f)[..n] == Map(s[..n], f);
    }
  }

  lemma {:induction false} FirstWithout<T(!new)>(s: seq<T>, f: T -> T, keep: T -> bool, p: T -> bool)
    requires forall x :: x in s ==> if keep(x) then f(x) == x else !p(f(x))
    ensures FindFirst(Map(s, f), p) == FindFirst(Filter(s, keep), p)
  {
    if s != [] {
      var n := |s| - 1;
      FirstWithout(s[..n], f, keep, p);
      assert Map(s, f) == Map(s[..n], f) + [f(s[n])];
      FindFirstAppend(Map(s[..n], f), [f(s[n])], p);
      FindFirstAppend(Filter(s[..n], keep), [s[n]], p);
    }
  }

  /** After an accepted delete no live row has that id, and every decision is the one made without the row. */
  lemma DeletedDecides(grants: seq<RoomGrant>, g: RoomGrant, at: Time, q: Request, access: AppAccess, room: Room)
    requires Sound(grants) && g in grants && g.deletedAt.None?
    requires q.db.roomGrants == Step(grants, Delete(g.grantId, at)).0
    ensures Step(grants, Delete(g.grantId, at)).1.None?
    ensures forall h :: h in q.db.roomGrants ==> !Names(h, g.grantId)
    ensures DecideRoom(q, access, room) ==
            DecideRoom(q.(db := q.db.(roomGrants := Filter(grants, Without(g.grantId)))), access, room)
  {
    hide DecideRoom;
    var f, keep := Rewrite(g.grantId, Deleted(at)), Without(g.grantId);
    assert LiveGrant(g.grantId)(g);
    var found := FindFirst(grants, LiveGrant(g.grantId));
    assert q.db.roomGrants == Map(grants, f);
    DeadRows(grants, g, at);
    FirstWithout(grants, f, keep, GrantsOn(room.roomId));
    LastWithout(grants, f, keep, NamedActive(room.roomId, q.actor.actorTokenId));
    FirstWithout(grants, f, keep, TypeActive(room.roomId, q.actor.actorType));
    SameDecision(q, q.(db := q.db.(roomGrants := Filter(grants, keep))), access, room);
  }

  lemma DeadRows(grants: seq<RoomGrant>, g: RoomGrant, at: Time)
    requires Sound(grants) && g in grants && g.deletedAt.None?
    ensures var f := Rewrite(g.grantId, Deleted(at));
            forall x :: x in grants ==> if Without(g.grantId)(x) then f(x) == x else f(x).deletedAt.Some?
    ensures forall h :: h in Map(grants, Rewrite(g.grantId, Deleted(at))) ==> !Names(h, g.grantId)
  {
    forall x | x in grants && x.grantId == g.grantId ensures x == g { DistinctByMember(grants, RoomGrantKey, x, g); }
  }

  /** The decision reads the grants through three queries only. */
  lemma SameDecision(q: Request, q': Request, access: AppAccess, room: Room)
    requires q'.actor == q.actor && q'.now == q.now
    requires FindFirst(q.db.roomGrants, GrantsOn(room.roomId)).Some? == FindFirst(q'.db.roomGrants, GrantsOn(room.roomId)).Some?
    requires EffectiveGrant(q.db, q.actor, room.roomId) == EffectiveGrant(q'.db, q.actor, room.roomId)
    ensures DecideRoom(q, access, room) == DecideRoom(q', access, room)
  {
  }
}
