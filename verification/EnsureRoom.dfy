/**
 * Provisioning a room on demand. Callers interleave between their reads and writes;
 * the partial unique index on (app, slug) is the only thing that orders them.
 */
module EnsureRoom {
  import opened Prelude
  import opened Schema

  datatype RoomError = CapReached | Conflict | SlugRequired | UniqueViolation
  datatype Outcome = Returned(room: Room) | Threw(error: RoomError)

  /** The row a caller would insert (its id drawn for it) and the cap it was given. */
  datatype Call = Call(draft: Room, cap: int)

  /** Where a caller is: each state is one read or write away from the next. */
  datatype Pc = Reading | Counting | Checking | Inserting | Rereading(error: RoomError) | Finished(outcome: Outcome)

  function Named(appId: Id, slug: string): Room -> bool {
    (r: Room) => r.slug == slug && r.appId == appId && r.deletedAt.None?
  }

  function FindNamed(rooms: seq<Room>, call: Call): Option<Room> {
    FindFirst(rooms, Named(call.draft.appId, call.draft.slug))
  }

  function LiveRooms(rooms: seq<Room>, appId: Id): nat { |Filter(rooms, RoomsIn(appId))| }

  /** How many rooms of the app are not deleted, disabled ones included: what the cap is compared with. */
  lemma LiveRoomsIsCount(rooms: seq<Room>, appId: Id)
    ensures LiveRooms(rooms, appId) == |set i | 0 <= i < |rooms| && rooms[i].appId == appId && rooms[i].deletedAt.None?|
  {
    FilterCount(rooms, RoomsIn(appId));
    assert Places(rooms, RoomsIn(appId)) == set i | 0 <= i < |rooms| && rooms[i].appId == appId && rooms[i].deletedAt.None?;
  }

  /** One step of one caller: the table after it, and where the caller is then. */
  function Step(rooms: seq<Room>, call: Call, pc: Pc): (seq<Room>, Pc) {
    match pc
    case Reading =>
      (rooms, match FindNamed(rooms, call) case Some(r) => Finished(Returned(r)) case None => Counting)
    case Counting =>
      (rooms, if LiveRooms(rooms, call.draft.appId) >= call.cap then Finished(Threw(CapReached)) else Checking)
    case Checking =>
      (rooms, if FindNamed(rooms, call).Some? then Rereading(Conflict) else Inserting)
    case Inserting =>
      if call.draft.slug == "" then (rooms, Rereading(SlugRequired))
      else if FindNamed(rooms, call).Some? then (rooms, Rereading(UniqueViolation))
      else (rooms + [call.draft], Finished(Returned(call.draft)))
    case Rereading(error) =>
      (rooms, match FindNamed(rooms, call) case Some(r) => Finished(Returned(r)) case None => Finished(Threw(error)))
    case Finished(_) => (rooms, pc)
  }

  datatype Caller = Caller(call: Call, pc: Pc)
  datatype System = System(rooms: seq<Room>, callers: seq<Caller>)

  function Next(s: System, i: nat): System {
    if i < |s.callers| then
      var (rooms, pc) := Step(s.rooms, s.callers[i].call, s.callers[i].pc);
      System(rooms, s.callers[i := s.callers[i].(pc := pc)])
    else s
  }

  /** The system after callers take steps in the order a schedule names them. */
  function Run(s: System, schedule: seq<nat>): System {
    if schedule == [] then s else Next(Run(s, schedule[..|schedule| - 1]), schedule[|schedule| - 1])
  }

  ghost predicate UniqueNames(rooms: seq<Room>) {
    forall r, q :: r in rooms && q in rooms && SameLiveRoom(r, q) ==> r == q
  }

  /** Nobody has started; drafts are new active rooms. */
  ghost predicate Start(s: System) {
    && UniqueNames(s.rooms)
    && forall c :: c in s.callers ==> c.pc == Reading && c.call.draft.deletedAt.None?
  }

  /* ── what every step keeps ───────────────────────────────────────────── */

  ghost predicate HasNamed(rooms: seq<Room>, call: Call) {
    exists r :: r in rooms && Named(call.draft.appId, call.draft.slug)(r)
  }

  /** A caller that has finished or lost a race can point to the room, or never could have made one. */
  ghost predicate CallerSafe(rooms: seq<Room>, c: Caller) {
    && c.call.draft.deletedAt.None?
    && match c.pc
       case Finished(Returned(r)) => r in rooms && Named(c.call.draft.appId, c.call.draft.slug)(r)
       case Finished(Threw(e)) =>
         if e == CapReached then LiveRooms(rooms, c.call.draft.appId) >= c.call.cap else e == SlugRequired && c.call.draft.slug == ""
       case Rereading(e) => if e == SlugRequired then c.call.draft.slug == "" else e != CapReached && HasNamed(rooms, c.call)
       case _ => true
  }

  ghost predicate Safe(s: System) {
    UniqueNames(s.rooms) && forall c :: c in s.callers ==> CallerSafe(s.rooms, c)
  }

  lemma LiveAfter(rooms: seq<Room>, draft: Room, appId: Id)
    requires draft.deletedAt.None?
    ensures LiveRooms(rooms + [draft], appId) == LiveRooms(rooms, appId) + (if draft.appId == appId then 1 else 0)
  {
    FilterAppend(rooms, [draft], RoomsIn(appId));
  }

  lemma SafeWhenMore(rooms: seq<Room>, draft: Room, c: Caller)
    requires CallerSafe(rooms, c) && draft.deletedAt.None?
    ensures CallerSafe(rooms + [draft], c)
  {
    hide LiveRooms;
    LiveAfter(rooms, draft, c.call.draft.appId);
    if HasNamed(rooms, c.call) {
      var r :| r in rooms && Named(c.call.draft.appId, c.call.draft.slug)(r);
      assert r in rooms + [draft];
    }
  }

  lemma SafeStep(rooms: seq<Room>, c: Caller)
    requires UniqueNames(rooms) && CallerSafe(rooms, c)
    ensures var (rooms', pc) := Step(rooms, c.call, c.pc);
            UniqueNames(rooms') && CallerSafe(rooms', c.(pc := pc)) && (rooms' == rooms || rooms' == rooms + [c.call.draft])
  {
    var found := FindNamed(rooms, c.call);
    if found.Some? { assert HasNamed(rooms, c.call); }
    if c.pc == Inserting && found.None? {
      forall r | r in rooms ensures !SameLiveRoom(r, c.call.draft) && !SameLiveRoom(c.call.draft, r) {
        assert !Named(c.call.draft.appId, c.call.draft.slug)(r);
      }
    }
  }

  lemma SafeNext(s: System, i: nat)
    requires Safe(s)
    ensures Safe(Next(s, i))
  {
    if i < |s.callers| {
      SafeStep(s.rooms, s.callers[i]);
      var (rooms', pc) := Step(s.rooms, s.callers[i].call, s.callers[i].pc);
      forall c | c in Next(s, i).callers ensures CallerSafe(rooms', c) {
        if c != s.callers[i].(pc := pc) {
          assert c in s.callers && s.callers[i] in s.callers;
          SafeWhenMore(s.rooms, s.callers[i].call.draft, c);
        }
      }
    }
  }

  lemma {:induction false} SafeRun(s: System, schedule: seq<nat>)
    requires Start(s)
    ensures Safe(Run(s, schedule))
  {
    if schedule != [] {
      SafeRun(s, schedule[..|schedule| - 1]);
      SafeNext(Run(s, schedule[..|schedule| - 1]), schedule[|schedule| - 1]);
    }
  }

  lemma {:induction false} SameCalls(s: System, schedule: seq<nat>)
    ensures |Run(s, schedule).callers| == |s.callers|
    ensures forall i :: 0 <= i < |s.callers| ==> Run(s, schedule).callers[i].call == s.callers[i].call
  {
    if schedule != [] { SameCalls(s, schedule[..|schedule| - 1]); }
  }

  /** In every interleaving a slug never names two live rooms, and everyone who got the slug got the same room. */
  lemma SameRoomForAll(s: System, schedule: seq<nat>, i: nat, j: nat)
    requires Start(s) && i < |s.callers| && j < |s.callers|
    requires s.callers[i].call.draft.appId == s.callers[j].call.draft.appId && s.callers[i].call.draft.slug == s.callers[j].call.draft.slug
    ensures var e := Run(s, schedule);
            && |e.callers| == |s.callers|
            && UniqueNames(e.rooms)
            && (e.callers[i].pc.Finished? && e.callers[i].pc.outcome.Returned? ==>
                  var room, draft := e.callers[i].pc.outcome.room, s.callers[i].call.draft;
                  room in e.rooms && room.deletedAt.None? && room.appId == draft.appId && room.slug == draft.slug)
            && (e.callers[i].pc.Finished? && e.callers[j].pc.Finished?
                && e.callers[i].pc.outcome.Returned? && e.callers[j].pc.outcome.Returned? ==>
                  e.callers[i].pc.outcome == e.callers[j].pc.outcome)
  {
    SafeRun(s, schedule);
    SameCalls(s, schedule);
    var e := Run(s, schedule);
    assert CallerSafe(e.rooms, e.callers[i]) && CallerSafe(e.rooms, e.callers[j]);
    if e.callers[i].pc.Finished? && e.callers[j].pc.Finished?
       && e.callers[i].pc.outcome.Returned? && e.callers[j].pc.outcome.Returned? {
      assert SameLiveRoom(e.callers[i].pc.outcome.room, e.callers[j].pc.outcome.room);
    }
  }

  /** A lost race never surfaces: callers fail only when the cap is full, or because no slug could be made from the name. */
  lemma FailsOnlyByCapOrEmptySlug(s: System, schedule: seq<nat>, i: nat)
    requires Start(s) && i < |s.callers|
    ensures |Run(s, schedule).callers| == |s.callers|
    ensures var pc := Run(s, schedule).callers[i].pc;
            pc.Finished? && pc.outcome.Threw? ==>
              if pc.outcome.error == CapReached
              then LiveRooms(Run(s, schedule).rooms, s.callers[i].call.draft.appId) >= s.callers[i].call.cap
              else pc.outcome.error == SlugRequired && s.callers[i].call.draft.slug == ""
  {
    SafeRun(s, schedule);
    SameCalls(s, schedule);
    assert CallerSafe(Run(s, schedule).rooms, Run(s, schedule).callers[i]);
  }

  /** Rows are only ever added. */
  lemma {:induction false} RowsKept(s: System, schedule: seq<nat>)
    ensures s.rooms <= Run(s, schedule).rooms
  {
    if schedule != [] { RowsKept(s, schedule[..|schedule| - 1]); }
  }

  /* ── the cap ─────────────────────────────────────────────────────────── */

  function OnApp(appId: Id): Caller -> bool { (c: Caller) => c.call.draft.appId == appId }

  /** Past the count and not yet inserted or rejected. */
  function PendingOn(appId: Id): Caller -> bool {
    (c: Caller) => c.call.draft.appId == appId && (c.pc == Checking || c.pc == Inserting)
  }

  lemma {:induction false} CountUpdated(s: seq<Caller>, i: nat, c: Caller, p: Caller -> bool)
    requires i < |s|
    ensures |Filter(s[i := c], p)| + (if p(s[i]) then 1 else 0) == |Filter(s, p)| + (if p(c) then 1 else 0)
  {
    var n := |s| - 1;
    if i == n {
      assert s[i := c][..n] == s[..n];
    } else {
      CountUpdated(s[..n], i, c, p);
      assert s[i := c][..n] == s[..n][i := c];
    }
  }

  lemma {:induction false} CountWeaker(s: seq<Caller>, p: Caller -> bool, q: Caller -> bool)
    requires forall c :: p(c) ==> q(c)
    ensures |Filter(s, p)| <= |Filter(s, q)|
  {
    if s != [] { CountWeaker(s[..|s| - 1], p, q); }
  }

  function Max(a: int, b: int): int { if a < b then b else a }

  /** Every caller inserts a live row, and those on the app were given at most this cap. */
  ghost predicate Capped(s: System, appId: Id, cap: int) {
    forall c :: c in s.callers ==> c.call.draft.deletedAt.None? && (c.call.draft.appId == appId ==> c.call.cap <= cap)
  }

  /** Rooms there are and rooms still on their way together respect the bound. */
  ghost predicate Bounded(s: System, appId: Id, bound: int) {
    LiveRooms(s.rooms, appId) + |Filter(s.callers, PendingOn(appId))| <= bound
  }

  /** How one step moves the two counts, and what it saw if it let the caller through. */
  lemma StepCounts(rooms: seq<Room>, c: Caller, appId: Id)
    requires c.call.draft.deletedAt.None?
    ensures var (rooms', pc) := Step(rooms, c.call, c.pc);
            var before, after := if PendingOn(appId)(c) then 1 else 0, if PendingOn(appId)(c.(pc := pc)) then 1 else 0;
            || LiveRooms(rooms', appId) + after <= LiveRooms(rooms, appId) + before
            || (rooms' == rooms && after == 1 && c.call.draft.appId == appId && LiveRooms(rooms, appId) < c.call.cap)
  {
    hide FindNamed, LiveRooms;
    LiveAfter(rooms, c.call.draft, appId);
  }

  lemma PendingFew(s: seq<Caller>, appId: Id)
    ensures |Filter(s, PendingOn(appId))| <= |Filter(s, OnApp(appId))|
  {
    CountWeaker(s, PendingOn(appId), OnApp(appId));
  }

  lemma BoundedNext(s: System, i: nat, appId: Id, cap: int, bound: int)
    requires Capped(s, appId, cap) && Bounded(s, appId, bound) && cap - 1 + |Filter(s.callers, OnApp(appId))| <= bound
    ensures Bounded(Next(s, i), appId, bound) && Capped(Next(s, i), appId, cap)
    ensures |Filter(Next(s, i).callers, OnApp(appId))| == |Filter(s.callers, OnApp(appId))|
  {
    hide Filter, LiveRooms, Step;
    if i < |s.callers| {
      var c := s.callers[i];
      var (rooms', pc) := Step(s.rooms, c.call, c.pc);
      assert c in s.callers;
      StepCounts(s.rooms, c, appId);
      CountUpdated(s.callers, i, c.(pc := pc), PendingOn(appId));
      CountUpdated(s.callers, i, c.(pc := pc), OnApp(appId));
      PendingFew(Next(s, i).callers, appId);
    }
  }

  lemma {:induction false} BoundedRun(s: System, schedule: seq<nat>, appId: Id, cap: int, bound: int)
    requires Capped(s, appId, cap) && Bounded(s, appId, bound) && cap - 1 + |Filter(s.callers, OnApp(appId))| <= bound
    ensures var e := Run(s, schedule);
            Bounded(e, appId, bound) && Capped(e, appId, cap)
            && |Filter(e.callers, OnApp(appId))| == |Filter(s.callers, OnApp(appId))|
  {
    hide Filter, Bounded, Capped, Next;
    if schedule != [] {
      var n := |schedule| - 1;
      BoundedRun(s, schedule[..n], appId, cap, bound);
      BoundedNext(Run(s, schedule[..n]), schedule[n], appId, cap, bound);
    }
  }

  /** N racing callers overshoot the cap by at most N - 1 rooms, in every interleaving. */
  lemma RoomsNeverExceed(s: System, schedule: seq<nat>, appId: Id, cap: int)
    requires Start(s) && forall c :: c in s.callers && c.call.draft.appId == appId ==> c.call.cap <= cap
    ensures LiveRooms(Run(s, schedule).rooms, appId)
         <= Max(LiveRooms(s.rooms, appId), cap - 1 + |Filter(s.callers, OnApp(appId))|)
  {
    FilterNone(s.callers, PendingOn(appId));
    BoundedRun(s, schedule, appId, cap, Max(LiveRooms(s.rooms, appId), cap - 1 + |Filter(s.callers, OnApp(appId))|));
  }

  /* ── one caller alone: the service method ────────────────────────────── */

  /** The table and answer when nobody interrupts: at most five steps. */
  function Alone(rooms: seq<Room>, call: Call): System {
    Run(System(rooms, [Caller(call, Reading)]), [0, 0, 0, 0, 0])
  }

  class RoomTable {
    var rooms: seq<Room>

    /** The transaction: look for the slug again, then insert under the unique index. */
    method CreateRoom(call: Call) returns (r: Result<Room, RoomError>)
      modifies this
      ensures r.Ok? <==> old(FindNamed(rooms, call)).None? && call.draft.slug != ""
      ensures r.Err? ==> r.error == if old(FindNamed(rooms, call)).Some? then Conflict else SlugRequired
      ensures r.Ok? ==> r.value == call.draft
      ensures rooms == if r.Ok? then old(rooms) + [call.draft] else old(rooms)
    {
      if FindNamed(rooms, call).Some? { return Err(Conflict); }
      if call.draft.slug == "" { return Err(SlugRequired); }
      rooms := rooms + [call.draft];
      return Ok(call.draft);
    }

    /** The existing room of that slug, or a new one while the cap allows it. */
    method EnsureRoom(call: Call) returns (outcome: Outcome)
      modifies this
      ensures Alone(old(rooms), call) == System(rooms, [Caller(call, Finished(outcome))])
    {
      AloneIs(rooms, call);
      var existing := FindNamed(rooms, call);
      if existing.Some? { return Returned(existing.value); }
      if LiveRooms(rooms, call.draft.appId) >= call.cap { return Threw(CapReached); }
      var created := CreateRoom(call);
      if created.Ok? { return Returned(created.value); }
      outcome := Reread(call, created.error);
    }

    /** After a failed insert: a room that is there now was a race lost, and is the answer. */
    method Reread(call: Call, error: RoomError) returns (outcome: Outcome)
      ensures (rooms, Finished(outcome)) == Step(rooms, call, Rereading(error))
    {
      var raced := FindNamed(rooms, call);
      outcome := if raced.Some? then Returned(raced.value) else Threw(error);
    }
  }

  lemma RunSnoc(s: System, schedule: seq<nat>, i: nat)
    ensures Run(s, schedule + [i]) == Next(Run(s, schedule), i)
  {
    assert (schedule + [i])[..|schedule|] == schedule;
  }

  lemma FiveSteps(s: System)
    ensures Run(s, [0, 0, 0, 0, 0]) == Next(Next(Next(Next(Next(s, 0), 0), 0), 0), 0)
  {
    hide Next;
    RunSnoc(s, [], 0);
    RunSnoc(s, [0], 0);
    RunSnoc(s, [0, 0], 0);
    RunSnoc(s, [0, 0, 0], 0);
    RunSnoc(s, [0, 0, 0, 0], 0);
    assert [] + [0] == [0] && [0] + [0] == [0, 0] && [0, 0] + [0] == [0, 0, 0];
    assert [0, 0, 0] + [0] == [0, 0, 0, 0] && [0, 0, 0, 0] + [0] == [0, 0, 0, 0, 0];
  }

  function Solo(rooms: seq<Room>, call: Call, pc: Pc): System { System(rooms, [Caller(call, pc)]) }

  lemma NextSolo(rooms: seq<Room>, call: Call, pc: Pc)
    ensures Next(Solo(rooms, call, pc), 0) == Solo(Step(rooms, call, pc).0, call, Step(rooms, call, pc).1)
  {
  }

  /** What an uninterrupted call comes to. */
  lemma AloneIs(rooms: seq<Room>, call: Call)
    ensures Alone(rooms, call) ==
            var existing := FindNamed(rooms, call);
            if existing.Some? then Solo(rooms, call, Finished(Returned(existing.value)))
            else if LiveRooms(rooms, call.draft.appId) >= call.cap then Solo(rooms, call, Finished(Threw(CapReached)))
            else if call.draft.slug == "" then Solo(rooms, call, Finished(Threw(SlugRequired)))
            else Solo(rooms + [call.draft], call, Finished(Returned(call.draft)))
  {
    hide Next, FindNamed, LiveRooms, Run;
    FiveSteps(Solo(rooms, call, Reading));
    forall rooms, pc ensures Next(Solo(rooms, call, pc), 0) == Solo(Step(rooms, call, pc).0, call, Step(rooms, call, pc).1) {
      NextSolo(rooms, call, pc);
    }
  }

  /* ── the cap can refuse what a rival has just made ───────────────────── */

  /** Two callers for one slug, cap one: the second reads before the first inserts and counts after, and is refused. */
  lemma RefusedThoughItExists(a: Room, b: Room)
    requires a.deletedAt.None? && b.deletedAt.None? && a.appId == b.appId && a.slug == b.slug && a.slug != ""
    ensures var s := System([], [Caller(Call(a, 1), Reading), Caller(Call(b, 1), Reading)]);
            Run(s, [1, 0, 0, 0, 0, 1]) ==
            System([a], [Caller(Call(a, 1), Finished(Returned(a))), Caller(Call(b, 1), Finished(Threw(CapReached)))])
  {
    hide LiveRooms, Run, FindNamed;
    NoneNamed(Call(a, 1));
    NoneNamed(Call(b, 1));
    var s := System([], [Caller(Call(a, 1), Reading), Caller(Call(b, 1), Reading)]);
    RunSnoc(s, [], 1);
    RunSnoc(s, [1], 0);
    RunSnoc(s, [1, 0], 0);
    RunSnoc(s, [1, 0, 0], 0);
    RunSnoc(s, [1, 0, 0, 0], 0);
    RunSnoc(s, [1, 0, 0, 0, 0], 1);
    assert [] + [1] == [1] && [1] + [0] == [1, 0] && [1, 0] + [0] == [1, 0, 0] && [1, 0, 0] + [0] == [1, 0, 0, 0];
    assert [1, 0, 0, 0] + [0] == [1, 0, 0, 0, 0] && [1, 0, 0, 0, 0] + [1] == [1, 0, 0, 0, 0, 1];
    assert Run(s, []) == s by { RunEmpty(s); }
    assert LiveRooms([], a.appId) == 0 by { LiveNone(a.appId); }
    assert [] + [a] == [a];
    LiveAfter([], a, a.appId);
  }

  lemma NoneNamed(call: Call)
    ensures FindNamed([], call).None?
  {
  }

  lemma RunEmpty(s: System)
    ensures Run(s, []) == s
  {
  }

  lemma LiveNone(appId: Id)
    ensures LiveRooms([], appId) == 0
  {
  }
}
