/** When the cap can refuse a caller of `ensureRoom`: exactly, from the state the callers start in. */
module RoomCap {
  import opened Prelude
  import opened Schema
  import opened EnsureRoom

  /** The i-th caller could insert a room of this app: a slug that is free, and a count still under its cap. */
  ghost predicate CanCreate(s: System, appId: Id, i: nat)
    requires i < |s.callers|
  {
    var call := s.callers[i].call;
    && call.draft.appId == appId && call.draft.slug != ""
    && LiveRooms(s.rooms, appId) < call.cap && !HasNamed(s.rooms, call)
  }

  /** The new slugs that callers other than the j-th could create in its app. */
  ghost function Creatable(s: System, j: nat): set<string>
    requires j < |s.callers|
  {
    set i | 0 <= i < |s.callers| && i != j && CanCreate(s, s.callers[j].call.draft.appId, i) :: s.callers[i].call.draft.slug
  }

  /** Its slug is not taken at the start, and with all the others can create the app is full. */
  ghost predicate CanBeRefused(s: System, j: nat)
    requires j < |s.callers|
  {
    var call := s.callers[j].call;
    !HasNamed(s.rooms, call) && LiveRooms(s.rooms, call.draft.appId) + |Creatable(s, j)| >= call.cap
  }

  ghost predicate Refused(s: System, j: nat) {
    j < |s.callers| && s.callers[j].pc == Finished(Threw(CapReached))
  }

  /* ── no schedule refuses anyone else ─────────────────────────────────── */

  function SlugOf(r: Room): string { r.slug }

  /** The rooms of the app that the schedule added. */
  function Added(s: System, e: System, appId: Id): seq<Room>
    requires |s.rooms| <= |e.rooms|
  {
    Filter(e.rooms[|s.rooms|..], RoomsIn(appId))
  }

  /** Some caller that could create this room did, and returned it. */
  ghost predicate Made(s: System, e: System, appId: Id, r: Room)
    requires |e.callers| == |s.callers|
  {
    exists i: nat :: i < |s.callers| && CanCreate(s, appId, i) && s.callers[i].call.draft == r
                  && e.callers[i] == Caller(s.callers[i].call, Finished(Returned(r)))
  }

  /** What a caller's place says of the start. */
  ghost predicate PlaceOk(s: System, i: nat, pc: Pc)
    requires i < |s.callers|
  {
    var call := s.callers[i].call;
    && (pc == Counting || pc == Checking || pc == Inserting ==> !HasNamed(s.rooms, call))
    && (pc == Checking || pc == Inserting ==> LiveRooms(s.rooms, call.draft.appId) < call.cap)
    && (pc == Finished(Threw(CapReached)) ==> CanBeRefused(s, i))
    && (pc.Rereading? ==> pc.error != CapReached)
  }

  ghost predicate Kept(s: System, e: System) {
    && s.rooms <= e.rooms && |e.callers| == |s.callers|
    && forall i: nat :: i < |s.callers| ==> e.callers[i].call == s.callers[i].call && PlaceOk(s, i, e.callers[i].pc)
  }

  ghost predicate Accounted(s: System, e: System, appId: Id)
    requires |s.rooms| <= |e.rooms| && |e.callers| == |s.callers|
  {
    && DistinctBy(Added(s, e, appId), SlugOf)
    && forall r :: r in Added(s, e, appId) ==> Made(s, e, appId, r)
  }

  lemma {:induction false} FewerThanKeys(rooms: seq<Room>, slugs: set<string>)
    requires DistinctBy(rooms, SlugOf) && forall r :: r in rooms ==> r.slug in slugs
    ensures |rooms| <= |slugs|
  {
    if rooms != [] {
      var n := |rooms| - 1;
      forall r | r in rooms[..n] ensures r.slug in slugs - {rooms[n].slug} {
        var k :| 0 <= k < n && rooms[k] == r;
        assert SlugOf(rooms[k]) != SlugOf(rooms[n]);
      }
      FewerThanKeys(rooms[..n], slugs - {rooms[n].slug});
    }
  }

  lemma LiveSplit(s: System, e: System, appId: Id)
    requires s.rooms <= e.rooms
    ensures LiveRooms(e.rooms, appId) == LiveRooms(s.rooms, appId) + |Added(s, e, appId)|
  {
    FilterAppend(s.rooms, e.rooms[|s.rooms|..], RoomsIn(appId));
    assert e.rooms == s.rooms + e.rooms[|s.rooms|..];
  }

  /** A caller that has not inserted sees no more rooms than the others can create. */
  lemma OthersBound(s: System, e: System, j: nat)
    requires j < |s.callers| && Kept(s, e) && Accounted(s, e, s.callers[j].call.draft.appId)
    requires e.callers[j].pc == Counting
    ensures LiveRooms(e.rooms, s.callers[j].call.draft.appId)
         <= LiveRooms(s.rooms, s.callers[j].call.draft.appId) + |Creatable(s, j)|
  {
    hide LiveRooms, HasNamed, DistinctBy, Added;
    var appId := s.callers[j].call.draft.appId;
    LiveSplit(s, e, appId);
    forall r | r in Added(s, e, appId) ensures r.slug in Creatable(s, j) {
      assert Made(s, e, appId, r);
    }
    FewerThanKeys(Added(s, e, appId), Creatable(s, j));
  }

  lemma HasNamedMore(s: System, e: System, call: Call)
    requires s.rooms <= e.rooms && FindNamed(e.rooms, call).None?
    ensures !HasNamed(s.rooms, call)
  {
    assert forall r :: r in s.rooms ==> r in e.rooms;
  }

  lemma NextKept(s: System, e: System, i: nat)
    requires Kept(s, e) && i < |s.callers| && Accounted(s, e, s.callers[i].call.draft.appId)
    ensures Kept(s, Next(e, i))
  {
    hide LiveRooms, FindNamed, HasNamed, Creatable, Accounted;
    var c := e.callers[i];
    if c.pc == Reading && FindNamed(e.rooms, c.call).None? { HasNamedMore(s, e, c.call); }
    if c.pc == Counting {
      OthersBound(s, e, i);
      LiveSplit(s, e, c.call.draft.appId);
    }
  }

  lemma StillMade(s: System, e: System, i: nat, appId: Id, r: Room)
    requires Kept(s, e) && i < |s.callers| && Made(s, e, appId, r)
    ensures Made(s, Next(e, i), appId, r)
  {
    hide LiveRooms, FindNamed, HasNamed, CanCreate, PlaceOk;
    var k: nat :| k < |s.callers| && CanCreate(s, appId, k) && s.callers[k].call.draft == r
               && e.callers[k] == Caller(s.callers[k].call, Finished(Returned(r)));
    assert Next(e, i).callers[k] == e.callers[k];
  }

  lemma InsertNext(s: System, e: System, i: nat, appId: Id)
    requires Kept(s, e) && i < |s.callers| && e.callers[i].pc == Inserting && e.callers[i].call.draft.slug != ""
    requires FindNamed(e.rooms, e.callers[i].call).None? && e.callers[i].call.draft.deletedAt.None?
    ensures var draft, e' := e.callers[i].call.draft, Next(e, i);
            && |s.rooms| <= |e'.rooms| && |e'.callers| == |e.callers|
            && e'.callers[i] == Caller(e.callers[i].call, Finished(Returned(draft)))
            && Added(s, e', appId) == Added(s, e, appId) + (if draft.appId == appId then [draft] else [])
  {
    hide FindNamed, PlaceOk;
    var draft := e.callers[i].call.draft;
    assert Next(e, i).rooms == e.rooms + [draft];
    assert Next(e, i).rooms[|s.rooms|..] == e.rooms[|s.rooms|..] + [draft];
    FilterAppend(e.rooms[|s.rooms|..], [draft], RoomsIn(appId));
  }

  lemma InsertAccounted(s: System, e: System, i: nat, appId: Id)
    requires Kept(s, e) && Accounted(s, e, appId) && i < |s.callers|
    requires e.callers[i].pc == Inserting && e.callers[i].call.draft.slug != "" && FindNamed(e.rooms, e.callers[i].call).None?
    requires e.callers[i].call.draft.deletedAt.None?
    ensures |s.rooms| <= |Next(e, i).rooms| && |Next(e, i).callers| == |s.callers| && Accounted(s, Next(e, i), appId)
  {
    hide LiveRooms, HasNamed, FindNamed, CanBeRefused, Next, Added, Made, DistinctBy;
    var draft := e.callers[i].call.draft;
    InsertNext(s, e, i, appId);
    forall r | r in Added(s, e, appId) ensures Made(s, Next(e, i), appId, r) && (draft.appId == appId ==> r.slug != draft.slug) {
      StillMade(s, e, i, appId, r);
      if draft.appId == appId {
        AddedIn(s, e, appId, r);
        NotYetNamed(e.rooms, e.callers[i].call, r);
      }
    }
    if draft.appId == appId {
      MadeNow(s, e, i);
      OneSlug(draft);
      DistinctByAppend(Added(s, e, appId), [draft], SlugOf);
    } else {
      assert Added(s, e, appId) + [] == Added(s, e, appId);
    }
  }

  lemma OneSlug(r: Room)
    ensures DistinctBy([r], SlugOf)
  {
  }

  lemma AddedIn(s: System, e: System, appId: Id, r: Room)
    requires s.rooms <= e.rooms
    ensures r in Added(s, e, appId) ==> r in e.rooms && RoomsIn(appId)(r)
    ensures r in e.rooms && RoomsIn(appId)(r) && r !in s.rooms ==> r in Added(s, e, appId)
  {
    assert e.rooms == s.rooms + e.rooms[|s.rooms|..];
  }

  lemma MadeNow(s: System, e: System, i: nat)
    requires Kept(s, e) && i < |s.callers| && e.callers[i].pc == Inserting && e.callers[i].call.draft.slug != ""
    requires |Next(e, i).callers| == |s.callers|
    requires Next(e, i).callers[i] == Caller(e.callers[i].call, Finished(Returned(e.callers[i].call.draft)))
    ensures Made(s, Next(e, i), e.callers[i].call.draft.appId, e.callers[i].call.draft)
  {
    hide Next, LiveRooms, HasNamed;
    assert PlaceOk(s, i, e.callers[i].pc);
    assert CanCreate(s, e.callers[i].call.draft.appId, i);
  }

  lemma NotYetNamed(rooms: seq<Room>, call: Call, r: Room)
    requires FindNamed(rooms, call).None? && r in rooms && RoomsIn(call.draft.appId)(r)
    ensures r.slug != call.draft.slug
  {
    assert !Named(call.draft.appId, call.draft.slug)(r);
  }

  lemma NextAccounted(s: System, e: System, i: nat, appId: Id)
    requires Kept(s, e) && Accounted(s, e, appId)
    requires forall c :: c in e.callers ==> c.call.draft.deletedAt.None?
    ensures Accounted(s, Next(e, i), appId)
  {
    hide LiveRooms, HasNamed, FindNamed, PlaceOk, DistinctBy;
    if i < |e.callers| {
      var c := e.callers[i];
      assert c in e.callers;
      if c.pc == Inserting && c.call.draft.slug != "" && FindNamed(e.rooms, c.call).None? {
        InsertAccounted(s, e, i, appId);
      } else {
        assert Next(e, i).rooms == e.rooms;
        forall r | r in Added(s, e, appId) ensures Made(s, Next(e, i), appId, r) { StillMade(s, e, i, appId, r); }
      }
    }
  }

  lemma {:induction false} RunKept(s: System, schedule: seq<nat>)
    requires Start(s)
    ensures Kept(s, Run(s, schedule)) && forall appId :: Accounted(s, Run(s, schedule), appId)
  {
    hide Next, PlaceOk, Made;
    if schedule == [] {
      forall i: nat | i < |s.callers| ensures PlaceOk(s, i, s.callers[i].pc) { StartPlace(s, i); }
      assert s.rooms[|s.rooms|..] == [];
    } else {
      var pre, i := schedule[..|schedule| - 1], schedule[|schedule| - 1];
      RunKept(s, pre);
      DraftsLive(s, pre);
      if i < |s.callers| { NextKept(s, Run(s, pre), i); } else { NextIdle(Run(s, pre), i); }
      forall appId ensures Accounted(s, Run(s, schedule), appId) { NextAccounted(s, Run(s, pre), i, appId); }
    }
  }

  lemma NextIdle(s: System, i: nat)
    requires i >= |s.callers|
    ensures Next(s, i) == s
  {
  }

  lemma StartPlace(s: System, i: nat)
    requires Start(s) && i < |s.callers|
    ensures PlaceOk(s, i, s.callers[i].pc)
  {
    hide LiveRooms, HasNamed;
    assert s.callers[i] in s.callers;
  }

  lemma DraftsLive(s: System, schedule: seq<nat>)
    requires Start(s)
    ensures forall c :: c in Run(s, schedule).callers ==> c.call.draft.deletedAt.None?
  {
    SameCalls(s, schedule);
    forall c | c in Run(s, schedule).callers ensures c.call.draft.deletedAt.None? {
      var k :| 0 <= k < |s.callers| && Run(s, schedule).callers[k] == c;
      assert s.callers[k] in s.callers;
    }
  }

  /** Whoever is refused met the condition at the start; and if its slug then exists, another caller could create it. */
  lemma RefusedMeans(s: System, schedule: seq<nat>, j: nat)
    requires Start(s) && j < |s.callers| && Refused(Run(s, schedule), j)
    ensures CanBeRefused(s, j)
    ensures HasNamed(Run(s, schedule).rooms, s.callers[j].call) ==> s.callers[j].call.draft.slug in Creatable(s, j)
  {
    hide LiveRooms, CanCreate, Added, Run, HasNamed, Start, CanBeRefused;
    RunKept(s, schedule);
    var e, call := Run(s, schedule), s.callers[j].call;
    assert PlaceOk(s, j, e.callers[j].pc);
    if HasNamed(e.rooms, call) {
      assert !HasNamed(s.rooms, call) by { RefusedUnnamed(s, j); }
      var r := NamedAdded(s, e, call);
      assert Accounted(s, e, call.draft.appId) && Made(s, e, call.draft.appId, r);
    }
  }

  lemma RefusedUnnamed(s: System, j: nat)
    requires j < |s.callers| && CanBeRefused(s, j)
    ensures !HasNamed(s.rooms, s.callers[j].call)
  {
  }

  lemma NamedAdded(s: System, e: System, call: Call) returns (r: Room)
    requires s.rooms <= e.rooms && !HasNamed(s.rooms, call) && HasNamed(e.rooms, call)
    ensures r in Added(s, e, call.draft.appId) && r.slug == call.draft.slug
  {
    r :| r in e.rooms && Named(call.draft.appId, call.draft.slug)(r);
    AddedIn(s, e, call.draft.appId, r);
  }

  /* ── and some schedule refuses everyone who can be ───────────────────── */

  lemma {:induction false} RunAppend(s: System, a: seq<nat>, b: seq<nat>)
    ensures Run(s, a + b) == Run(Run(s, a), b)
  {
    hide Next;
    if b == [] {
      assert a + b == a;
    } else {
      RunAppend(s, a, b[..|b| - 1]);
      assert (a + b)[..|a + b| - 1] == a + b[..|b| - 1];
    }
  }

  lemma RunOne(s: System, i: nat)
    ensures Run(s, [i]) == Next(s, i)
  {
    assert [i][..0] == [];
    assert Run(s, []) == s;
  }

  /** Nothing but the i-th caller's place has changed. */
  function Moved(s: System, i: nat, pc: Pc): System
    requires i < |s.callers|
  {
    s.(callers := s.callers[i := s.callers[i].(pc := pc)])
  }

  ghost predicate Idle(s: System, i: nat) {
    i < |s.callers| && s.callers[i].pc == Reading && FindNamed(s.rooms, s.callers[i].call).None?
  }

  /** Three steps bring a caller that may create its room to the brink of inserting it. */
  lemma PrepareOne(s: System, i: nat)
    requires Idle(s, i) && LiveRooms(s.rooms, s.callers[i].call.draft.appId) < s.callers[i].call.cap
    ensures Run(s, [i, i, i]) == Moved(s, i, Inserting)
  {
    hide Run, FindNamed, LiveRooms;
    RunOne(s, i);
    RunAppend(s, [i], [i]);
    RunOne(Next(s, i), i);
    RunAppend(s, [i, i], [i]);
    RunOne(Next(Next(s, i), i), i);
    assert [i] + [i] == [i, i] && [i, i] + [i] == [i, i, i];
    assert Next(s, i) == Moved(s, i, Counting);
    assert Next(Next(s, i), i) == Moved(s, i, Checking);
  }

  /** The others stand where they stood; these are about to insert. */
  ghost predicate AllPrepared(s: System, e: System, reps: seq<nat>) {
    && e.rooms == s.rooms && |e.callers| == |s.callers|
    && forall i :: 0 <= i < |s.callers| ==> e.callers[i] == if i in reps then s.callers[i].(pc := Inserting) else s.callers[i]
  }

  ghost predicate MayPrepare(s: System, reps: seq<nat>) {
    Distinct(reps) && forall i: nat :: i in reps ==> Idle(s, i) && LiveRooms(s.rooms, s.callers[i].call.draft.appId) < s.callers[i].call.cap
  }

  lemma {:induction false} PrepareAll(s: System, reps: seq<nat>) returns (schedule: seq<nat>)
    requires MayPrepare(s, reps)
    ensures AllPrepared(s, Run(s, schedule), reps)
  {
    hide LiveRooms, FindNamed, Next;
    if reps == [] {
      schedule := [];
    } else {
      var n := |reps| - 1;
      assert forall i :: i in reps[..n] ==> i in reps;
      schedule := PrepareAll(s, reps[..n]);
      var e, i := Run(s, schedule), reps[n];
      assert i in reps && i !in reps[..n];
      assert e.callers[i] == s.callers[i];
      PrepareOne(e, i);
      RunAppend(s, schedule, [i, i, i]);
      schedule := schedule + [i, i, i];
      assert forall k :: k in reps <==> k in reps[..n] || k == i;
    }
  }

  /** Callers about to insert rooms of one app under different free slugs. */
  ghost predicate MayInsert(s: System, appId: Id, reps: seq<nat>) {
    && (forall k :: 0 <= k < |reps| ==> reps[k] < |s.callers| && OnTheBrink(s, appId, reps[k]))
    && (forall k, m :: 0 <= k < m < |reps| ==>
          reps[k] != reps[m] && s.callers[reps[k]].call.draft.slug != s.callers[reps[m]].call.draft.slug)
  }

  ghost predicate OnTheBrink(s: System, appId: Id, i: nat)
    requires i < |s.callers|
  {
    var c := s.callers[i];
    && c.pc == Inserting && c.call.draft.appId == appId && c.call.draft.slug != "" && c.call.draft.deletedAt.None?
    && FindNamed(s.rooms, c.call).None?
  }

  lemma InsertOne(s: System, appId: Id, i: nat)
    requires i < |s.callers| && OnTheBrink(s, appId, i)
    ensures var e := Run(s, [i]);
            && e.rooms == s.rooms + [s.callers[i].call.draft]
            && e.callers == s.callers[i := s.callers[i].(pc := Finished(Returned(s.callers[i].call.draft)))]
  {
    hide Run, FindNamed;
    RunOne(s, i);
  }

  lemma StillFree(rooms: seq<Room>, draft: Room, call: Call)
    requires FindNamed(rooms, call).None? && draft.slug != call.draft.slug
    ensures FindNamed(rooms + [draft], call).None?
  {
    FindFirstAppend(rooms, [draft], Named(call.draft.appId, call.draft.slug));
  }

  lemma {:induction false} InsertAll(s: System, appId: Id, reps: seq<nat>) returns (schedule: seq<nat>)
    requires MayInsert(s, appId, reps)
    ensures var e := Run(s, schedule);
            && LiveRooms(e.rooms, appId) == LiveRooms(s.rooms, appId) + |reps|
            && |e.callers| == |s.callers|
            && (forall i :: 0 <= i < |s.callers| && i !in reps ==> e.callers[i] == s.callers[i])
            && (forall k :: 0 <= k < |reps| ==> s.callers[reps[k]].call.draft in e.rooms)
            && s.rooms <= e.rooms
    decreases |reps|
  {
    hide LiveRooms, FindNamed, Next;
    if reps == [] {
      schedule := [];
    } else {
      var i := reps[0];
      InsertOne(s, appId, i);
      var m := Run(s, [i]);
      LiveAfter(s.rooms, s.callers[i].call.draft, appId);
      forall k | 0 <= k < |reps[1..]| ensures reps[1..][k] < |m.callers| && OnTheBrink(m, appId, reps[1..][k]) {
        assert OnTheBrink(s, appId, reps[k + 1]) && reps[0] != reps[k + 1];
        StillFree(s.rooms, s.callers[i].call.draft, s.callers[reps[k + 1]].call);
      }
      schedule := InsertAll(m, appId, reps[1..]);
      RunAppend(s, [i], schedule);
      InsertedAll(s, m, Run(m, schedule), reps);
      schedule := [i] + schedule;
    }
  }

  lemma InsertedAll(s: System, m: System, e: System, reps: seq<nat>)
    requires |reps| > 0 && |m.callers| == |s.callers| == |e.callers| && forall k :: 0 <= k < |reps| ==> reps[k] < |s.callers|
    requires forall k :: 1 <= k < |reps| ==> reps[k] != reps[0]
    requires m.rooms == s.rooms + [s.callers[reps[0]].call.draft] && m.rooms <= e.rooms
    requires m.callers == s.callers[reps[0] := s.callers[reps[0]].(pc := Finished(Returned(s.callers[reps[0]].call.draft)))]
    requires forall i :: 0 <= i < |m.callers| && i !in reps[1..] ==> e.callers[i] == m.callers[i]
    requires forall k :: 0 <= k < |reps[1..]| ==> m.callers[reps[1..][k]].call.draft in e.rooms
    ensures s.rooms <= e.rooms
    ensures forall i :: 0 <= i < |s.callers| && i !in reps ==> e.callers[i] == s.callers[i]
    ensures forall k :: 0 <= k < |reps| ==> s.callers[reps[k]].call.draft in e.rooms
  {
    assert m.rooms[|s.rooms|] in m.rooms;
    assert e.rooms[|s.rooms|] == m.rooms[|s.rooms|];
    forall k | 0 <= k < |reps| ensures s.callers[reps[k]].call.draft in e.rooms {
      if k > 0 { assert reps[1..][k - 1] == reps[k]; }
    }
    assert forall i :: i in reps[1..] ==> i in reps;
  }

  ghost predicate Adds(s: System, j: nat, i: nat)
    requires j < |s.callers| && i < |s.callers|
  {
    i != j && CanCreate(s, s.callers[j].call.draft.appId, i)
  }

  /** The new slugs the first n callers, but the j-th, could create. */
  ghost function CreatableBy(s: System, j: nat, n: nat): set<string>
    requires j < |s.callers| && n <= |s.callers|
  {
    if n == 0 then {}
    else CreatableBy(s, j, n - 1) + if Adds(s, j, n - 1) then {s.callers[n - 1].call.draft.slug} else {}
  }

  lemma {:induction false} CreatableByMember(s: System, j: nat, n: nat, slug: string)
    requires j < |s.callers| && n <= |s.callers|
    ensures slug in CreatableBy(s, j, n) <==> exists i: nat :: i < n && Adds(s, j, i) && s.callers[i].call.draft.slug == slug
  {
    hide Adds;
    if n > 0 { CreatableByMember(s, j, n - 1, slug); }
  }

  ghost predicate HasRep(s: System, reps: seq<nat>, slug: string)
    requires forall k :: 0 <= k < |reps| ==> reps[k] < |s.callers|
  {
    exists k :: 0 <= k < |reps| && s.callers[reps[k]].call.draft.slug == slug
  }

  ghost predicate Apart(s: System, reps: seq<nat>)
    requires forall k :: 0 <= k < |reps| ==> reps[k] < |s.callers|
  {
    forall k, m :: 0 <= k < m < |reps| ==>
      reps[k] != reps[m] && s.callers[reps[k]].call.draft.slug != s.callers[reps[m]].call.draft.slug
  }

  /** One caller for each slug. */
  ghost predicate Represent(s: System, j: nat, n: nat, reps: seq<nat>)
    requires j < |s.callers| && n <= |s.callers|
  {
    && |reps| == |CreatableBy(s, j, n)|
    && (forall k :: 0 <= k < |reps| ==> reps[k] < n && Adds(s, j, reps[k]))
    && Apart(s, reps)
    && (forall slug :: slug in CreatableBy(s, j, n) ==> HasRep(s, reps, slug))
  }

  lemma {:induction false} PickReps(s: System, j: nat, n: nat) returns (reps: seq<nat>)
    requires j < |s.callers| && n <= |s.callers|
    ensures Represent(s, j, n, reps)
  {
    hide Adds, Represent;
    if n == 0 {
      reps := [];
      RepsNone(s, j);
    } else {
      reps := PickReps(s, j, n - 1);
      if Adds(s, j, n - 1) && s.callers[n - 1].call.draft.slug !in CreatableBy(s, j, n - 1) {
        RepsPushed(s, j, n - 1, reps);
        reps := reps + [n - 1];
      } else {
        assert CreatableBy(s, j, n) == CreatableBy(s, j, n - 1);
        RepsSame(s, j, n - 1, reps);
      }
    }
  }

  lemma RepsNone(s: System, j: nat)
    requires j < |s.callers|
    ensures Represent(s, j, 0, [])
  {
  }

  lemma RepsSame(s: System, j: nat, n: nat, reps: seq<nat>)
    requires j < |s.callers| && n < |s.callers| && Represent(s, j, n, reps) && CreatableBy(s, j, n + 1) == CreatableBy(s, j, n)
    ensures Represent(s, j, n + 1, reps)
  {
    hide CreatableBy, Adds, HasRep, Apart;
  }

  lemma ApartPushed(s: System, reps: seq<nat>, i: nat)
    requires i < |s.callers| && (forall k :: 0 <= k < |reps| ==> reps[k] < |s.callers|) && Apart(s, reps)
    requires forall k :: 0 <= k < |reps| ==> reps[k] != i && s.callers[reps[k]].call.draft.slug != s.callers[i].call.draft.slug
    ensures Apart(s, reps + [i])
  {
    var more := reps + [i];
    forall k, m | 0 <= k < m < |more|
      ensures more[k] != more[m] && s.callers[more[k]].call.draft.slug != s.callers[more[m]].call.draft.slug
    {
      assert more[k] == reps[k];
      if m < |reps| { assert more[m] == reps[m]; }
    }
  }

  lemma HasRepPushed(s: System, reps: seq<nat>, i: nat, slug: string)
    requires i < |s.callers| && forall k :: 0 <= k < |reps| ==> reps[k] < |s.callers|
    ensures HasRep(s, reps, slug) || slug == s.callers[i].call.draft.slug ==> HasRep(s, reps + [i], slug)
  {
    var more := reps + [i];
    if HasRep(s, reps, slug) {
      var k :| 0 <= k < |reps| && s.callers[reps[k]].call.draft.slug == slug;
      assert more[k] == reps[k];
    }
    assert more[|reps|] == i;
  }

  lemma RepsPushed(s: System, j: nat, n: nat, reps: seq<nat>)
    requires j < |s.callers| && n < |s.callers| && Represent(s, j, n, reps)
    requires Adds(s, j, n) && s.callers[n].call.draft.slug !in CreatableBy(s, j, n)
    ensures Represent(s, j, n + 1, reps + [n])
  {
    hide Adds, CreatableBy, Apart, HasRep;
    var more, slug := reps + [n], s.callers[n].call.draft.slug;
    OneMore(s, j, n);
    forall k | 0 <= k < |more| ensures more[k] < n + 1 && Adds(s, j, more[k]) {
      if k < |reps| { assert more[k] == reps[k]; }
    }
    forall x | x in CreatableBy(s, j, n + 1) ensures HasRep(s, more, x) { HasRepPushed(s, reps, n, x); }
    forall k | 0 <= k < |reps| ensures s.callers[reps[k]].call.draft.slug != slug {
      CreatableByMember(s, j, n, s.callers[reps[k]].call.draft.slug);
    }
    ApartPushed(s, reps, n);
  }

  lemma OneMore(s: System, j: nat, n: nat)
    requires j < |s.callers| && n < |s.callers| && Adds(s, j, n)
    ensures CreatableBy(s, j, n + 1) == CreatableBy(s, j, n) + {s.callers[n].call.draft.slug}
  {
  }

  /** Read, let the others count while there is room and then insert, and only then count. */
  lemma Refuse(s: System, j: nat) returns (schedule: seq<nat>)
    requires Start(s) && j < |s.callers| && CanBeRefused(s, j)
    ensures Refused(Run(s, schedule), j)
    ensures s.callers[j].call.draft.slug in Creatable(s, j) ==> HasNamed(Run(s, schedule).rooms, s.callers[j].call)
  {
    hide LiveRooms, Run, Creatable, CanBeRefused, Start, Represent, MayPrepare, MayInsert, HasNamed, Refused, Next;
    var reps := PickReps(s, j, |s.callers|);
    FirstRead(s, j);
    RepsIdle(s, j, reps);
    var p := PrepareAll(Moved(s, j, Counting), reps);
    var e := Run(Moved(s, j, Counting), p);
    RepsOnTheBrink(s, j, e, reps);
    var q := InsertAll(e, s.callers[j].call.draft.appId, reps);
    FullAtLast(s, j, e, Run(e, q), reps);
    RunOne(s, j);
    RunOne(Run(e, q), j);
    RunAppend(s, [j], p);
    RunAppend(s, [j] + p, q);
    RunAppend(s, [j] + p + q, [j]);
    schedule := [j] + p + q + [j];
  }

  lemma AllCreatable(s: System, j: nat)
    requires j < |s.callers|
    ensures Creatable(s, j) == CreatableBy(s, j, |s.callers|)
  {
    hide CreatableBy, CanCreate;
    forall slug ensures slug in Creatable(s, j) <==> slug in CreatableBy(s, j, |s.callers|) {
      CreatableByMember(s, j, |s.callers|, slug);
      if i: nat :| i < |s.callers| && Adds(s, j, i) && s.callers[i].call.draft.slug == slug { }
    }
  }

  lemma FirstRead(s: System, j: nat)
    requires Start(s) && j < |s.callers| && CanBeRefused(s, j)
    ensures Next(s, j) == Moved(s, j, Counting)
  {
    hide LiveRooms, HasNamed;
    assert s.callers[j] in s.callers;
    NotNamed(s.rooms, s.callers[j].call);
  }

  lemma NotNamed(rooms: seq<Room>, call: Call)
    requires !HasNamed(rooms, call)
    ensures FindNamed(rooms, call).None?
  {
  }

  lemma RepsIdle(s: System, j: nat, reps: seq<nat>)
    requires Start(s) && j < |s.callers| && Represent(s, j, |s.callers|, reps)
    ensures j !in reps && MayPrepare(Moved(s, j, Counting), reps)
  {
    hide LiveRooms, FindNamed, CreatableBy, HasNamed;
    forall i: nat | i in reps
      ensures Idle(Moved(s, j, Counting), i) && LiveRooms(s.rooms, s.callers[i].call.draft.appId) < s.callers[i].call.cap && i != j
    {
      var k :| 0 <= k < |reps| && reps[k] == i;
      assert Adds(s, j, reps[k]);
      assert s.callers[i] in s.callers;
      NotNamed(s.rooms, s.callers[i].call);
    }
  }

  lemma RepsOnTheBrink(s: System, j: nat, e: System, reps: seq<nat>)
    requires Start(s) && j < |s.callers| && Represent(s, j, |s.callers|, reps) && j !in reps
    requires AllPrepared(Moved(s, j, Counting), e, reps)
    ensures MayInsert(e, s.callers[j].call.draft.appId, reps)
  {
    hide LiveRooms, FindNamed, CreatableBy, HasNamed;
    forall k | 0 <= k < |reps| ensures reps[k] < |e.callers| && OnTheBrink(e, s.callers[j].call.draft.appId, reps[k]) {
      assert Adds(s, j, reps[k]);
      assert s.callers[reps[k]] in s.callers && reps[k] in reps;
      NotNamed(s.rooms, s.callers[reps[k]].call);
    }
    forall k, m | 0 <= k < m < |reps|
      ensures reps[k] != reps[m] && e.callers[reps[k]].call.draft.slug != e.callers[reps[m]].call.draft.slug
    {
      assert e.callers[reps[k]].call == s.callers[reps[k]].call && e.callers[reps[m]].call == s.callers[reps[m]].call;
    }
  }

  lemma FullAtLast(s: System, j: nat, e: System, f: System, reps: seq<nat>)
    requires Start(s) && j < |s.callers| && CanBeRefused(s, j) && Represent(s, j, |s.callers|, reps) && j !in reps
    requires AllPrepared(Moved(s, j, Counting), e, reps) && |f.callers| == |e.callers|
    requires forall i :: 0 <= i < |e.callers| && i !in reps ==> f.callers[i] == e.callers[i]
    requires LiveRooms(f.rooms, s.callers[j].call.draft.appId) == LiveRooms(e.rooms, s.callers[j].call.draft.appId) + |reps|
    requires forall k :: 0 <= k < |reps| ==> e.callers[reps[k]].call.draft in f.rooms
    ensures Refused(Next(f, j), j)
    ensures s.callers[j].call.draft.slug in Creatable(s, j) ==> HasNamed(Next(f, j).rooms, s.callers[j].call)
  {
    hide LiveRooms, CreatableBy, Start, HasNamed, CanCreate, Apart, Creatable;
    var call := s.callers[j].call;
    AllCreatable(s, j);
    assert f.callers[j] == Caller(call, Counting);
    if call.draft.slug in Creatable(s, j) {
      assert HasRep(s, reps, call.draft.slug);
      var k :| 0 <= k < |reps| && s.callers[reps[k]].call.draft.slug == call.draft.slug;
      assert Adds(s, j, reps[k]);
      NamedBy(s, j, reps[k], e, f.rooms);
    }
  }

  lemma NamedBy(s: System, j: nat, i: nat, e: System, rooms: seq<Room>)
    requires Start(s) && i < |s.callers| && j < |s.callers| && i < |e.callers| && e.callers[i].call == s.callers[i].call
    requires CanCreate(s, s.callers[j].call.draft.appId, i) && s.callers[i].call.draft.slug == s.callers[j].call.draft.slug
    requires e.callers[i].call.draft in rooms
    ensures HasNamed(rooms, s.callers[j].call)
  {
    hide LiveRooms;
    assert s.callers[i] in s.callers;
    assert Named(s.callers[j].call.draft.appId, s.callers[j].call.draft.slug)(s.callers[i].call.draft);
  }

  /**
   * Some schedule refuses a caller exactly when its slug is free at the start and the
   * rooms there are, with the different new slugs the others could create, reach its cap;
   * and it can be refused although its slug then exists exactly when one of those is its own.
   */
  lemma RefusedIff(s: System, j: nat)
    requires Start(s) && j < |s.callers|
    ensures (exists schedule :: Refused(Run(s, schedule), j)) <==> CanBeRefused(s, j)
    ensures (exists schedule :: Refused(Run(s, schedule), j) && HasNamed(Run(s, schedule).rooms, s.callers[j].call)) <==>
            CanBeRefused(s, j) && s.callers[j].call.draft.slug in Creatable(s, j)
  {
    hide Start, Run, Refused, HasNamed, CanBeRefused, Creatable;
    forall schedule | Refused(Run(s, schedule), j)
      ensures CanBeRefused(s, j)
      ensures HasNamed(Run(s, schedule).rooms, s.callers[j].call) ==> s.callers[j].call.draft.slug in Creatable(s, j)
    { RefusedMeans(s, schedule, j); }
    if CanBeRefused(s, j) { var schedule := Refuse(s, j); }
  }

  /* ── a cap large enough for everyone ─────────────────────────────────── */

  lemma {:induction false} FewSlugs(s: System, j: nat, n: nat)
    requires j < |s.callers| && n <= |s.callers|
    ensures |CreatableBy(s, j, n)| + (if j < n then 1 else 0)
         <= |Filter(s.callers[..n], OnApp(s.callers[j].call.draft.appId))|
  {
    hide Adds, Filter, OnApp;
    if n > 0 {
      var i, p := n - 1, OnApp(s.callers[j].call.draft.appId);
      FewSlugs(s, j, i);
      FilterStep(s.callers, i, p);
      OnItsApp(s, j);
      CreatorOnApp(s, j, i);
      assert |CreatableBy(s, j, n)| <= |CreatableBy(s, j, i)| + if Adds(s, j, i) then 1 else 0;
    }
  }

  lemma OnItsApp(s: System, j: nat)
    requires j < |s.callers|
    ensures OnApp(s.callers[j].call.draft.appId)(s.callers[j])
  {
  }

  lemma CreatorOnApp(s: System, j: nat, i: nat)
    requires j < |s.callers| && i < |s.callers|
    ensures Adds(s, j, i) ==> OnApp(s.callers[j].call.draft.appId)(s.callers[i]) && i != j
  {
  }

  /** If the cap holds the rooms there are and one for every caller, no schedule refuses anyone. */
  lemma RoomForEveryone(s: System, schedule: seq<nat>, j: nat)
    requires Start(s) && j < |s.callers|
    requires LiveRooms(s.rooms, s.callers[j].call.draft.appId) + |Filter(s.callers, OnApp(s.callers[j].call.draft.appId))|
          <= s.callers[j].call.cap
    ensures !Refused(Run(s, schedule), j)
  {
    hide LiveRooms, Run, Refused, CreatableBy, Creatable;
    FewSlugs(s, j, |s.callers|);
    AllCreatable(s, j);
    assert s.callers[..|s.callers|] == s.callers;
    if Refused(Run(s, schedule), j) { RefusedMeans(s, schedule, j); }
  }
}
