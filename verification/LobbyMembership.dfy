/** Which rooms are in which lobbies, with both directions of the question cached. */
module LobbyMembership {
  import opened Prelude
  import opened Schema
  import TtlCache
  import ExportRefs

  const MAX_LOBBIES_PER_ROOM := 10
  const MEMBERSHIP_TTL := 120_000

  type Links = seq<LobbyRoom>
  type LinkCache = TtlCache.State<Links>

  datatype LobbyError = LobbyNotFound | RoomNotFound | AlreadyInLobby | TooManyLobbies

  datatype Op =
    | NewLobby(lobby: Lobby) | NewRoom(room: Room) | DeleteRoom(roomId: Id, appId: Id)
    | AddRoom(lobbyId: Id, roomId: Id, appId: Id)
    | RemoveRoom(lobbyId: Id, roomId: Id, appId: Id)
    | DeleteLobby(lobbyId: Id, appId: Id)
    | LobbiesForRoom(roomId: Id)
    | RoomsOfLobby(lobbyId: Id)

  datatype Event = Event(op: Op, now: Time)
  datatype Answer = Done | Failed(error: LobbyError) | Listed(links: Links)

  datatype Store = Store(lobbies: seq<Lobby>, rooms: seq<Room>, links: Links, byRoom: LinkCache, byLobby: LinkCache)

  function LobbyOf(lobbyId: Id, appId: Id): Lobby -> bool {
    (l: Lobby) => l.lobbyId == lobbyId && l.appId == appId && l.deletedAt.None?
  }
  function RoomOf(roomId: Id, appId: Id): Room -> bool {
    (r: Room) => r.roomId == roomId && r.appId == appId && r.deletedAt.None?
  }
  function WithRoom(roomId: Id): LobbyRoom -> bool { (l: LobbyRoom) => l.roomId == roomId }
  function WithLobby(lobbyId: Id): LobbyRoom -> bool { (l: LobbyRoom) => l.lobbyId == lobbyId }
  function Pair(lobbyId: Id, roomId: Id): LobbyRoom -> bool { (l: LobbyRoom) => l.lobbyId == lobbyId && l.roomId == roomId }
  function NotPair(lobbyId: Id, roomId: Id): LobbyRoom -> bool { (l: LobbyRoom) => !(l.lobbyId == lobbyId && l.roomId == roomId) }

  /** The one-statement check made before a room joins a lobby; the first failure is reported. */
  function Refusal(lobbies: seq<Lobby>, rooms: seq<Room>, links: Links, lobbyId: Id, roomId: Id, appId: Id): Option<LobbyError> {
    if |Filter(lobbies, LobbyOf(lobbyId, appId))| == 0 then Some(LobbyNotFound)
    else if |Filter(rooms, RoomOf(roomId, appId))| == 0 then Some(RoomNotFound)
    else if |Filter(links, Pair(lobbyId, roomId))| > 0 then Some(AlreadyInLobby)
    else if |Filter(links, WithRoom(roomId))| >= MAX_LOBBIES_PER_ROOM then Some(TooManyLobbies)
    else None
  }

  function Forget(c: LinkCache, key: Id, now: Time): LinkCache {
    TtlCache.Step(MEMBERSHIP_TTL, c, TtlCache.Event(TtlCache.Delete(key), now)).0
  }

  /** A read through a cache: a hit answers, a miss asks the table and is remembered. */
  function CachedRead(c: LinkCache, key: Id, rows: Links, now: Time): (LinkCache, Links) {
    var (c', hit) := TtlCache.Step(MEMBERSHIP_TTL, c, TtlCache.Event(TtlCache.Get(key), now));
    if hit.Some? then (c', hit.value)
    else (TtlCache.Step(MEMBERSHIP_TTL, c', TtlCache.Event(TtlCache.Set(key, rows), now)).0, rows)
  }

  function DropLobby(lobbyId: Id, appId: Id, now: Time): Lobby -> Lobby {
    (l: Lobby) => if LobbyOf(lobbyId, appId)(l) then l.(deletedAt := Some(now)) else l
  }
  function DropRoom(roomId: Id, appId: Id, now: Time): Room -> Room {
    (r: Room) => if RoomOf(roomId, appId)(r) then r.(deletedAt := Some(now)) else r
  }

  function Step(s: Store, e: Event): (Store, Answer) {
    match e.op
    case NewLobby(l) => (s.(lobbies := s.lobbies + [l]), Done)
    case NewRoom(r) => (s.(rooms := s.rooms + [r]), Done)
    case DeleteRoom(roomId, appId) => (s.(rooms := Map(s.rooms, DropRoom(roomId, appId, e.now))), Done)
    case AddRoom(lobbyId, roomId, appId) =>
      (match Refusal(s.lobbies, s.rooms, s.links, lobbyId, roomId, appId)
       case Some(error) => (s, Failed(error))
       case None =>
         (s.(links := s.links + [LobbyRoom(lobbyId, roomId, None)],
             byRoom := Forget(s.byRoom, roomId, e.now), byLobby := Forget(s.byLobby, lobbyId, e.now)), Done))
    case RemoveRoom(lobbyId, roomId, appId) =>
      if FindFirst(s.lobbies, LobbyOf(lobbyId, appId)).None? then (s, Failed(LobbyNotFound))
      else (s.(links := Filter(s.links, NotPair(lobbyId, roomId)),
               byRoom := Forget(s.byRoom, roomId, e.now), byLobby := Forget(s.byLobby, lobbyId, e.now)), Done)
    case DeleteLobby(lobbyId, appId) =>
      if FindFirst(s.lobbies, LobbyOf(lobbyId, appId)).None? then (s, Failed(LobbyNotFound))
      else (s.(lobbies := Map(s.lobbies, DropLobby(lobbyId, appId, e.now)),
               byLobby := Forget(s.byLobby, lobbyId, e.now),
               byRoom := TtlCache.Step(MEMBERSHIP_TTL, s.byRoom, TtlCache.Event(TtlCache.Clear, e.now)).0), Done)
    case LobbiesForRoom(roomId) =>
      var (c, rows) := CachedRead(s.byRoom, roomId, Filter(s.links, WithRoom(roomId)), e.now);
      (s.(byRoom := c), Listed(rows))
    case RoomsOfLobby(lobbyId) =>
      var (c, rows) := CachedRead(s.byLobby, lobbyId, Filter(s.links, WithLobby(lobbyId)), e.now);
      (s.(byLobby := c), Listed(rows))
  }

  /* ── the facade ──────────────────────────────────────────────────────── */

  class LobbyFacade {
    var lobbies: seq<Lobby>
    var rooms: seq<Room>
    var links: Links
    const lobbiesForRoomCache: TtlCache.Cache<Links>
    const lobbyRoomsCache: TtlCache.Cache<Links>

    ghost function Abstract(): Store
      reads this, lobbiesForRoomCache, lobbyRoomsCache
    {
      Store(lobbies, rooms, links, lobbiesForRoomCache.Abstract(), lobbyRoomsCache.Abstract())
    }

    ghost predicate Valid()
      reads this, lobbiesForRoomCache, lobbyRoomsCache
    {
      && lobbiesForRoomCache != lobbyRoomsCache
      && lobbiesForRoomCache.Valid() && lobbiesForRoomCache.ttl == MEMBERSHIP_TTL
      && lobbyRoomsCache.Valid() && lobbyRoomsCache.ttl == MEMBERSHIP_TTL
    }

    constructor (lobbies: seq<Lobby>, rooms: seq<Room>, links: Links)
      ensures Valid() && fresh(lobbiesForRoomCache) && fresh(lobbyRoomsCache)
      ensures Abstract() == Store(lobbies, rooms, links, TtlCache.State(map[], 0, 0), TtlCache.State(map[], 0, 0))
    {
      this.lobbies, this.rooms, this.links := lobbies, rooms, links;
      lobbiesForRoomCache := new TtlCache.Cache(MEMBERSHIP_TTL);
      lobbyRoomsCache := new TtlCache.Cache(MEMBERSHIP_TTL);
    }

    method AddRoomToLobby(lobbyId: Id, roomId: Id, appId: Id, now: Time) returns (answer: Answer)
      requires Valid()
      modifies this, lobbiesForRoomCache, lobbyRoomsCache
      ensures Valid() && (Abstract(), answer) == Step(old(Abstract()), Event(AddRoom(lobbyId, roomId, appId), now))
    {
      hide Filter;
      var refusal := Refusal(lobbies, rooms, links, lobbyId, roomId, appId);
      if refusal.Some? { return Failed(refusal.value); }
      links := links + [LobbyRoom(lobbyId, roomId, None)];
      lobbiesForRoomCache.Remove(roomId);
      lobbyRoomsCache.Remove(lobbyId);
      return Done;
    }

    method RemoveRoomFromLobby(lobbyId: Id, roomId: Id, appId: Id, now: Time) returns (answer: Answer)
      requires Valid()
      modifies this, lobbiesForRoomCache, lobbyRoomsCache
      ensures Valid() && (Abstract(), answer) == Step(old(Abstract()), Event(RemoveRoom(lobbyId, roomId, appId), now))
    {
      hide Filter, FindFirst;
      if FindFirst(lobbies, LobbyOf(lobbyId, appId)).None? { return Failed(LobbyNotFound); }
      links := Filter(links, NotPair(lobbyId, roomId));
      lobbiesForRoomCache.Remove(roomId);
      lobbyRoomsCache.Remove(lobbyId);
      return Done;
    }

    /** Membership rows outlive the lobby. */
    method DeleteLobby(lobbyId: Id, appId: Id, now: Time) returns (answer: Answer)
      requires Valid()
      modifies this, lobbiesForRoomCache, lobbyRoomsCache
      ensures Valid() && (Abstract(), answer) == Step(old(Abstract()), Event(Op.DeleteLobby(lobbyId, appId), now))
    {
      hide Filter, FindFirst, Map;
      if FindFirst(lobbies, LobbyOf(lobbyId, appId)).None? { return Failed(LobbyNotFound); }
      lobbies := Map(lobbies, DropLobby(lobbyId, appId, now));
      lobbyRoomsCache.Remove(lobbyId);
      lobbiesForRoomCache.Empty();
      return Done;
    }

    method FindLobbiesForRoom(roomId: Id, now: Time) returns (rows: Links)
      requires Valid()
      modifies lobbiesForRoomCache
      ensures Valid() && (Abstract(), Listed(rows)) == Step(old(Abstract()), Event(LobbiesForRoom(roomId), now))
    {
      hide Filter;
      var cached := lobbiesForRoomCache.Read(roomId, now);
      if cached.Some? { return cached.value; }
      rows := Filter(links, WithRoom(roomId));
      lobbiesForRoomCache.Write(roomId, rows, now);
    }

    method ListLobbyRoomsCached(lobbyId: Id, now: Time) returns (rows: Links)
      requires Valid()
      modifies lobbyRoomsCache
      ensures Valid() && (Abstract(), Listed(rows)) == Step(old(Abstract()), Event(RoomsOfLobby(lobbyId), now))
    {
      hide Filter;
      var cached := lobbyRoomsCache.Read(lobbyId, now);
      if cached.Some? { return cached.value; }
      rows := Filter(links, WithLobby(lobbyId));
      lobbyRoomsCache.Write(lobbyId, rows, now);
    }
  }

  /* ── what every step keeps ───────────────────────────────────────────── */

  ghost predicate RoomCacheTrue(s: Store) {
    forall id :: id in s.byRoom.entries ==> s.byRoom.entries[id].value == Filter(s.links, WithRoom(id))
  }

  ghost predicate LobbyCacheTrue(s: Store) {
    forall id :: id in s.byLobby.entries ==> s.byLobby.entries[id].value == Filter(s.links, WithLobby(id))
  }

  ghost predicate CapKept(links: Links) {
    DistinctBy(links, LinkKey) && forall id :: |Filter(links, WithRoom(id))| <= MAX_LOBBIES_PER_ROOM
  }

  /** The link joins a lobby and a room of one app, deleted or not. */
  ghost predicate SameApp(s: Store, link: LobbyRoom) {
    exists l, r :: l in s.lobbies && r in s.rooms && l.lobbyId == link.lobbyId && r.roomId == link.roomId && l.appId == r.appId
  }

  ghost predicate AllSameApp(s: Store) { forall link :: link in s.links ==> SameApp(s, link) }

  ghost predicate Sound(s: Store) { RoomCacheTrue(s) && LobbyCacheTrue(s) && CapKept(s.links) && AllSameApp(s) }

  lemma AddKeeps(s: Store, lobbyId: Id, roomId: Id, appId: Id, now: Time)
    requires Sound(s) && Refusal(s.lobbies, s.rooms, s.links, lobbyId, roomId, appId).None?
    ensures Sound(s.(links := s.links + [LobbyRoom(lobbyId, roomId, None)],
                     byRoom := Forget(s.byRoom, roomId, now), byLobby := Forget(s.byLobby, lobbyId, now)))
  {
    hide Filter;
    var link := LobbyRoom(lobbyId, roomId, None);
    var s' := s.(links := s.links + [link], byRoom := Forget(s.byRoom, roomId, now), byLobby := Forget(s.byLobby, lobbyId, now));
    forall id ensures Filter(s.links + [link], WithRoom(id)) == Filter(s.links, WithRoom(id)) + (if id == roomId then [link] else []) {
      OneMore(s.links, link, WithRoom(id));
    }
    forall id ensures Filter(s.links + [link], WithLobby(id)) == Filter(s.links, WithLobby(id)) + (if id == lobbyId then [link] else []) {
      OneMore(s.links, link, WithLobby(id));
    }
    forall l | l in s.links ensures LinkKey(l) != LinkKey(link) {
      assert Pair(lobbyId, roomId)(l) ==> l in Filter(s.links, Pair(lobbyId, roomId));
    }
    DistinctByAppend(s.links, [link], LinkKey);
    var found, room := Filter(s.lobbies, LobbyOf(lobbyId, appId))[0], Filter(s.rooms, RoomOf(roomId, appId))[0];
    assert found in Filter(s.lobbies, LobbyOf(lobbyId, appId)) && room in Filter(s.rooms, RoomOf(roomId, appId));
    assert SameApp(s', link);
    forall l | l in s.links ensures SameApp(s', l) { assert SameApp(s, l); }
  }

  lemma OneMore(links: Links, link: LobbyRoom, p: LobbyRoom -> bool)
    ensures Filter(links + [link], p) == Filter(links, p) + (if p(link) then [link] else [])
  {
    FilterAppend(links, [link], p);
  }

  lemma {:induction false} FilterFewer(links: Links, p: LobbyRoom -> bool, q: LobbyRoom -> bool)
    ensures |Filter(Filter(links, p), q)| <= |Filter(links, q)|
  {
    if links != [] {
      var n := |links| - 1;
      FilterFewer(links[..n], p, q);
      if p(links[n]) { FilterAppend(Filter(links[..n], p), [links[n]], q); }
    }
  }

  lemma FilterUntouched(links: Links, p: LobbyRoom -> bool, q: LobbyRoom -> bool)
    requires forall l :: l in links && q(l) ==> p(l)
    ensures Filter(Filter(links, p), q) == Filter(links, q)
  {
    FilterFilter(links, p, q, q);
  }

  lemma RemoveKeeps(s: Store, lobbyId: Id, roomId: Id, now: Time)
    requires Sound(s)
    ensures Sound(s.(links := Filter(s.links, NotPair(lobbyId, roomId)),
                     byRoom := Forget(s.byRoom, roomId, now), byLobby := Forget(s.byLobby, lobbyId, now)))
  {
    hide Filter;
    var p := NotPair(lobbyId, roomId);
    var s' := s.(links := Filter(s.links, p), byRoom := Forget(s.byRoom, roomId, now), byLobby := Forget(s.byLobby, lobbyId, now));
    forall id | id != roomId ensures Filter(Filter(s.links, p), WithRoom(id)) == Filter(s.links, WithRoom(id)) {
      FilterUntouched(s.links, p, WithRoom(id));
    }
    forall id | id != lobbyId ensures Filter(Filter(s.links, p), WithLobby(id)) == Filter(s.links, WithLobby(id)) {
      FilterUntouched(s.links, p, WithLobby(id));
    }
    forall id ensures |Filter(Filter(s.links, p), WithRoom(id))| <= |Filter(s.links, WithRoom(id))| {
      FilterFewer(s.links, p, WithRoom(id));
    }
    DistinctByFilter(s.links, p, LinkKey);
    forall l | l in s'.links ensures SameApp(s', l) { assert l in s.links && SameApp(s, l); }
  }

  /** Tables that keep every row's id and app keep every link within its app. */
  lemma SameAppKept(s: Store, s': Store)
    requires AllSameApp(s) && s'.links == s.links
    requires forall l :: l in s.lobbies ==> exists m :: m in s'.lobbies && m.lobbyId == l.lobbyId && m.appId == l.appId
    requires forall r :: r in s.rooms ==> exists q :: q in s'.rooms && q.roomId == r.roomId && q.appId == r.appId
    ensures AllSameApp(s')
  {
    forall link | link in s'.links ensures SameApp(s', link) {
      assert SameApp(s, link);
      var l, r :| l in s.lobbies && r in s.rooms && l.lobbyId == link.lobbyId && r.roomId == link.roomId && l.appId == r.appId;
      var m :| m in s'.lobbies && m.lobbyId == l.lobbyId && m.appId == l.appId;
      var q :| q in s'.rooms && q.roomId == r.roomId && q.appId == r.appId;
    }
  }

  lemma DropRoomKeeps(s: Store, roomId: Id, appId: Id, now: Time)
    requires Sound(s)
    ensures Sound(s.(rooms := Map(s.rooms, DropRoom(roomId, appId, now))))
  {
    hide Filter;
    var f := DropRoom(roomId, appId, now);
    forall r | r in s.rooms ensures exists q: Room :: q in Map(s.rooms, f) && q.roomId == r.roomId && q.appId == r.appId {
      var i :| 0 <= i < |s.rooms| && s.rooms[i] == r;
      assert Map(s.rooms, f)[i] in Map(s.rooms, f);
    }
    SameAppKept(s, s.(rooms := Map(s.rooms, f)));
  }

  lemma DropLobbyKeeps(s: Store, lobbyId: Id, appId: Id, now: Time)
    requires Sound(s)
    ensures Sound(s.(lobbies := Map(s.lobbies, DropLobby(lobbyId, appId, now)), byLobby := Forget(s.byLobby, lobbyId, now),
                     byRoom := TtlCache.Step(MEMBERSHIP_TTL, s.byRoom, TtlCache.Event(TtlCache.Clear, now)).0))
  {
    hide Filter;
    var f := DropLobby(lobbyId, appId, now);
    forall l | l in s.lobbies ensures exists m: Lobby :: m in Map(s.lobbies, f) && m.lobbyId == l.lobbyId && m.appId == l.appId {
      var i :| 0 <= i < |s.lobbies| && s.lobbies[i] == l;
      assert Map(s.lobbies, f)[i] in Map(s.lobbies, f);
    }
    SameAppKept(s, s.(lobbies := Map(s.lobbies, f)));
  }

  lemma ReadKeeps(s: Store, id: Id, now: Time)
    requires Sound(s)
    ensures var (c, rows) := CachedRead(s.byRoom, id, Filter(s.links, WithRoom(id)), now);
            Sound(s.(byRoom := c)) && rows == Filter(s.links, WithRoom(id))
    ensures var (c, rows) := CachedRead(s.byLobby, id, Filter(s.links, WithLobby(id)), now);
            Sound(s.(byLobby := c)) && rows == Filter(s.links, WithLobby(id))
  {
    hide Filter, CapKept;
  }

  lemma MoreRowsKeep(s: Store, lobbies: seq<Lobby>, rooms: seq<Room>)
    requires Sound(s)
    ensures Sound(s.(lobbies := s.lobbies + lobbies, rooms := s.rooms + rooms))
  {
    hide CapKept, Filter;
    forall l | l in s.lobbies ensures l in s.lobbies + lobbies { }
    forall r | r in s.rooms ensures r in s.rooms + rooms { }
    SameAppKept(s, s.(lobbies := s.lobbies + lobbies, rooms := s.rooms + rooms));
  }

  lemma StepKeeps(s: Store, e: Event)
    requires Sound(s)
    ensures Sound(Step(s, e).0)
  {
    hide Sound, Filter, FindFirst, Map, Forget, CachedRead, Refusal, TtlCache.Step;
    match e.op
    case NewLobby(l) => MoreRowsKeep(s, [l], []); assert s.(lobbies := s.lobbies + [l], rooms := s.rooms + []) == s.(lobbies := s.lobbies + [l]);
    case NewRoom(r) => MoreRowsKeep(s, [], [r]); assert s.(lobbies := s.lobbies + [], rooms := s.rooms + [r]) == s.(rooms := s.rooms + [r]);
    case DeleteRoom(roomId, appId) => DropRoomKeeps(s, roomId, appId, e.now);
    case AddRoom(lobbyId, roomId, appId) =>
      if Refusal(s.lobbies, s.rooms, s.links, lobbyId, roomId, appId).None? { AddKeeps(s, lobbyId, roomId, appId, e.now); }
    case RemoveRoom(lobbyId, roomId, _) => RemoveKeeps(s, lobbyId, roomId, e.now);
    case DeleteLobby(lobbyId, appId) => DropLobbyKeeps(s, lobbyId, appId, e.now);
    case LobbiesForRoom(roomId) => ReadKeeps(s, roomId, e.now);
    case RoomsOfLobby(lobbyId) => ReadKeeps(s, lobbyId, e.now);
  }

  function Run(s: Store, events: seq<Event>): Store {
    if events == [] then s else Step(Run(s, events[..|events| - 1]), events[|events| - 1]).0
  }

  /** Nothing cached, and the stored links already within bounds. */
  ghost predicate Start(s: Store) {
    s.byRoom == TtlCache.State(map[], 0, 0) && s.byLobby == TtlCache.State(map[], 0, 0) && CapKept(s.links) && AllSameApp(s)
  }

  lemma {:induction false} RunKeeps(s: Store, events: seq<Event>)
    requires Start(s)
    ensures Sound(Run(s, events))
  {
    hide Step, CapKept, AllSameApp;
    if events != [] {
      RunKeeps(s, events[..|events| - 1]);
      StepKeeps(Run(s, events[..|events| - 1]), events[|events| - 1]);
    }
  }

  /** In every serial run, at any clock, both caches answer what the membership table says at that moment. */
  lemma CachedIsDirect(s: Store, events: seq<Event>, id: Id, now: Time)
    requires Start(s)
    ensures var e := Run(s, events);
            && Step(e, Event(LobbiesForRoom(id), now)).1 == Listed(Filter(e.links, WithRoom(id)))
            && Step(e, Event(RoomsOfLobby(id), now)).1 == Listed(Filter(e.links, WithLobby(id)))
  {
    hide Start, Sound, Filter, CachedRead;
    RunKeeps(s, events);
    ReadKeeps(Run(s, events), id, now);
  }

  /** No room is ever in more than ten lobbies, no pair is stored twice, and no link crosses apps. */
  lemma MembershipBounded(s: Store, events: seq<Event>)
    requires Start(s)
    ensures CapKept(Run(s, events).links) && AllSameApp(Run(s, events))
  {
    RunKeeps(s, events);
  }

  /** Deleting a room leaves its links behind, but none ever joins a live room of another app: what an export relies on. */
  lemma ExporterMayAssume(s: Store, events: seq<Event>, db: Db, projectId: Id)
    requires Start(s) && Keyed(db)
    requires db.lobbies == Run(s, events).lobbies && db.rooms == Run(s, events).rooms && db.lobbyRooms == Run(s, events).links
    ensures ExportRefs.LinksInApp(db, projectId)
  {
    hide Run, CapKept, DistinctBy;
    MembershipBounded(s, events);
    forall l, link, r | l in db.lobbies && link in db.lobbyRooms && link.lobbyId == l.lobbyId && r in db.rooms && r.roomId == link.roomId
      ensures r.appId == l.appId
    {
      assert SameApp(Run(s, events), link);
      var m, q :| m in db.lobbies && q in db.rooms && m.lobbyId == link.lobbyId && q.roomId == link.roomId && m.appId == q.appId;
      DistinctByMember(db.lobbies, LobbyKey, l, m);
      DistinctByMember(db.rooms, RoomKey, r, q);
    }
  }

  /** One such state: a room in a lobby is deleted, and its link stays. */
  lemma DeletedRoomKeepsLink(s: Store, link: LobbyRoom, appId: Id, now: Time)
    requires link in s.links
    ensures link in Step(s, Event(DeleteRoom(link.roomId, appId), now)).0.links
    ensures forall r :: r in Step(s, Event(DeleteRoom(link.roomId, appId), now)).0.rooms && r.roomId == link.roomId && r.appId == appId ==>
              r.deletedAt.Some?
  {
    var f := DropRoom(link.roomId, appId, now);
    forall r: Room | r in Map(s.rooms, f) && r.roomId == link.roomId && r.appId == appId ensures r.deletedAt.Some? {
      var i :| 0 <= i < |s.rooms| && r == f(s.rooms[i]);
      if !RoomOf(link.roomId, appId)(s.rooms[i]) { assert r == s.rooms[i]; }
    }
  }
}
