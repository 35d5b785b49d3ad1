/** What each lobby operation does to the rows, and what the two cached questions answer, column by column. */
module LobbyEffects {
  import opened Prelude
  import opened Schema
  import opened LobbyMembership

  ghost predicate HasLobby(s: Store, lobbyId: Id, appId: Id) {
    exists l :: l in s.lobbies && l.lobbyId == lobbyId && l.appId == appId && l.deletedAt.None?
  }

  ghost predicate HasRoom(s: Store, roomId: Id, appId: Id) {
    exists r :: r in s.rooms && r.roomId == roomId && r.appId == appId && r.deletedAt.None?
  }

  ghost predicate Linked(links: Links, lobbyId: Id, roomId: Id) {
    exists l :: l in links && l.lobbyId == lobbyId && l.roomId == roomId
  }

  /** How many lobbies the room is in, deleted ones included. */
  ghost function LobbyCount(links: Links, roomId: Id): nat {
    |set i | 0 <= i < |links| && links[i].roomId == roomId|
  }

  lemma NoneFound<T(!new)>(rows: seq<T>, p: T -> bool)
    ensures |Filter(rows, p)| == 0 <==> forall x :: x in rows ==> !p(x)
  {
    if |Filter(rows, p)| > 0 { assert Filter(rows, p)[0] in Filter(rows, p); }
  }

  lemma CountIs(links: Links, roomId: Id)
    ensures |Filter(links, WithRoom(roomId))| == LobbyCount(links, roomId)
  {
    FilterCount(links, WithRoom(roomId));
    assert Places(links, WithRoom(roomId)) == set i | 0 <= i < |links| && links[i].roomId == roomId;
  }

  lemma LobbyFound(s: Store, lobbyId: Id, appId: Id)
    ensures |Filter(s.lobbies, LobbyOf(lobbyId, appId))| == 0 <==> !HasLobby(s, lobbyId, appId)
    ensures FindFirst(s.lobbies, LobbyOf(lobbyId, appId)).None? <==> !HasLobby(s, lobbyId, appId)
  {
    NoneFound(s.lobbies, LobbyOf(lobbyId, appId));
    if l :| l in s.lobbies && l.lobbyId == lobbyId && l.appId == appId && l.deletedAt.None? { assert LobbyOf(lobbyId, appId)(l); }
    if l :| l in s.lobbies && LobbyOf(lobbyId, appId)(l) { assert HasLobby(s, lobbyId, appId); }
  }

  lemma RoomFound(s: Store, roomId: Id, appId: Id)
    ensures |Filter(s.rooms, RoomOf(roomId, appId))| == 0 <==> !HasRoom(s, roomId, appId)
  {
    NoneFound(s.rooms, RoomOf(roomId, appId));
    if r :| r in s.rooms && r.roomId == roomId && r.appId == appId && r.deletedAt.None? { assert RoomOf(roomId, appId)(r); }
    if r :| r in s.rooms && RoomOf(roomId, appId)(r) { assert HasRoom(s, roomId, appId); }
  }

  lemma LinkFound(links: Links, lobbyId: Id, roomId: Id)
    ensures |Filter(links, Pair(lobbyId, roomId))| == 0 <==> !Linked(links, lobbyId, roomId)
  {
    NoneFound(links, Pair(lobbyId, roomId));
    if l :| l in links && l.lobbyId == lobbyId && l.roomId == roomId { assert Pair(lobbyId, roomId)(l); }
    if l :| l in links && Pair(lobbyId, roomId)(l) { assert Linked(links, lobbyId, roomId); }
  }

  /** Joining needs a live lobby and a live room of the app, a new pair, and fewer than ten lobbies; the first failure is reported and nothing changes. */
  lemma AddMeans(s: Store, lobbyId: Id, roomId: Id, appId: Id, now: Time)
    ensures var (after, answer) := Step(s, Event(AddRoom(lobbyId, roomId, appId), now));
            if !HasLobby(s, lobbyId, appId) then after == s && answer == Failed(LobbyNotFound)
            else if !HasRoom(s, roomId, appId) then after == s && answer == Failed(RoomNotFound)
            else if Linked(s.links, lobbyId, roomId) then after == s && answer == Failed(AlreadyInLobby)
            else if LobbyCount(s.links, roomId) >= 10 then after == s && answer == Failed(TooManyLobbies)
            else
              && answer == Done && after.lobbies == s.lobbies && after.rooms == s.rooms
              && |after.links| == |s.links| + 1 && after.links[..|s.links|] == s.links
              && after.links[|s.links|].lobbyId == lobbyId && after.links[|s.links|].roomId == roomId && after.links[|s.links|].deletedAt.None?
  {
    hide Filter, Forget, HasLobby, HasRoom, Linked, LobbyCount;
    LobbyFound(s, lobbyId, appId);
    RoomFound(s, roomId, appId);
    LinkFound(s.links, lobbyId, roomId);
    CountIs(s.links, roomId);
  }

  /** Leaving removes that pair's link and no other, and asks only that the lobby is live. */
  lemma RemoveMeans(s: Store, lobbyId: Id, roomId: Id, appId: Id, now: Time)
    ensures var (after, answer) := Step(s, Event(RemoveRoom(lobbyId, roomId, appId), now));
            if !HasLobby(s, lobbyId, appId) then after == s && answer == Failed(LobbyNotFound)
            else
              && answer == Done && after.lobbies == s.lobbies && after.rooms == s.rooms
              && (forall l :: l in after.links <==> l in s.links && !(l.lobbyId == lobbyId && l.roomId == roomId))
              && (DistinctBy(s.links, LinkKey) ==> DistinctBy(after.links, LinkKey))
  {
    hide Forget, HasLobby;
    LobbyFound(s, lobbyId, appId);
    if DistinctBy(s.links, LinkKey) { DistinctByFilter(s.links, NotPair(lobbyId, roomId), LinkKey); }
  }

  /** The row as it was, but deleted at that moment. */
  ghost predicate LobbyDropped(l: Lobby, m: Lobby, now: Time) {
    && m.deletedAt == Some(now) && m.lobbyId == l.lobbyId && m.appId == l.appId && m.slug == l.slug && m.name == l.name
    && m.description == l.description && m.metadata == l.metadata
  }

  ghost predicate LiveIn(l: Lobby, lobbyId: Id, appId: Id) { l.lobbyId == lobbyId && l.appId == appId && l.deletedAt.None? }

  lemma DroppedRow(l: Lobby, lobbyId: Id, appId: Id, now: Time)
    ensures if LiveIn(l, lobbyId, appId) then LobbyDropped(l, DropLobby(lobbyId, appId, now)(l), now)
            else DropLobby(lobbyId, appId, now)(l) == l
  {
    assert LobbyOf(lobbyId, appId)(l) <==> LiveIn(l, lobbyId, appId);
  }

  /** Deleting a lobby marks its live row and leaves every other row and every membership. */
  lemma DeleteLobbyMeans(s: Store, lobbyId: Id, appId: Id, now: Time)
    ensures var (after, answer) := Step(s, Event(DeleteLobby(lobbyId, appId), now));
            if !HasLobby(s, lobbyId, appId) then after == s && answer == Failed(LobbyNotFound)
            else
              && answer == Done && after.links == s.links && after.rooms == s.rooms && |after.lobbies| == |s.lobbies|
              && forall i :: 0 <= i < |s.lobbies| ==>
                   if LiveIn(s.lobbies[i], lobbyId, appId) then LobbyDropped(s.lobbies[i], after.lobbies[i], now) else after.lobbies[i] == s.lobbies[i]
  {
    hide Forget, HasLobby, TtlCache.Step, LiveIn, LobbyDropped, DropLobby, FindFirst;
    LobbyFound(s, lobbyId, appId);
    forall l ensures if LiveIn(l, lobbyId, appId) then LobbyDropped(l, DropLobby(lobbyId, appId, now)(l), now)
                     else DropLobby(lobbyId, appId, now)(l) == l
    { DroppedRow(l, lobbyId, appId, now); }
  }

  /** Deleting a room marks its live row of the app and leaves every other row, every lobby and every membership. */
  lemma DeleteRoomMeans(s: Store, roomId: Id, appId: Id, now: Time)
    ensures var after := Step(s, Event(DeleteRoom(roomId, appId), now)).0;
            && after.lobbies == s.lobbies && after.links == s.links && |after.rooms| == |s.rooms|
            && forall i :: 0 <= i < |s.rooms| ==>
                 if s.rooms[i].roomId == roomId && s.rooms[i].appId == appId && s.rooms[i].deletedAt.None?
                 then after.rooms[i] == s.rooms[i].(deletedAt := Some(now)) else after.rooms[i] == s.rooms[i]
  {
    forall r: Room ensures RoomOf(roomId, appId)(r) <==> r.roomId == roomId && r.appId == appId && r.deletedAt.None? { }
  }

  /** After any serial sequence both questions are answered from the membership rows of that moment, each once, cached or not. */
  lemma ListedMeans(s: Store, events: seq<Event>, id: Id, now: Time)
    requires Start(s)
    ensures var e := Run(s, events);
            var byRoom, byLobby := Step(e, Event(LobbiesForRoom(id), now)).1, Step(e, Event(RoomsOfLobby(id), now)).1;
            && byRoom.Listed? && (forall l :: l in byRoom.links <==> l in e.links && l.roomId == id) && DistinctBy(byRoom.links, LinkKey)
            && byLobby.Listed? && (forall l :: l in byLobby.links <==> l in e.links && l.lobbyId == id) && DistinctBy(byLobby.links, LinkKey)
  {
    hide Step, Run, Start, DistinctBy;
    CachedIsDirect(s, events, id, now);
    MembershipBounded(s, events);
    DistinctByFilter(Run(s, events).links, WithRoom(id), LinkKey);
    DistinctByFilter(Run(s, events).links, WithLobby(id), LinkKey);
  }

  /** No room is ever in more than ten lobbies. */
  lemma NeverMoreThanTen(s: Store, events: seq<Event>, roomId: Id)
    requires Start(s)
    ensures LobbyCount(Run(s, events).links, roomId) <= 10
  {
    hide Run, Start, LobbyCount;
    MembershipBounded(s, events);
    CountIs(Run(s, events).links, roomId);
  }
}
