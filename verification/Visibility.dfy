/** Which lobbies a session shows, in terms of the access rule itself. */
module Visibility {
  import opened Prelude
  import opened Schema
  import opened Resolution
  import opened Authz
  import opened RoomCheck

  /** The rule lets the actor into this room of the app; the room need not define a topic. */
  ghost predicate Enters(q: Request, access: AppAccess, room: Room) {
    && AppRule(q, access.app, access.permission, access.topics)
    && room in q.db.rooms && room.appId == access.app.appId && room.status == RoomActive && room.deletedAt.None?
    && exists ra :: RoomRule(q, access, room, ra)
  }

  ghost predicate MayEnter(q: Request, roomId: Id) {
    exists access: AppAccess, room: Room :: Enters(q, access, room) && room.roomId == roomId
  }

  lemma {:induction false} AccessibleMember(entries: seq<AppEntry>, id: Id)
    ensures id in AllAccessible(entries) <==> exists e :: e in entries && id in e.accessibleRoomIds
  {
    if entries != [] {
      var n := |entries| - 1;
      AccessibleMember(entries[..n], id);
      assert forall e :: e in entries <==> e in entries[..n] || e == entries[n];
    }
  }

  lemma RoomEntered(q: Request, access: AppAccess, room: Room)
    requires Keyed(q.db) && OneGrantInProject(q.db, q.actor.projectId) && GrantsInProject(q.db, q.actor)
    requires access in ValidAccess(q) && room in RoomsOf(q.db, access.app)
    ensures DecideRoom(q, access, room).Some? <==> exists ra :: RoomRule(q, access, room, ra)
  {
    hide Keyed, GrantsInProject, ValidAccess, DecideRoom, RoomRule, OneGrantInProject;
    ResolvedApp(q, access);
    RoomOneGrant(q, access.app, room);
    forall ra ensures DecideRoom(q, access, room) == Some(ra) <==> RoomRule(q, access, room, ra) { DecideIsRule(q, access, room, ra); }
    if DecideRoom(q, access, room).Some? {
      assert DecideRoom(q, access, room) == Some(DecideRoom(q, access, room).value);
    }
  }

  /** The room ids collected for lobby visibility are exactly those of the rooms the rule lets the actor into. */
  lemma AccessibleIff(q: Request, id: Id)
    requires Keyed(q.db) && OneGrantInProject(q.db, q.actor.projectId) && GrantsInProject(q.db, q.actor)
    ensures id in AllAccessible(Resolve(q)) <==> MayEnter(q, id)
  {
    hide Keyed, GrantsInProject, ValidAccess, DecideRoom, RoomRule, OneGrantInProject, AppRule, TopicsInRooms, FilterMap, AllAccessible;
    AccessibleMember(Resolve(q), id);
    if e :| e in Resolve(q) && id in e.accessibleRoomIds {
      var i :| 0 <= i < |Resolve(q)| && Resolve(q)[i] == e;
      var access := ValidAccess(q)[i];
      FilterMapMember(RoomsOf(q.db, access.app), ReachableRoomId(q, access), id);
      var room :| room in RoomsOf(q.db, access.app) && ReachableRoomId(q, access)(room) == Some(id);
      RoomEntered(q, access, room);
      ValidAccessIsRule(q, access);
      assert Enters(q, access, room);
    }
    if access: AppAccess, room: Room :| Enters(q, access, room) && room.roomId == id {
      ValidAccessIsRule(q, access);
      var i :| 0 <= i < |ValidAccess(q)| && ValidAccess(q)[i] == access;
      RoomEntered(q, access, room);
      FilterMapMember(RoomsOf(q.db, access.app), ReachableRoomId(q, access), id);
      assert Resolve(q)[i].accessibleRoomIds == FilterMap(RoomsOf(q.db, access.app), ReachableRoomId(q, access));
    }
  }

  /** The lobby is live and the app's, and a live link joins it to a room the rule lets the actor into. */
  ghost predicate ShowsLobby(q: Request, appId: Id, lobby: Lobby) {
    && lobby in q.db.lobbies && lobby.deletedAt.None? && lobby.appId == appId
    && exists link :: link in q.db.lobbyRooms && link.lobbyId == lobby.lobbyId && link.deletedAt.None? && MayEnter(q, link.roomId)
  }

  /** What a session lists under an app is, once each and by id and slug, the lobbies the rule shows. */
  lemma LobbyListedIff(q: Request, recorded: seq<Subscription>, s: SessionApp, a: AllowedLobby)
    requires Keyed(q.db) && OneGrantInProject(q.db, q.actor.projectId) && GrantsInProject(q.db, q.actor)
    requires s in Authz.Session(q, recorded)
    ensures a in s.allowedLobbies <==>
            exists lobby :: ShowsLobby(q, s.entry.appId, lobby) && lobby.lobbyId == a.lobbyId && lobby.slug == a.lobbySlug
    ensures Distinct(s.allowedLobbies)
  {
    hide Keyed, GrantsInProject, OneGrantInProject, Resolve, MayEnter, LobbiesFor, AllAccessible;
    var i :| 0 <= i < |Authz.Session(q, recorded)| && Authz.Session(q, recorded)[i] == s;
    LobbiesExact(q.db, AllAccessible(Resolve(q)), s.entry.appId);
    forall id ensures id in AllAccessible(Resolve(q)) <==> MayEnter(q, id) { AccessibleIff(q, id); }
    if lobby :| ShowsLobby(q, s.entry.appId, lobby) && lobby.lobbyId == a.lobbyId && lobby.slug == a.lobbySlug {
      assert LobbyRule(q.db, AllAccessible(Resolve(q)), s.entry.appId, lobby);
      assert a == AllowedLobby(lobby.lobbyId, lobby.slug);
    }
    if a in s.allowedLobbies {
      var lobby :| LobbyRule(q.db, AllAccessible(Resolve(q)), s.entry.appId, lobby) && a == AllowedLobby(lobby.lobbyId, lobby.slug);
      assert ShowsLobby(q, s.entry.appId, lobby);
    }
  }
}
