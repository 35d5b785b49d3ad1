/**
 * The connect path as the service runs it: a few batched queries, in-memory
 * indexes filled by loops, and lists pushed to in place. Each method is proved
 * to produce what the plain queries of Resolution say.
 */
module Authz {
  import opened Prelude
  import opened Schema
  import opened Resolution

  function OnRoom(roomId: Id): RoomGrant -> bool { (g: RoomGrant) => g.roomId == roomId }
  function InApp(appId: Id): Room -> bool { (r: Room) => r.appId == appId }
  function NamedOn(roomId: Id, actorTokenId: Id): RoomGrant -> bool {
    (g: RoomGrant) => g.roomId == roomId && g.actorTokenId == Some(actorTokenId) && g.isActive
  }
  function TypedOn(roomId: Id, actorType: ActorType): RoomGrant -> bool {
    (g: RoomGrant) => g.roomId == roomId && g.actorTokenId.None? && g.actorType == Some(actorType) && g.isActive
  }
  function GrantsOnAny(roomIds: seq<Id>): RoomGrant -> bool {
    (g: RoomGrant) => g.roomId in roomIds && g.deletedAt.None?
  }
  function ActiveRoomsInAny(appIds: seq<Id>): Room -> bool {
    (r: Room) => r.appId in appIds && r.status == RoomActive && r.deletedAt.None?
  }
  function AccessAppId(a: AppAccess): Id { a.app.appId }

  /** Every grant per room: whether a room is private at all. */
  method IndexGrantsByRoom(rows: seq<RoomGrant>) returns (byRoom: map<Id, seq<RoomGrant>>)
    ensures forall id :: Get(byRoom, id, []) == Filter(rows, OnRoom(id))
  {
    byRoom := map[];
    for i := 0 to |rows|
      invariant forall id :: Get(byRoom, id, []) == Filter(rows[..i], OnRoom(id))
    {
      var ra := rows[i];
      ghost var before := byRoom;
      if ra.roomId in byRoom {
        byRoom := byRoom[ra.roomId := byRoom[ra.roomId] + [ra]];
      } else {
        byRoom := byRoom[ra.roomId := [ra]];
      }
      forall id ensures Get(byRoom, id, []) == Filter(rows[..i + 1], OnRoom(id)) {
        FilterStep(rows, i, OnRoom(id));
        assert Get(before, id, []) == Filter(rows[..i], OnRoom(id));
      }
    }
    assert rows[..|rows|] == rows;
  }

  /** This actor's effective grant per room: named grants first, then type grants where none was set. */
  method IndexActorGrants(rows: seq<RoomGrant>, actor: Actor) returns (byRoom: map<Id, RoomGrant>)
    ensures forall id :: Lookup(byRoom, id) ==
              FindLast(rows, NamedOn(id, actor.actorTokenId)).OrElse(FindFirst(rows, TypedOn(id, actor.actorType)))
  {
    byRoom := map[];
    for i := 0 to |rows|
      invariant forall id :: Lookup(byRoom, id) == FindLast(rows[..i], NamedOn(id, actor.actorTokenId))
    {
      var ra := rows[i];
      ghost var before := byRoom;
      if ra.actorTokenId == Some(actor.actorTokenId) && ra.isActive {
        byRoom := byRoom[ra.roomId := ra];
      }
      forall id ensures Lookup(byRoom, id) == FindLast(rows[..i + 1], NamedOn(id, actor.actorTokenId)) {
        FindLastStep(rows, i, NamedOn(id, actor.actorTokenId));
        assert Lookup(before, id) == FindLast(rows[..i], NamedOn(id, actor.actorTokenId));
      }
    }
    assert rows[..|rows|] == rows;
    for i := 0 to |rows|
      invariant forall id :: Lookup(byRoom, id) ==
                  FindLast(rows, NamedOn(id, actor.actorTokenId)).OrElse(FindFirst(rows[..i], TypedOn(id, actor.actorType)))
    {
      var ra := rows[i];
      ghost var before := byRoom;
      if ra.actorTokenId.None? && ra.actorType == Some(actor.actorType) && ra.isActive && ra.roomId !in byRoom {
        byRoom := byRoom[ra.roomId := ra];
      }
      forall id ensures Lookup(byRoom, id) ==
          FindLast(rows, NamedOn(id, actor.actorTokenId)).OrElse(FindFirst(rows[..i + 1], TypedOn(id, actor.actorType))) {
        FindFirstStep(rows, i, TypedOn(id, actor.actorType));
        assert Lookup(before, id) ==
          FindLast(rows, NamedOn(id, actor.actorTokenId)).OrElse(FindFirst(rows[..i], TypedOn(id, actor.actorType)));
      }
    }
  }

  method IndexRoomsByApp(rows: seq<Room>) returns (byApp: map<Id, seq<Room>>)
    ensures forall id :: Get(byApp, id, []) == Filter(rows, InApp(id))
  {
    byApp := map[];
    for i := 0 to |rows|
      invariant forall id :: Get(byApp, id, []) == Filter(rows[..i], InApp(id))
    {
      var room := rows[i];
      ghost var before := byApp;
      if room.appId in byApp {
        byApp := byApp[room.appId := byApp[room.appId] + [room]];
      } else {
        byApp := byApp[room.appId := [room]];
      }
      forall id ensures Get(byApp, id, []) == Filter(rows[..i + 1], InApp(id)) {
        FilterStep(rows, i, InApp(id));
        assert Get(before, id, []) == Filter(rows[..i], InApp(id));
      }
    }
    assert rows[..|rows|] == rows;
  }

  /** Stored grants that hold, then a synthetic one for each open app without any. */
  method CollectAccess(q: Request) returns (access: seq<AppAccess>)
    ensures access == ValidAccess(q)
  {
    var grants := Filter(q.db.appGrants, ActiveAppGrantsOf(q.actor.actorTokenId));
    access := [];
    for i := 0 to |grants|
      invariant access == FilterMap(grants[..i], JoinApp(q.db, q.now))
    {
      var app := FindFirst(q.db.apps, LiveApp(grants[i].appId));
      FilterMapStep(grants, i, JoinApp(q.db, q.now));
      if app.Some? && app.value.status == AppActive && !Expired(grants[i].expiresAt, q.now) {
        access := access + [AppAccess(app.value, grants[i].permission, grants[i].topics)];
      }
    }
    assert grants[..|grants|] == grants;

    var explicit := ExplicitAppIds(access);
    var openApps := Filter(q.db.apps, OpenAppsIn(q.actor.projectId));
    ghost var stored := access;
    for i := 0 to |openApps|
      invariant access == stored + FilterMap(openApps[..i], Synthesise(explicit))
    {
      FilterMapStep(openApps, i, Synthesise(explicit));
      if openApps[i].appId !in explicit {
        access := access + [AppAccess(openApps[i], PubSub, None)];
      }
    }
    assert openApps[..|openApps|] == openApps;
  }

  method PushTopics(topics: seq<AllowedTopic>, appSlug: string, room: Room, names: seq<string>,
                    permission: Permission, scope: ResolvedScope)
    returns (pushed: seq<AllowedTopic>)
    ensures pushed == topics + Map(names, TopicBuilder(appSlug, room, permission, scope))
  {
    pushed := topics;
    ghost var build := TopicBuilder(appSlug, room, permission, scope);
    for k := 0 to |names|
      invariant pushed == topics + Map(names[..k], build)
    {
      pushed := pushed + [BuildAllowedTopic(appSlug, room, names[k], permission, scope)];
      assert Map(names[..k + 1], build) == Map(names[..k], build) + [build(names[k])];
    }
    assert names[..|names|] == names;
  }

  /** Walk one app's rooms, pushing reachable room ids and allowed topics. */
  method FillApp(q: Request, access: AppAccess, rooms: seq<Room>,
                 byRoom: map<Id, seq<RoomGrant>>, actorByRoom: map<Id, RoomGrant>)
    returns (topics: seq<AllowedTopic>, roomIds: seq<Id>)
    requires forall r :: r in rooms ==> (Get(byRoom, r.roomId, []) != [] <==> IsPrivate(q.db, r.roomId))
    requires forall r :: r in rooms ==> Lookup(actorByRoom, r.roomId) == EffectiveGrant(q.db, q.actor, r.roomId)
    ensures topics == TopicsInRooms(q, access, rooms)
    ensures roomIds == FilterMap(rooms, ReachableRoomId(q, access))
  {
    topics, roomIds := [], [];
    for i := 0 to |rooms|
      invariant topics == TopicsInRooms(q, access, rooms[..i])
      invariant roomIds == FilterMap(rooms[..i], ReachableRoomId(q, access))
    {
      var room := rooms[i];
      assert rooms[..i + 1][..i] == rooms[..i];
      FilterMapStep(rooms, i, ReachableRoomId(q, access));
      var permission, inherited := access.permission, access.topics.OrElse(access.app.topics);
      if Get(byRoom, room.roomId, []) != [] {
        if room.roomId !in actorByRoom { continue; }
        var grant := actorByRoom[room.roomId];
        if Expired(grant.expiresAt, q.now) { continue; }
        permission, inherited := grant.permission, grant.topics.OrElse(access.app.topics);
      }
      roomIds := roomIds + [room.roomId];
      topics := PushTopics(topics, access.app.slug, room, inherited.GetOr([]), permission, q.scope);
    }
    assert rooms[..|rooms|] == rooms;
  }

  /** The three batched queries agree with asking per app and per room. */
  lemma BatchedRooms(db: Db, appIds: seq<Id>, app: App)
    requires app.appId in appIds
    ensures Filter(Filter(db.rooms, ActiveRoomsInAny(appIds)), InApp(app.appId)) == RoomsOf(db, app)
  {
    FilterFilter(db.rooms, ActiveRoomsInAny(appIds), InApp(app.appId), ActiveRoomsIn(app.appId));
  }

  lemma BatchedGrants(db: Db, actor: Actor, roomIds: seq<Id>, id: Id)
    requires id in roomIds
    ensures var rows := Filter(db.roomGrants, GrantsOnAny(roomIds));
            && (Filter(rows, OnRoom(id)) != [] <==> IsPrivate(db, id))
            && FindLast(rows, NamedOn(id, actor.actorTokenId)).OrElse(FindFirst(rows, TypedOn(id, actor.actorType)))
               == EffectiveGrant(db, actor, id)
  {
    var rows := Filter(db.roomGrants, GrantsOnAny(roomIds));
    FindLastFilter(db.roomGrants, GrantsOnAny(roomIds), NamedOn(id, actor.actorTokenId), NamedActive(id, actor.actorTokenId));
    FindFirstFilter(db.roomGrants, GrantsOnAny(roomIds), TypedOn(id, actor.actorType), TypeActive(id, actor.actorType));
    FilterFilter(db.roomGrants, GrantsOnAny(roomIds), OnRoom(id), GrantsOn(id));
    var here := Filter(db.roomGrants, GrantsOn(id));
    if here != [] { assert here[0] in here; }
    if IsPrivate(db, id) { assert FindFirst(db.roomGrants, GrantsOn(id)).value in here; }
  }

  /* ── lobbies ─────────────────────────────────────────────────────────── */

  datatype AllowedLobby = AllowedLobby(lobbyId: Id, lobbySlug: string)

  function LinksToAny(roomIds: seq<Id>): LobbyRoom -> bool {
    (l: LobbyRoom) => l.roomId in roomIds && l.deletedAt.None?
  }

  function LiveLobbyOf(db: Db, lobbyId: Id): Option<Lobby> {
    FindFirst(db.lobbies, LiveLobby(lobbyId))
  }

  /** Adding to a JavaScript Set: insertion order, no repeats. */
  function SetAdd(s: seq<Id>, x: Id): seq<Id> {
    if x in s then s else s + [x]
  }

  /** The lobbies of one app found along the links, each once, in first-link order. */
  function LobbyIdsFor(db: Db, links: seq<LobbyRoom>, appId: Id): seq<Id> {
    if links == [] then [] else
    var rest := LobbyIdsFor(db, links[..|links| - 1], appId);
    var id := links[|links| - 1].lobbyId;
    match LiveLobbyOf(db, id)
    case None => rest
    case Some(lobby) => if lobby.appId == appId then SetAdd(rest, id) else rest
  }

  function LobbyRef(db: Db): Id -> Option<AllowedLobby> {
    (id: Id) =>
      match LiveLobbyOf(db, id)
      case None => None
      case Some(lobby) => Some(AllowedLobby(lobby.lobbyId, lobby.slug))
  }

  function AllAccessible(entries: seq<AppEntry>): seq<Id> {
    if entries == [] then []
    else AllAccessible(entries[..|entries| - 1]) + entries[|entries| - 1].accessibleRoomIds
  }

  function LobbiesFor(db: Db, roomIds: seq<Id>, appId: Id): seq<AllowedLobby> {
    FilterMap(LobbyIdsFor(db, Filter(db.lobbyRooms, LinksToAny(roomIds)), appId), LobbyRef(db))
  }

  /** The per-app lobby sets, filled in one pass over the links. */
  method IndexLobbies(db: Db, links: seq<LobbyRoom>) returns (perApp: map<Id, seq<Id>>)
    ensures forall appId :: Get(perApp, appId, []) == LobbyIdsFor(db, links, appId)
  {
    perApp := map[];
    for i := 0 to |links|
      invariant forall appId :: Get(perApp, appId, []) == LobbyIdsFor(db, links[..i], appId)
    {
      assert links[..i + 1][..i] == links[..i];
      ghost var before := perApp;
      var lobby := LiveLobbyOf(db, links[i].lobbyId);
      if lobby.Some? {
        perApp := perApp[lobby.value.appId := SetAdd(Get(perApp, lobby.value.appId, []), links[i].lobbyId)];
      }
      forall appId ensures Get(perApp, appId, []) == LobbyIdsFor(db, links[..i + 1], appId) {
        assert Get(before, appId, []) == LobbyIdsFor(db, links[..i], appId);
      }
    }
    assert links[..|links|] == links;
  }

  method LobbyRefs(db: Db, ids: seq<Id>) returns (refs: seq<AllowedLobby>)
    ensures refs == FilterMap(ids, LobbyRef(db))
  {
    refs := [];
    for k := 0 to |ids|
      invariant refs == FilterMap(ids[..k], LobbyRef(db))
    {
      FilterMapStep(ids, k, LobbyRef(db));
      var lobby := LiveLobbyOf(db, ids[k]);
      if lobby.Some? { refs := refs + [AllowedLobby(lobby.value.lobbyId, lobby.value.slug)]; }
    }
    assert ids[..|ids|] == ids;
  }

  method CollectAccessible(entries: seq<AppEntry>) returns (all: seq<Id>)
    ensures all == AllAccessible(entries)
  {
    all := [];
    for i := 0 to |entries|
      invariant all == AllAccessible(entries[..i])
    {
      all := all + entries[i].accessibleRoomIds;
      assert entries[..i + 1][..i] == entries[..i];
    }
    assert entries[..|entries|] == entries;
  }

  method AttachLobbies(db: Db, entries: seq<AppEntry>) returns (lobbies: seq<seq<AllowedLobby>>)
    ensures |lobbies| == |entries|
    ensures forall i :: 0 <= i < |entries| ==> lobbies[i] == LobbiesFor(db, AllAccessible(entries), entries[i].appId)
  {
    var all := CollectAccessible(entries);
    var perApp := IndexLobbies(db, Filter(db.lobbyRooms, LinksToAny(all)));
    lobbies := [];
    for i := 0 to |entries|
      invariant |lobbies| == i
      invariant forall j :: 0 <= j < i ==> lobbies[j] == LobbiesFor(db, all, entries[j].appId)
    {
      var refs := LobbyRefs(db, Get(perApp, entries[i].appId, []));
      lobbies := lobbies + [refs];
    }
  }

  /** Some accessible room is linked to the lobby, and the lobby is live and this app's. */
  ghost predicate LobbyRule(db: Db, roomIds: seq<Id>, appId: Id, lobby: Lobby) {
    && lobby in db.lobbies && lobby.appId == appId && lobby.deletedAt.None?
    && exists link :: link in db.lobbyRooms && link.lobbyId == lobby.lobbyId && link.roomId in roomIds && link.deletedAt.None?
  }

  lemma {:induction false} LobbyIdsExact(db: Db, links: seq<LobbyRoom>, appId: Id)
    ensures Distinct(LobbyIdsFor(db, links, appId))
    ensures forall id :: id in LobbyIdsFor(db, links, appId) <==>
              (exists link :: link in links && link.lobbyId == id)
              && LiveLobbyOf(db, id).Some? && LiveLobbyOf(db, id).value.appId == appId
  {
    if links != [] {
      var n := |links| - 1;
      LobbyIdsExact(db, links[..n], appId);
      assert links == links[..n] + [links[n]];
    }
  }

  lemma LiveLobbyIs(db: Db, lobby: Lobby)
    requires Keyed(db) && lobby in db.lobbies && lobby.deletedAt.None?
    ensures LiveLobbyOf(db, lobby.lobbyId) == Some(lobby)
  {
    assert LiveLobby(lobby.lobbyId)(lobby);
    DistinctByMember(db.lobbies, LobbyKey, lobby, LiveLobbyOf(db, lobby.lobbyId).value);
  }

  /** Lobby visibility is exact: a lobby is listed under an app iff the rule shows it, and only once. */
  lemma LobbiesExact(db: Db, roomIds: seq<Id>, appId: Id)
    requires Keyed(db)
    ensures forall lobby :: lobby in db.lobbies && lobby.deletedAt.None? ==>
              (AllowedLobby(lobby.lobbyId, lobby.slug) in LobbiesFor(db, roomIds, appId)
               <==> LobbyRule(db, roomIds, appId, lobby))
    ensures forall a :: a in LobbiesFor(db, roomIds, appId) ==>
              exists lobby :: LobbyRule(db, roomIds, appId, lobby) && a == AllowedLobby(lobby.lobbyId, lobby.slug)
    ensures Distinct(LobbiesFor(db, roomIds, appId))
  {
    var links := Filter(db.lobbyRooms, LinksToAny(roomIds));
    var ids := LobbyIdsFor(db, links, appId);
    LobbyIdsExact(db, links, appId);
    forall lobby | lobby in db.lobbies && lobby.deletedAt.None?
      ensures AllowedLobby(lobby.lobbyId, lobby.slug) in LobbiesFor(db, roomIds, appId)
              <==> LobbyRule(db, roomIds, appId, lobby)
    {
      LiveLobbyIs(db, lobby);
      FilterMapMember(ids, LobbyRef(db), AllowedLobby(lobby.lobbyId, lobby.slug));
      assert LobbyRef(db)(lobby.lobbyId) == Some(AllowedLobby(lobby.lobbyId, lobby.slug));
    }
    forall a | a in LobbiesFor(db, roomIds, appId)
      ensures exists lobby :: LobbyRule(db, roomIds, appId, lobby) && a == AllowedLobby(lobby.lobbyId, lobby.slug)
    {
      FilterMapMember(ids, LobbyRef(db), a);
      var id :| id in ids && LobbyRef(db)(id) == Some(a);
      assert LobbyRule(db, roomIds, appId, LiveLobbyOf(db, id).value);
    }
    LobbyRefsDistinct(db, ids);
  }

  lemma {:induction false} LobbyRefsDistinct(db: Db, ids: seq<Id>)
    requires Distinct(ids)
    ensures Distinct(FilterMap(ids, LobbyRef(db)))
  {
    if ids != [] {
      var n := |ids| - 1;
      LobbyRefsDistinct(db, ids[..n]);
      var rest := FilterMap(ids[..n], LobbyRef(db));
      forall i | 0 <= i < |rest| && LobbyRef(db)(ids[n]).Some? ensures rest[i] != LobbyRef(db)(ids[n]).value {
        FilterMapMember(ids[..n], LobbyRef(db), rest[i]);
      }
    }
  }

  /* ── session restore ─────────────────────────────────────────────────── */

  /** A recorded subscription, as updateSubscription stores it. */
  datatype Subscription = Subscription(
    name: string, loadBalance: bool, loadBalanceGroup: Option<string>, filters: Option<seq<string>>)

  datatype ActiveSubscription = ActiveSubscription(pattern: string, topic: string, recorded: Subscription)

  /** Where the last entry to list a pattern puts it: the pattern lookup table as a function. */
  function PatternHome(entries: seq<AppEntry>, pattern: string): Option<(Id, string)> {
    if entries == [] then None else
    var last := entries[|entries| - 1];
    match FindLast(last.allowedTopics, HasPattern(pattern))
    case Some(at) => Some((last.appId, at.topic))
    case None => PatternHome(entries[..|entries| - 1], pattern)
  }

  function HasPattern(pattern: string): AllowedTopic -> bool {
    (at: AllowedTopic) => at.pattern == pattern
  }

  function Restored(entries: seq<AppEntry>, appId: Id): Subscription -> Option<ActiveSubscription> {
    (sub: Subscription) =>
      match PatternHome(entries, sub.name)
      case None => None
      case Some(home) => if home.0 == appId then Some(ActiveSubscription(sub.name, home.1, sub)) else None
  }

  method IndexPatterns(entries: seq<AppEntry>) returns (home: map<string, (Id, string)>)
    ensures forall p :: Lookup(home, p) == PatternHome(entries, p)
  {
    home := map[];
    for i := 0 to |entries|
      invariant forall p :: Lookup(home, p) == PatternHome(entries[..i], p)
    {
      assert entries[..i + 1][..i] == entries[..i];
      var topics := entries[i].allowedTopics;
      ghost var before := home;
      for k := 0 to |topics|
        invariant forall p :: Lookup(home, p) ==
                    match FindLast(topics[..k], HasPattern(p))
                    case Some(at) => Some((entries[i].appId, at.topic))
                    case None => Lookup(before, p)
      {
        ghost var prior := home;
        home := home[topics[k].pattern := (entries[i].appId, topics[k].topic)];
        forall p ensures Lookup(home, p) ==
            match FindLast(topics[..k + 1], HasPattern(p))
            case Some(at) => Some((entries[i].appId, at.topic))
            case None => Lookup(before, p)
        {
          FindLastStep(topics, k, HasPattern(p));
          assert p != topics[k].pattern ==> Lookup(home, p) == Lookup(prior, p);
        }
      }
      assert topics[..|topics|] == topics;
    }
    assert entries[..|entries|] == entries;
  }

  method GroupSubscriptions(entries: seq<AppEntry>, recorded: seq<Subscription>)
    returns (byApp: map<Id, seq<ActiveSubscription>>)
    ensures forall appId :: Get(byApp, appId, []) == FilterMap(recorded, Restored(entries, appId))
  {
    byApp := map[];
    if recorded == [] { return; }
    var home := IndexPatterns(entries);
    for i := 0 to |recorded|
      invariant forall appId :: Get(byApp, appId, []) == FilterMap(recorded[..i], Restored(entries, appId))
    {
      var sub := recorded[i];
      ghost var before := byApp;
      assert Lookup(home, sub.name) == PatternHome(entries, sub.name);
      if sub.name in home {
        var at := home[sub.name];
        byApp := byApp[at.0 := Get(byApp, at.0, []) + [ActiveSubscription(sub.name, at.1, sub)]];
      }
      forall appId ensures Get(byApp, appId, []) == FilterMap(recorded[..i + 1], Restored(entries, appId)) {
        FilterMapStep(recorded, i, Restored(entries, appId));
        assert Get(before, appId, []) == FilterMap(recorded[..i], Restored(entries, appId));
      }
    }
    assert recorded[..|recorded|] == recorded;
  }

  /* ── the connect path ────────────────────────────────────────────────── */

  datatype SessionApp = SessionApp(
    entry: AppEntry, allowedLobbies: seq<AllowedLobby>, activeSubscriptions: seq<ActiveSubscription>)

  lemma {:induction false} StoredAccessIds(q: Request, rows: seq<AppGrant>)
    requires DistinctBy(rows, AppGrantKey)
    requires forall g :: g in rows ==> g.actorTokenId == q.actor.actorTokenId
    ensures DistinctBy(FilterMap(rows, JoinApp(q.db, q.now)), AccessAppId)
  {
    if rows != [] {
      var n := |rows| - 1;
      StoredAccessIds(q, rows[..n]);
      var rest := FilterMap(rows[..n], JoinApp(q.db, q.now));
      forall i | 0 <= i < |rest| ensures rest[i].app.appId != rows[n].appId {
        FilterMapMember(rows[..n], JoinApp(q.db, q.now), rest[i]);
      }
    }
  }

  lemma {:induction false} OpenAccessIds(explicit: set<Id>, apps: seq<App>)
    requires DistinctBy(apps, AppKey)
    ensures DistinctBy(FilterMap(apps, Synthesise(explicit)), AccessAppId)
    ensures forall a :: a in FilterMap(apps, Synthesise(explicit)) ==> a.app in apps && a.app.appId !in explicit
  {
    if apps != [] {
      var n := |apps| - 1;
      OpenAccessIds(explicit, apps[..n]);
    }
  }

  /** No app is resolved twice: the unique constraint and the explicit-id set see to it. */
  lemma ValidAccessIds(q: Request)
    requires Keyed(q.db)
    ensures DistinctBy(ValidAccess(q), AccessAppId)
  {
    var stored := StoredAccess(q);
    DistinctByFilter(q.db.appGrants, ActiveAppGrantsOf(q.actor.actorTokenId), AppGrantKey);
    StoredAccessIds(q, Filter(q.db.appGrants, ActiveAppGrantsOf(q.actor.actorTokenId)));
    DistinctByFilter(q.db.apps, OpenAppsIn(q.actor.projectId), AppKey);
    OpenAccessIds(ExplicitAppIds(stored), Filter(q.db.apps, OpenAppsIn(q.actor.projectId)));
  }

  /** Put a build in the insertion-ordered app map: an existing key keeps its place. */
  method PutBuild(order: seq<Id>, builds: map<Id, AppEntry>, e: AppEntry)
    returns (order': seq<Id>, builds': map<Id, AppEntry>)
    ensures builds' == builds[e.appId := e]
    ensures order' == SetAdd(order, e.appId)
  {
    order', builds' := SetAdd(order, e.appId), builds[e.appId := e];
  }

  method ReadBuilds(order: seq<Id>, builds: map<Id, AppEntry>, ghost access: seq<AppAccess>, ghost build: AppAccess -> AppEntry)
    returns (entries: seq<AppEntry>)
    requires order == Map(access, AccessAppId)
    requires forall j :: 0 <= j < |access| ==> Lookup(builds, access[j].app.appId) == Some(build(access[j]))
    ensures entries == Map(access, build)
  {
    entries := [];
    for i := 0 to |order|
      invariant entries == Map(access[..i], build)
    {
      MapStep(access, i, build);
      assert order[i] == access[i].app.appId;
      entries := entries + [builds[order[i]]];
    }
    assert access[..|access|] == access;
  }

  /** The app map after the first i apps: insertion order, and what each key holds. */
  ghost predicate Built(q: Request, access: seq<AppAccess>, i: nat, order: seq<Id>, builds: map<Id, AppEntry>)
    requires i <= |access|
  {
    && order == Map(access[..i], AccessAppId)
    && forall j :: 0 <= j < i ==> Lookup(builds, access[j].app.appId) == Some(EntryBuilder(q)(access[j]))
  }

  lemma BuiltStep(q: Request, access: seq<AppAccess>, i: nat, order: seq<Id>, builds: map<Id, AppEntry>)
    requires i < |access| && DistinctBy(access, AccessAppId) && Built(q, access, i, order, builds)
    ensures var e := EntryBuilder(q)(access[i]);
            Built(q, access, i + 1, SetAdd(order, e.appId), builds[e.appId := e])
  {
    MapStep(access, i, AccessAppId);
    assert forall j :: 0 <= j < i ==> AccessAppId(access[j]) != AccessAppId(access[i]);
  }

  /** One pass over the resolved apps, filling the app map from the in-memory indexes. */
  method BuildEntries(q: Request, access: seq<AppAccess>, allRooms: seq<Room>, grants: seq<RoomGrant>)
    returns (entries: seq<AppEntry>)
    requires DistinctBy(access, AccessAppId)
    requires allRooms == Filter(q.db.rooms, ActiveRoomsInAny(Map(access, AccessAppId)))
    requires grants == Filter(q.db.roomGrants, GrantsOnAny(Map(allRooms, RoomKey)))
    ensures entries == Map(access, EntryBuilder(q))
  {
    var byRoom := IndexGrantsByRoom(grants);
    var actorByRoom := IndexActorGrants(grants, q.actor);
    var roomsByApp := IndexRoomsByApp(allRooms);
    var order: seq<Id>, builds: map<Id, AppEntry> := [], map[];
    for i := 0 to |access|
      invariant Built(q, access, i, order, builds)
    {
      var app := access[i].app;
      RoomsAndGrantsOf(q, access, allRooms, i);
      var topics, roomIds := FillApp(q, access[i], Get(roomsByApp, app.appId, []), byRoom, actorByRoom);
      BuiltStep(q, access, i, order, builds);
      order, builds := PutBuild(order, builds,
        AppEntry(app.appId, app.name, app.slug, app.hydrationWebhook, app.triggerWebhook, topics, roomIds));
    }
    assert access[..|access|] == access;
    entries := ReadBuilds(order, builds, access, EntryBuilder(q));
  }

  lemma RoomsAndGrantsOf(q: Request, access: seq<AppAccess>, allRooms: seq<Room>, i: nat)
    requires i < |access|
    requires allRooms == Filter(q.db.rooms, ActiveRoomsInAny(Map(access, AccessAppId)))
    ensures Filter(allRooms, InApp(access[i].app.appId)) == RoomsOf(q.db, access[i].app)
    ensures forall r :: r in RoomsOf(q.db, access[i].app) ==>
              var rows := Filter(q.db.roomGrants, GrantsOnAny(Map(allRooms, RoomKey)));
              && (Filter(rows, OnRoom(r.roomId)) != [] <==> IsPrivate(q.db, r.roomId))
              && FindLast(rows, NamedOn(r.roomId, q.actor.actorTokenId))
                 .OrElse(FindFirst(rows, TypedOn(r.roomId, q.actor.actorType)))
                 == EffectiveGrant(q.db, q.actor, r.roomId)
  {
    assert Map(access, AccessAppId)[i] == access[i].app.appId;
    BatchedRooms(q.db, Map(access, AccessAppId), access[i].app);
    forall r | r in RoomsOf(q.db, access[i].app)
      ensures r.roomId in Map(allRooms, RoomKey)
    {
      assert r in Filter(allRooms, InApp(access[i].app.appId));
      var k :| 0 <= k < |allRooms| && allRooms[k] == r;
      assert Map(allRooms, RoomKey)[k] == r.roomId;
    }
    forall r | r in RoomsOf(q.db, access[i].app) {
      BatchedGrants(q.db, q.actor, Map(allRooms, RoomKey), r.roomId);
    }
  }

  function SessionBuilder(db: Db, entries: seq<AppEntry>, recorded: seq<Subscription>): AppEntry -> SessionApp {
    (e: AppEntry) => SessionApp(e, LobbiesFor(db, AllAccessible(entries), e.appId),
                                FilterMap(recorded, Restored(entries, e.appId)))
  }

  /** The session payload: every resolved app with its lobbies and restorable subscriptions. */
  function Session(q: Request, recorded: seq<Subscription>): seq<SessionApp> {
    Map(Resolve(q), SessionBuilder(q.db, Resolve(q), recorded))
  }

  /** The payload carries each resolved entry unchanged. */
  lemma SessionEntries(q: Request, recorded: seq<Subscription>, e: AppEntry)
    ensures e in Resolve(q) <==> exists s :: s in Session(q, recorded) && s.entry == e
  {
    hide Resolve;
    if e in Resolve(q) {
      var i :| 0 <= i < |Resolve(q)| && Resolve(q)[i] == e;
      assert Session(q, recorded)[i].entry == e;
    }
    if s :| s in Session(q, recorded) && s.entry == e {
      var i :| 0 <= i < |Session(q, recorded)| && Session(q, recorded)[i] == s;
      assert Resolve(q)[i] == e;
    }
  }

  method Assemble(db: Db, entries: seq<AppEntry>, lobbies: seq<seq<AllowedLobby>>, recorded: seq<Subscription>)
    returns (apps: seq<SessionApp>)
    requires |lobbies| == |entries|
    requires forall i :: 0 <= i < |entries| ==> lobbies[i] == LobbiesFor(db, AllAccessible(entries), entries[i].appId)
    ensures apps == Map(entries, SessionBuilder(db, entries, recorded))
  {
    var subscriptions := GroupSubscriptions(entries, recorded);
    apps := [];
    for i := 0 to |entries|
      invariant apps == Map(entries[..i], SessionBuilder(db, entries, recorded))
    {
      MapStep(entries, i, SessionBuilder(db, entries, recorded));
      apps := apps + [SessionApp(entries[i], lobbies[i], Get(subscriptions, entries[i].appId, []))];
    }
    assert entries[..|entries|] == entries;
  }

  /** The complete session, as connect and revalidate build it. */
  method BuildAppAccess(q: Request, recorded: seq<Subscription>) returns (apps: seq<SessionApp>)
    requires Keyed(q.db)
    ensures apps == Session(q, recorded)
  {
    var access := CollectAccess(q);
    if access == [] { return []; }
    ValidAccessIds(q);
    var allRooms := Filter(q.db.rooms, ActiveRoomsInAny(Map(access, AccessAppId)));
    var grants := Filter(q.db.roomGrants, GrantsOnAny(Map(allRooms, RoomKey)));
    var entries := BuildEntries(q, access, allRooms, grants);
    var lobbies := AttachLobbies(q.db, entries);
    apps := Assemble(q.db, entries, lobbies, recorded);
  }
}
