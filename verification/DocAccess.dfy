/** The access a project document describes, read from the document alone. */
module DocAccess {
  import opened Prelude
  import opened Schema
  import opened Sorting
  import opened ProjectDoc
  import opened Resolution

  predicate On(isActive: Option<bool>) { isActive.GetOr(true) }

  /** A left-out or empty scope slug means the actor has no scope. */
  function ScopeSlugOf(ad: ActorDoc): Option<string> {
    if ad.scopeSlug.Some? && ad.scopeSlug.value != "" then ad.scopeSlug else None
  }

  ghost predicate ScopeAdmits(d: Doc, ad: ActorDoc) {
    ScopeSlugOf(ad).Some? ==>
      exists s :: s in d.accessScopes && s.slug == ScopeSlugOf(ad).value && On(s.isActive)
  }

  ghost predicate DocHoldsAppGrant(ad: ActorDoc, slug: string, now: Time, permission: Permission, topics: Option<seq<string>>) {
    exists g :: g in ad.appAccess && g.appSlug == slug && On(g.isActive) && !Expired(g.expiresAt, now)
             && g.permission == permission && g.topics == topics
  }

  ghost predicate DocHoldsAnyAppGrant(ad: ActorDoc, slug: string, now: Time) {
    exists g :: g in ad.appAccess && g.appSlug == slug && On(g.isActive) && !Expired(g.expiresAt, now)
  }

  /** App level: an active app, by grant, or because it is open. */
  ghost predicate DocAppRule(ad: ActorDoc, now: Time, app: AppDoc, permission: Permission, topics: Option<seq<string>>) {
    && app.status.GetOr(AppActive) == AppActive
    && (DocHoldsAppGrant(ad, app.slug, now, permission, topics)
        || (app.accessMode.GetOr(Open) == Open && !DocHoldsAnyAppGrant(ad, app.slug, now)
            && permission == PubSub && topics.None?))
  }

  predicate GrantNames(g: RoomGrantDoc, appSlug: string, roomSlug: string) {
    g.appSlug == appSlug && g.roomSlug == roomSlug
  }

  ghost predicate NamesRoom(ad: ActorDoc, appSlug: string, roomSlug: string) {
    exists g :: g in ad.roomAccess && GrantNames(g, appSlug, roomSlug)
  }

  /** A room is closed by any type grant, and by any actor holding a grant on it. */
  ghost predicate DocPrivate(d: Doc, appSlug: string, room: RoomDoc) {
    room.typeGrants != [] || exists ad :: ad in d.actors && NamesRoom(ad, appSlug, room.slug)
  }

  ghost predicate DocNamed(ad: ActorDoc, appSlug: string, roomSlug: string, g: RoomGrantDoc) {
    g in ad.roomAccess && GrantNames(g, appSlug, roomSlug) && On(g.isActive)
  }

  /** What the actor's own grant on the room gives; it speaks before its type's. */
  ghost predicate DocNamedRule(ad: ActorDoc, now: Time, app: AppDoc, room: RoomDoc, ra: RoomAccess) {
    exists g :: DocNamed(ad, app.slug, room.slug, g) && !Expired(g.expiresAt, now)
             && ra == RoomAccess(g.permission, g.topics.GetOr(app.topics))
  }

  ghost predicate DocTypeRule(ad: ActorDoc, app: AppDoc, room: RoomDoc, ra: RoomAccess) {
    && (forall g :: !DocNamed(ad, app.slug, room.slug, g))
    && exists g :: g in room.typeGrants && g.actorType == Some(ad.actorType) && On(g.isActive)
                && ra == RoomAccess(g.permission, g.topics.GetOr(app.topics))
  }

  ghost predicate DocRoomRule(d: Doc, ad: ActorDoc, now: Time, app: AppDoc, room: RoomDoc,
                              permission: Permission, topics: Option<seq<string>>, ra: RoomAccess) {
    if DocPrivate(d, app.slug, room)
    then DocNamedRule(ad, now, app, room, ra) || DocTypeRule(ad, app, room, ra)
    else ra == RoomAccess(permission, topics.GetOr(app.topics))
  }

  ghost predicate DocReach(d: Doc, ad: ActorDoc, now: Time, app: AppDoc, room: RoomDoc, permission: Permission, t: string) {
    && app in d.apps && room in app.rooms && room.status.GetOr(RoomActive) == RoomActive
    && exists p, ts, ra: RoomAccess :: DocAppRule(ad, now, app, p, ts) && DocRoomRule(d, ad, now, app, room, p, ts, ra)
         && ra.permission == permission && t in ra.topics
  }

  function DocAddress(appSlug: string, scopeSlug: Option<string>, roomSlug: string, t: string): string {
    if scopeSlug.Some? then appSlug + "/" + (scopeSlug.value + "/" + (roomSlug + "/" + t))
    else appSlug + "/" + (roomSlug + "/" + t)
  }

  /** The document grants this address with this permission to the actor. */
  ghost predicate DocGrants(d: Doc, ad: ActorDoc, now: Time, pattern: string, permission: Permission) {
    && ScopeAdmits(d, ad)
    && exists app, room, t :: DocGrantsAt(d, ad, now, pattern, permission, app, room, t)
  }

  ghost predicate DocGrantsAt(d: Doc, ad: ActorDoc, now: Time, pattern: string, permission: Permission,
                              app: AppDoc, room: RoomDoc, t: string) {
    DocReach(d, ad, now, app, room, permission, t) && pattern == DocAddress(app.slug, ScopeSlugOf(ad), room.slug, t)
  }

  /* ── normalising a document changes nobody's access ──────────────────── */

  lemma SortedMapMember<A(!new), B(!new)>(s: seq<A>, f: A -> B, key: B -> string, y: B)
    ensures y in SortBy(Map(s, f), key) <==> exists x :: x in s && f(x) == y
  {
    SameMembers(Map(s, f), key);
    if y in Map(s, f) {
      var i :| 0 <= i < |s| && Map(s, f)[i] == y;
      assert s[i] in s;
    }
    if exists x :: x in s && f(x) == y {
      var i :| 0 <= i < |s| && f(s[i]) == y;
      assert Map(s, f)[i] == y;
    }
  }

  lemma MapMember<A(!new), B(!new)>(s: seq<A>, f: A -> B, y: B)
    ensures y in Map(s, f) <==> exists x :: x in s && f(x) == y
  {
    if exists x :: x in s && f(x) == y {
      var i :| 0 <= i < |s| && f(s[i]) == y;
      assert Map(s, f)[i] == y;
    }
  }

  lemma ScopeAdmitsNorm(d: Doc, ad: ActorDoc, ref: string, refs: seq<string>, keyRefs: seq<string>)
    requires |refs| == |d.actors| && |keyRefs| == |d.signingKeys|
    ensures ScopeSlugOf(NormActor(ad, ref)) == ScopeSlugOf(ad)
    ensures ScopeAdmits(Normalize(d, refs, keyRefs), NormActor(ad, ref)) <==> ScopeAdmits(d, ad)
  {
    hide SortBy, NormKeys, NormActors, NormApp;
    var nd := Normalize(d, refs, keyRefs);
    forall s ensures s in nd.accessScopes <==> exists x :: x in d.accessScopes && NormScope(x) == s {
      SortedMapMember(d.accessScopes, NormScope, ScopeSlug, s);
    }
    forall x | x in d.accessScopes ensures NormScope(x) in nd.accessScopes { }
  }

  lemma AppAccessNorm(ad: ActorDoc, ref: string, g: AppGrantDoc)
    ensures g in NormActor(ad, ref).appAccess <==> exists x :: x in ad.appAccess && NormAppGrant(x) == g && x.appSlug != ""
  {
    MapMember(ad.appAccess, NormAppGrant, g);
  }

  lemma RoomAccessNorm(ad: ActorDoc, ref: string, g: RoomGrantDoc)
    ensures g in NormActor(ad, ref).roomAccess <==> exists x :: x in ad.roomAccess && NormRoomGrant(x) == g
  {
    MapMember(ad.roomAccess, NormRoomGrant, g);
  }

  lemma AppRuleNorm(ad: ActorDoc, ref: string, now: Time, app: AppDoc, permission: Permission, topics: Option<seq<string>>)
    requires app.slug != ""
    ensures DocAppRule(NormActor(ad, ref), now, NormApp(app), permission, topics) <==> DocAppRule(ad, now, app, permission, topics)
  {
    hide SortBy, NormActor, NormRoom, NormLobby;
    var nd := NormActor(ad, ref);
    forall g ensures g in nd.appAccess <==> exists x :: x in ad.appAccess && NormAppGrant(x) == g && x.appSlug != "" {
      AppAccessNorm(ad, ref, g);
    }
    forall x | x in ad.appAccess && x.appSlug != "" ensures NormAppGrant(x) in nd.appAccess { }
  }

  lemma NamesRoomNorm(ad: ActorDoc, ref: string, appSlug: string, roomSlug: string)
    ensures NamesRoom(NormActor(ad, ref), appSlug, roomSlug) <==> NamesRoom(ad, appSlug, roomSlug)
  {
    hide NormActor;
    var nd := NormActor(ad, ref);
    forall g ensures g in nd.roomAccess <==> exists x :: x in ad.roomAccess && NormRoomGrant(x) == g {
      RoomAccessNorm(ad, ref, g);
    }
    forall x | x in ad.roomAccess ensures NormRoomGrant(x) in nd.roomAccess { }
  }

  lemma NamedRuleNorm(ad: ActorDoc, ref: string, now: Time, app: AppDoc, room: RoomDoc, ra: RoomAccess)
    ensures DocNamedRule(NormActor(ad, ref), now, NormApp(app), NormRoom(room), ra) <==> DocNamedRule(ad, now, app, room, ra)
    ensures (exists g :: DocNamed(NormActor(ad, ref), app.slug, room.slug, g)) <==> (exists g :: DocNamed(ad, app.slug, room.slug, g))
  {
    hide NormActor, SortBy, NormLobby;
    var nd := NormActor(ad, ref);
    forall g ensures g in nd.roomAccess <==> exists x :: x in ad.roomAccess && NormRoomGrant(x) == g {
      RoomAccessNorm(ad, ref, g);
    }
    forall x | x in ad.roomAccess ensures NormRoomGrant(x) in nd.roomAccess { }
    forall x | DocNamed(ad, app.slug, room.slug, x) ensures DocNamed(nd, app.slug, room.slug, NormRoomGrant(x)) { }
    forall g | DocNamed(nd, app.slug, room.slug, g) ensures exists x :: DocNamed(ad, app.slug, room.slug, x) && NormRoomGrant(x) == g {
      var x :| x in ad.roomAccess && NormRoomGrant(x) == g;
      assert DocNamed(ad, app.slug, room.slug, x);
    }
  }

  lemma TypeRuleNorm(ad: ActorDoc, ref: string, app: AppDoc, room: RoomDoc, ra: RoomAccess)
    ensures DocTypeRule(NormActor(ad, ref), NormApp(app), NormRoom(room), ra) <==> DocTypeRule(ad, app, room, ra)
  {
    hide NormActor, SortBy, NormLobby, DocNamed;
    NamedRuleNorm(ad, ref, 0, app, room, ra);
    NormActorType(ad, ref);
    var nr := NormRoom(room);
    forall g ensures g in nr.typeGrants <==> exists x :: x in room.typeGrants && NormTypeGrant(x) == g {
      MapMember(room.typeGrants, NormTypeGrant, g);
    }
    forall x | x in room.typeGrants ensures NormTypeGrant(x) in nr.typeGrants { }
  }

  lemma NormActorType(ad: ActorDoc, ref: string)
    ensures NormActor(ad, ref).actorType == ad.actorType
  {
  }

  lemma ActorsNorm(d: Doc, refs: seq<string>, keyRefs: seq<string>, nd: ActorDoc)
    requires |refs| == |d.actors| && |keyRefs| == |d.signingKeys|
    ensures nd in Normalize(d, refs, keyRefs).actors <==> exists k :: 0 <= k < |d.actors| && nd == NormActor(d.actors[k], refs[k])
  {
    hide SortBy, NormKeys, NormApp, NormScope, NormActor;
    SameMembers(RenamedActors(d.actors, refs), ActorRef);
    if nd in RenamedActors(d.actors, refs) {
      var k :| 0 <= k < |d.actors| && nd == RenamedActors(d.actors, refs)[k];
    }
    if exists k :: 0 <= k < |d.actors| && nd == NormActor(d.actors[k], refs[k]) {
      var k :| 0 <= k < |d.actors| && nd == NormActor(d.actors[k], refs[k]);
      assert RenamedActors(d.actors, refs)[k] == nd;
    }
  }

  lemma PrivateNorm(d: Doc, refs: seq<string>, keyRefs: seq<string>, appSlug: string, room: RoomDoc)
    requires |refs| == |d.actors| && |keyRefs| == |d.signingKeys|
    ensures DocPrivate(Normalize(d, refs, keyRefs), appSlug, NormRoom(room)) <==> DocPrivate(d, appSlug, room)
  {
    hide Normalize, NormActor, NamesRoom;
    var nd := Normalize(d, refs, keyRefs);
    if ad :| ad in d.actors && NamesRoom(ad, appSlug, room.slug) {
      var k :| 0 <= k < |d.actors| && d.actors[k] == ad;
      NamesRoomNorm(ad, refs[k], appSlug, room.slug);
      ActorsNorm(d, refs, keyRefs, NormActor(ad, refs[k]));
    }
    if na :| na in nd.actors && NamesRoom(na, appSlug, room.slug) {
      ActorsNorm(d, refs, keyRefs, na);
      var k :| 0 <= k < |d.actors| && na == NormActor(d.actors[k], refs[k]);
      NamesRoomNorm(d.actors[k], refs[k], appSlug, room.slug);
      assert d.actors[k] in d.actors;
    }
  }

  lemma RoomRuleNorm(d: Doc, refs: seq<string>, keyRefs: seq<string>, ad: ActorDoc, ref: string, now: Time,
                     app: AppDoc, room: RoomDoc, p: Permission, ts: Option<seq<string>>, ra: RoomAccess)
    requires |refs| == |d.actors| && |keyRefs| == |d.signingKeys|
    ensures DocRoomRule(Normalize(d, refs, keyRefs), NormActor(ad, ref), now, NormApp(app), NormRoom(room), p, ts, ra)
       <==> DocRoomRule(d, ad, now, app, room, p, ts, ra)
  {
    hide Normalize, NormActor, NormRoom, SortBy, NormLobby, DocPrivate, DocNamedRule, DocTypeRule;
    PrivateNorm(d, refs, keyRefs, app.slug, room);
    NamedRuleNorm(ad, ref, now, app, room, ra);
    TypeRuleNorm(ad, ref, app, room, ra);
  }

  lemma ReachNorm(d: Doc, refs: seq<string>, keyRefs: seq<string>, ad: ActorDoc, ref: string, now: Time,
                  app: AppDoc, room: RoomDoc, permission: Permission, t: string)
    requires |refs| == |d.actors| && |keyRefs| == |d.signingKeys|
    requires app in d.apps && room in app.rooms && app.slug != ""
    ensures DocReach(Normalize(d, refs, keyRefs), NormActor(ad, ref), now, NormApp(app), NormRoom(room), permission, t)
       <==> DocReach(d, ad, now, app, room, permission, t)
  {
    hide SortBy, NormActor, NormActors, NormKeys, NormScope, NormLobby, DocAppRule, DocRoomRule;
    SortedMapMember(d.apps, NormApp, AppSlug, NormApp(app));
    SortedMapMember(app.rooms, NormRoom, RoomSlug, NormRoom(room));
    forall p, ts ensures DocAppRule(NormActor(ad, ref), now, NormApp(app), p, ts) <==> DocAppRule(ad, now, app, p, ts) {
      AppRuleNorm(ad, ref, now, app, p, ts);
    }
    forall p, ts, ra
      ensures DocRoomRule(Normalize(d, refs, keyRefs), NormActor(ad, ref), now, NormApp(app), NormRoom(room), p, ts, ra)
         <==> DocRoomRule(d, ad, now, app, room, p, ts, ra)
    { RoomRuleNorm(d, refs, keyRefs, ad, ref, now, app, room, p, ts, ra); }
  }

  lemma NormRoomOf(d: Doc, refs: seq<string>, keyRefs: seq<string>, na: AppDoc, nr: RoomDoc) returns (app: AppDoc, room: RoomDoc)
    requires |refs| == |d.actors| && |keyRefs| == |d.signingKeys|
    requires na in Normalize(d, refs, keyRefs).apps && nr in na.rooms
    ensures app in d.apps && room in app.rooms && na == NormApp(app) && nr == NormRoom(room)
  {
    hide SortBy, NormActors, NormKeys, NormScope, NormLobby, NormRoom;
    SortedMapMember(d.apps, NormApp, AppSlug, na);
    app :| app in d.apps && NormApp(app) == na;
    SortedMapMember(app.rooms, NormRoom, RoomSlug, nr);
    room :| room in app.rooms && NormRoom(room) == nr;
  }

  /** The normal form grants every actor exactly what the document did. */
  lemma NormalizeKeepsAccess(d: Doc, refs: seq<string>, keyRefs: seq<string>, ad: ActorDoc, ref: string,
                             now: Time, pattern: string, permission: Permission)
    requires |refs| == |d.actors| && |keyRefs| == |d.signingKeys|
    requires forall a :: a in d.apps ==> a.slug != ""
    ensures DocGrants(Normalize(d, refs, keyRefs), NormActor(ad, ref), now, pattern, permission)
       <==> DocGrants(d, ad, now, pattern, permission)
  {
    hide Normalize, NormActor, SortBy, NormLobby, DocReach, ScopeAdmits, ScopeSlugOf;
    var nd, na := Normalize(d, refs, keyRefs), NormActor(ad, ref);
    ScopeAdmitsNorm(d, ad, ref, refs, keyRefs);
    if app, room, t :| DocGrantsAt(d, ad, now, pattern, permission, app, room, t) {
      ReachIn(d, ad, now, app, room, permission, t);
      ReachNorm(d, refs, keyRefs, ad, ref, now, app, room, permission, t);
      assert DocGrantsAt(nd, na, now, pattern, permission, NormApp(app), NormRoom(room), t);
    }
    if app', room', t :| DocGrantsAt(nd, na, now, pattern, permission, app', room', t) {
      ReachIn(nd, na, now, app', room', permission, t);
      var app, room := NormRoomOf(d, refs, keyRefs, app', room');
      ReachNorm(d, refs, keyRefs, ad, ref, now, app, room, permission, t);
      assert DocGrantsAt(d, ad, now, pattern, permission, app, room, t);
    }
  }

  lemma ReachIn(d: Doc, ad: ActorDoc, now: Time, app: AppDoc, room: RoomDoc, permission: Permission, t: string)
    requires DocReach(d, ad, now, app, room, permission, t)
    ensures app in d.apps && room in app.rooms
  {
  }
}
