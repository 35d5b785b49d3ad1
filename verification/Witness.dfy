/** One project moved end to end: the conditions of the transfer theorems hold together. */
module Witness {
  import opened Prelude
  import opened Schema
  import opened Address
  import opened Sorting
  import opened Resolution
  import opened RoomCheck
  import opened Addressing
  import opened ProjectDoc
  import opened ProjectExport
  import opened ExportRefs
  import opened ExportMeaning
  import opened Tables
  import opened ProjectImport
  import opened ImportTables
  import opened ImportQueries
  import opened ImportRefs
  import opened ImportStore
  import opened DocAccess
  import opened RoundTrip
  import opened ImportConsistent
  import opened ImportKeyed
  import opened Transfer

  /* ── draws that never repeat ─────────────────────────────────────────── */

  function Unary(n: nat): string { seq(n + 1, i => 'x') }

  function Spell(tag: string, i: nat, j: nat, k: nat): string { Join([tag, Unary(i), Unary(j), Unary(k)]) }

  function Code(d: Draw): (char, nat, nat, nat) {
    match d
    case OfProject => ('p', 0, 0, 0)
    case OfScope(i) => ('s', i, 0, 0)
    case OfApp(i) => ('a', i, 0, 0)
    case OfRoom(i, j) => ('r', i, j, 0)
    case OfTypeGrant(i, j, k) => ('t', i, j, k)
    case OfLobby(i, j) => ('l', i, j, 0)
    case OfActor(i) => ('u', i, 0, 0)
    case OfActorKeyId(i) => ('v', i, 0, 0)
    case OfActorSecret(i) => ('w', i, 0, 0)
    case OfActorHash(i) => ('x', i, 0, 0)
    case OfAppGrant(i, k) => ('g', i, k, 0)
    case OfRoomGrant(i, k) => ('h', i, k, 0)
    case OfKey(i) => ('k', i, 0, 0)
    case OfKeyId(i) => ('m', i, 0, 0)
    case OfKeySecret(i) => ('n', i, 0, 0)
    case OfKeyCipher(i) => ('o', i, 0, 0)
  }

  /** A source of ids: the purpose of each draw, spelled out. */
  function Encode(d: Draw): string {
    var (c, i, j, k) := Code(d);
    Spell([c], i, j, k)
  }

  lemma UnaryApart(i: nat, j: nat)
    ensures Segment(Unary(i)) && (Unary(i) == Unary(j) ==> i == j)
  {
    assert |Unary(i)| == i + 1 && |Unary(j)| == j + 1;
  }

  lemma SpellApart(t: string, i: nat, j: nat, k: nat, t': string, i': nat, j': nat, k': nat)
    requires Segment(t) && Segment(t') && Spell(t, i, j, k) == Spell(t', i', j', k')
    ensures t == t' && i == i' && j == j' && k == k'
  {
    var a, b := [t, Unary(i), Unary(j), Unary(k)], [t', Unary(i'), Unary(j'), Unary(k')];
    UnaryApart(i, i');
    UnaryApart(j, j');
    UnaryApart(k, k');
    UnaryApart(i', i);
    UnaryApart(j', j);
    UnaryApart(k', k);
    JoinInjective(a, b);
    assert a[0] == b[0] && a[1] == b[1] && a[2] == b[2] && a[3] == b[3];
  }

  lemma CodeApart(p: Draw, q: Draw)
    requires Code(p) == Code(q)
    ensures p == q
  {
  }

  lemma {:induction false} JoinSome(parts: seq<string>)
    requires |parts| >= 1 && parts[0] != ""
    ensures Join(parts) != ""
  {
  }

  lemma EncodeDistinguishes()
    ensures Distinguishes(Encode)
  {
    forall p, q | Encode(p) == Encode(q) ensures p == q {
      var (c, i, j, k) := Code(p);
      var (c', i', j', k') := Code(q);
      CodeIsSegment(p);
      CodeIsSegment(q);
      SpellApart([c], i, j, k, [c'], i', j', k');
      assert [c][0] == [c'][0];
      CodeApart(p, q);
    }
    forall p ensures Encode(p) != "" {
      var (c, i, j, k) := Code(p);
      JoinSome([[c], Unary(i), Unary(j), Unary(k)]);
    }
  }

  lemma CodeIsSegment(d: Draw)
    ensures Segment([Code(d).0])
  {
  }

  /* ── a project ───────────────────────────────────────────────────────── */

  const PROJECT := Project("p", "Shop", None, None, None, None, None, None, None)
  const SCOPE := Scope("s", "p", "north", "North", None, None, true, None)
  const APP := App("a", "p", "shop", "Shop", None, AppActive, Restricted, Some(["chat"]), None, None, None, None)
  const ROOM := Room("r", "a", "lounge", "Lounge", None, RoomActive, None, None, None)
  const LOBBY := Lobby("l", "a", "hall", "Hall", None, None, None)
  const LINK := LobbyRoom("l", "r", None)
  /** Deleting a room leaves its lobby link behind. */
  const GONE := Room("r2", "a", "attic", "Attic", None, RoomActive, None, None, Some(7))
  const STALE_LINK := LobbyRoom("l", "r2", None)
  const ACTOR := Actor("u", "p", "k", "h", "Ann", User, ActorActive, None, None, Some("s"), None)
  const APP_GRANT := AppGrant("g", "u", "a", Subscribe, None, true, None, None, None)
  const TYPE_GRANT := RoomGrant("t", "r", None, Some(User), PubSub, None, true, None, None, None, None)

  /** A restricted app with one room closed to users, one deleted room still in a lobby, and one scoped user. */
  const SHOP := Db([PROJECT], [SCOPE], [APP], [ROOM, GONE], [LOBBY], [LINK, STALE_LINK], [ACTOR], [APP_GRANT], [TYPE_GRANT], [])

  lemma ShopConsistent()
    ensures Consistent(SHOP, "p")
  {
  }

  lemma ShopWellLinked()
    ensures WellLinked(SHOP, "p")
  {
    assert ROOM in SHOP.rooms && RoomsIn("a")(ROOM);
    assert SCOPE in SHOP.scopes && LiveScopeOf("s", "p")(SCOPE);
    assert ActorScoped(SHOP, ACTOR);
  }

  lemma ShopExported()
    ensures Exported(SHOP, "p").Some?
    ensures DocOf(SHOP, "p").signingKeys == []
    ensures |DocOf(SHOP, "p").actors| == 1 && DocOf(SHOP, "p").actors[0].ref == "k"
  {
    assert PROJECT in SHOP.projects && LiveProject("p")(PROJECT);
    ShopConsistent();
    ShopWellLinked();
    DocParts(SHOP, "p");
    ShopActors();
    ActorDocType(SHOP, "p", ACTOR);
  }

  lemma ShopActors()
    ensures ProjectActors(SHOP, "p") == [ACTOR] && ProjectKeys(SHOP, "p") == []
  {
    FilterAll([ACTOR], ActorsIn("p"));
    SortFixed([ACTOR], ActorRowKeyId);
    SortFixed([], KeyRowKeyId);
  }

  /** The conditions of the transfer theorems are met together. */
  lemma ConditionsMeet()
    ensures Importable(SHOP, "p", false) && Target(EMPTY, Encode)
    ensures ACTOR in SHOP.actors && ActorsIn("p")(ACTOR)
  {
    ShopConsistent();
    ShopWellLinked();
    ShopExported();
    EncodeDistinguishes();
    EmptyTarget();
  }

  lemma EmptyTarget()
    requires Distinguishes(Encode)
    ensures Target(EMPTY, Encode)
  {
  }

  const ADDRESS := "shop" + "/" + ("north" + "/" + ("lounge" + "/" + "chat"))

  lemma ShopReach(now: Time)
    ensures ResolveScope(SHOP, ACTOR) == Some(Scoped("s", "north", "North"))
    ensures ReachAt(Request(SHOP, ACTOR, Scoped("s", "north", "North"), now), ADDRESS, PubSub, APP, ROOM, "chat")
  {
    var q := Request(SHOP, ACTOR, Scoped("s", "north", "North"), now);
    assert LiveScopeOf("s", "p")(SCOPE);
    assert ActiveAppGrantFor("u", "a")(APP_GRANT) && APP_GRANT in SHOP.appGrants;
    assert HoldsAppGrant(q, APP, Subscribe, None);
    var access, ra := AppAccess(APP, Subscribe, None), RoomAccess(PubSub, ["chat"]);
    assert TYPE_GRANT in SHOP.roomGrants && GrantsOn("r")(TYPE_GRANT) && TypeActive("r", User)(TYPE_GRANT);
    assert SpeaksFor(q, "r", TYPE_GRANT);
    assert RoomRule(q, access, ROOM, ra);
    assert AppRule(q, APP, Subscribe, None) && "chat" in ra.topics;
  }

  /** Ann may publish in the lounge, now and after the move, under the same address. */
  lemma AnnKeepsTheLounge(at: Time, now: Time) returns (c: Issued, b: Actor)
    ensures SessionGrants(SHOP, ACTOR, now, ADDRESS, PubSub)
    ensures var d := DocOf(SHOP, "p");
            && CarriedBy(ACTOR, AllIssued(d, Encode), c, Imported(EMPTY, d, Encode, at), b)
            && SessionGrants(Imported(EMPTY, d, Encode, at), b, now, ADDRESS, PubSub)
  {
    hide Consistent, WellLinked, Exported, DocOf, Imported, SessionGrants, ReachAt, ResolveScope, CarriedBy, AllIssued, FreshImport, Accepts;
    ShopExported();
    var d := DocOf(SHOP, "p");
    ConditionsMeet();
    ShopReach(now);
    ConsistentParts(SHOP, "p");
    assert GrantsInProject(SHOP, ACTOR) by { WellLinkedActor(SHOP, "p", ACTOR); }
    SessionIsRule(SHOP, ACTOR, now, ADDRESS, PubSub);
    c, b := AccessSurvives(SHOP, "p", EMPTY, Encode, at, false, AllIssued(d, Encode), ACTOR, now, ADDRESS, PubSub);
  }

  lemma ConsistentParts(db: Db, projectId: Id)
    requires Consistent(db, projectId)
    ensures Keyed(db) && OneGrantInProject(db, projectId)
  {
  }

  lemma WellLinkedActor(db: Db, projectId: Id, a: Actor)
    requires WellLinked(db, projectId) && a in db.actors && ActorsIn(projectId)(a)
    ensures GrantsInProject(db, a)
  {
  }

  /* ── a topic name with a separator in it ─────────────────────────────── */

  /** The document validator takes any text as a topic. */
  const SLASHED_APP := AppDoc("shop", "Shop", None, None, None, ["a/b"], None, None, None, [LOUNGE], [])
  const LOUNGE := RoomDoc("lounge", "Lounge", None, None, None, None, [])
  const ANN := ActorDoc("ann", "Ann", User, None, None, None, None, [], [])
  const SLASHED := Doc(DOC_VERSION, ProjectHead("Shop", None, None, None), [], [SLASHED_APP], [ANN], [])
  const SLASHED_ADDRESS := "shop" + "/" + ("lounge" + "/" + "a/b")

  lemma SlashedWellFormed(db: Db, mint: Mint)
    requires Target(db, mint)
    ensures SlashFree(SLASHED) && GoodSlugs(SLASHED) && DocOneGrant(SLASHED) && Accepts(SLASHED, mint, false)
    ensures GoodImport(db, SLASHED, mint)
  {
    hide Keyed, UniqueLiveSlugs, FreshImport, Accepts;
    assert WellFormed(SLASHED, false);
    AcceptsIffWellFormed(SLASHED, mint, false);
    AcceptedIsGood(db, SLASHED, mint, false);
  }

  lemma SlashedGrants(now: Time)
    ensures DocGrants(SLASHED, ANN, now, SLASHED_ADDRESS, PubSub)
  {
    assert DocAppRule(ANN, now, SLASHED_APP, PubSub, None);
    assert !DocPrivate(SLASHED, "shop", LOUNGE);
    assert DocRoomRule(SLASHED, ANN, now, SLASHED_APP, LOUNGE, PubSub, None, RoomAccess(PubSub, ["a/b"]));
    assert SLASHED_APP in SLASHED.apps && LOUNGE in SLASHED_APP.rooms && "a/b" in RoomAccess(PubSub, ["a/b"]).topics;
    assert DocGrantsAt(SLASHED, ANN, now, SLASHED_ADDRESS, PubSub, SLASHED_APP, LOUNGE, "a/b");
  }

  lemma SlashedActor(db: Db, mint: Mint, at: Time)
    requires Target(db, mint)
    ensures |ActorRows(SLASHED, mint)| == 1
    ensures var b, db1 := ActorRows(SLASHED, mint)[0], Imported(db, SLASHED, mint, at);
            && b in db1.actors && b.deletedAt.None? && b.scopeId.None? && b.keyId == mint(OfActorKeyId(0))
            && b.status == ActorActive && b.expiresAt.None?
  {
    hide Imported, Keyed, UniqueLiveSlugs;
    ActorRowStored(db, SLASHED, mint, at, 0);
  }

  lemma UnscopedDenied(db: Db, b: Actor, now: Time)
    requires Keyed(db) && b in db.actors && b.deletedAt.None? && b.scopeId.None? && b.status == ActorActive && b.expiresAt.None?
    ensures CheckRoomAccess(db, now, b.actorTokenId, SLASHED_ADDRESS) == Deny
  {
    hide Keyed, ParsePattern, CheckRoom;
    FoundActor(Request(db, b, Unscoped, now));
    assert "lounge" == LoungeRoom().slug && '/' in "a/b" by { assert "a/b"[1] == '/'; }
    PatternParsesIff("shop", LoungeRoom(), "a/b", PubSub, Unscoped);
  }

  function LoungeRoom(): Room { Room("", "", "lounge", "", None, RoomActive, None, None, None) }

  /** An import into any database that hands out an address the live check then denies. */
  lemma SlashTopicDenied(db: Db, mint: Mint, at: Time, now: Time)
    requires Target(db, mint)
    ensures Accepts(SLASHED, mint, false) && |ActorRows(SLASHED, mint)| == 1
    ensures var b, db1 := ActorRows(SLASHED, mint)[0], Imported(db, SLASHED, mint, at);
            && SessionGrants(db1, b, now, SLASHED_ADDRESS, PubSub)
            && CheckRoomAccess(db1, now, b.actorTokenId, SLASHED_ADDRESS) == Deny
  {
    hide Imported, FreshImport, GoodImport, Consistent, WellLinked, Exported, Accepts, SlashFree, DocOneGrant, GoodSlugs, SessionGrants,
         DocGrants, CheckRoomAccess, ActorRows, NormActor, Normalize, DocOf, UniqueLiveSlugs;
    var db1 := Imported(db, SLASHED, mint, at);
    SlashedWellFormed(db, mint);
    SlashedActor(db, mint, at);
    var b := ActorRows(SLASHED, mint)[0];
    SlashedConsistent(db, mint, at);
    ImportThenExport(db, SLASHED, mint, at, false);
    ImportedEntry(db, SLASHED, mint, at, 0, b);
    SlashedGrants(now);
    NormalizeKeepsAccess(SLASHED, ActorRefs(SLASHED, mint), KeyRefs(SLASHED, mint), ANN, mint(OfActorKeyId(0)), now, SLASHED_ADDRESS, PubSub);
    DocOfSome(db1, mint(OfProject));
    ExportGrantsSession(db1, b, now, SLASHED_ADDRESS, PubSub);
    UnscopedDenied(db1, b, now);
  }

  lemma SlashedConsistent(db: Db, mint: Mint, at: Time)
    requires Target(db, mint)
    ensures var db1 := Imported(db, SLASHED, mint, at);
            Keyed(db1) && Consistent(db1, mint(OfProject)) && WellLinked(db1, mint(OfProject))
  {
    hide Imported, FreshImport, Keyed, UniqueLiveSlugs, OneGrantInProject, WellLinked, SlashFree, DocOneGrant, GoodSlugs;
    SlashedWellFormed(db, mint);
    ImportedKeyed(db, SLASHED, mint, at);
    ImportedSlugs(db, SLASHED, mint, at);
    ImportedOneGrantHere(db, SLASHED, mint, at);
    ImportedWellLinked(db, SLASHED, mint, at);
  }
}
