# Authorization core: model and proofs

A Dafny model of the authorization domain: what an actor may reach, how a whole
project is written to a document and read back, how rooms are provisioned and
sessions recorded under concurrency, the caches in front of the tables, and the
invariants the facades keep.

The tables are sequences of rows with their soft-delete column (`Schema`), and each
query is a named filter over them. A database is one value, so "the database after"
is always a function of the one before.

- **Resolution.** `Resolution` states one access rule for apps, rooms and topics and
  the connect-time resolver as plain queries. `Authz` is the resolver as the service
  writes it, with its in-memory indexes, loops and pushes, and is proved to compute
  those queries. `RoomCheck` is the single-room live check. `Address` and
  `Addressing` cover the address form, `Clock` the passage of time, `Visibility` the
  lobbies and `Restore` the subscriptions a session gets. `SessionMeaning` and
  `LiveMeaning` spell both answers out field by field over the tables' own columns.
- **Export and import.** `ProjectDoc` is the document and its normal form,
  `ProjectExport` and `ProjectImport` the two directions, `ImportStore`, `ImportApps`
  and `ImportRun` the import as a transaction that saves rows step by step.
  `ImportTables`, `ImportQueries`, `ImportMembers` and `ExportRefs` say what each
  query then returns; `RoundTrip`, `ReExport`, `DocAccess`, `ExportMeaning`,
  `ExportAccepted`, `ExportListing`, `ImportClosed`, `ImportKeyed`, `ImportConsistent`,
  `ImportIssued`, `Transfer` and `Losses` hold the results, and `Witness` moves one
  project so that the conditions of those results are seen to hold together.
- **Concurrency.** `EnsureRoom`, `RoomCap` and `Subscriptions` are state machines over
  single reads and writes, with arbitrary schedules.
- **Caches.** `TtlCache`, `SigningKeys`, `ActorAuth`, `LobbyMembership`.
- **Facades.** `ScopeBinding`, `RoomGrants` and `LobbyMembership` keep the invariants;
  `ScopeEffects`, `GrantEffects`, `LobbyEffects` and `KeyLife` say what each operation
  stores, column by column, and what a session or token then gets. `Slugs` makes slugs.

A function that only computes has no row of its own below: its row is the lemma that
says what it means in columns, or the method that is proved to compute it.

Source paths below start at the repository root. Ids, key ids and secrets drawn
at random are values of a function `Mint` from what they are drawn for, assumed not
to repeat and not to occur in the database already. The clock is a parameter.

Conditions the theorems use, and where they come from:

- `Keyed` and `UniqueLiveSlugs` are the primary keys and unique indexes of the
  entities; `ImportKeyed` and `ImportConsistent` show an import keeps them.
- One live grant per target, on the rooms of the project in question
  (`OneGrantInProject`), is kept by the grant facade (`RoomGrants.ResolverMayAssume`)
  and, for an imported project, decided by its document
  (`ImportConsistent.OneGrantIffDoc`).
- Separator-free, non-empty slugs (`SlashFree`, `GoodSlugs`, `Writable`, `PlainSlugs`) are
  what the document validator demands
  (`src/modules/projectConfigModule/dto/projectConfig.dto.ts:24`). It lets any text
  through as a topic name, so topics are not restricted.
- That no live lobby links a live room of another app is kept by the membership facade
  (`LobbyMembership.ExporterMayAssume`). Links to deleted rooms are allowed.
- Where the code does not have a property outright, the exact condition is a lemma
  ending in `Iff`: `RoomCheck.OpenAppAgreesIff`, `RoomCheck.StaysInProjectIff`,
  `Clock.AppShrinksIff`, `Addressing.LiveConfirmsIff`, `ImportConsistent.OneGrantIffDoc`,
  `Losses.RoomDecisionKeptIff`, `Losses.ScopeKeptIff`, `Losses.AppRuleKeptIff`,
  `RoomCap.RefusedIff`, `Subscriptions.RowlessSafeIff`, `ActorAuth.RevokedIff`.

The comment above the signing key cache says that switching a key off takes effect
only after the time to live; the code invalidates at once, and the model follows the
code (`KeyLife.SwitchedOffNeverResolves`).

## Model

| member | source | states |
|---|---|---|
| Authz.BuildAppAccess | src/modules/authzModule/authz.service.ts:600-812 | the indexed, batched session build is the per-app, per-room answer of the plain queries, with its lobbies and restored subscriptions; the `SessionMeaning` rows say what that answer is |
| SessionMeaning.SessionApps | src/modules/authzModule/authz.service.ts:797-808 | no app is listed twice, and each entry carries id, name, slug and both webhooks of one app row the rule admits the actor to |
| SessionMeaning.SessionListsApp | src/modules/authzModule/authz.service.ts:607-656 | an app row is listed iff the rule admits the actor to it: live and active, by a stored grant in force, or open to the project when none is |
| SessionMeaning.SessionOrder | src/modules/authzModule/authz.service.ts:607-656 | in the order of the stored grants that hold, then of the open apps without any |
| SessionMeaning.SessionTopics | src/modules/authzModule/authz.service.ts:738-802 | a topic is listed under an app iff the rule grants it there, with pattern, topic, permission, room id and slug and scope each spelled out |
| SessionMeaning.SessionRestores | src/modules/authzModule/authz.service.ts:804 | under each app come back, in recorded order, exactly the recorded subscriptions that name one of its listed patterns, each with the topic listed beside that pattern |
| SessionMeaning.ScopeMeans | src/modules/authzModule/authz.service.ts:323-347 | an unscoped actor is unscoped; any other is admitted iff its own scope row is live, active and of its project, and carries that row's id, slug and name |
| Authz.IndexActorGrants | src/modules/authzModule/authz.service.ts:694-709 | after both passes each room maps to its last active named grant, else its first active type grant |
| Authz.CollectAccess | src/modules/authzModule/authz.service.ts:607-656 | stored grants that hold, then one synthetic full grant per open app without any |
| Authz.ValidAccessIds | src/modules/authzModule/authz.service.ts:631-656 | no app is resolved twice |
| Authz.AttachLobbies | src/modules/authzModule/authz.service.ts:817-870 | the one-pass grouping gives each app the lobbies a direct query would |
| Authz.LobbiesExact | src/modules/authzModule/authz.service.ts:771-773 | a lobby is listed under an app iff it is live, of that app, and linked to a room in the accessible set; each once |
| Visibility.AccessibleIff | src/modules/authzModule/authz.service.ts:771-773 | the accessible set is exactly the rooms the rule lets the actor into, topics or none |
| Visibility.LobbyListedIff | src/modules/authzModule/authz.service.ts:817-870 | so the lobbies of a session are, once each, by id and slug, the live ones of the app with a live link to a room the rule lets the actor into |
| Authz.GroupSubscriptions | src/modules/authzModule/authz.service.ts:906-955 | the lookup-table grouping equals filtering the record app by app, order kept |
| Resolution.ValidAccessIsRule | src/modules/authzModule/authz.service.ts:607-656 | app-level access is resolved iff the rule grants it: a stored grant in force, or openness when none is |
| Resolution.DecideIsRule | src/modules/authzModule/authz.service.ts:680-769 | the room decision is the rule's: public inherits, private answers to the named grant before the type grant, expiry never falls back |
| Resolution.ResolveIsRule | src/modules/authzModule/authz.service.ts:600-787 | an address is emitted under an app iff the declarative rule grants it |
| RoomCheck.LiveAgreesWithBatch | src/modules/authzModule/authz.service.ts:396-546 | for every pattern that parses, the live check returns exactly the connect-time list for that room, read from the entry of the app whose id it answers, and allows iff the list is not empty |
| LiveMeaning.LiveAllowsIff | src/modules/authzModule/authz.service.ts:396-546 | allowed iff the actor row is live, active and unexpired, its scope holds, the request names a live active app of its project and a live active room of it, the app is open or held by a grant in force, and the room rule gives some topic; then the answer is that app's id and that room's topics in order, field by field |
| LiveMeaning.ParsesIff | src/modules/authzModule/authz.service.ts:424-451 | a request names an app and a room iff it is three segments, or four of which the second is the actor's own scope slug |
| RoomCheck.RoomDecisionsAgree | src/modules/authzModule/authz.service.ts:498-528 | first-wins and last-wins decide every room alike when each target has one grant |
| RoomCheck.OpenAppAgreesIff | src/modules/authzModule/authz.service.ts:465-467 | on an open app the two agree iff no stored grant in force is narrower than full access |
| RoomCheck.StaysInProjectIff | src/modules/authzModule/authz.service.ts:607-625 | batch stays in the actor's project iff every grant in force does |
| Clock.LiveAccessOnlyShrinks | src/modules/authzModule/authz.service.ts:396-546 | what the live check allows at one time it allowed, identically, at every earlier time |
| Clock.AppShrinksIff | src/modules/authzModule/authz.service.ts:619-656 | app-level access only shrinks over time iff no expiring grant narrows an open app |
| Clock.BatchOnlyShrinks | src/modules/authzModule/authz.service.ts:695-709 | under that condition whatever is emitted later was emitted earlier |
| Addressing.AddressRoundTrip | src/modules/authzModule/authz.service.ts:565-587 | splitting a built pattern and topic recovers every segment |
| Addressing.TopicInjective | src/modules/authzModule/authz.service.ts:578-580 | equal internal topics have equal scope, room and topic name; scoped and unscoped never meet |
| Addressing.PatternInjective | src/modules/authzModule/authz.service.ts:575-577 | equal patterns have equal app, scope, room and topic slugs |
| Addressing.PatternDecodes | src/modules/authzModule/authz.service.ts:575-577 | within one scope a pattern gives back app, room and topic, even when the topic holds separators |
| Addressing.LiveConfirmsBatch | src/modules/authzModule/authz.service.ts:424-451 | of the addresses handed out at connect, the live check confirms exactly those whose topic name holds no separator |
| Addressing.LiveConfirmsIff | src/modules/authzModule/authz.service.ts:424-451 | the same for every address the rule grants; with a separator in the topic the answer is a denial |
| Witness.SlashTopicDenied | src/modules/projectConfigModule/dto/projectConfig.dto.ts:203-206 | an accepted import, into any database, that hands out an address the live check denies |
| Addressing.UnscopedRequestNeverListed | src/modules/authzModule/authz.service.ts:435-448 | a scoped actor's three-segment request never finds itself in the answer |
| Restore.PatternOwner | src/modules/authzModule/authz.service.ts:922-930 | a pattern belongs to one app and one internal topic |
| Restore.RestoreExact | src/modules/authzModule/authz.service.ts:932-952 | exactly the still-granted recorded subscriptions come back, in order, under the owning app and with its topic |
| ProjectExport.ExportProject | src/modules/projectConfigModule/projectConfig.service.ts:352-545 | the exporting loops, with the room references filled as apps are walked, give the export as a function of the tables |
| ExportListing.HeadWritten | src/modules/projectConfigModule/projectConfig.service.ts:516-530 | a project is exported iff its row is not deleted, and its head is that row's; limits are written iff they were synced |
| ExportListing.FlatListsWritten | src/modules/projectConfigModule/projectConfig.service.ts:511-543 | scopes and signing keys: an entry for each row of the project that is not deleted and no other |
| ExportListing.NestedListsWritten | src/modules/projectConfigModule/projectConfig.service.ts:374-540 | apps with rooms, type grants and lobbies, and actors with their grants: an entry for each live row of the project, every written column read off that row, and no other |
| Sorting.TextLeIff | src/modules/projectConfigModule/projectConfig.service.ts:370 | the order of exported lists: a prefix first, otherwise the first difference decides |
| ImportStore.AssertUniqueSlugs | src/modules/projectConfigModule/projectConfig.service.ts:301-341 | passes iff no scope, app, room, lobby slug and no handle repeats |
| ImportStore.EntityManager.InsertAppGrant | src/modules/actorTokenModule/actorAppAccess.entity.ts:30 | inserts iff the actor has no row for the app, else changes nothing |
| ImportRun.ImportProject | src/modules/projectConfigModule/projectConfig.service.ts:57-294 | succeeds iff the document is accepted; then exactly its rows are added and what is returned is `AllIssued`, which the next rows explain |
| ImportRun.ImportInTransaction | src/modules/projectConfigModule/projectConfig.facade.ts:24-28 | all of that on success, the database unchanged on failure |
| ImportIssued.IssuedActor | src/modules/projectConfigModule/projectConfig.service.ts:201-221 | one returned credential per document actor, in order, under its handle; its key id names exactly one row, which is new, live, of the new project and made from that entry |
| ImportIssued.IssuedKey | src/modules/projectConfigModule/projectConfig.service.ts:263-286 | the same for signing keys, whose rows start active |
| ImportIssued.IssuedActorSignsIn | src/common/utils/secretHash.ts:53-68 | a returned actor credential signs in as the row made for its entry, exactly while that entry is active and unexpired |
| ImportIssued.IssuedKeyResolves | src/modules/signingKeyModule/signingKey.service.ts:93-96 | a returned signing key resolves at once to the row made for its entry and the secret in the credential |
| ImportMembers.UnwrittenColumns | src/modules/projectConfigModule/projectConfig.service.ts:138-151 | of the new rows no grant carries metadata, type grants never expire and have no role, named grants have no type, and limits count as synced iff the document gave some |
| ImportRefs.AcceptsIffWellFormed | src/modules/projectConfigModule/projectConfig.service.ts:61-286 | accepted iff version 1, unique slugs, every reference resolves within the document, no app granted twice, keys only with an encryption key |
| ImportRefs.RoomIdKnown | src/modules/projectConfigModule/projectConfig.service.ts:136 | the joined slug key finds the room of that app and slug and no other |
| ImportClosed.ImportIsClosed | src/modules/projectConfigModule/projectConfig.service.ts:70-286 | every stored reference points to a row of the same import |
| ImportKeyed.ImportedKeyed | src/modules/projectConfigModule/projectConfig.service.ts:70-286 | primary keys and full unique indexes survive an accepted import |
| ImportConsistent.ImportedSlugs | src/modules/projectConfigModule/projectConfig.service.ts:301-341 | so do the partial unique slug indexes |
| ImportConsistent.OneGrantIffDoc | src/modules/projectConfigModule/projectConfig.service.ts:138-151 | the new project has one grant per target iff the document lists no type twice on a room and no room twice for an actor; so has the whole database, if it had before |
| ImportConsistent.ImportedWellLinked | src/modules/projectConfigModule/projectConfig.service.ts:102-266 | an imported project is linked only within itself |
| RoundTrip.LinksBack | src/modules/projectConfigModule/projectConfig.service.ts:166-180 | saving lobby links by key and reading them back keeps first occurrences of the listed slugs |
| RoundTrip.ImportThenExport | src/modules/projectConfigModule/projectConfig.service.ts:352-545 | exporting an imported document gives it in normal form, whatever else the database holds |
| ReExport.ExportIsNormal | src/modules/projectConfigModule/projectConfig.service.ts:352-545 | an exported document is its own normal form but for handles |
| ReExport.ExportImportExport | src/modules/projectConfigModule/projectConfig.service.ts:57-294 | export, import anywhere, export: the same document up to handles and their order |
| ExportRefs.AppDocsUniform | src/modules/projectConfigModule/projectConfig.service.ts:382-455 | writing an app before later apps' rooms are known changes nothing, lingering links to deleted rooms included |
| ExportAccepted.ExportIsAccepted | src/modules/projectConfigModule/projectConfig.service.ts:352-545 | whatever a project exports, the import service takes |
| ExportAccepted.ExportOneGrant | src/modules/projectConfigModule/projectConfig.service.ts:396-416 | the document lists each target once when the tables do |
| DocAccess.NormalizeKeepsAccess | src/modules/projectConfigModule/projectConfig.service.ts:86-265 | filling defaults, sorting and renaming handles changes nobody's access |
| ExportMeaning.ExportGrantsSession | src/modules/authzModule/authz.service.ts:600-787 | a document read on its own grants an actor exactly what the actor's session lists, at every clock |
| ExportMeaning.PrivateIff | src/modules/projectConfigModule/projectConfig.service.ts:396-416 | a written room is private iff a type grant or a live project actor's grant closes it |
| Transfer.AccessSurvives | src/modules/projectConfigModule/projectConfig.service.ts:57-545 | after export and import into any database with its keys and slugs in order, each actor has one returned credential under its old key id, naming one live row of its name and type, and the two resolve to the same (pattern, permission) pairs at every clock, given one live grant per target in the exported project |
| Transfer.TargetStaysConsistent | src/modules/projectConfigModule/projectConfig.service.ts:57-294 | and the target keeps its keys, slugs and grant targets; the new project has one grant per target whatever others hold |
| Losses.MovedAccess | src/modules/projectConfigModule/projectConfig.service.ts:57-545 | whatever its grants, scope bindings and expiries: the actor the returned credential names gets exactly what the exported one had minus what a document cannot carry; slugs must be writable and no live lobby may link a live room of another app |
| Losses.RoomDecisionKeptIff | src/modules/projectConfigModule/projectConfig.service.ts:467-469 | a room decision survives iff the room keeps some grant that closed it and no spent type grant decides |
| Losses.ScopeKeptIff | src/modules/projectConfigModule/projectConfig.service.ts:480-482 | an actor's session scope survives iff its scope row was still live |
| Losses.AppRuleKeptIff | src/modules/projectConfigModule/projectConfig.service.ts:483-491 | app access survives inside the project and nowhere else |
| Losses.ExampleLosses | src/modules/projectConfigModule/projectConfig.service.ts:148 | a room reserved for an outsider opens; a lapsed type grant admits again |
| Witness.AnnKeepsTheLounge | src/modules/projectConfigModule/projectConfig.service.ts:57-545 | a scoped user of a restricted app with a room closed to its type publishes there before and after the move, at every clock |
| EnsureRoom.RoomTable.EnsureRoom | src/modules/roomModule/room.facade.ts:139-169 | uninterrupted, the method is the five steps of the protocol |
| EnsureRoom.SameRoomForAll | src/modules/roomModule/room.facade.ts:139-169 | in every interleaving a slug names at most one live room, whoever got a room got a live one of its app and slug, and all who asked for one slug got the same |
| EnsureRoom.FailsOnlyByCapOrEmptySlug | src/modules/roomModule/room.facade.ts:149-168 | a lost race never surfaces: callers fail only with the cap full or without a slug |
| EnsureRoom.RoomsNeverExceed | src/modules/roomModule/room.facade.ts:149-158 | live rooms stay within max(initial, cap - 1 + N) |
| EnsureRoom.LiveRoomsIsCount | src/modules/roomModule/room.service.ts:51-54 | what the cap is compared with: the number of rows of the app that are not deleted, disabled ones included |
| EnsureRoom.RefusedThoughItExists | src/modules/roomModule/room.facade.ts:144-154 | the smallest such schedule: the cap refuses a slug a rival has just created |
| RoomCap.RefusedIff | src/modules/roomModule/room.facade.ts:144-154 | some schedule refuses a caller iff its slug is free at the start and the rooms there are, with the different slugs the others could create, reach its cap; it can be refused although its slug exists iff one of those is its own |
| RoomCap.RoomForEveryone | src/modules/roomModule/room.facade.ts:149-154 | a cap that holds the rooms there are and one per caller refuses nobody |
| Subscriptions.ActorState.UpdateSubscription | src/modules/authzModule/authz.service.ts:966-1020 | replaces the entry of that name in place, appends, or removes; presence is untouched |
| Subscriptions.ActorState.ClearSubscriptions | src/modules/authzModule/authz.service.ts:1023-1036 | empties the record and drops presence with it |
| Subscriptions.RecordMeaning | src/modules/authzModule/authz.service.ts:975-1019 | after any sequence of requests: no name twice, options of each name's latest subscribe (a group only if load-balanced, filters only if any), each entry first subscribed at some request since its last removal, and listed in that order |
| Subscriptions.NoUpdateLost | src/modules/authzModule/authz.service.ts:975-981 | once the row exists every interleaving equals the serial replay in lock order |
| Subscriptions.TwoStepsFinish | src/modules/authzModule/authz.service.ts:966-1020 | and each can finish: uninterrupted it applies its request once and releases the row |
| Subscriptions.RowlessSafeIff | src/modules/authzModule/authz.service.ts:983-987 | without a row, no schedule leaves two rows or a wrong one iff at most one transaction writes |
| Subscriptions.FirstSubscribesLost | src/modules/authzModule/authz.service.ts:983-987 | two first subscribes, each writing a row of which one is never read |
| TtlCache.Cache.Write | src/common/utils/ttlCache.ts:30-39 | sets, counts, and on the hundredth write sweeps |
| TtlCache.Cache.Sweep | src/common/utils/ttlCache.ts:41-48 | keeps exactly the unexpired entries |
| TtlCache.WriteMeans | src/common/utils/ttlCache.ts:30-48 | a write sweeps iff it is the hundredth since the last, and a sweep keeps what has not expired, unchanged |
| TtlCache.Cache.Read | src/common/utils/ttlCache.ts:18-28 | an expired entry is deleted and missed |
| TtlCache.SweepUnobservable | src/common/utils/ttlCache.ts:11-57 | every answer is that of a map that forgets nothing, for every sequence of operations and non-decreasing clock |
| TtlCache.HitIsLastSet | src/common/utils/ttlCache.ts:18-28 | a hit is the last value set, within its time to live, with no delete or clear since, and conversely |
| TtlCache.SizeBound | src/common/utils/ttlCache.ts:30-39 | never more entries than the last sweep left and ninety-nine |
| SigningKeys.SigningKeyService.ResolveSigningKey | src/modules/signingKeyModule/signingKey.service.ts:204-245 | resolution through the cache, as one step of the store |
| SigningKeys.SigningKeyService.PatchSigningKey | src/modules/signingKeyModule/signingKey.service.ts:321-349 | one step of the store: `KeyLife.PatchMeans` says which fields of which row it sets; its key id is forgotten by the cache |
| SigningKeys.SigningKeyService.VerifyClientToken | src/modules/signingKeyModule/signingKey.service.ts:129-202 | one step of the store: nothing is looked up before the header is good; `KeyLife.AcceptedIffVouched` says what it accepts |
| SigningKeys.CachedIsDirect | src/modules/signingKeyModule/signingKey.service.ts:204-250 | in every serial sequence the cache answers what the tables say at that moment |
| KeyLife.ResolvedIff | src/modules/signingKeyModule/signingKey.service.ts:204-245 | after any run a key id resolves, through the cache, iff its stored row is live, active and decrypts; the answer is that row and its secret |
| KeyLife.CreateMeans | src/modules/signingKeyModule/signingKey.service.ts:280-302 | a created key is one live active row with the drawn ids; without an encryption key nothing is stored |
| KeyLife.PatchMeans | src/modules/signingKeyModule/signingKey.service.ts:321-349 | a patch sets the name and status it gives on the live row it names; every other field and row stays; refused iff there is none |
| KeyLife.RemoveMeans | src/modules/signingKeyModule/signingKey.service.ts:351-372 | a removal marks that live row deleted and leaves the rest |
| KeyLife.SwitchedOffNeverResolves | src/modules/signingKeyModule/signingKey.service.ts:340-370 | from a patch to disabled, or a removal, of a live key, whatever the cache held, its key id resolves for nobody until a patch switches that very key on |
| KeyLife.SwitchedOnResolves | src/modules/signingKeyModule/signingKey.service.ts:340-347 | a live key just switched on resolves at once to its own row, active, if its secret decrypts |
| KeyLife.PublicIdIff | src/modules/signingKeyModule/signingKey.service.ts:39-40 | a public id is the prefix, live or sandbox, and twelve hexadecimal digits |
| KeyLife.AcceptedIffVouched | src/modules/signingKeyModule/signingKey.service.ts:129-202 | after any run a token is accepted for a key iff its header is HS256 with a well-formed key id, that live active row's own secret opens it, the clock is between an hour before its expiry and the expiry, give or take a minute, and its subject names an actor token |
| ActorAuth.SplitIff | src/common/utils/secretHash.ts:93-107 | a credential splits into two parts iff it is those two non-empty, dot-free parts joined |
| ActorAuth.ActorTokenService.AuthenticateActorToken | src/modules/actorTokenModule/actorToken.service.ts:55-90 | authentication through the cache, as one step |
| ActorAuth.AcceptedWithinAMinute | src/modules/actorTokenModule/actorToken.service.ts:55-90 | an accepted credential named that row, with a secret its hash matches, when the row was live, active and unexpired, at most 60,000 ms before |
| ActorAuth.UsableIsAccepted | src/modules/actorTokenModule/actorToken.service.ts:66-90 | a credential that signs in now is never refused |
| ActorAuth.DirectIff | src/modules/actorTokenModule/actorToken.service.ts:71-82 | the table vouches for a row iff the credential is its key id, a dot and a matching secret, and it is live, active and unexpired |
| ActorAuth.AnswerIff | src/modules/actorTokenModule/actorToken.service.ts:55-90 | over every sequence of authentications and any changes of the table: the answer is the row of the one cache fill still in date, else the table's |
| ActorAuth.RevokedIff | src/modules/actorTokenModule/actorToken.service.ts:66-69 | a row the table no longer vouches for is answered iff its credential's fill is still in date |
| ActorAuth.InDateMeans | src/modules/actorTokenModule/actorToken.service.ts:84-87 | in date: the table answered that authentication, at most 60,000 ms ago, when no earlier fill was in date |
| ActorAuth.HitDoesNotRenew | src/modules/actorTokenModule/actorToken.service.ts:66-69 | vouched for within the minute and yet refused: a hit renews nothing |
| ActorAuth.DisabledForAtMostAMinute | src/modules/actorTokenModule/actorToken.service.ts:66-69 | an actor disabled right after signing in: accepted until the minute is over, refused after |
| LobbyMembership.LobbyFacade.AddRoomToLobby | src/modules/lobbyModule/lobby.facade.ts:137-183 | joins, or refuses for the first failing check, and forgets both cached answers |
| LobbyEffects.AddMeans | src/modules/lobbyModule/lobby.facade.ts:137-183 | joined iff lobby and room are live in the app, the pair is new and the room is in fewer than ten lobbies; the first failing check is reported and nothing changes |
| LobbyEffects.RemoveMeans | src/modules/lobbyModule/lobby.facade.ts:185-203 | that pair's link goes and no other |
| LobbyMembership.LobbyFacade.DeleteLobby | src/modules/lobbyModule/lobby.facade.ts:106-124 | membership rows outlive the lobby |
| LobbyEffects.DeleteLobbyMeans | src/modules/lobbyModule/lobby.facade.ts:106-124 | the live lobby is marked deleted; every other row and every membership stays |
| LobbyMembership.CachedIsDirect | src/modules/lobbyModule/lobby.facade.ts:205-230 | both caches answer the direct membership query at every moment of every serial sequence |
| LobbyEffects.ListedMeans | src/modules/lobbyModule/lobby.facade.ts:205-230 | so both questions are answered with exactly the membership rows of that moment, each once |
| LobbyMembership.MembershipBounded | src/modules/lobbyModule/lobby.service.ts:172-206 | at most ten lobbies a room, no pair twice, no link across apps |
| LobbyEffects.NeverMoreThanTen | src/modules/lobbyModule/lobby.service.ts:172-206 | no room is ever in more than ten lobbies, counted in rows |
| LobbyMembership.ExporterMayAssume | src/modules/lobbyModule/lobby.facade.ts:137-203 | after any serial sequence, room deletions included, no lobby links a live room of another app, which is what the exporter needs |
| LobbyMembership.DeletedRoomKeepsLink | src/modules/roomModule/room.service.ts:169-179 | deleting a room leaves its lobby links behind |
| LobbyEffects.DeleteRoomMeans | src/modules/roomModule/room.service.ts:169-179 | the live room is marked deleted; every other room, every lobby and every membership stays |
| ScopeBinding.ScopeFacades.DeleteScope | src/modules/accessScopeModule/accessScope.facade.ts:113-139 | refused while a live actor of any project is bound |
| ScopeEffects.CreateScopeMeans | src/modules/accessScopeModule/accessScope.facade.ts:62-81 | stored as given iff no live scope of the project has its slug |
| ScopeEffects.UpdateScopeMeans | src/modules/accessScopeModule/accessScope.facade.ts:84-103 | the given fields of the live scope it names; never slug or project |
| ScopeEffects.DeleteScopeMeans | src/modules/accessScopeModule/accessScope.facade.ts:113-139 | marked deleted iff live and no live actor of any project is bound to it |
| ScopeEffects.CreateActorMeans | src/modules/actorTokenModule/actorToken.facade.ts:138-146 | stored as given, scope included, iff that scope is live in the project |
| ScopeEffects.UpdateActorMeans | src/modules/actorTokenModule/actorToken.facade.ts:148-174 | the given fields of the live actor it names; never type, key or project; a named scope must be live in the project |
| ScopeEffects.DeleteActorMeans | src/modules/actorTokenModule/actorToken.facade.ts:176-202 | the live actor it names is marked deleted |
| ScopeEffects.SwitchDecidesSessions | src/modules/authzModule/authz.service.ts:323-347 | switching a scope off refuses every live actor bound to it a session; switching it on admits them |
| ScopeBinding.RunKeeps | src/modules/actorTokenModule/actorToken.facade.ts:138-202 | scope, actor and import operations keep every live actor unscoped or on a live scope of its project |
| ScopeBinding.PatchActorKeeps | src/modules/actorTokenModule/actorToken.facade.ts:230-248 | rebinding is safe because only a live scope of the project is let in |
| ScopeBinding.RefusedOnlyWhenInactive | src/modules/authzModule/authz.service.ts:323-347 | such an actor is refused a session iff its scope is switched off |
| ScopeBinding.DeletionWidensNothing | src/modules/accessScopeModule/accessScope.facade.ts:105-139 | deleting a scope changes no live actor's session scope |
| RoomGrants.RoomActorAccessFacade.Create | src/modules/roomModule/roomActorAccess.facade.ts:56-107 | one step of the grant table: `GrantEffects.CreateMeans` says what it accepts and stores |
| GrantEffects.CreateMeans | src/modules/roomModule/roomActorAccess.facade.ts:56-107 | accepted iff the request names one actor or one type, and no live grant on the room has that target; then one row is added with every requested field, and nothing else changes |
| GrantEffects.UpdateMeans | src/modules/roomModule/roomActorAccess.facade.ts:109-136 | each given field of the live row it names, never the target; other rows stay; refused iff there is none |
| GrantEffects.DeleteMeans | src/modules/roomModule/roomActorAccess.facade.ts:138-152 | that live row is marked deleted; other rows stay |
| GrantEffects.CreatedDecides | src/modules/roomModule/roomActorAccess.facade.ts:94-105 | after an accepted create its target is decided in that room, at every clock, by the requested permission and topics (else the app's) until the expiry, iff the grant is on and, for a type, no active grant names the actor |
| GrantEffects.UpdatedDecides | src/modules/roomModule/roomActorAccess.facade.ts:123-134 | after an accepted update the same, with each given field replaced |
| GrantEffects.DeletedDecides | src/modules/roomModule/roomActorAccess.facade.ts:138-152 | after an accepted delete no live row has that id and every decision is the one made without the row |
| GrantEffects.GrantDecides | src/modules/authzModule/authz.service.ts:689-709 | a live grant speaks for an actor iff it is on and names it, or its type where no active grant names the actor |
| GrantEffects.GrantCloses | src/modules/authzModule/authz.service.ts:752-757 | any live grant, off ones included, keeps out whoever no active grant reaches |
| RoomGrants.RunKeeps | src/modules/roomModule/roomActorAccess.facade.ts:56-152 | every sequence keeps one target per grant and one live grant per room and target |
| RoomGrants.ResolverMayAssume | src/modules/roomModule/roomActorAccess.facade.ts:56-152 | so the resolver's condition holds of its tables |
| Slugs.SlugCanonical | src/modules/roomModule/room.facade.ts:228-234 | the slug of any name is empty or of the canonical form |
| Slugs.SlugIsWords | src/modules/roomModule/room.facade.ts:228-234 | the slug is the lower-cased name's maximal runs of letters and digits, joined by single dashes |
| Slugs.FixedIffCanonical | src/modules/roomModule/dto/room.dto.ts:16 | a string is its own slug iff it is empty or canonical |
| Slugs.SlugIdempotent | src/modules/lobbyModule/lobby.facade.ts:291-297 | slugging twice is slugging once |
| Slugs.SlugKeepsLetters | src/modules/roomModule/room.facade.ts:228-234 | the letters and digits of the lower-cased name survive, all and in order |

## Left out

- ImportRun.ImportProject: says which error is reported only for a wrong version and duplicate slugs; which of several unknown references comes first is not stated.
- Subscriptions.NoUpdateLost: starts from an existing state row; RowlessSafeIff says when nothing goes wrong without one.
- ExportAccepted.ExportIsAccepted: speaks of the service; the document validator in front of it also refuses limits below one, which a stored zero exports as.
- Transfer.AccessSurvives: speaks of addresses and permissions; webhooks and limits travel in the document (RoundTrip) but are not part of what it compares.
- ImportIssued.IssuedActorSignsIn: that a drawn secret matches its drawn hash, and a drawn cipher decrypts to its secret, are hypotheses about the generator.
- A topic carries its whole session scope here; the payload carries the scope's id and slug.
- SigningKeys.CachedIsDirect: serial sequences only; a verification between a patch's invalidation and its commit is not modelled. Deleting a project does not touch the cache and is not an operation of the model.
- LobbyMembership.CachedIsDirect: serial sequences only.
- ScopeBinding.RunKeeps: serial sequences only; the count and the insert of two transactions do not interleave.
- RoomGrants.RunKeeps: serial sequences only; no unique index backs the duplicate check.
- Each call reads the clock once.
- Rows come back in one fixed order per table where the query names none; `ORDER BY` uses code-unit order rather than the database collation.
- Dates are integers of milliseconds, not ISO text; a left-out list in a document is the empty list; a null column and a left-out field are the same.
- Ciphers, hashes and JWT decoding and signatures are function parameters, with the expiry and start checks written out; constant time is out.
- Metadata of grants and the last-used and last-activity stamps of keys and actors are not in documents and not followed.
- Topic inheritance and WebRTC topics of a created room's row: authorization never reads that column.
- Other transactions than ensureRoom's own in its interleavings: deletes and direct creates are not among its callers.
- Limits, topic webhook maps, broker adapters, pagination, static provisioning, wiring, migrations, audit and user interface.
