/** The tables of an imported database, each as the old rows and the blocks the import adds. */
module ImportTables {
  import opened Prelude
  import opened Schema
  import opened ProjectDoc
  import opened Tables
  import opened ProjectImport

  function AppRows(doc: Doc, mint: Mint): seq<App> {
    seq(|doc.apps|, i requires 0 <= i < |doc.apps| => AppRow(mint, i, doc.apps[i]))
  }
  function RoomRows(a: AppDoc, mint: Mint, i: nat): seq<Room> {
    seq(|a.rooms|, j requires 0 <= j < |a.rooms| => RoomRow(mint, i, j, a.rooms[j]))
  }
  function LobbyRows(a: AppDoc, mint: Mint, i: nat): seq<Lobby> {
    seq(|a.lobbies|, j requires 0 <= j < |a.lobbies| => LobbyRow(mint, i, j, a.lobbies[j]))
  }
  function ActorRows(doc: Doc, mint: Mint): seq<Actor> {
    seq(|doc.actors|, k requires 0 <= k < |doc.actors| =>
      ActorRow(mint, k, doc.actors[k], ScopeIdOf(ScopeIds(doc, mint), doc.actors[k])))
  }

  lemma RoomParts(a: AppDoc, mint: Mint, i: nat)
    ensures var s := Sum(|a.rooms|, RoomBatch(a, mint, i));
            && s.rooms == RoomRows(a, mint, i)
            && s.roomGrants == Flat(|a.rooms|, RoomGrantsPart(RoomBatch(a, mint, i)))
            && s.apps == [] && s.lobbies == [] && s.lobbyRooms == [] && s.actors == [] && s.appGrants == []
  {
    hide Sum, RoomRow, TypeGrantRows;
    var f := RoomBatch(a, mint, i);
    SumParts(|a.rooms|, f);
    FlatSingles(|a.rooms|, RoomsPart(f), RoomRows(a, mint, i));
    FlatEmpty(|a.rooms|, AppsPart(f));
    FlatEmpty(|a.rooms|, LobbiesPart(f));
    FlatEmpty(|a.rooms|, LinksPart(f));
    FlatEmpty(|a.rooms|, ActorsPart(f));
    FlatEmpty(|a.rooms|, AppGrantsPart(f));
  }

  lemma LobbyParts(a: AppDoc, mint: Mint, i: nat, roomIds: map<string, Id>)
    ensures var s := Sum(|a.lobbies|, LobbyBatch(a, mint, i, roomIds));
            && s.lobbies == LobbyRows(a, mint, i)
            && s.lobbyRooms == Flat(|a.lobbies|, LinksPart(LobbyBatch(a, mint, i, roomIds)))
            && s.apps == [] && s.rooms == [] && s.roomGrants == [] && s.actors == [] && s.appGrants == []
  {
    hide Sum, LobbyRow, LinkRows;
    var f := LobbyBatch(a, mint, i, roomIds);
    SumParts(|a.lobbies|, f);
    FlatSingles(|a.lobbies|, LobbiesPart(f), LobbyRows(a, mint, i));
    FlatEmpty(|a.lobbies|, AppsPart(f));
    FlatEmpty(|a.lobbies|, RoomsPart(f));
    FlatEmpty(|a.lobbies|, RoomGrantsPart(f));
    FlatEmpty(|a.lobbies|, ActorsPart(f));
    FlatEmpty(|a.lobbies|, AppGrantsPart(f));
  }

  lemma AppParts(doc: Doc, mint: Mint, i: nat)
    requires i < |doc.apps|
    ensures var b, a := AppBatch(doc, mint)(i), doc.apps[i];
            && b.apps == [AppRow(mint, i, a)] && b.rooms == RoomRows(a, mint, i) && b.lobbies == LobbyRows(a, mint, i)
            && b.lobbyRooms == Flat(|a.lobbies|, LinksPart(LobbyBatch(a, mint, i, RoomIds(doc, mint, i + 1))))
            && b.roomGrants == Flat(|a.rooms|, RoomGrantsPart(RoomBatch(a, mint, i)))
            && b.actors == [] && b.appGrants == []
  {
    hide Sum, RoomIds, RoomBatch, LobbyBatch, AppRow, RoomRows, LobbyRows;
    RoomParts(doc.apps[i], mint, i);
    LobbyParts(doc.apps[i], mint, i, RoomIds(doc, mint, i + 1));
  }

  /** The tables of the apps part of the batch. */
  lemma AppsParts(doc: Doc, mint: Mint)
    ensures var s, f := Sum(|doc.apps|, AppBatch(doc, mint)), AppBatch(doc, mint);
            && s.apps == AppRows(doc, mint)
            && s.rooms == Flat(|doc.apps|, RoomsPart(f)) && s.lobbies == Flat(|doc.apps|, LobbiesPart(f))
            && s.lobbyRooms == Flat(|doc.apps|, LinksPart(f)) && s.roomGrants == Flat(|doc.apps|, RoomGrantsPart(f))
            && s.actors == [] && s.appGrants == []
  {
    hide Sum, AppBatch, AppRow, RoomRows, LobbyRows;
    var f := AppBatch(doc, mint);
    SumParts(|doc.apps|, f);
    forall i: nat | i < |doc.apps|
      ensures AppsPart(f)(i) == [AppRows(doc, mint)[i]] && ActorsPart(f)(i) == [] && AppGrantsPart(f)(i) == []
    { AppParts(doc, mint, i); }
    FlatSingles(|doc.apps|, AppsPart(f), AppRows(doc, mint));
    FlatEmpty(|doc.apps|, ActorsPart(f));
    FlatEmpty(|doc.apps|, AppGrantsPart(f));
  }

  lemma ActorsParts(doc: Doc, mint: Mint)
    ensures var s, f := Sum(|doc.actors|, ActorBatch(doc, mint)), ActorBatch(doc, mint);
            && s.actors == ActorRows(doc, mint)
            && s.appGrants == Flat(|doc.actors|, AppGrantsPart(f)) && s.roomGrants == Flat(|doc.actors|, RoomGrantsPart(f))
            && s.apps == [] && s.rooms == [] && s.lobbies == [] && s.lobbyRooms == []
  {
    hide Sum, ActorRow, AppGrantRows, NamedGrantRows, ScopeIdOf, ScopeIds, AppIds, RoomIds;
    var f := ActorBatch(doc, mint);
    SumParts(|doc.actors|, f);
    FlatSingles(|doc.actors|, ActorsPart(f), ActorRows(doc, mint));
    FlatEmpty(|doc.actors|, AppsPart(f));
    FlatEmpty(|doc.actors|, RoomsPart(f));
    FlatEmpty(|doc.actors|, LobbiesPart(f));
    FlatEmpty(|doc.actors|, LinksPart(f));
  }

  lemma {:induction false} SumBare(n: nat, f: nat -> Db)
    requires forall i: nat :: i < n ==> f(i).projects == [] && f(i).scopes == [] && f(i).signingKeys == []
    ensures Sum(n, f).projects == [] && Sum(n, f).scopes == [] && Sum(n, f).signingKeys == []
  {
    if n > 0 { SumBare(n - 1, f); }
  }

  lemma AppBare(doc: Doc, mint: Mint, i: nat)
    requires i < |doc.apps|
    ensures AppBatch(doc, mint)(i).projects == [] && AppBatch(doc, mint)(i).scopes == [] && AppBatch(doc, mint)(i).signingKeys == []
  {
    hide Sum, RoomIds, AppRow, RoomRow, TypeGrantRows, LobbyRow, LinkRows;
    SumBare(|doc.apps[i].rooms|, RoomBatch(doc.apps[i], mint, i));
    SumBare(|doc.apps[i].lobbies|, LobbyBatch(doc.apps[i], mint, i, RoomIds(doc, mint, i + 1)));
  }

  /** Every table of the batch, as the blocks it is made of. */
  lemma BatchTables(doc: Doc, mint: Mint, now: Time)
    ensures var b, f, g := Batch(doc, mint, now), AppBatch(doc, mint), ActorBatch(doc, mint);
            && b.projects == [ProjectRow(doc, mint, now)] && b.scopes == ScopeRows(doc, mint)
            && b.apps == AppRows(doc, mint) && b.rooms == Flat(|doc.apps|, RoomsPart(f))
            && b.lobbies == Flat(|doc.apps|, LobbiesPart(f)) && b.lobbyRooms == Flat(|doc.apps|, LinksPart(f))
            && b.actors == ActorRows(doc, mint) && b.appGrants == Flat(|doc.actors|, AppGrantsPart(g))
            && b.roomGrants == Flat(|doc.apps|, RoomGrantsPart(f)) + Flat(|doc.actors|, RoomGrantsPart(g))
            && b.signingKeys == KeyRows(doc, mint)
  {
    hide Sum, AppBatch, ActorBatch, ScopeRows, KeyRows, ProjectRow, AppRows, ActorRows, Flat;
    AppsParts(doc, mint);
    ActorsParts(doc, mint);
    forall i: nat | i < |doc.apps|
      ensures AppBatch(doc, mint)(i).projects == [] && AppBatch(doc, mint)(i).scopes == [] && AppBatch(doc, mint)(i).signingKeys == []
    { AppBare(doc, mint, i); }
    SumBare(|doc.apps|, AppBatch(doc, mint));
    ActorsBare(doc, mint);
  }

  lemma ActorsBare(doc: Doc, mint: Mint)
    ensures var s := Sum(|doc.actors|, ActorBatch(doc, mint)); s.projects == [] && s.scopes == [] && s.signingKeys == []
  {
    hide Sum, ActorRow, AppGrantRows, NamedGrantRows, ScopeIdOf, ScopeIds, AppIds, RoomIds;
    SumBare(|doc.actors|, ActorBatch(doc, mint));
  }

  lemma ImportedIs(db: Db, doc: Doc, mint: Mint, now: Time)
    ensures var b := Batch(doc, mint, now);
            Imported(db, doc, mint, now) ==
            Db(db.projects + b.projects, db.scopes + b.scopes, db.apps + b.apps, db.rooms + b.rooms,
               db.lobbies + b.lobbies, db.lobbyRooms + b.lobbyRooms, db.actors + b.actors,
               db.appGrants + b.appGrants, db.roomGrants + b.roomGrants, db.signingKeys + b.signingKeys)
  {
    hide Batch;
  }

  // One table of the imported database at a time.

  lemma ProjectTable(db: Db, doc: Doc, mint: Mint, now: Time)
    ensures Imported(db, doc, mint, now).projects == db.projects + [ProjectRow(doc, mint, now)]
  {
    hide *;
    BatchTables(doc, mint, now);
    ImportedIs(db, doc, mint, now);
  }

  lemma ScopeTable(db: Db, doc: Doc, mint: Mint, now: Time)
    ensures Imported(db, doc, mint, now).scopes == db.scopes + ScopeRows(doc, mint)
  {
    hide *;
    BatchTables(doc, mint, now);
    ImportedIs(db, doc, mint, now);
  }

  lemma AppTable(db: Db, doc: Doc, mint: Mint, now: Time)
    ensures Imported(db, doc, mint, now).apps == db.apps + AppRows(doc, mint)
  {
    hide *;
    BatchTables(doc, mint, now);
    ImportedIs(db, doc, mint, now);
  }

  lemma RoomTable(db: Db, doc: Doc, mint: Mint, now: Time)
    ensures Imported(db, doc, mint, now).rooms == db.rooms + Flat(|doc.apps|, RoomsPart(AppBatch(doc, mint)))
  {
    hide *;
    BatchTables(doc, mint, now);
    ImportedIs(db, doc, mint, now);
  }

  lemma LobbyTable(db: Db, doc: Doc, mint: Mint, now: Time)
    ensures Imported(db, doc, mint, now).lobbies == db.lobbies + Flat(|doc.apps|, LobbiesPart(AppBatch(doc, mint)))
  {
    hide *;
    BatchTables(doc, mint, now);
    ImportedIs(db, doc, mint, now);
  }

  lemma LinkTable(db: Db, doc: Doc, mint: Mint, now: Time)
    ensures Imported(db, doc, mint, now).lobbyRooms == db.lobbyRooms + Flat(|doc.apps|, LinksPart(AppBatch(doc, mint)))
  {
    hide *;
    BatchTables(doc, mint, now);
    ImportedIs(db, doc, mint, now);
  }

  lemma ActorTable(db: Db, doc: Doc, mint: Mint, now: Time)
    ensures Imported(db, doc, mint, now).actors == db.actors + ActorRows(doc, mint)
  {
    hide *;
    BatchTables(doc, mint, now);
    ImportedIs(db, doc, mint, now);
  }

  lemma AppGrantTable(db: Db, doc: Doc, mint: Mint, now: Time)
    ensures Imported(db, doc, mint, now).appGrants == db.appGrants + Flat(|doc.actors|, AppGrantsPart(ActorBatch(doc, mint)))
  {
    hide *;
    BatchTables(doc, mint, now);
    ImportedIs(db, doc, mint, now);
  }

  lemma RoomGrantTable(db: Db, doc: Doc, mint: Mint, now: Time)
    ensures Imported(db, doc, mint, now).roomGrants == db.roomGrants + (Flat(|doc.apps|, RoomGrantsPart(AppBatch(doc, mint))) + Flat(|doc.actors|, RoomGrantsPart(ActorBatch(doc, mint))))
  {
    hide *;
    BatchTables(doc, mint, now);
    ImportedIs(db, doc, mint, now);
  }

  lemma KeyTable(db: Db, doc: Doc, mint: Mint, now: Time)
    ensures Imported(db, doc, mint, now).signingKeys == db.signingKeys + KeyRows(doc, mint)
  {
    hide *;
    BatchTables(doc, mint, now);
    ImportedIs(db, doc, mint, now);
  }
}
