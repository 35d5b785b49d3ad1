/** Adding rows: tables only grow, one batch of new rows at a time. */
module Tables {
  import opened Prelude
  import opened Schema

  const EMPTY := Db([], [], [], [], [], [], [], [], [], [])

  /** The database after saving every row of the batch. */
  function Plus(db: Db, batch: Db): Db {
    Db(db.projects + batch.projects, db.scopes + batch.scopes, db.apps + batch.apps, db.rooms + batch.rooms,
       db.lobbies + batch.lobbies, db.lobbyRooms + batch.lobbyRooms, db.actors + batch.actors,
       db.appGrants + batch.appGrants, db.roomGrants + batch.roomGrants, db.signingKeys + batch.signingKeys)
  }

  /** Batches saved one after another. */
  function Sum(n: nat, f: nat -> Db): Db {
    if n == 0 then EMPTY else Plus(Sum(n - 1, f), f(n - 1))
  }

  lemma PlusEmpty(db: Db)
    ensures Plus(db, EMPTY) == db && Plus(EMPTY, db) == db
  {
  }

  lemma PlusAssoc(a: Db, b: Db, c: Db)
    ensures Plus(Plus(a, b), c) == Plus(a, Plus(b, c))
  {
  }

  function AppsPart(f: nat -> Db): nat -> seq<App> { (i: nat) => f(i).apps }
  function RoomsPart(f: nat -> Db): nat -> seq<Room> { (i: nat) => f(i).rooms }
  function LobbiesPart(f: nat -> Db): nat -> seq<Lobby> { (i: nat) => f(i).lobbies }
  function LinksPart(f: nat -> Db): nat -> seq<LobbyRoom> { (i: nat) => f(i).lobbyRooms }
  function ActorsPart(f: nat -> Db): nat -> seq<Actor> { (i: nat) => f(i).actors }
  function AppGrantsPart(f: nat -> Db): nat -> seq<AppGrant> { (i: nat) => f(i).appGrants }
  function RoomGrantsPart(f: nat -> Db): nat -> seq<RoomGrant> { (i: nat) => f(i).roomGrants }

  /** A sum's tables are the blocks of its batches, in order. */
  lemma {:induction false} SumParts(n: nat, f: nat -> Db)
    ensures Sum(n, f).apps == Flat(n, AppsPart(f)) && Sum(n, f).rooms == Flat(n, RoomsPart(f))
    ensures Sum(n, f).lobbies == Flat(n, LobbiesPart(f)) && Sum(n, f).lobbyRooms == Flat(n, LinksPart(f))
    ensures Sum(n, f).actors == Flat(n, ActorsPart(f)) && Sum(n, f).appGrants == Flat(n, AppGrantsPart(f))
    ensures Sum(n, f).roomGrants == Flat(n, RoomGrantsPart(f))
  {
    if n > 0 { SumParts(n - 1, f); }
  }

  /** Saving the next batch of a sum. */
  lemma SumSaved(db: Db, f: nat -> Db, j: nat)
    ensures Plus(db, Sum(0, f)) == db
    ensures Plus(Plus(db, Sum(j, f)), f(j)) == Plus(db, Sum(j + 1, f))
  {
    PlusEmpty(db);
    PlusAssoc(db, Sum(j, f), f(j));
  }
}
