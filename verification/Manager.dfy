/** The identity manager as code (internal/auth/identity.go). Between its locked sections and statements the
    other sessions take any number of steps of their own, and the engine commits transactions. */
module Managers {
  import opened Store
  import opened Wrappers
  import Admission
  import Auth
  import Sessions

  datatype Outcome = AlreadyActive | LoginError | LoggedIn(pid: int, isNew: bool)

  /** What a query for one row comes back with. */
  datatype Answer = Row(pid: int) | NoRows | QueryError

  /** The players' queries (internal/db/players.sql.go). Whether one fails is up to the database. */
  class Queries {
    var store: Store
    ghost var faults: nat   // statements that have been reported as failed

    constructor (store: Store)
      ensures this.store == store && faults == 0
    {
      this.store := store;
      faults := 0;
    }

    method GetPlayerByFingerprint(fp: string) returns (a: Answer)
      modifies this`faults
      ensures a.Row? ==> Known(store.players, fp) && a.pid == Auth.PlayerOf(store.players, fp)
      ensures a.NoRows? ==> !Known(store.players, fp)
      ensures faults == old(faults) + if a.QueryError? then 1 else 0
    {
      var answered: bool := *;
      if !answered {
        a := QueryError;
        faults := faults + 1;
      } else if Known(store.players, fp) {
        a := Row(Auth.PlayerOf(store.players, fp));
      } else {
        a := NoRows;
      }
    }

    /** A second row for the key is refused: UNIQUE (pubkey_fingerprint). */
    method CreatePlayer(fp: string) returns (a: Answer, ghost fate: Fate)
      modifies this
      ensures store == if fate.Failed? || Known(old(store).players, fp) then old(store)
                       else InsertPlayer(old(store), fp)
      ensures a == if fate.Done? && !Known(old(store).players, fp) then Row(old(store).nextPlayer) else QueryError
      ensures faults == old(faults) + if a.Row? then 0 else 1
    {
      var became: Fate := *;
      fate := became;
      a := QueryError;
      if !became.Failed? && !Known(store.players, fp) {
        if became.Done? { a := Row(store.nextPlayer); }
        store := InsertPlayer(store, fp);
      }
      if !a.Row? { faults := faults + 1; }
    }

    method GrantDailyCredit(pid: int) returns (ghost fate: Fate)
      modifies this
      ensures store == if fate.Failed? then old(store) else GrantCredit(old(store), pid)
      ensures faults == old(faults) + if fate.Done? then 0 else 1
    {
      var became: Fate := *;
      fate := became;
      if !became.Failed? { store := GrantCredit(store, pid); }
      if !became.Done? { faults := faults + 1; }
    }
  }

  class Manager {
    const db: Queries
    var active: set<string>               // the fingerprints mapped to true
    var logins: map<int, Auth.Login>      // where each session's goroutine stands

    /** New: nobody is logged in when the process starts. */
    constructor (db: Queries)
      requires Sessions.Inv(Auth.Backend(db.store, Auth.CLOSED))
      ensures Valid() && this.db == db && AsBackend() == Auth.Backend(db.store, Auth.CLOSED)
    {
      this.db, active, logins := db, {}, map[];
    }

    function AsBackend(): Auth.Backend
      reads this, db`store
    {
      Auth.Backend(db.store, Auth.Desk(active, logins))
    }

    ghost predicate Valid()
      reads this, db`store
    {
      Sessions.Inv(AsBackend())
    }

    // -------------------------------------------------------------- the others

    /** One atomic step of another session. */
    method Take(step: Auth.Step)
      requires Valid()
      modifies this, db`store
      ensures Valid() && AsBackend() == Auth.Next(old(AsBackend()), step)
    {
      Sessions.NextKeeps(AsBackend(), step);
      var b := Auth.Next(AsBackend(), step);
      db.store, active, logins := b.store, b.desk.active, b.desk.logins;
    }

    /** The engine commits a transaction. */
    method EngineCommits(ws: seq<Write>)
      requires Valid()
      modifies db`store
      ensures Valid() && db.store == CommitWrites(old(db.store), ws)
      ensures forall fp :: Known(db.store.players, fp) <==> Known(old(db.store).players, fp)
    {
      ghost var before := AsBackend();
      db.store := CommitWrites(db.store, ws);
      Sessions.IdentitiesKeep(before, AsBackend());
      Sessions.SameKnown(before.store.players, db.store.players);
    }

    /** The other sessions' goroutines and the engine run for a while, and midnight may pass. */
    method OthersRun(me: int)
      requires Valid() && me in logins
      modifies this, db`store
      ensures Valid() && me in logins && logins[me] == old(logins)[me]
      ensures Known(db.store.players, logins[me].fp) <==> Known(old(db.store).players, logins[me].fp)
    {
      var n: nat := *;
      while n > 0
        invariant Valid() && me in logins && logins[me] == old(logins)[me]
        invariant Known(db.store.players, logins[me].fp) <==> Known(old(db.store).players, logins[me].fp)
      {
        OtherRuns(me);
        n := n - 1;
      }
    }

    method OtherRuns(me: int)
      requires Valid() && me in logins
      modifies this, db`store
      ensures Valid() && me in logins && logins[me] == old(logins)[me]
      ensures Known(db.store.players, logins[me].fp) <==> Known(old(db.store).players, logins[me].fp)
    {
      var step: Auth.Step := *;
      var ws: seq<Write> := *;
      if Auth.Foreign(step, me) {
        Auth.ForeignLeavesAlone(AsBackend(), step, me);
        Admission.ForeignSparesPlayer(AsBackend(), step, me);
        Take(step);
      }
      EngineCommits(ws);
    }

    // -------------------------------------------------------------- locked sections and statements

    /** The first locked section of Login, once the key has been seen to be free. */
    method Register(me: int, fp: string)
      requires Valid() && me !in logins && fp !in active
      modifies this
      ensures Valid() && AsBackend() == Auth.Next(old(AsBackend()), Auth.Reserve(me, fp))
      ensures me in logins && logins[me] == Auth.Looking(fp)
    {
      Sessions.ReserveKeeps(AsBackend(), me, fp);
      active := active + {fp};
      logins := logins[me := Auth.Looking(fp)];
    }

    /** The lookup of getOrCreate. */
    method GetPlayer(me: int, fp: string) returns (a: Answer)
      requires Valid() && me in logins && logins[me] == Auth.Looking(fp)
      modifies this`logins, db`faults
      ensures Valid() && AsBackend() == Auth.Next(old(AsBackend()), Auth.Lookup(me, !a.QueryError?))
      ensures logins.Keys == old(logins).Keys
      ensures logins[me] == match a case Row(pid) => Auth.Crediting(fp, pid)
                                    case NoRows => Auth.Creating(fp)
                                    case QueryError => Auth.Failing(fp)
      ensures a.Row? ==> Known(db.store.players, fp)
      ensures a.NoRows? ==> !Known(db.store.players, fp)
      ensures db.faults == old(db.faults) + if a.QueryError? then 1 else 0
    {
      a := db.GetPlayerByFingerprint(fp);
      Sessions.NextKeeps(AsBackend(), Auth.Lookup(me, !a.QueryError?));
      match a {
        case Row(pid) => logins := logins[me := Auth.Crediting(fp, pid)];
        case NoRows => logins := logins[me := Auth.Creating(fp)];
        case QueryError => logins := logins[me := Auth.Failing(fp)];
      }
    }

    /** The creation of getOrCreate. The constraint on the key never has to refuse it. */
    method CreatePlayer(me: int, fp: string) returns (a: Answer, ghost fate: Fate)
      requires Valid() && me in logins && logins[me] == Auth.Creating(fp)
      modifies this`logins, db
      ensures Valid() && AsBackend() == Auth.Next(old(AsBackend()), Auth.Create(me, fate))
      ensures logins.Keys == old(logins).Keys
      ensures !Known(old(db.store).players, fp) && (a.Row? <==> fate.Done?) && (a.QueryError? <==> !fate.Done?)
      ensures logins[me] == if a.Row? then Auth.Crediting(fp, a.pid) else Auth.Failing(fp)
      ensures db.faults == old(db.faults) + if a.Row? then 0 else 1
    {
      ghost var before := AsBackend();
      assert !Known(db.store.players, logins[me].fp);
      a, fate := db.CreatePlayer(fp);
      Sessions.NextKeeps(before, Auth.Create(me, fate));
      if a.Row? {
        logins := logins[me := Auth.Crediting(fp, a.pid)];
      } else {
        logins := logins[me := Auth.Failing(fp)];
      }
    }

    /** GrantDailyCredit, whose errors Login ignores. Unless it has failed, the player has the day's credit. */
    method GrantDailyCredit(me: int, fp: string, pid: int) returns (ghost fate: Fate)
      requires Valid() && me in logins && logins[me] == Auth.Crediting(fp, pid)
      modifies this`logins, db
      ensures Valid() && AsBackend() == Auth.Next(old(AsBackend()), Auth.Credit(me, fate))
      ensures me in logins && logins[me] == Auth.Live(fp, pid)
      ensures Admission.CreditedAs(old(AsBackend()), AsBackend(), fp, pid, fate)
      ensures db.faults == old(db.faults) + if fate.Done? then 0 else 1
    {
      ghost var before := AsBackend();
      fate := db.GrantDailyCredit(pid);
      Admission.CreditTaken(before, me, fp, pid, fate);
      logins := logins[me := Auth.Live(fp, pid)];
    }

    /** `delete(m.active, fp)` under the lock, at the end of a session or of a failed attempt. */
    method Forget(me: int, fp: string)
      requires Valid() && me in logins && (logins[me] == Auth.Failing(fp) || (logins[me].Live? && logins[me].fp == fp))
      modifies this
      ensures Valid() && AsBackend() == Auth.Next(old(AsBackend()), Auth.Release(me))
      ensures logins == old(logins) - {me} && active == old(active) - {fp}
    {
      Sessions.NextKeeps(AsBackend(), Auth.Release(me));
      active := active - {fp};
      logins := logins - {me};
    }

    // -------------------------------------------------------------- the operations

    /** getOrCreate, inside a login that holds its reservation. It ends in an error if and only if one of its
        statements has been reported as failed, and says of a player that it is new exactly when it is. */
    method GetOrCreate(me: int, fp: string) returns (a: Answer, isNew: bool)
      requires Valid() && me in logins && logins[me] == Auth.Looking(fp)
      modifies this, db
      ensures Valid() && me in logins
      ensures a.Row? || a.QueryError?
      ensures db.faults == old(db.faults) + if a.Row? then 0 else 1
      ensures logins[me] == if a.Row? then Auth.Crediting(fp, a.pid) else Auth.Failing(fp)
      ensures a.Row? ==> (isNew <==> !Known(old(db.store).players, fp))
    {
      OthersRun(me);
      a := GetPlayer(me, fp);
      isNew := a.NoRows?;
      if isNew {
        OthersRun(me);
        ghost var fate;
        a, fate := CreatePlayer(me, fp);
      }
    }

    /** Login. It is turned away if and only if its key is taken; otherwise it gets in unless one of its first
        two statements is reported as failed, holds the only reservation of the key, plays with the key's one
        player, and has the day's credit unless that statement is reported as failed. */
    method Login(me: int, fp: string) returns (r: Outcome)
      requires Valid() && me !in logins
      modifies this, db
      ensures Valid()
      ensures r.AlreadyActive? <==> fp in old(active)
      ensures r.AlreadyActive? ==> AsBackend() == old(AsBackend()) && db.faults == old(db.faults)
      ensures r.LoginError? ==> me !in logins && fp !in active && db.faults == old(db.faults) + 1
      ensures r.LoggedIn? ==>
        && me in logins && logins[me] == Auth.Live(fp, r.pid) && fp in active
        && (forall other :: other in logins && logins[other].fp == fp ==> other == me)
        && r.pid in db.store.players && db.store.players[r.pid].fingerprint == fp
        && (forall pid :: pid in db.store.players && db.store.players[pid].fingerprint == fp ==> pid == r.pid)
        && (r.isNew <==> !Known(old(db.store).players, fp))
      ensures r.LoggedIn? ==>
        (db.faults == old(db.faults) && db.store.players[r.pid].lastCredit == Some(db.store.today))
        || db.faults == old(db.faults) + 1
    {
      if fp in active {
        return AlreadyActive;
      }
      Register(me, fp);
      var a, isNew := GetOrCreate(me, fp);
      OthersRun(me);
      if a.QueryError? {
        Forget(me, fp);
        return LoginError;
      }
      ghost var fate := GrantDailyCredit(me, fp, a.pid);
      return LoggedIn(a.pid, isNew);
    }

    /** Logout: the key is free again, and nothing else changes. */
    method Logout(me: int)
      requires Valid() && me in logins && logins[me].Live?
      modifies this
      ensures Valid() && logins == old(logins) - {me} && active == old(active) - {old(logins)[me].fp}
    {
      Forget(me, logins[me].fp);
    }
  }
}
