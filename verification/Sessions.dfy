/** One session per key, one player per key, one credit per day: over every interleaving of login steps with
    each other, with the engine's transactions and with restarts of the process. */
module Sessions {
  import opened Store
  import opened System
  import Auth

  /** Attempts that hold a reservation have different keys, and every reservation has its attempt. */
  ghost predicate DeskOk(d: Auth.Desk) {
    && (forall t :: t in d.logins ==> d.logins[t].fp in d.active)
    && (forall t, u :: t in d.logins && u in d.logins && d.logins[t].fp == d.logins[u].fp ==> t == u)
    && (forall fp :: fp in d.active ==> exists t :: t in d.logins && d.logins[t].fp == fp)
  }

  ghost predicate PlayersOk(s: Store) {
    && (forall pid :: pid in s.players ==> pid < s.nextPlayer)
    && (forall p, q ::
          p in s.players && q in s.players && s.players[p].fingerprint == s.players[q].fingerprint ==> p == q)
  }

  /** What an attempt has found out stays true until its next step. */
  ghost predicate LoginsOk(s: Store, d: Auth.Desk) {
    forall t :: t in d.logins ==>
      match d.logins[t]
      case Creating(fp) => !Known(s.players, fp)
      case Crediting(fp, pid) => pid in s.players && s.players[pid].fingerprint == fp
      case Live(fp, pid) => pid in s.players && s.players[pid].fingerprint == fp
      case _ => true
  }

  /** A player's grants are dated in strictly increasing order, up to the last credit date. */
  ghost predicate GrantsOk(s: Store) {
    && (forall pid :: pid in s.players && s.players[pid].lastCredit.Some? ==>
          s.players[pid].lastCredit.value <= s.today)
    && (forall i :: 0 <= i < |s.grants| ==>
          var (pid, date) := s.grants[i];
          pid in s.players && s.players[pid].lastCredit.Some? && date <= s.players[pid].lastCredit.value)
    && (forall i, j :: 0 <= i < j < |s.grants| && s.grants[i].0 == s.grants[j].0 ==> s.grants[i].1 < s.grants[j].1)
  }

  ghost predicate Inv(b: Auth.Backend) {
    DeskOk(b.desk) && PlayersOk(b.store) && LoginsOk(b.store, b.desk) && GrantsOk(b.store)
  }

  // ---------------------------------------------------------------- login steps

  lemma ReserveKeeps(b: Auth.Backend, session: int, fp: string)
    requires Inv(b)
    ensures Inv(Auth.Next(b, Auth.Reserve(session, fp)))
  {
    var b' := Auth.Next(b, Auth.Reserve(session, fp));
    if b' != b {
      assert b'.desk.logins[session].fp == fp;
      forall f | f in b'.desk.active ensures exists t :: t in b'.desk.logins && b'.desk.logins[t].fp == f {
        if f != fp {
          var t :| t in b.desk.logins && b.desk.logins[t].fp == f;
          assert b'.desk.logins[t].fp == f;
        }
      }
    }
  }

  /** A step of an attempt that keeps its key. */
  lemma MoveKeepsDesk(d: Auth.Desk, session: int, login: Auth.Login)
    requires DeskOk(d) && session in d.logins && login.fp == d.logins[session].fp
    ensures DeskOk(Auth.Desk(d.active, d.logins[session := login]))
  {
    var d' := Auth.Desk(d.active, d.logins[session := login]);
    forall f | f in d'.active ensures exists t :: t in d'.logins && d'.logins[t].fp == f {
      var t :| t in d.logins && d.logins[t].fp == f;
      assert d'.logins[t].fp == f;
    }
  }

  lemma LeaveKeeps(b: Auth.Backend, session: int)
    requires Inv(b) && session in b.desk.logins
    ensures Inv(Auth.Leave(b, session, b.desk.logins[session].fp))
  {
    var b' := Auth.Leave(b, session, b.desk.logins[session].fp);
    forall f | f in b'.desk.active ensures exists t :: t in b'.desk.logins && b'.desk.logins[t].fp == f {
      var t :| t in b.desk.logins && b.desk.logins[t].fp == f;
      assert t != session && b'.desk.logins[t].fp == f;
    }
  }

  /** The lookup of an attempt that went on to create its player is still right: no other attempt with the
      key can have created one in between. So the UNIQUE constraint on the key never refuses. */
  lemma InsertKeeps(s: Store, d: Auth.Desk, session: int, login: Auth.Login)
    requires Inv(Auth.Backend(s, d)) && session in d.logins && d.logins[session].Creating?
    requires login.fp == d.logins[session].fp
    requires login.Failing? || login == Auth.Crediting(login.fp, s.nextPlayer)
    ensures Inv(Auth.Backend(InsertPlayer(s, login.fp), Auth.Desk(d.active, d.logins[session := login])))
  {
    var s' := InsertPlayer(s, login.fp);
    MoveKeepsDesk(d, session, login);
    assert s.nextPlayer !in s.players;
    forall fp | Known(s'.players, fp) && fp != login.fp ensures Known(s.players, fp) {
      var pid :| pid in s'.players && s'.players[pid].fingerprint == fp;
      assert s.players[pid].fingerprint == fp;
    }
  }

  lemma SameKnown(p: map<int, Player>, p': map<int, Player>)
    requires p'.Keys == p.Keys && forall pid :: pid in p ==> p'[pid].fingerprint == p[pid].fingerprint
    ensures forall fp :: Known(p', fp) <==> Known(p, fp)
  {
    forall fp ensures Known(p', fp) <==> Known(p, fp) {
      if Known(p', fp) {
        var pid :| pid in p' && p'[pid].fingerprint == fp;
        assert p[pid].fingerprint == fp;
      }
      if Known(p, fp) {
        var pid :| pid in p && p[pid].fingerprint == fp;
        assert p'[pid].fingerprint == fp;
      }
    }
  }

  lemma CreditKeeps(b: Auth.Backend, pid: int)
    requires Inv(b)
    ensures Inv(b.(store := GrantCredit(b.store, pid)))
  {
    var s, s' := b.store, GrantCredit(b.store, pid);
    SameKnown(s.players, s'.players);
    if CreditDue(s, pid) {
      forall i, j | 0 <= i < j < |s'.grants| && s'.grants[i].0 == s'.grants[j].0
        ensures s'.grants[i].1 < s'.grants[j].1
      {
        assert s'.grants[i] == s.grants[i];
      }
    }
  }

  lemma AdvanceKeeps(b: Auth.Backend, e: Auth.Step)
    requires Inv(b) && !e.Reserve? && !e.NextDay? && e.session in b.desk.logins
    ensures Inv(Auth.Next(b, e))
  {
    var d, login := b.desk, b.desk.logins[e.session];
    match (e, login)
    case (Lookup(session, ok), Looking(fp)) =>
      MoveKeepsDesk(d, session, Auth.Next(b, e).desk.logins[session]);
    case (Create(session, fate), Creating(fp)) =>
      MoveKeepsDesk(d, session, Auth.Failing(fp));
      InsertKeeps(b.store, d, session, Auth.Failing(fp));
      InsertKeeps(b.store, d, session, Auth.Crediting(fp, b.store.nextPlayer));
    case (Credit(session, fate), Crediting(fp, pid)) =>
      CreditKeeps(b, pid);
      MoveKeepsDesk(d, session, Auth.Live(fp, pid));
    case (Release(session), _) => LeaveKeeps(b, session);
    case _ =>
  }

  lemma NextKeeps(b: Auth.Backend, e: Auth.Step)
    requires Inv(b)
    ensures Inv(Auth.Next(b, e))
  {
    match e
    case Reserve(session, fp) => ReserveKeeps(b, session, fp);
    case NextDay(_) =>
    case _ => if e.session in b.desk.logins { AdvanceKeeps(b, e); }
  }

  // ---------------------------------------------------------------- the rest of the system

  /** The engine moves balances, but neither keys nor credit dates. */
  ghost predicate SameIdentities(s: Store, s': Store) {
    && s'.players.Keys == s.players.Keys && s'.nextPlayer == s.nextPlayer
    && s'.today == s.today && s'.grants == s.grants
    && forall pid :: pid in s.players ==> s'.players[pid] == s.players[pid].(balance := s'.players[pid].balance)
  }

  lemma EngineKeepsIdentities(env: Env, w: World, e: Event)
    requires !e.Outside?
    ensures SameIdentities(w.back.store, Step(env, w, e).back.store)
    ensures Step(env, w, e).back.desk == if e.ProcessCrash? then Auth.CLOSED else w.back.desk
  {
    if Ready(w, e) {
      match e
      case Statement(pid, ok) => StatementStores(w, pid, ok);
      case Start(roll, salt, endsAt, create, publish) =>
        StartStores(env, w, roll, salt, endsAt, create, publish, w.control.announce);
      case _ =>
    }
  }

  lemma IdentitiesKeep(b: Auth.Backend, b': Auth.Backend)
    requires Inv(b) && SameIdentities(b.store, b'.store) && (b'.desk == b.desk || b'.desk == Auth.CLOSED)
    ensures Inv(b')
  {
    SameKnown(b.store.players, b'.store.players);
  }

  lemma {:induction false} RunKeeps(env: Env, w: World, es: seq<Event>)
    requires Inv(w.back)
    ensures Inv(Exec(env, w, es).back)
    decreases |es|
  {
    if es != [] {
      var w1 := Step(env, w, es[0]);
      if es[0].Outside? {
        NextKeeps(w.back, es[0].step);
      } else {
        EngineKeepsIdentities(env, w, es[0]);
        IdentitiesKeep(w.back, w1.back);
      }
      RunKeeps(env, w1, es[1..]);
    }
  }

  /** Over every run: two attempts that got past the reservation never share a key, no two players share one,
      an attempt about to create a player finds none in its way, and no player is granted a credit twice on
      one date. */
  lemma SessionsExclusive(env: Env, es: seq<Event>)
    ensures var b := Exec(env, INIT, es).back;
            && (forall t, u ::
                  t in b.desk.logins && u in b.desk.logins && b.desk.logins[t].fp == b.desk.logins[u].fp ==> t == u)
            && (forall p, q ::
                  p in b.store.players && q in b.store.players
                  && b.store.players[p].fingerprint == b.store.players[q].fingerprint
                  ==> p == q)
            && (forall t :: t in b.desk.logins && b.desk.logins[t].Creating? ==>
                  !Known(b.store.players, b.desk.logins[t].fp))
            && (forall i, j :: 0 <= i < j < |b.store.grants| ==> b.store.grants[i] != b.store.grants[j])
  {
    RunKeeps(env, INIT, es);
    var b := Exec(env, INIT, es).back;
    forall i, j | 0 <= i < j < |b.store.grants| ensures b.store.grants[i] != b.store.grants[j] {
      if b.store.grants[i].0 == b.store.grants[j].0 { assert b.store.grants[i].1 < b.store.grants[j].1; }
    }
  }
}
