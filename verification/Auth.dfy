/** Logins (internal/auth/identity.go, internal/ssh/server.go:97-116) as interleaved atomic steps: the
    sections under the mutex and the single statements in between. */
module Auth {
  import opened Store

  /** Where one login attempt stands. */
  datatype Login =
    | Looking(fp: string)
    | Creating(fp: string)
    | Crediting(fp: string, pid: int)
    | Failing(fp: string)
    | Live(fp: string, pid: int)

  /** The manager's `active` map and the attempts that got past it, by session. */
  datatype Desk = Desk(active: set<string>, logins: map<int, Login>)

  datatype Backend = Backend(store: Store, desk: Desk)

  datatype Step =
    | Reserve(session: int, fp: string)         // first locked section of Login
    | Lookup(session: int, ok: bool)            // GetPlayerByFingerprint
    | Create(session: int, fate: Fate)          // CreatePlayer
    | Credit(session: int, fate: Fate)          // GrantDailyCredit; its errors are ignored
    | Release(session: int)                     // Logout, or the cleanup of a failed Login
    | NextDay(days: nat)                        // CURRENT_DATE moves on, never back

  const CLOSED := Desk({}, map[])

  lemma {:induction false} LeastExists(ids: set<int>, any: int)
    requires any in ids
    ensures exists pid :: pid in ids && forall q :: q in ids ==> pid <= q
    decreases |ids|
  {
    if below :| below in ids && below < any {
      var rest := ids - {any};
      LeastExists(rest, below);
      var pid :| pid in rest && forall q :: q in rest ==> pid <= q;
      assert pid <= below;
      assert forall q :: q in ids ==> q == any || q in rest;
    } else {
      assert forall q :: q in ids ==> any <= q;
    }
  }

  /** The row GetPlayerByFingerprint finds. */
  function PlayerOf(players: map<int, Player>, fp: string): (pid: int)
    requires Known(players, fp)
    ensures pid in players && players[pid].fingerprint == fp
  {
    var ids := set pid | pid in players && players[pid].fingerprint == fp;
    assert exists pid :: pid in ids && forall q :: q in ids ==> pid <= q by {
      var pid :| pid in players && players[pid].fingerprint == fp;
      LeastExists(ids, pid);
    }
    var pid :| pid in ids && forall q :: q in ids ==> pid <= q;
    pid
  }

  function Move(b: Backend, session: int, login: Login): Backend {
    b.(desk := b.desk.(logins := b.desk.logins[session := login]))
  }

  /** One step of one session. A step that the session is not ready for changes nothing. */
  function Next(b: Backend, e: Step): Backend {
    match e
    case Reserve(session, fp) =>
      if session in b.desk.logins || fp in b.desk.active then b   // taken: alreadyActive
      else Move(b.(desk := b.desk.(active := b.desk.active + {fp})), session, Looking(fp))
    case NextDay(days) =>
      b.(store := b.store.(today := b.store.today + days))
    case _ =>
      if e.session !in b.desk.logins then b else Advance(b, e, b.desk.logins[e.session])
  }

  function Advance(b: Backend, e: Step, login: Login): Backend
    requires !e.Reserve? && !e.NextDay?
  {
    match (e, login)
    case (Lookup(session, ok), Looking(fp)) =>
      if !ok then Move(b, session, Failing(fp))
      else if Known(b.store.players, fp) then Move(b, session, Crediting(fp, PlayerOf(b.store.players, fp)))
      else Move(b, session, Creating(fp))
    case (Create(session, fate), Creating(fp)) =>
      if fate.Failed? || Known(b.store.players, fp) then Move(b, session, Failing(fp))   // UNIQUE (pubkey_fingerprint)
      else if fate.Uncertain? then Move(b.(store := InsertPlayer(b.store, fp)), session, Failing(fp))
      else Move(b.(store := InsertPlayer(b.store, fp)), session, Crediting(fp, b.store.nextPlayer))
    case (Credit(session, fate), Crediting(fp, pid)) =>
      if fate.Failed? then Move(b, session, Live(fp, pid))
      else Move(b.(store := GrantCredit(b.store, pid)), session, Live(fp, pid))
    case (Release(session), Failing(fp)) => Leave(b, session, fp)
    case (Release(session), Live(fp, _)) => Leave(b, session, fp)
    case _ => b
  }

  function Leave(b: Backend, session: int, fp: string): Backend {
    b.(desk := Desk(b.desk.active - {fp}, b.desk.logins - {session}))
  }

  function Run(b: Backend, es: seq<Step>): Backend
    decreases |es|
  {
    if es == [] then b else Run(Next(b, es[0]), es[1..])
  }

  lemma {:induction false} RunSnoc(b: Backend, es: seq<Step>, e: Step)
    ensures Run(b, es + [e]) == Next(Run(b, es), e)
    decreases |es|
  {
    if es == [] {
      assert [e][1..] == [];
    } else {
      assert (es + [e])[1..] == es[1..] + [e];
      RunSnoc(Next(b, es[0]), es[1..], e);
    }
  }

  lemma {:induction false} RunConcat(b: Backend, es: seq<Step>, more: seq<Step>)
    ensures Run(b, es + more) == Run(Run(b, es), more)
    decreases |es|
  {
    if es == [] {
      assert es + more == more;
    } else {
      assert (es + more)[1..] == es[1..] + more;
      RunConcat(Next(b, es[0]), es[1..], more);
    }
  }

  // ---------------------------------------------------------------- the engine's tables

  /** `b` with the rounds and bets of another store. */
  function WithTables(b: Backend, s: Store): Backend {
    b.(store := b.store.(rounds := s.rounds, bets := s.bets, nextRound := s.nextRound, nextBet := s.nextBet,
                         drawn := s.drawn))
  }

  lemma CreditIgnoresTables(b: Backend, s: Store, pid: int)
    ensures GrantCredit(WithTables(b, s).store, pid) == WithTables(b.(store := GrantCredit(b.store, pid)), s).store
    ensures WithTables(b.(store := GrantCredit(b.store, pid)), b.store) == b.(store := GrantCredit(b.store, pid))
  {
  }

  lemma CreateIgnoresTables(b: Backend, s: Store, e: Step, login: Login)
    requires e.Create? || e.Lookup? || e.Release?
    ensures Advance(WithTables(b, s), e, login) == WithTables(Advance(b, e, login), s)
    ensures WithTables(Advance(b, e, login), b.store) == Advance(b, e, login)
  {
  }

  /** Logins neither read nor write rounds and bets. */
  lemma LoginsIgnoreTables(b: Backend, s: Store, e: Step)
    ensures Next(WithTables(b, s), e) == WithTables(Next(b, e), s)
    ensures WithTables(Next(b, e), b.store) == Next(b, e)
  {
    if !e.Reserve? && !e.NextDay? && e.session in b.desk.logins {
      var login := b.desk.logins[e.session];
      if !e.Credit? {
        CreateIgnoresTables(b, s, e, login);
      } else if login.Crediting? {
        CreditIgnoresTables(b, s, login.pid);
      }
    }
  }

  lemma {:induction false} RunIgnoresTables(b: Backend, s: Store, es: seq<Step>)
    ensures Run(WithTables(b, s), es) == WithTables(Run(b, es), s)
    ensures WithTables(Run(b, es), b.store) == Run(b, es)
    decreases |es|
  {
    if es != [] {
      LoginsIgnoreTables(b, s, es[0]);
      RunIgnoresTables(Next(b, es[0]), s, es[1..]);
    }
  }

  // ---------------------------------------------------------------- other sessions

  /** A step that session `me` does not take. */
  predicate Foreign(step: Step, me: int) {
    match step
    case NextDay(_) => true
    case Reserve(session, _) => session != me
    case Lookup(session, _) => session != me
    case Create(session, _) => session != me
    case Credit(session, _) => session != me
    case Release(session) => session != me
  }

  /** What session `me` knows of itself is its own: the others' steps leave it alone. */
  lemma ForeignLeavesAlone(b: Backend, step: Step, me: int)
    requires Foreign(step, me)
    ensures var b' := Next(b, step);
            && (me in b.desk.logins <==> me in b'.desk.logins)
            && (me in b.desk.logins ==> b'.desk.logins[me] == b.desk.logins[me])
  {
  }
}
