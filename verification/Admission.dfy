/** Who gets in, and with what (internal/auth/identity.go:61-113): a whole login, with any number of steps of the
    other sessions between its own, and each of its statements failing or not. */
module Admission {
  import opened Wrappers
  import opened Store
  import Auth
  import Sessions

  ghost predicate AllForeign(es: seq<Auth.Step>, me: int) {
    forall i :: 0 <= i < |es| ==> Auth.Foreign(es[i], me)
  }

  /** The key's player is as it was, if there was one. */
  ghost predicate SameFor(fp: string, s: Store, s': Store) {
    && (Known(s.players, fp) <==> Known(s'.players, fp))
    && (forall pid :: pid in s.players && s.players[pid].fingerprint == fp ==>
          pid in s'.players && s'.players[pid] == s.players[pid])
  }

  /** While a session holds the reservation of a key, the others do not touch the key's player. */
  lemma ForeignSparesPlayer(b: Auth.Backend, e: Auth.Step, me: int)
    requires Sessions.Inv(b) && me in b.desk.logins && Auth.Foreign(e, me)
    ensures SameFor(b.desk.logins[me].fp, b.store, Auth.Next(b, e).store)
  {
    var fp, s, s' := b.desk.logins[me].fp, b.store, Auth.Next(b, e).store;
    if s' != s && !e.NextDay? {
      var login := b.desk.logins[e.session];
      assert login.fp != fp;
      match login
      case Creating(other) => Inserted(s, other, fp);
      case Crediting(_, pid) => Credited(s, pid, fp);
      case _ =>
    }
  }

  lemma Inserted(s: Store, other: string, fp: string)
    requires Sessions.PlayersOk(s) && other != fp
    ensures SameFor(fp, s, InsertPlayer(s, other))
  {
    var s' := InsertPlayer(s, other);
    if pid :| pid in s'.players && s'.players[pid].fingerprint == fp {
      assert s.players[pid].fingerprint == fp;
    }
    if pid :| pid in s.players && s.players[pid].fingerprint == fp {
      assert s'.players[pid].fingerprint == fp;
    }
  }

  lemma Credited(s: Store, pid: int, fp: string)
    requires pid in s.players && s.players[pid].fingerprint != fp
    ensures SameFor(fp, s, GrantCredit(s, pid))
  {
    Sessions.SameKnown(s.players, GrantCredit(s, pid).players);
  }

  lemma {:induction false} ForeignRun(b: Auth.Backend, es: seq<Auth.Step>, me: int)
    requires Sessions.Inv(b) && me in b.desk.logins && AllForeign(es, me)
    ensures var b' := Auth.Run(b, es);
            && Sessions.Inv(b') && me in b'.desk.logins && b'.desk.logins[me] == b.desk.logins[me]
            && SameFor(b.desk.logins[me].fp, b.store, b'.store)
    decreases |es|
  {
    if es != [] {
      Sessions.NextKeeps(b, es[0]);
      Auth.ForeignLeavesAlone(b, es[0], me);
      ForeignSparesPlayer(b, es[0], me);
      ForeignRun(Auth.Next(b, es[0]), es[1..], me);
    }
  }

  /** One step of the session's own, then the others'. */
  lemma Turn(b: Auth.Backend, own: Auth.Step, others: seq<Auth.Step>, me: int)
    requires Sessions.Inv(b) && me in Auth.Next(b, own).desk.logins && AllForeign(others, me)
    ensures var b1, b' := Auth.Next(b, own), Auth.Run(b, [own] + others);
            && Sessions.Inv(b') && me in b'.desk.logins && b'.desk.logins[me] == b1.desk.logins[me]
            && SameFor(b1.desk.logins[me].fp, b1.store, b'.store)
  {
    Sessions.NextKeeps(b, own);
    assert ([own] + others)[1..] == others;
    ForeignRun(Auth.Next(b, own), others, me);
  }

  // ---------------------------------------------------------------- the three parts of a login

  lemma Registered(b: Auth.Backend, me: int, fp: string, others: seq<Auth.Step>)
    requires Sessions.Inv(b) && me !in b.desk.logins && fp !in b.desk.active && AllForeign(others, me)
    ensures var b' := Auth.Run(b, [Auth.Reserve(me, fp)] + others);
            && Sessions.Inv(b') && me in b'.desk.logins && b'.desk.logins[me] == Auth.Looking(fp)
            && SameFor(fp, b.store, b'.store)
  {
    Turn(b, Auth.Reserve(me, fp), others, me);
  }

  /** The key's one player. */
  ghost predicate IsPlayerOf(s: Store, fp: string, pid: int) {
    pid in s.players && s.players[pid].fingerprint == fp
  }

  lemma LookedUp(b: Auth.Backend, me: int, fp: string, ok: bool, others: seq<Auth.Step>)
    requires Sessions.Inv(b) && me in b.desk.logins && b.desk.logins[me] == Auth.Looking(fp) && AllForeign(others, me)
    ensures var b' := Auth.Run(b, [Auth.Lookup(me, ok)] + others);
            && Sessions.Inv(b') && me in b'.desk.logins && SameFor(fp, b.store, b'.store)
            && b'.desk.logins[me] == (if !ok then Auth.Failing(fp)
                                      else if Known(b.store.players, fp)
                                      then Auth.Crediting(fp, Auth.PlayerOf(b.store.players, fp))
                                      else Auth.Creating(fp))
  {
    Turn(b, Auth.Lookup(me, ok), others, me);
  }

  /** CreatePlayer, which the program does not send and the machine does not carry out unless the lookup found
      nothing. */
  lemma Made(b: Auth.Backend, me: int, fp: string, fate: Fate, others: seq<Auth.Step>)
    requires Sessions.Inv(b) && me in b.desk.logins && b.desk.logins[me].fp == fp && AllForeign(others, me)
    requires b.desk.logins[me].Creating? || b.desk.logins[me].Crediting? || b.desk.logins[me].Failing?
    ensures var login := b.desk.logins[me];
            var b' := Auth.Run(b, [Auth.Create(me, fate)] + others);
            && Sessions.Inv(b') && me in b'.desk.logins
            && (!login.Creating? ==> b'.desk.logins[me] == login && SameFor(fp, b.store, b'.store))
            && (login.Creating? ==>
                  b'.desk.logins[me] == if fate.Done? then Auth.Crediting(fp, b.store.nextPlayer) else Auth.Failing(fp))
            && (login.Creating? && fate.Done? ==>
                  && b.store.nextPlayer in b'.store.players
                  && b'.store.players[b.store.nextPlayer] == Player(fp, STARTING_BALANCE, None))
  {
    Turn(b, Auth.Create(me, fate), others, me);
    if b.desk.logins[me].Creating? {
      assert !Known(b.store.players, fp);
      if fate.Done? { assert Auth.Next(b, Auth.Create(me, fate)).store == InsertPlayer(b.store, fp); }
    }
  }

  /** The player's record before and after GrantDailyCredit. */
  ghost predicate CreditedAs(b: Auth.Backend, b': Auth.Backend, fp: string, pid: int, fate: Fate) {
    && IsPlayerOf(b.store, fp, pid) && IsPlayerOf(b'.store, fp, pid) && b'.store.today == b.store.today
    && var p, p' := b.store.players[pid], b'.store.players[pid];
       if fate.Failed? then p' == p
       else p'.lastCredit == Some(b.store.today)
            && p'.balance == p.balance + if p.lastCredit == Some(b.store.today) then 0 else DAILY_CREDIT
  }

  lemma CreditTaken(b: Auth.Backend, me: int, fp: string, pid: int, fate: Fate)
    requires Sessions.Inv(b) && me in b.desk.logins && b.desk.logins[me] == Auth.Crediting(fp, pid)
    ensures var b' := Auth.Next(b, Auth.Credit(me, fate));
            && Sessions.Inv(b') && me in b'.desk.logins && b'.desk.logins[me] == Auth.Live(fp, pid)
            && CreditedAs(b, b', fp, pid, fate)
  {
    Sessions.NextKeeps(b, Auth.Credit(me, fate));
  }

  // ---------------------------------------------------------------- main result

  /** The statements of one login; between them the others do what they like. */
  datatype Script = Script(found: bool, made: Fate, credited: Fate,
                           f1: seq<Auth.Step>, f2: seq<Auth.Step>, f3: seq<Auth.Step>)

  function StepsOf(me: int, fp: string, x: Script): seq<Auth.Step> {
    ([Auth.Reserve(me, fp)] + x.f1) + ([Auth.Lookup(me, x.found)] + x.f2) + ([Auth.Create(me, x.made)] + x.f3)
    + [Auth.Credit(me, x.credited)]
  }

  /** A login on a free key gets in if and only if its lookup succeeds and, for a new key, the creation of the
      player does; the credit has no say in it. Who gets in plays with the key's one player, with the balance it
      had, or the starting balance, plus the daily credit if it was due and did not fail. */
  lemma AdmittedIff(b: Auth.Backend, me: int, fp: string, x: Script)
    requires Sessions.Inv(b) && me !in b.desk.logins && fp !in b.desk.active
    requires AllForeign(x.f1, me) && AllForeign(x.f2, me) && AllForeign(x.f3, me)
    ensures var b', known := Auth.Run(b, StepsOf(me, fp, x)), Known(b.store.players, fp);
            && Sessions.Inv(b') && me in b'.desk.logins && b'.desk.logins[me].fp == fp
            && (b'.desk.logins[me].Live? <==> x.found && (known || x.made.Done?))
            && (!b'.desk.logins[me].Live? ==> b'.desk.logins[me].Failing?)
            && (b'.desk.logins[me].Live? ==>
                  var pid := b'.desk.logins[me].pid;
                  && IsPlayerOf(b'.store, fp, pid) && (known ==> IsPlayerOf(b.store, fp, pid))
                  && var p := if known then b.store.players[pid] else Player(fp, STARTING_BALANCE, None);
                     var p' := b'.store.players[pid];
                     if x.credited.Failed? then p' == p
                     else p'.lastCredit == Some(b'.store.today)
                          && p'.balance == p.balance + if p.lastCredit == Some(b'.store.today) then 0 else DAILY_CREDIT)
  {
    var b1 := Auth.Run(b, [Auth.Reserve(me, fp)] + x.f1);
    var b2 := Auth.Run(b1, [Auth.Lookup(me, x.found)] + x.f2);
    var b3 := Auth.Run(b2, [Auth.Create(me, x.made)] + x.f3);
    Composed(b, me, fp, x);
    Registered(b, me, fp, x.f1);
    LookedUp(b1, me, fp, x.found, x.f2);
    Made(b2, me, fp, x.made, x.f3);
    CreditOrNot(b3, me, fp, x.credited);
  }

  lemma Composed(b: Auth.Backend, me: int, fp: string, x: Script)
    ensures var b1 := Auth.Run(b, [Auth.Reserve(me, fp)] + x.f1);
            var b2 := Auth.Run(b1, [Auth.Lookup(me, x.found)] + x.f2);
            Auth.Run(b, StepsOf(me, fp, x))
            == Auth.Next(Auth.Run(b2, [Auth.Create(me, x.made)] + x.f3), Auth.Credit(me, x.credited))
  {
    var es1, es2 := [Auth.Reserve(me, fp)] + x.f1, [Auth.Lookup(me, x.found)] + x.f2;
    var es3 := [Auth.Create(me, x.made)] + x.f3;
    Auth.RunConcat(b, es1, es2);
    Auth.RunConcat(b, es1 + es2, es3);
    Auth.RunSnoc(b, es1 + es2 + es3, Auth.Credit(me, x.credited));
  }

  /** The last step: a failed attempt is past helping. */
  lemma CreditOrNot(b: Auth.Backend, me: int, fp: string, fate: Fate)
    requires Sessions.Inv(b) && me in b.desk.logins && b.desk.logins[me].fp == fp
    requires b.desk.logins[me].Crediting? || b.desk.logins[me].Failing?
    ensures var login, b' := b.desk.logins[me], Auth.Next(b, Auth.Credit(me, fate));
            && Sessions.Inv(b') && me in b'.desk.logins
            && (login.Failing? ==> b' == b)
            && (login.Crediting? ==> b'.desk.logins[me] == Auth.Live(fp, login.pid)
                                     && CreditedAs(b, b', fp, login.pid, fate))
  {
    if b.desk.logins[me].Crediting? { CreditTaken(b, me, fp, b.desk.logins[me].pid, fate); }
  }

  // ---------------------------------------------------------------- in plain numbers

  function FirstVisit(me: int, fp: string): seq<Auth.Step> {
    [Auth.Reserve(me, fp), Auth.Lookup(me, true), Auth.Create(me, Done), Auth.Credit(me, Done), Auth.Release(me)]
  }

  function NextVisit(me: int, fp: string): seq<Auth.Step> {
    [Auth.Reserve(me, fp), Auth.Lookup(me, true), Auth.Credit(me, Done), Auth.Release(me)]
  }

  lemma FirstVisitCredits(me: int, fp: string)
    ensures var b := Auth.Run(Auth.Backend(EMPTY, Auth.CLOSED), FirstVisit(me, fp));
            b.desk == Auth.CLOSED && b.store.players == map[1 := Player(fp, 3000, Some(0))] && b.store.today == 0
  {
    var b0, es := Auth.Backend(EMPTY, Auth.CLOSED), FirstVisit(me, fp);
    var b1 := Auth.Next(b0, es[0]);
    assert b1.desk.logins == map[me := Auth.Looking(fp)] && !Known(b1.store.players, fp);
    var b2 := Auth.Next(b1, es[1]);
    assert b2.desk.logins == map[me := Auth.Creating(fp)] && b2.store == b1.store;
    var b3 := Auth.Next(b2, es[2]);
    assert b3.desk.logins == map[me := Auth.Crediting(fp, 1)];
    var b4 := Auth.Next(b3, es[3]);
    assert b4.desk.logins == map[me := Auth.Live(fp, 1)];
    assert Auth.Next(b4, es[4]).desk == Auth.CLOSED;
    FiveSteps(b0, es);
  }

  /** One step more. */
  lemma Prefix(b: Auth.Backend, es: seq<Auth.Step>, k: nat)
    requires k < |es|
    ensures Auth.Run(b, es[..k + 1]) == Auth.Next(Auth.Run(b, es[..k]), es[k])
  {
    assert es[..k + 1] == es[..k] + [es[k]];
    Auth.RunSnoc(b, es[..k], es[k]);
  }

  lemma FourSteps(b: Auth.Backend, es: seq<Auth.Step>)
    requires |es| >= 4
    ensures Auth.Run(b, es[..4]) == Auth.Next(Auth.Next(Auth.Next(Auth.Next(b, es[0]), es[1]), es[2]), es[3])
    ensures |es| == 4 ==> es[..4] == es
  {
    Prefix(b, es, 0);
    Prefix(b, es, 1);
    Prefix(b, es, 2);
    Prefix(b, es, 3);
  }

  lemma FiveSteps(b: Auth.Backend, es: seq<Auth.Step>)
    requires |es| == 5
    ensures Auth.Run(b, es)
            == Auth.Next(Auth.Next(Auth.Next(Auth.Next(Auth.Next(b, es[0]), es[1]), es[2]), es[3]), es[4])
  {
    FourSteps(b, es);
    Prefix(b, es, 4);
    assert es[..5] == es;
  }

  lemma NextVisitCredits(b: Auth.Backend, me: int, fp: string, p: Player)
    requires b.desk == Auth.CLOSED && b.store.players == map[1 := p] && p.fingerprint == fp
    ensures var b' := Auth.Run(b, NextVisit(me, fp)); b' == b.(store := GrantCredit(b.store, 1))
  {
    var es := NextVisit(me, fp);
    var b1 := Auth.Next(b, es[0]);
    assert b1.desk.logins == map[me := Auth.Looking(fp)] && 1 in b1.store.players && Known(b1.store.players, fp);
    var b2 := Auth.Next(b1, es[1]);
    assert b2.desk.logins == map[me := Auth.Crediting(fp, 1)] && b2.store == b.store;
    var b3 := Auth.Next(b2, es[2]);
    assert b3.desk.logins == map[me := Auth.Live(fp, 1)];
    assert Auth.Next(b3, es[3]).desk == Auth.CLOSED;
    FourSteps(b, es);
  }

  /** A new player has 3000 credits after the first login, as many after a second one on the same day, and 4000 after
      one on the day after. */
  lemma CreditsInNumbers(me: int, fp: string)
    ensures var day1 := Auth.Run(Auth.Backend(EMPTY, Auth.CLOSED), FirstVisit(me, fp));
            var again := Auth.Run(day1, NextVisit(me, fp));
            var day2 := Auth.Run(Auth.Next(again, Auth.NextDay(1)), NextVisit(me, fp));
            && day1.store.players == again.store.players == map[1 := Player(fp, 3000, Some(0))]
            && day2.store.players == map[1 := Player(fp, 4000, Some(1))]
  {
    FirstVisitCredits(me, fp);
    var day1 := Auth.Run(Auth.Backend(EMPTY, Auth.CLOSED), FirstVisit(me, fp));
    NextVisitCredits(day1, me, fp, Player(fp, 3000, Some(0)));
    NextVisitCredits(Auth.Next(day1, Auth.NextDay(1)), me, fp, Player(fp, 3000, Some(0)));
  }
}
