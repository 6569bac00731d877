/** Non-interference: until a tick reaches it, the crash point has no effect on anything a player can see.
    Two runs that differ only in the draw behind the published hash show the same snapshots and pay the
    same cash-outs, whatever the commands, the logins and the database do. */
module Secrecy {
  import opened Store
  import opened Multiplier
  import opened System
  import Auth
  import Fair

  /** Equal but for the crash points and salts in the round rows. */
  ghost predicate SameTables(s1: Store, s2: Store) {
    && s2 == s1.(rounds := s2.rounds, drawn := s2.drawn)
    && s1.rounds.Keys == s2.rounds.Keys
    && forall id :: id in s1.rounds ==>
         s2.rounds[id] == s1.rounds[id].(crash := s2.rounds[id].crash, salt := s2.rounds[id].salt)
  }

  ghost predicate SameSecret(w1: World, w2: World) {
    w1.eng.crash == w2.eng.crash && w1.eng.salt == w2.eng.salt
  }

  /** Equal but for a draw that has not been revealed. */
  ghost predicate LooksSame(w1: World, w2: World) {
    && w2.eng == w1.eng.(crash := w2.eng.crash, salt := w2.eng.salt)
    && w1.control == w2.control && w1.frames == w2.frames && w1.epoch == w2.epoch
    && w1.back.desk == w2.back.desk
    && SameTables(w1.back.store, w2.back.store)
    && (w1.eng.state.Crashed? || w1.eng.state.Settling? ==> SameSecret(w1, w2))
  }

  /** The step is not a tick that reaches either crash point, unless the draws are the same. */
  ghost predicate Undisclosing(env: Env, w1: World, w2: World, e: Event) {
    e.Tick? && Ready(w1, e) && !SameSecret(w1, w2) ==>
      Curve(env.g, w1.eng.ticks + 1) < w1.eng.crash && Curve(env.g, w1.eng.ticks + 1) < w2.eng.crash
  }

  ghost predicate Undisclosed(env: Env, w1: World, w2: World, es: seq<Event>)
    decreases |es|
  {
    es == [] || (Undisclosing(env, w1, w2, es[0])
                 && Undisclosed(env, Step(env, w1, es[0]), Step(env, w2, es[0]), es[1..]))
  }

  lemma OutsideLooksSame(b1: Auth.Backend, b2: Auth.Backend, e: Auth.Step)
    requires b1.desk == b2.desk && SameTables(b1.store, b2.store)
    ensures var b1', b2' := Auth.Next(b1, e), Auth.Next(b2, e);
            b1'.desk == b2'.desk && SameTables(b1'.store, b2'.store)
  {
    assert b2 == Auth.WithTables(b1, b2.store);
    Auth.LoginsIgnoreTables(b1, b2.store, e);
  }

  lemma MarkLooksSame(s1: Store, s2: Store, id: int, stage: Stage)
    requires SameTables(s1, s2)
    ensures SameTables(MarkStage(s1, id, stage), MarkStage(s2, id, stage))
  {
  }

  lemma AdjustLooksSame(w1: World, w2: World, pid: int, delta: int, ok: bool)
    requires LooksSame(w1, w2) && w1.control.InTx?
    ensures LooksSame(AfterAdjust(w1, pid, delta, ok), AfterAdjust(w2, pid, delta, ok))
  {
  }

  lemma CreateBetLooksSame(w1: World, w2: World, pid: int, ok: bool)
    requires LooksSame(w1, w2) && w1.control.InTx? && pid in w1.eng.seats
    ensures LooksSame(AfterCreateBet(w1, pid, ok), AfterCreateBet(w2, pid, ok))
  {
    assert Visible(w1) == Visible(w2);
    assert BetRow(w1.eng, pid) == BetRow(w2.eng, pid);
  }

  lemma SettleBetLooksSame(w1: World, w2: World, pid: int, ok: bool)
    requires LooksSame(w1, w2) && w1.control.InTx? && pid in w1.eng.seats
    ensures LooksSame(AfterSettleBet(w1, pid, ok), AfterSettleBet(w2, pid, ok))
  {
    assert Visible(w1) == Visible(w2);
  }

  lemma TakeoffStatementLooksSame(w1: World, w2: World, pid: int, ok: bool)
    requires LooksSame(w1, w2) && w1.control.InTx? && w1.control.kind.Takeoff?
    ensures LooksSame(AfterStatement(w1, pid, ok), AfterStatement(w2, pid, ok))
  {
    if pid in w1.eng.seats {
      AdjustLooksSame(w1, w2, pid, -w1.eng.seats[pid].amount, ok);
      CreateBetLooksSame(w1, w2, pid, ok);
    }
  }

  lemma SettlementStatementLooksSame(w1: World, w2: World, pid: int, ok: bool)
    requires LooksSame(w1, w2) && w1.control.InTx? && w1.control.kind.Settlement?
    ensures LooksSame(AfterStatement(w1, pid, ok), AfterStatement(w2, pid, ok))
  {
    if pid in w1.eng.seats {
      AdjustLooksSame(w1, w2, pid, w1.eng.seats[pid].payout, ok);
      SettleBetLooksSame(w1, w2, pid, ok);
    }
  }

  lemma CommitLooksSame(w1: World, w2: World, fate: Fate)
    requires LooksSame(w1, w2) && w1.control.Committing?
    ensures LooksSame(AfterCommit(w1, fate), AfterCommit(w2, fate))
  {
    var s1, s2 := CommitWrites(w1.back.store, w1.control.ws), CommitWrites(w2.back.store, w2.control.ws);
    assert s1.players == s2.players && s1.bets == s2.bets;
  }

  lemma TickLooksSame(env: Env, w1: World, w2: World)
    requires LooksSame(w1, w2) && Ready(w1, Tick) && Undisclosing(env, w1, w2, Tick)
    ensures LooksSame(AfterFlightTick(env, w1), AfterFlightTick(env, w2))
  {
  }

  lemma RoundLooksSame(s1: Store, s2: Store, crash1: int, salt1: string, crash2: int, salt2: string, hash: string)
    requires SameTables(s1, s2)
    ensures var t1, t2 := InsertRound(s1, crash1, salt1), InsertRound(s2, crash2, salt2);
            SameTables(t1, t2) && SameTables(PublishHash(t1, s1.nextRound, hash), PublishHash(t2, s1.nextRound, hash))
  {
  }

  lemma BroadcastLooksSame(w1: World, w2: World)
    requires LooksSame(w1, w2)
    ensures LooksSame(Broadcast(w1), Broadcast(w2))
  {
  }

  ghost predicate HashAlike(env: Env, id: int, a: Event, b: Event)
    requires a.Start? && b.Start?
  {
    && (a.endsAt, a.create, a.publish) == (b.endsAt, b.create, b.publish)
    && Fair.Commit(env.sha, id, Fair.SampleCrash(a.roll), a.salt).1
       == Fair.Commit(env.sha, id, Fair.SampleCrash(b.roll), b.salt).1
  }

  lemma FailureLooksSame(env: Env, w1: World, w2: World, a: Event, b: Event)
    requires LooksSame(w1, w2) && a.Start? && b.Start? && (a.create, a.publish) == (b.create, b.publish)
    requires !a.create.Done?
    ensures LooksSame(StartQuietly(env, w1, a), StartQuietly(env, w2, b))
  {
    var crash1, crash2 := Fair.SampleCrash(a.roll), Fair.SampleCrash(b.roll);
    StartFailsStep(env, w1, a.roll, a.salt, a.endsAt, a.create, a.publish);
    StartFailsStep(env, w2, b.roll, b.salt, b.endsAt, b.create, b.publish);
    RoundLooksSame(w1.back.store, w2.back.store, crash1, a.salt, crash2, b.salt, "");
  }

  lemma OpeningLooksSame(env: Env, w1: World, w2: World, a: Event, b: Event)
    requires LooksSame(w1, w2) && a.Start? && b.Start? && HashAlike(env, w1.back.store.nextRound, a, b)
    requires a.create.Done?
    ensures LooksSame(StartQuietly(env, w1, a), StartQuietly(env, w2, b))
  {
    var crash1, crash2 := Fair.SampleCrash(a.roll), Fair.SampleCrash(b.roll);
    var hash := Fair.Commit(env.sha, w1.back.store.nextRound, crash1, a.salt).1;
    StartOpensStep(env, w1, a.roll, a.salt, a.endsAt, a.publish, hash);
    StartOpensStep(env, w2, b.roll, b.salt, b.endsAt, b.publish, hash);
    RoundLooksSame(w1.back.store, w2.back.store, crash1, a.salt, crash2, b.salt, hash);
  }

  /** The same draw in both runs, or two draws that hash alike. */
  lemma StartLooksSame(env: Env, w1: World, w2: World, a: Event, b: Event)
    requires LooksSame(w1, w2) && w1.control.Starting? && a.Start? && b.Start?
    requires HashAlike(env, w1.back.store.nextRound, a, b)
    ensures LooksSame(Step(env, w1, a), Step(env, w2, b))
  {
    if a.create.Done? { OpeningLooksSame(env, w1, w2, a, b); } else { FailureLooksSame(env, w1, w2, a, b); }
    BroadcastLooksSame(StartQuietly(env, w1, a), StartQuietly(env, w2, b));
    StartStep(env, w1, a);
    StartStep(env, w2, b);
  }

  lemma MarkRoundLooksSame(w1: World, w2: World, fate: Fate)
    requires LooksSame(w1, w2) && w1.control.InTx?
    ensures LooksSame(AfterMark(w1, fate), AfterMark(w2, fate))
  {
    MarkLooksSame(w1.back.store, w2.back.store, w1.eng.roundId,
                  if w1.control.kind.Takeoff? then StageFlying else StageSettled);
  }

  lemma BettingOverLooksSame(w1: World, w2: World, begin: Fate)
    requires LooksSame(w1, w2) && w1.control.AtLoop?
    ensures LooksSame(AfterBetting(w1, begin), AfterBetting(w2, begin))
  {
    MarkLooksSame(w1.back.store, w2.back.store, w1.eng.roundId, StageFlying);
  }

  lemma RevealLooksSame(env: Env, w1: World, w2: World, fate: Fate)
    requires LooksSame(w1, w2) && w1.control.Revealing?
    ensures LooksSame(Step(env, w1, Reveal(fate)), Step(env, w2, Reveal(fate)))
  {
    MarkLooksSame(w1.back.store, w2.back.store, w1.eng.roundId, StageCrashed);
  }

  lemma CommandLooksSame(w1: World, w2: World, c: Command)
    requires LooksSame(w1, w2) && w1.control.AtLoop?
    ensures LooksSame(AfterCommand(w1, c), AfterCommand(w2, c))
  {
  }

  lemma StepLooksSame(env: Env, w1: World, w2: World, e: Event)
    requires LooksSame(w1, w2) && Undisclosing(env, w1, w2, e)
    ensures LooksSame(Step(env, w1, e), Step(env, w2, e))
  {
    if Ready(w1, e) {
      match e
      case Handle(c) => CommandLooksSame(w1, w2, c);
      case Tick => TickLooksSame(env, w1, w2);
      case Statement(pid, ok) =>
        if w1.control.kind.Takeoff? {
          TakeoffStatementLooksSame(w1, w2, pid, ok);
        } else {
          SettlementStatementLooksSame(w1, w2, pid, ok);
        }
      case Commit(fate) => CommitLooksSame(w1, w2, fate);
      case Start(_, _, _, _, _) => StartLooksSame(env, w1, w2, e, e);
      case Outside(step) => OutsideLooksSame(w1.back, w2.back, step);
      case BettingOver(begin) => BettingOverLooksSame(w1, w2, begin);
      case Reveal(fate) => RevealLooksSame(env, w1, w2, fate);
      case MarkRound(fate) => MarkRoundLooksSame(w1, w2, fate);
      case _ =>
    }
  }

  lemma {:induction false} RunLooksSame(env: Env, w1: World, w2: World, es: seq<Event>)
    requires LooksSame(w1, w2) && Undisclosed(env, w1, w2, es)
    ensures LooksSame(Exec(env, w1, es), Exec(env, w2, es))
    decreases |es|
  {
    if es != [] {
      StepLooksSame(env, w1, w2, es[0]);
      RunLooksSame(env, Step(env, w1, es[0]), Step(env, w2, es[0]), es[1..]);
    }
  }

  /** Two rounds opened with different draws behind the same hash are indistinguishable up to the first tick
      that reaches the smaller crash point: equal snapshots, equal seats, equal cash-outs, equal balances. */
  lemma DrawIsSecret(env: Env, w: World, roll1: nat, salt1: string, roll2: nat, salt2: string,
                     endsAt: int, create: Fate, publish: Fate, es: seq<Event>)
    requires w.control.Starting?
    requires var id := w.back.store.nextRound;
             Fair.Commit(env.sha, id, Fair.SampleCrash(roll1), salt1).1
             == Fair.Commit(env.sha, id, Fair.SampleCrash(roll2), salt2).1
    requires Undisclosed(env, Step(env, w, Start(roll1, salt1, endsAt, create, publish)),
                         Step(env, w, Start(roll2, salt2, endsAt, create, publish)), es)
    ensures var w1 := Exec(env, Step(env, w, Start(roll1, salt1, endsAt, create, publish)), es);
            var w2 := Exec(env, Step(env, w, Start(roll2, salt2, endsAt, create, publish)), es);
            && w1.frames == w2.frames && w1.eng.seats == w2.eng.seats
            && w1.back.store.players == w2.back.store.players && w1.back.store.bets == w2.back.store.bets
  {
    var a, b := Start(roll1, salt1, endsAt, create, publish), Start(roll2, salt2, endsAt, create, publish);
    StartLooksSame(env, w, w, a, b);
    RunLooksSame(env, Step(env, w, a), Step(env, w, b), es);
  }
}
