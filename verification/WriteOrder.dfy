/** The order of the durable writes (internal/engine/engine.go:194-261, 309-369): rounds only move forward,
    bets appear only once their round flies, payouts only once it is settled, and both are written once. */
module WriteOrder {
  import opened Wrappers
  import opened GoInt
  import opened Rounds
  import opened Store
  import opened Multiplier
  import opened System
  import Auth
  import Flight
  import Ledger

  /** A payout in the table is the settlement formula at some multiplier the round's flight could pay; the
      multiplier column holds that multiplier cut to 32 bits. */
  ghost predicate PaidRight(g: real, b: Bet, crash: int) {
    exists m :: PaidAt(g, b, crash, m)
  }

  ghost predicate PaidAt(g: real, b: Bet, crash: int, m: int) {
    && b.mult == Some(Int32(m)) && b.payout == Some(Payout(b.amount, m))
    && 0 < m && m as real <= g * crash as real
  }

  ghost predicate Unpaid(b: Bet) { b.payout.None? && b.mult.None? }

  ghost predicate SameStake(a: Bet, b: Bet) {
    a.round == b.round && a.player == b.player && a.amount == b.amount && a.auto == b.auto
  }

  ghost predicate BetInOrder(g: real, s: Store, b: Bet) {
    && b.round in s.rounds && b.round in s.drawn
    && Rank(s.rounds[b.round].stage) >= Rank(StageFlying)
    && (Unpaid(b) || (s.rounds[b.round].stage.StageSettled? && PaidRight(g, b, s.drawn[b.round].0)))
  }

  /** What a settlement may have changed of a durable row. */
  ghost predicate Settling(g: real, round: int, crash: int, before: Bet, after: Bet) {
    Unpaid(before) && before.round == round && SameStake(before, after)
    && (Unpaid(after) || PaidRight(g, after, crash))
  }

  datatype Opened = Nothing | Opened(kind: Kind)

  function OpenKind(c: Control): Opened {
    if c.InTx? || c.Committing? then Opened(c.kind) else Nothing
  }

  /** The durable rows, and what the open transaction sees instead. */
  ghost predicate SeenInOrder(g: real, bets: map<int, Bet>, seen: map<int, Bet>, tx: Opened, round: int, crash: int)
  {
    && (forall id :: id in bets ==> id in seen)
    && (forall id :: id in seen ==>
          if id in bets
          then seen[id] == bets[id] || (tx == Opened(Settlement) && Settling(g, round, crash, bets[id], seen[id]))
          else tx == Opened(Takeoff) && Unpaid(seen[id]) && seen[id].round == round)
  }

  ghost predicate RowsInOrder(env: Env, w: World) {
    var s := w.back.store;
    && (forall id :: id in s.bets ==> BetInOrder(env.g, s, s.bets[id]))
    && SeenInOrder(env.g, s.bets, Visible(w), OpenKind(w.control), w.eng.roundId, w.eng.crash)
  }

  /** How far the current round's row has come. */
  ghost predicate StageInOrder(w: World) {
    var e, s := w.eng, w.back.store;
    Flight.InRound(e) ==>
      && e.roundId in s.rounds && e.roundId in s.drawn && s.drawn[e.roundId].0 == e.crash
      && var stage := s.rounds[e.roundId].stage;
         match w.control
         case AtLoop => Rank(stage) <= if e.state.Betting? then 0 else if e.state.Flying? then 1 else 2
         case Revealing => Rank(stage) <= 1
         case InTx(kind, _, _, _) => Rank(stage) <= if kind.Takeoff? then 0 else 2
         case Committing(kind, _) => if kind.Takeoff? then stage.StageFlying? else stage.StageSettled?
         case Pausing => true
         case Starting(_) => true
  }

  ghost predicate Inv(env: Env, w: World) {
    && Growth(env.g)
    && Ledger.Inv(w)
    && Flight.Inv(env, w.eng)
    && RowsInOrder(env, w)
    && StageInOrder(w)
    && w.back.store.drawn.Keys == w.back.store.rounds.Keys
  }

  // ---------------------------------------------------------------- preservation

  lemma MarkRoundInOrder(env: Env, w: World, stage: Stage)
    requires Inv(env, w) && Flight.InRound(w.eng)
    requires Rank(stage) >= 1 && Rank(w.back.store.rounds[w.eng.roundId].stage) <= Rank(stage)
    requires !w.back.store.rounds[w.eng.roundId].stage.StageSettled?
    ensures RowsInOrder(env, WithStore(w, MarkStage(w.back.store, w.eng.roundId, stage)))
  {
  }

  lemma SettledRowIsRight(env: Env, e: Engine, pid: int)
    requires Growth(env.g) && Flight.Inv(env, e) && e.state.Crashed? && pid in e.seats
    ensures Settling(env.g, e.roundId, e.crash, BetRow(e, pid), Ledger.SettledRow(e, pid))
  {
    var s := e.seats[pid];
    assert Flight.SeatOk(s, e.crash, e.current, e.ticks);
    if s.cashedOut { assert PaidAt(env.g, Ledger.SettledRow(e, pid), e.crash, s.mult); }
  }

  lemma SeenAfterSettling(g: real, bets: map<int, Bet>, seen: map<int, Bet>, round: int, crash: int, id: int, row: Bet)
    requires SeenInOrder(g, bets, seen, Opened(Settlement), round, crash)
    requires id in bets && Settling(g, round, crash, bets[id], row)
    ensures SeenInOrder(g, bets, seen[id := row], Opened(Settlement), round, crash)
  {
  }

  lemma SettleBetKeeps(env: Env, w: World, pid: int)
    requires Inv(env, w) && w.control.InTx? && w.control.kind.Settlement? && pid in w.control.todo
    requires pid in w.eng.seats && AfterSettleBet(w, pid, true).control.InTx?
    ensures RowsInOrder(env, AfterSettleBet(w, pid, true))
  {
    var id, row := w.eng.seats[pid].betId, Ledger.SettledRow(w.eng, pid);
    Ledger.SettleBetShows(w, pid);
    assert Ledger.HasRow(w.eng, w.back.store.bets, pid);
    SettledRowIsRight(env, w.eng, pid);
    SeenAfterSettling(env.g, w.back.store.bets, Visible(w), w.eng.roundId, w.eng.crash, id, row);
  }

  lemma CreateBetKeeps(env: Env, w: World, pid: int)
    requires Inv(env, w) && w.control.InTx? && w.control.kind.Takeoff? && pid in w.control.todo
    requires w.control.half == Some(pid) && pid in w.eng.seats && AfterCreateBet(w, pid, true).control.InTx?
    ensures RowsInOrder(env, AfterCreateBet(w, pid, true))
  {
    Ledger.CreateBetAdds(w, pid);
  }

  lemma AdjustKeeps(env: Env, w: World, pid: int, delta: int)
    requires Inv(env, w) && w.control.InTx? && AfterAdjust(w, pid, delta, true).control.InTx?
    ensures RowsInOrder(env, AfterAdjust(w, pid, delta, true))
  {
    Ledger.BetsSnoc(w.back.store.bets, w.control.ws, Adjust(pid, delta));
  }

  /** Back to Idle with the durable rows in order. */
  lemma AbortKeeps(env: Env, w: World, s: Store)
    requires forall id :: id in s.bets ==> BetInOrder(env.g, s, s.bets[id])
    ensures RowsInOrder(env, Abort(WithStore(w, s))) && StageInOrder(Abort(WithStore(w, s)))
  {
  }

  lemma StatementKeeps(env: Env, w: World, pid: int, ok: bool)
    requires Inv(env, w) && w.control.InTx?
    ensures RowsInOrder(env, AfterStatement(w, pid, ok)) && StageInOrder(AfterStatement(w, pid, ok))
  {
    var w', c := AfterStatement(w, pid, ok), w.control;
    StatementLeaves(w, pid, ok);
    if pid !in c.todo || pid !in w.eng.seats || (c.half.Some? && c.half.value != pid) {
      assert w' == w;
    } else {
      StatementCases(env, w, pid, ok);
    }
  }

  lemma StatementCases(env: Env, w: World, pid: int, ok: bool)
    requires Inv(env, w) && w.control.InTx? && pid in w.control.todo && pid in w.eng.seats
    requires w.control.half.Some? ==> w.control.half.value == pid
    ensures RowsInOrder(env, AfterStatement(w, pid, ok)) && StageInOrder(AfterStatement(w, pid, ok))
  {
    var w', c, s := AfterStatement(w, pid, ok), w.control, w.eng.seats[pid];
    var delta := if c.kind.Takeoff? then -s.amount else s.payout;
    if w'.eng.state.Idle? {
      AbortKeeps(env, w, w.back.store);
    } else if c.half.None? && (c.kind.Takeoff? || s.cashedOut) {
      assert Ledger.HasRow(w.eng, w.back.store.bets, pid) || c.kind.Takeoff?;
      AdjustKeeps(env, w, pid, delta);
    } else if c.kind.Takeoff? {
      CreateBetKeeps(env, w, pid);
    } else {
      assert Ledger.HasRow(w.eng, w.back.store.bets, pid);
      SettleBetKeeps(env, w, pid);
    }
  }

  ghost predicate InOrder(env: Env, w: World) {
    && RowsInOrder(env, w)
    && StageInOrder(w)
    && w.back.store.drawn.Keys == w.back.store.rounds.Keys
  }

  lemma MarkKeeps(env: Env, w: World, fate: Fate)
    requires Inv(env, w) && w.control.InTx? && w.control.todo == {} && w.control.half.None?
    ensures InOrder(env, AfterMark(w, fate))
  {
    var stage := if w.control.kind.Takeoff? then StageFlying else StageSettled;
    MarkRoundInOrder(env, w, stage);
  }

  lemma CommitKeeps(env: Env, w: World, fate: Fate)
    requires Inv(env, w) && w.control.Committing?
    ensures InOrder(env, AfterCommit(w, fate))
  {
    var s' := CommitWrites(w.back.store, w.control.ws);
    forall id | id in s'.bets ensures BetInOrder(env.g, s', s'.bets[id]) {
      if id in w.back.store.bets { assert BetInOrder(env.g, w.back.store, w.back.store.bets[id]); }
    }
    AbortKeeps(env, w, s');
  }

  lemma FreshRoundKeeps(env: Env, w: World, w': World)
    requires Inv(env, w) && w.control.Starting? && w'.control.AtLoop?
    requires w'.eng.state.Betting? || w'.eng.state.Idle?
    requires var s, s' := w.back.store, w'.back.store;
             && s' == s.(rounds := s'.rounds, nextRound := s'.nextRound, drawn := s'.drawn)
             && (s' == s
                 || exists salt ::
                      && s'.drawn == s.drawn[s.nextRound := (w'.eng.crash, salt)]
                      && s.nextRound in s'.rounds && s'.rounds == s.rounds[s.nextRound := s'.rounds[s.nextRound]])
             && (w'.eng.state.Betting? ==>
                   s' != s && w'.eng.roundId == s.nextRound && s'.rounds[s.nextRound].stage.StageBetting?)
    ensures InOrder(env, w')
  {
    var s, s' := w.back.store, w'.back.store;
    forall id | id in s'.bets ensures BetInOrder(env.g, s', s'.bets[id]) {
      assert BetInOrder(env.g, s, s.bets[id]);
    }
  }

  lemma StartKeeps(env: Env, w: World, roll: nat, salt: string, endsAt: int, create: Fate, publish: Fate,
                   announce: bool)
    requires Inv(env, w) && w.control.Starting?
    ensures InOrder(env, AfterStart(env, w, roll, salt, endsAt, create, publish, announce))
  {
    StartLeaves(env, w, roll, salt, endsAt, create, publish, announce);
    StartStores(env, w, roll, salt, endsAt, create, publish, announce);
    FreshRoundKeeps(env, w, AfterStart(env, w, roll, salt, endsAt, create, publish, announce));
  }

  lemma BettingOverKeeps(env: Env, w: World, begin: Fate)
    requires Inv(env, w) && w.control.AtLoop? && w.eng.state.Betting?
    ensures InOrder(env, AfterBetting(w, begin))
  {
    MarkRoundInOrder(env, w, StageFlying);
    if w.eng.seats != map[] && !begin.Done? { AbortKeeps(env, w, w.back.store); }
  }

  lemma RevealKeeps(env: Env, w: World, fate: Fate)
    requires Inv(env, w) && w.control.Revealing?
    ensures InOrder(env, Step(env, w, Reveal(fate)))
  {
    MarkRoundInOrder(env, w, StageCrashed);
  }

  lemma OutsideKeeps(env: Env, w: World, e: Auth.Step)
    requires Inv(env, w)
    ensures InOrder(env, Step(env, w, Outside(e)))
  {
    Ledger.OutsideTouches(w.back, e);
    var s, s' := w.back.store, Auth.Next(w.back, e).store;
    forall id | id in s'.bets ensures BetInOrder(env.g, s', s'.bets[id]) {
      assert BetInOrder(env.g, s, s.bets[id]);
    }
  }

  /** Commands and ticks do not touch the database. */
  lemma EngineOnlyKeeps(env: Env, w: World, e: Event)
    requires Inv(env, w) && Ready(w, e)
    requires e.Handle? || e.Tick? || e.Announce? || e.BeginSettle? || e.PauseOver? || e.ProcessCrash?
    ensures InOrder(env, Step(env, w, e))
  {
    var w' := Step(env, w, e);
    assert w'.back.store == w.back.store && Visible(w') == w.back.store.bets;
  }

  lemma StepKeeps(env: Env, w: World, e: Event)
    requires Inv(env, w)
    ensures Inv(env, Step(env, w, e))
  {
    Ledger.StepKeeps(env, w, e);
    Flight.StepKeeps(env, w, e);
    if Ready(w, e) {
      match e
      case Outside(step) => OutsideKeeps(env, w, step);
      case Statement(pid, ok) => StatementKeeps(env, w, pid, ok);
        StatementStores(w, pid, ok);
      case MarkRound(fate) => MarkKeeps(env, w, fate);
      case Commit(fate) => CommitKeeps(env, w, fate);
      case Start(roll, salt, endsAt, create, publish) =>
        StartKeeps(env, w, roll, salt, endsAt, create, publish, w.control.announce);
      case BettingOver(begin) => BettingOverKeeps(env, w, begin);
      case Reveal(fate) => RevealKeeps(env, w, fate);
      case _ => EngineOnlyKeeps(env, w, e);
    }
  }

  lemma {:induction false} RunKeeps(env: Env, w: World, es: seq<Event>)
    requires Inv(env, w)
    ensures Inv(env, Exec(env, w, es))
    decreases |es|
  {
    if es != [] {
      StepKeeps(env, w, es[0]);
      RunKeeps(env, Step(env, w, es[0]), es[1..]);
    }
  }

  // ---------------------------------------------------------------- main results

  /** Write order. In every reachable state a bet row belongs to a round that is at least flying; one with a
      payout belongs to a settled round, and was paid by the settlement formula at a multiplier the round's
      flight could reach. */
  lemma BetsFollowRounds(env: Env, es: seq<Event>, id: int)
    requires Growth(env.g)
    ensures var s := Exec(env, INIT, es).back.store;
            id in s.bets ==>
              && s.bets[id].round in s.rounds && s.bets[id].round in s.drawn
              && Rank(s.rounds[s.bets[id].round].stage) >= Rank(StageFlying)
              && (s.bets[id].payout.Some? ==>
                    && s.rounds[s.bets[id].round].stage.StageSettled?
                    && PaidRight(env.g, s.bets[id], s.drawn[s.bets[id].round].0))
  {
    RunKeeps(env, INIT, es);
  }

  /** No multiplier of the round exceeds the 32-bit column. */
  ghost predicate FitsColumn(g: real, s: Store, round: int) {
    round in s.drawn && g * s.drawn[round].0 as real < INT32_LIMIT as real
  }

  lemma PaidInColumn(g: real, b: Bet, crash: int)
    requires PaidRight(g, b, crash) && g * crash as real < INT32_LIMIT as real
    ensures b.mult.Some? && b.payout == Some(Payout(b.amount, b.mult.value))
  {
    var m :| PaidAt(g, b, crash, m);
    assert m as real < INT32_LIMIT as real;
    Int32Exact(m);
  }

  /** Where the multiplier fits its column, the stored payout is the formula on the stored multiplier. */
  lemma StoredPayout(env: Env, es: seq<Event>, id: int)
    requires Growth(env.g)
    ensures var s := Exec(env, INIT, es).back.store;
            id in s.bets && s.bets[id].payout.Some? && FitsColumn(env.g, s, s.bets[id].round) ==>
              s.bets[id].mult.Some? && s.bets[id].payout == Some(Payout(s.bets[id].amount, s.bets[id].mult.value))
  {
    BetsFollowRounds(env, es, id);
    var s := Exec(env, INIT, es).back.store;
    if id in s.bets && s.bets[id].payout.Some? && FitsColumn(env.g, s, s.bets[id].round) {
      PaidInColumn(env.g, s.bets[id], s.drawn[s.bets[id].round].0);
    }
  }

  /** From one state to a later one: no bet row is lost or restaked, a written payout never changes, no round
      row is lost or moves back, and its hash, crash point and salt stay as they are. */
  ghost predicate Advances(s: Store, s': Store) {
    && (forall id :: id in s.bets ==>
          id in s'.bets && SameStake(s.bets[id], s'.bets[id])
          && (s.bets[id].payout.Some? ==> s'.bets[id] == s.bets[id]))
    && (forall id :: id in s.rounds ==>
          && id in s'.rounds && Rank(s.rounds[id].stage) <= Rank(s'.rounds[id].stage)
          && s'.rounds[id].commitHash == s.rounds[id].commitHash
          && s'.rounds[id].crash == s.rounds[id].crash && s'.rounds[id].salt == s.rounds[id].salt)
  }

  lemma CommitAdvances(env: Env, w: World, fate: Fate)
    requires Inv(env, w) && w.control.Committing?
    ensures Advances(w.back.store, AfterCommit(w, fate).back.store)
  {
  }

  lemma MarkAdvances(s: Store, round: int, stage: Stage)
    requires round in s.rounds && Rank(s.rounds[round].stage) <= Rank(stage)
    ensures Advances(s, MarkStage(s, round, stage))
  {
  }

  lemma MarkRoundAdvances(env: Env, w: World, fate: Fate)
    requires Inv(env, w) && w.control.InTx?
    ensures Advances(w.back.store, AfterMark(w, fate).back.store)
  {
    MarkAdvances(w.back.store, w.eng.roundId, if w.control.kind.Takeoff? then StageFlying else StageSettled);
  }

  lemma BettingOverAdvances(env: Env, w: World, begin: Fate)
    requires Inv(env, w) && w.control.AtLoop? && w.eng.state.Betting?
    ensures Advances(w.back.store, AfterBetting(w, begin).back.store)
  {
    MarkAdvances(w.back.store, w.eng.roundId, StageFlying);
  }

  lemma RevealAdvances(env: Env, w: World, fate: Fate)
    requires Inv(env, w) && w.control.Revealing?
    ensures Advances(w.back.store, Step(env, w, Reveal(fate)).back.store)
  {
    MarkAdvances(w.back.store, w.eng.roundId, StageCrashed);
  }

  lemma StartAdvances(env: Env, w: World, e: Event)
    requires Inv(env, w) && Ready(w, e) && e.Start?
    ensures Advances(w.back.store, Step(env, w, e).back.store)
  {
    StartStores(env, w, e.roll, e.salt, e.endsAt, e.create, e.publish, w.control.announce);
    var s, s' := w.back.store, Step(env, w, e).back.store;
    assert s.nextRound !in s.rounds && s'.bets == s.bets;
  }

  lemma StepAdvances(env: Env, w: World, e: Event)
    requires Inv(env, w)
    ensures Advances(w.back.store, Step(env, w, e).back.store)
  {
    if Ready(w, e) {
      match e
      case Outside(step) => Ledger.OutsideTouches(w.back, step);
      case Statement(pid, ok) => StatementStores(w, pid, ok);
      case Start(_, _, _, _, _) => StartAdvances(env, w, e);
      case Commit(fate) => CommitAdvances(env, w, fate);
      case MarkRound(fate) => MarkRoundAdvances(env, w, fate);
      case BettingOver(begin) => BettingOverAdvances(env, w, begin);
      case Reveal(fate) => RevealAdvances(env, w, fate);
      case _ => assert Step(env, w, e).back.store == w.back.store;
    }
  }

  /** Settled once: over any continuation of any run, rows and stages only advance; so a bet is credited at
      most once and a round's stage never goes back. */
  lemma {:induction false} RunAdvances(env: Env, w: World, es: seq<Event>)
    requires Inv(env, w)
    ensures Advances(w.back.store, Exec(env, w, es).back.store)
    decreases |es|
  {
    if es != [] {
      StepKeeps(env, w, es[0]);
      StepAdvances(env, w, es[0]);
      RunAdvances(env, Step(env, w, es[0]), es[1..]);
    }
  }

  // ---------------------------------------------------------------- lost payouts

  /** The row's round is no longer the engine's. */
  ghost predicate Abandoned(w: World, id: int) {
    && id in w.back.store.bets && Unpaid(w.back.store.bets[id])
    && !(Flight.InRound(w.eng) && w.eng.roundId == w.back.store.bets[id].round)
  }

  /** Where a step leaves the current round: in it, out of it, or in a new one with an unused id. */
  lemma RoundAfter(env: Env, w: World, e: Event)
    requires Inv(env, w)
    ensures var e0, e1 := w.eng, Step(env, w, e).eng;
            Flight.InRound(e1) ==>
              (Flight.InRound(e0) && e1.roundId == e0.roundId) || e1.roundId == w.back.store.nextRound
  {
    if Ready(w, e) {
      match e
      case Statement(pid, ok) => StatementLeaves(w, pid, ok);
      case Start(roll, salt, endsAt, create, publish) =>
        StartLeaves(env, w, roll, salt, endsAt, create, publish, w.control.announce);
        StartStores(env, w, roll, salt, endsAt, create, publish, w.control.announce);
      case _ =>
    }
  }

  lemma CommitLeavesAbandoned(env: Env, w: World, fate: Fate, id: int)
    requires Inv(env, w) && Abandoned(w, id) && w.control.Committing?
    ensures AfterCommit(w, fate).back.store.bets[id] == w.back.store.bets[id]
  {
  }

  lemma StepSparesRow(env: Env, w: World, e: Event, id: int)
    requires Inv(env, w) && Abandoned(w, id)
    ensures var s' := Step(env, w, e).back.store; id in s'.bets && s'.bets[id] == w.back.store.bets[id]
  {
    if Ready(w, e) {
      match e
      case Outside(step) => Ledger.OutsideTouches(w.back, step);
      case Statement(pid, ok) => StatementStores(w, pid, ok);
      case Start(_, _, _, _, _) => StartSparesBets(env, w, e);
      case Commit(fate) =>
        CommitAdvances(env, w, fate);
        CommitLeavesAbandoned(env, w, fate, id);
      case _ => PlainSparesBets(env, w, e);
    }
  }

  lemma StartSparesBets(env: Env, w: World, e: Event)
    requires e.Start? && Ready(w, e)
    ensures Step(env, w, e).back.store.bets == w.back.store.bets
  {
    StartStores(env, w, e.roll, e.salt, e.endsAt, e.create, e.publish, w.control.announce);
  }

  lemma PlainSparesBets(env: Env, w: World, e: Event)
    requires !e.Outside? && !e.Statement? && !e.Start? && !e.Commit?
    ensures Step(env, w, e).back.store.bets == w.back.store.bets
  {
  }

  lemma StepLeavesAbandoned(env: Env, w: World, e: Event, id: int)
    requires Inv(env, w) && Abandoned(w, id)
    ensures Abandoned(Step(env, w, e), id)
  {
    RoundAfter(env, w, e);
    StepSparesRow(env, w, e, id);
  }

  /** A bet left unpaid when the engine has given its round up, or the process has died, is never paid: no
      later step of any run touches the row again, settled or not. */
  lemma {:induction false} UnpaidForGood(env: Env, w: World, es: seq<Event>, id: int)
    requires Inv(env, w) && Abandoned(w, id)
    ensures var s := Exec(env, w, es).back.store; id in s.bets && s.bets[id] == w.back.store.bets[id]
    decreases |es|
  {
    if es != [] {
      StepKeeps(env, w, es[0]);
      StepSparesRow(env, w, es[0], id);
      StepLeavesAbandoned(env, w, es[0], id);
      UnpaidForGood(env, Step(env, w, es[0]), es[1..], id);
    }
  }
}
