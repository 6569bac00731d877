/** What the two transactions move, and when balances stay above zero. The engine checks neither the amount
    nor the target of a bet (internal/engine/engine.go:400-413); the client does, against a balance it has
    cached (internal/tui/bet.go:92-108). So solvency is conditional on the bets the engine is sent. */
module Solvency {
  import opened Wrappers
  import opened GoInt
  import opened Rounds
  import opened Store
  import opened Multiplier
  import opened System
  import Auth
  import Flight
  import Ledger
  import Stakes
  import WriteOrder

  // ---------------------------------------------------------------- what a transaction moves

  /** The balance change a transaction owes a player once it has come to the player's seat. */
  function Due(e: Engine, kind: Kind, pid: int): int {
    if pid !in e.seats then 0
    else if kind.Takeoff? then -e.seats[pid].amount
    else if e.seats[pid].cashedOut then e.seats[pid].payout else 0
  }

  ghost predicate DeltasDue(w: World) {
    match w.control
    case InTx(kind, ws, todo, half) =>
      forall pid :: Delta(ws, pid) == if pid in todo && half != Some(pid) then 0 else Due(w.eng, kind, pid)
    case Committing(kind, ws) => forall pid :: Delta(ws, pid) == Due(w.eng, kind, pid)
    case _ => true
  }

  ghost predicate Inv(env: Env, w: World) { WriteOrder.Inv(env, w) && DeltasDue(w) }

  lemma AppendedDelta(ws: seq<Write>, ws': seq<Write>)
    requires |ws'| == |ws| + 1 && ws' == ws + [ws'[|ws|]]
    ensures forall pid :: Delta(ws', pid)
              == Delta(ws, pid) + if ws'[|ws|].Adjust? && ws'[|ws|].pid == pid then ws'[|ws|].delta else 0
  {
    forall pid ensures Delta(ws', pid)
              == Delta(ws, pid) + if ws'[|ws|].Adjust? && ws'[|ws|].pid == pid then ws'[|ws|].delta else 0
    {
      Ledger.DeltaSnoc(ws, ws'[|ws|], pid);
    }
  }

  lemma AdjustDeltas(w: World, pid: int, ok: bool)
    requires DeltasDue(w) && w.control.InTx? && w.control.half.None? && pid in w.control.todo && pid in w.eng.seats
    requires w.control.kind.Settlement? ==> w.eng.seats[pid].cashedOut
    ensures DeltasDue(AfterAdjust(w, pid, if w.control.kind.Takeoff? then -w.eng.seats[pid].amount
                                          else w.eng.seats[pid].payout, ok))
  {
    var due := Due(w.eng, w.control.kind, pid);
    if ok && pid in w.back.store.players {
      AppendedDelta(w.control.ws, AfterAdjust(w, pid, due, ok).control.ws);
    }
  }

  lemma CreateBetDeltas(w: World, pid: int, ok: bool)
    requires DeltasDue(w) && w.control.InTx? && w.control.half == Some(pid) && pid in w.eng.seats
    requires w.control.kind.Takeoff?
    ensures DeltasDue(AfterCreateBet(w, pid, ok))
  {
    var w' := AfterCreateBet(w, pid, ok);
    if w'.control.InTx? { AppendedDelta(w.control.ws, w'.control.ws); }
  }

  lemma SettleBetDeltas(w: World, pid: int, ok: bool)
    requires DeltasDue(w) && w.control.InTx? && w.control.kind.Settlement? && pid in w.eng.seats
    requires w.control.half == if w.eng.seats[pid].cashedOut then Some(pid) else None
    ensures DeltasDue(AfterSettleBet(w, pid, ok))
  {
    var w' := AfterSettleBet(w, pid, ok);
    if w'.control.InTx? { AppendedDelta(w.control.ws, w'.control.ws); }
  }

  lemma StatementDeltas(env: Env, w: World, pid: int, ok: bool)
    requires Inv(env, w) && w.control.InTx?
    ensures DeltasDue(AfterStatement(w, pid, ok))
  {
    var c := w.control;
    if pid in c.todo && pid in w.eng.seats && !(c.half.Some? && c.half.value != pid) {
      if c.half.None? && (c.kind.Takeoff? || w.eng.seats[pid].cashedOut) {
        assert c.kind.Settlement? ==> Ledger.HasRow(w.eng, w.back.store.bets, pid);
        AdjustDeltas(w, pid, ok);
      } else if c.kind.Takeoff? {
        CreateBetDeltas(w, pid, ok);
      } else {
        assert Ledger.HasRow(w.eng, w.back.store.bets, pid);
        SettleBetDeltas(w, pid, ok);
      }
    }
  }

  lemma PlainDeltas(env: Env, w: World, e: Event)
    requires DeltasDue(w) && Ready(w, e) && !e.Statement? && !e.Start?
    ensures DeltasDue(Step(env, w, e))
  {
  }

  lemma StepKeeps(env: Env, w: World, e: Event)
    requires Inv(env, w)
    ensures Inv(env, Step(env, w, e))
  {
    WriteOrder.StepKeeps(env, w, e);
    if Ready(w, e) {
      match e
      case Statement(pid, ok) => StatementDeltas(env, w, pid, ok);
      case Start(roll, salt, endsAt, create, publish) =>
        StartStores(env, w, roll, salt, endsAt, create, publish, w.control.announce);
      case _ => PlainDeltas(env, w, e);
    }
  }

  lemma {:induction false} RunKeeps(env: Env, w: World, es: seq<Event>)
    requires Inv(env, w)
    ensures Inv(env, Exec(env, w, es))
    decreases |es|
  {
    if es != [] {
      StepKeeps(env, w, es[0]);
      RunKeeps(env, Step(env, w, es[0]), es[1..]);
    }
  }

  /** The row of a seat once its transaction is through. */
  function RowOnceCommitted(w: World, pid: int): Bet
    requires w.control.Committing? && pid in w.eng.seats
  {
    if w.control.kind.Takeoff? then BetRow(w.eng, pid) else Ledger.SettledRow(w.eng, pid)
  }

  /** What a COMMIT moves, whatever is reported of it. Unless it failed, a takeoff debits every participant the
      stake and nobody else, a settlement credits every cashed-out participant the payout and nobody else, and
      each seat has its row. If it failed, no balance and no bet row has changed. */
  lemma CommitMoves(env: Env, w: World, fate: Fate)
    requires Inv(env, w) && w.control.Committing?
    ensures var s, s' := w.back.store, AfterCommit(w, fate).back.store;
            && s'.players.Keys == s.players.Keys
            && (forall pid :: pid in s.players ==>
                  s'.players[pid].balance
                  == s.players[pid].balance + if fate.Failed? then 0 else Due(w.eng, w.control.kind, pid))
            && (fate.Failed? ==> s'.bets == s.bets)
            && (!fate.Failed? ==> forall pid :: pid in w.eng.seats ==>
                  && w.eng.seats[pid].betId in s'.bets
                  && s'.bets[w.eng.seats[pid].betId] == RowOnceCommitted(w, pid))
  {
    if !fate.Failed? {
      var s' := AfterCommit(w, fate).back.store;
      assert s'.bets == Visible(w);
      forall pid | pid in w.eng.seats
        ensures w.eng.seats[pid].betId in s'.bets
        ensures s'.bets[w.eng.seats[pid].betId] == RowOnceCommitted(w, pid)
      {
        if w.control.kind.Takeoff? {
          assert Ledger.HasRow(w.eng, Visible(w), pid);
        } else {
          assert Ledger.HasSettledRow(w.eng, Visible(w), pid);
        }
      }
    }
  }

  /** A round marked 'settled' has its payouts if and only if the commit after the mark did not fail: the mark
      is written first, and outside the transaction. */
  lemma SettledIsPaidIff(env: Env, w: World, fate: Fate, pid: int)
    requires Inv(env, w) && w.control.Committing? && w.control.kind.Settlement?
    requires pid in w.eng.seats && w.eng.seats[pid].cashedOut
    ensures var s', id := AfterCommit(w, fate).back.store, w.eng.seats[pid].betId;
            && w.eng.roundId in s'.rounds && s'.rounds[w.eng.roundId].stage.StageSettled?
            && id in s'.bets && s'.bets[id].round == w.eng.roundId && s'.bets[id].player == pid
            && (s'.bets[id].payout.Some? <==> !fate.Failed?)
  {
    CommitMoves(env, w, fate);
    assert Ledger.HasRow(w.eng, w.back.store.bets, pid);
  }

  /** In the settle pause every seat has its final row. */
  ghost predicate PaidInPause(w: World) {
    w.control.Pausing? ==>
      forall pid :: pid in w.eng.seats ==> Ledger.HasSettledRow(w.eng, w.back.store.bets, pid)
  }

  lemma StepKeepsPaid(env: Env, w: World, e: Event)
    requires Inv(env, w) && PaidInPause(w)
    ensures PaidInPause(Step(env, w, e))
  {
    if Ready(w, e) {
      match e
      case Commit(fate) => CommitMoves(env, w, fate);
      case Outside(step) => Ledger.OutsideTouches(w.back, step);
      case Statement(pid, ok) => StatementStores(w, pid, ok);
      case Start(roll, salt, endsAt, create, publish) =>
        StartStores(env, w, roll, salt, endsAt, create, publish, w.control.announce);
      case _ =>
    }
  }

  lemma {:induction false} RunKeepsPaid(env: Env, w: World, es: seq<Event>)
    requires Inv(env, w) && PaidInPause(w)
    ensures Inv(env, Exec(env, w, es)) && PaidInPause(Exec(env, w, es))
    decreases |es|
  {
    if es != [] {
      StepKeeps(env, w, es[0]);
      StepKeepsPaid(env, w, es[0]);
      RunKeepsPaid(env, Step(env, w, es[0]), es[1..]);
    }
  }

  lemma PaidRowStays(env: Env, w: World, more: seq<Event>, id: int)
    requires WriteOrder.Inv(env, w) && id in w.back.store.bets && w.back.store.bets[id].payout.Some?
    ensures var bets := Exec(env, w, more).back.store.bets; id in bets && bets[id] == w.back.store.bets[id]
  {
    WriteOrder.RunAdvances(env, w, more);
  }

  /** Paid for good. Whenever a run reaches the settle pause, every player who cashed out has the payout in the
      bet row, and it is there after any continuation of the run. */
  lemma PaidForGood(env: Env, es: seq<Event>, more: seq<Event>, pid: int)
    requires Growth(env.g)
    ensures var w := Exec(env, INIT, es);
            var s := Exec(env, w, more).back.store;
            w.control.Pausing? && pid in w.eng.seats && w.eng.seats[pid].cashedOut ==>
              var id := w.eng.seats[pid].betId;
              id in s.bets && s.bets[id].player == pid && s.bets[id].payout == Some(w.eng.seats[pid].payout)
  {
    RunKeepsPaid(env, INIT, es);
    var w := Exec(env, INIT, es);
    if w.control.Pausing? && pid in w.eng.seats && w.eng.seats[pid].cashedOut {
      assert Ledger.HasSettledRow(w.eng, w.back.store.bets, pid);
      PaidRowStays(env, w, more, w.eng.seats[pid].betId);
    }
  }

  // ---------------------------------------------------------------- what a paid row says

  lemma PaidRowIff(env: Env, e: Engine, pid: int)
    requires Growth(env.g) && Flight.Inv(env, e) && Flight.InRound(e) && pid in e.seats && e.seats[pid].cashedOut
    requires e.seats[pid].amount > 0 && Stakes.Fits(env.g, e.seats[pid].amount)
    ensures var b := Ledger.SettledRow(e, pid);
            && b.mult.Some? && b.payout == Some(e.seats[pid].payout)
            && (b.payout == Some(Payout(b.amount, b.mult.value)) <==> e.seats[pid].mult < INT32_LIMIT)
  {
    assert Flight.SeatOk(e.seats[pid], e.crash, e.current, e.ticks);
    Flight.CurrentBounded(env, e);
    Stakes.NarrowedPayoutIff(env.g, e.seats[pid].amount, e.seats[pid].mult);
  }

  /** However a payout gets into the table, and whatever happens after: the row's payout is the formula on the
      row's multiplier if and only if the multiplier that was paid is below 2^31. */
  lemma StoredPayoutIff(env: Env, es: seq<Event>, fate: Fate, more: seq<Event>, pid: int)
    requires Growth(env.g) && !fate.Failed?
    requires var w := Exec(env, INIT, es);
             && w.control.Committing? && w.control.kind.Settlement? && pid in w.eng.seats && w.eng.seats[pid].cashedOut
             && w.eng.seats[pid].amount > 0 && Stakes.Fits(env.g, w.eng.seats[pid].amount)
    ensures var seat := Exec(env, INIT, es).eng.seats[pid];
            var bets := Exec(env, Exec(env, INIT, es + [Commit(fate)]), more).back.store.bets;
            && seat.betId in bets && bets[seat.betId].payout == Some(seat.payout) && bets[seat.betId].mult.Some?
            && (bets[seat.betId].payout == Some(Payout(bets[seat.betId].amount, bets[seat.betId].mult.value))
                <==> seat.mult < INT32_LIMIT)
  {
    var w := Exec(env, INIT, es);
    RunKeeps(env, INIT, es);
    StepKeeps(env, w, Commit(fate));
    ExecSnoc(env, INIT, es, Commit(fate));
    PaidRowWritten(env, w, fate, pid);
    PaidRowStays(env, Step(env, w, Commit(fate)), more, w.eng.seats[pid].betId);
    PaidRowIff(env, w.eng, pid);
  }

  lemma PaidRowWritten(env: Env, w: World, fate: Fate, pid: int)
    requires Inv(env, w) && w.control.Committing? && w.control.kind.Settlement? && !fate.Failed?
    requires pid in w.eng.seats && w.eng.seats[pid].cashedOut
    ensures var bets, id := Step(env, w, Commit(fate)).back.store.bets, w.eng.seats[pid].betId;
            id in bets && bets[id] == Ledger.SettledRow(w.eng, pid)
  {
    CommitStep(env, w, fate);
    CommitMoves(env, w, fate);
  }

  // ---------------------------------------------------------------- conditional solvency

  /** A bet the client's own checks let through against the durable balance. */
  ghost predicate Sound(g: real, s: Store, pid: int, amount: int, auto: int)
    requires Growth(g)
  {
    && pid in s.players && 0 < amount <= s.players[pid].balance && Stakes.Fits(g, amount)
    && (auto <= 0 || auto >= 101)
  }

  /** Every bet the engine accepts in the course of the run is sound when it is handled. */
  ghost predicate SoundBets(env: Env, w: World, es: seq<Event>)
    requires Growth(env.g)
    decreases |es|
  {
    es == [] || (SoundBet(env, w, es[0]) && SoundBets(env, Step(env, w, es[0]), es[1..]))
  }

  ghost predicate SoundBet(env: Env, w: World, e: Event)
    requires Growth(env.g)
  {
    e.Handle? && e.cmd.PlaceBet? && Ready(w, e) && MayBet(w.eng, e.cmd.pid) ==>
      Sound(env.g, w.back.store, e.cmd.pid, e.cmd.amount, e.cmd.auto)
  }

  ghost predicate SeatsSound(env: Env, w: World)
    requires Growth(env.g)
  {
    Flight.InRound(w.eng) ==>
      forall pid :: pid in w.eng.seats ==>
        var s := w.eng.seats[pid];
        && 0 < s.amount && Stakes.Fits(env.g, s.amount) && (s.auto <= 0 || s.auto >= 101)
        && (w.eng.state.Betting? ==> pid in w.back.store.players && s.amount <= w.back.store.players[pid].balance)
  }

  ghost predicate Solvent(s: Store) {
    forall pid :: pid in s.players ==> s.players[pid].balance >= 0
  }

  ghost predicate PaysStake(bets: map<int, Bet>) {
    forall id :: id in bets && bets[id].payout.Some? ==> bets[id].payout.value >= bets[id].amount > 0
  }

  /** What solvency rests on besides the two transactions' invariant. */
  ghost predicate Sums(env: Env, w: World)
    requires Growth(env.g)
  {
    SeatsSound(env, w) && Solvent(w.back.store) && PaysStake(w.back.store.bets) && PaysStake(Visible(w))
  }

  ghost predicate SolvInv(env: Env, w: World) { Inv(env, w) && Sums(env, w) }

  lemma CashedOutPaysStake(env: Env, w: World, pid: int)
    requires Inv(env, w) && SeatsSound(env, w) && Flight.InRound(w.eng)
    requires pid in w.eng.seats && w.eng.seats[pid].cashedOut
    ensures w.eng.seats[pid].payout >= w.eng.seats[pid].amount > 0
  {
    var s := w.eng.seats[pid];
    assert Flight.SeatOk(s, w.eng.crash, w.eng.current, w.eng.ticks);
    Flight.CurrentBounded(env, w.eng);
    Stakes.FitsBelowTop(env.g, s.amount, s.mult);
    PayoutMonotone(s.amount, 100, s.mult);
  }

  lemma CommitSolvent(env: Env, w: World, fate: Fate)
    requires SolvInv(env, w) && w.control.Committing?
    ensures Solvent(AfterCommit(w, fate).back.store)
  {
    var s, s' := w.back.store, CommitWrites(w.back.store, w.control.ws);
    forall pid | pid in s.players ensures s'.players[pid].balance >= 0 {
      assert Delta(w.control.ws, pid) == Due(w.eng, w.control.kind, pid);
      if pid in w.eng.seats && w.eng.seats[pid].cashedOut { CashedOutPaysStake(env, w, pid); }
    }
  }

  lemma SettledRowPays(env: Env, w: World, pid: int)
    requires Inv(env, w) && SeatsSound(env, w) && Flight.InRound(w.eng) && pid in w.eng.seats
    ensures var b := Ledger.SettledRow(w.eng, pid); b.payout.Some? ==> b.payout.value >= b.amount > 0
  {
    if w.eng.seats[pid].cashedOut { CashedOutPaysStake(env, w, pid); }
  }

  lemma SettleBetPays(env: Env, w: World, pid: int, ok: bool)
    requires SolvInv(env, w) && w.control.InTx? && w.control.kind.Settlement?
    requires pid in w.control.todo && pid in w.eng.seats
    ensures var w' := AfterSettleBet(w, pid, ok); w'.control.InTx? ==> PaysStake(Visible(w'))
  {
    var w', ws := AfterSettleBet(w, pid, ok), w.control.ws;
    if w'.control.InTx? {
      Ledger.BetsSnoc(w.back.store.bets, ws, w'.control.ws[|ws|]);
      assert Ledger.HasRow(w.eng, Visible(w), pid);
      assert Visible(w') == Visible(w)[w.eng.seats[pid].betId := Ledger.SettledRow(w.eng, pid)];
      SettledRowPays(env, w, pid);
    }
  }

  lemma AppendedPays(bets: map<int, Bet>, ws: seq<Write>, write: Write)
    requires PaysStake(BetsAfter(bets, ws)) && !write.SettleBet?
    requires write.InsertBet? ==> write.bet.payout.None?
    ensures PaysStake(BetsAfter(bets, ws + [write]))
  {
    Ledger.BetsSnoc(bets, ws, write);
  }

  lemma TakeoffPays(w: World, pid: int, ok: bool)
    requires w.control.InTx? && w.control.kind.Takeoff? && pid in w.control.todo && pid in w.eng.seats
    requires PaysStake(Visible(w)) && PaysStake(w.back.store.bets)
    ensures PaysStake(Visible(AfterStatement(w, pid, ok)))
  {
    var w', c := AfterStatement(w, pid, ok), w.control;
    if w'.control.InTx? && |w'.control.ws| > |c.ws| {
      AppendedPays(w.back.store.bets, c.ws, w'.control.ws[|c.ws|]);
    }
  }

  lemma SettlementStatementPays(env: Env, w: World, pid: int, ok: bool)
    requires SolvInv(env, w) && w.control.InTx? && w.control.kind.Settlement?
    requires pid in w.control.todo && pid in w.eng.seats && !(w.control.half.Some? && w.control.half.value != pid)
    ensures PaysStake(Visible(AfterStatement(w, pid, ok)))
  {
    var s := w.eng.seats[pid];
    if s.cashedOut && w.control.half.None? && s.betId != 0 {
      if ok { AppendedPays(w.back.store.bets, w.control.ws, Adjust(pid, s.payout)); }
    } else if s.betId != 0 {
      SettleBetPays(env, w, pid, ok);
    }
  }

  lemma StatementPays(env: Env, w: World, pid: int, ok: bool)
    requires SolvInv(env, w) && w.control.InTx?
    ensures PaysStake(Visible(AfterStatement(w, pid, ok)))
  {
    var c := w.control;
    if pid in c.todo && pid in w.eng.seats && !(c.half.Some? && c.half.value != pid) {
      if c.kind.Takeoff? { TakeoffPays(w, pid, ok); } else { SettlementStatementPays(env, w, pid, ok); }
    } else {
      assert AfterStatement(w, pid, ok) == w;
    }
  }

  lemma StatementSeats(env: Env, w: World, pid: int, ok: bool)
    requires Growth(env.g) && SeatsSound(env, w) && w.control.InTx?
    ensures SeatsSound(env, AfterStatement(w, pid, ok))
  {
    StatementLeaves(w, pid, ok);
    StatementStores(w, pid, ok);
  }

  lemma StartSolvent(env: Env, w: World, e: Event)
    requires Growth(env.g) && Sums(env, w) && Ready(w, e) && e.Start?
    ensures Sums(env, Step(env, w, e))
  {
    StartLeaves(env, w, e.roll, e.salt, e.endsAt, e.create, e.publish, w.control.announce);
    StartStores(env, w, e.roll, e.salt, e.endsAt, e.create, e.publish, w.control.announce);
  }

  lemma CommandSolvent(env: Env, w: World, c: Command)
    requires Growth(env.g) && Sums(env, w) && SoundBet(env, w, Handle(c)) && w.control.AtLoop?
    ensures Sums(env, AfterCommand(w, c))
  {
    var w' := AfterCommand(w, c);
    assert w'.back == w.back && Visible(w') == w.back.store.bets;
  }

  lemma TickSolvent(env: Env, w: World)
    requires Growth(env.g) && Sums(env, w) && w.control.AtLoop? && w.eng.state.Flying?
    ensures Sums(env, AfterFlightTick(env, w))
  {
    var w' := AfterFlightTick(env, w);
    assert w'.back == w.back && Visible(w') == Visible(w) == w.back.store.bets;
  }

  lemma RestartSolvent(env: Env, w: World)
    requires Growth(env.g) && Sums(env, w)
    ensures Sums(env, Step(env, w, ProcessCrash))
  {
  }

  lemma StageSolvent(env: Env, w: World, e: Event)
    requires Growth(env.g) && Sums(env, w) && Ready(w, e) && (e.BettingOver? || e.MarkRound? || e.Reveal?)
    ensures Sums(env, Step(env, w, e))
  {
    var w' := Step(env, w, e);
    assert w'.back.store.players == w.back.store.players && w'.back.store.bets == w.back.store.bets;
    assert Visible(w') == Visible(w) || Visible(w') == w.back.store.bets;
  }

  lemma PlainSolvent(env: Env, w: World, e: Event)
    requires Growth(env.g) && Sums(env, w) && Ready(w, e)
    requires e.Announce? || e.BeginSettle? || e.PauseOver?
    ensures Sums(env, Step(env, w, e))
  {
    var w' := Step(env, w, e);
    assert w'.back == w.back && Visible(w') == w.back.store.bets;
  }

  /** A login lets balances grow, and leaves the bets alone. */
  lemma OutsideEnriches(b: Auth.Backend, e: Auth.Step)
    requires Ledger.TablesOk(b.store) && Solvent(b.store)
    ensures var s, s' := b.store, Auth.Next(b, e).store;
            && Solvent(s') && s'.bets == s.bets
            && forall pid :: pid in s.players ==> pid in s'.players && s.players[pid].balance <= s'.players[pid].balance
  {
    Ledger.OutsideTouches(b, e);
  }

  lemma OutsideSolvent(env: Env, w: World, e: Auth.Step)
    requires SolvInv(env, w)
    ensures Sums(env, Step(env, w, Outside(e)))
  {
    OutsideEnriches(w.back, e);
    assert Visible(Step(env, w, Outside(e))) == Visible(w);
  }

  lemma StatementSolvent(env: Env, w: World, pid: int, ok: bool)
    requires SolvInv(env, w) && w.control.InTx?
    ensures Sums(env, AfterStatement(w, pid, ok))
  {
    StatementPays(env, w, pid, ok);
    StatementSeats(env, w, pid, ok);
    StatementStores(w, pid, ok);
  }

  lemma CommitKeepsSums(env: Env, w: World, fate: Fate)
    requires SolvInv(env, w) && w.control.Committing?
    ensures Sums(env, AfterCommit(w, fate))
  {
    CommitSolvent(env, w, fate);
    var w' := AfterCommit(w, fate);
    assert w'.eng.seats == w.eng.seats && !w'.eng.state.Betting?;
    assert Visible(w') == w'.back.store.bets;
  }

  lemma SumsKept(env: Env, w: World, e: Event)
    requires SolvInv(env, w) && SoundBet(env, w, e) && Ready(w, e)
    ensures Sums(env, Step(env, w, e))
  {
    match e
    case Handle(c) => CommandSolvent(env, w, c);
    case Outside(step) => OutsideSolvent(env, w, step);
    case Statement(pid, ok) => StatementSolvent(env, w, pid, ok);
    case Commit(fate) => CommitKeepsSums(env, w, fate);
    case Start(_, _, _, _, _) => StartSolvent(env, w, e);
    case Tick => TickSolvent(env, w);
    case ProcessCrash => RestartSolvent(env, w);
    case Announce => PlainSolvent(env, w, e);
    case BeginSettle(_) => PlainSolvent(env, w, e);
    case PauseOver => PlainSolvent(env, w, e);
    case _ => StageSolvent(env, w, e);
  }

  lemma SolvStepKeeps(env: Env, w: World, e: Event)
    requires SolvInv(env, w) && SoundBet(env, w, e)
    ensures SolvInv(env, Step(env, w, e))
  {
    StepKeeps(env, w, e);
    if Ready(w, e) { SumsKept(env, w, e); }
  }

  lemma {:induction false} SolvRunKeeps(env: Env, w: World, es: seq<Event>)
    requires Growth(env.g) && SolvInv(env, w) && SoundBets(env, w, es)
    ensures SolvInv(env, Exec(env, w, es))
    decreases |es|
  {
    if es != [] {
      SolvStepKeeps(env, w, es[0]);
      SolvRunKeeps(env, Step(env, w, es[0]), es[1..]);
    }
  }

  /** Conditional solvency: if every accepted bet was sound when it was handled, no balance is ever negative
      and every bet that was paid out was paid at least its stake, in memory and in the table. */
  lemma Solvency(env: Env, es: seq<Event>)
    requires Growth(env.g) && SoundBets(env, INIT, es)
    ensures var w := Exec(env, INIT, es);
            && (forall pid :: pid in w.back.store.players ==> w.back.store.players[pid].balance >= 0)
            && (forall id :: id in w.back.store.bets && w.back.store.bets[id].payout.Some? ==>
                  w.back.store.bets[id].payout.value >= w.back.store.bets[id].amount > 0)
            && (forall pid :: Flight.InRound(w.eng) && pid in w.eng.seats && w.eng.seats[pid].cashedOut ==>
                  w.eng.seats[pid].payout >= w.eng.seats[pid].amount > 0)
  {
    SolvRunKeeps(env, INIT, es);
    var w := Exec(env, INIT, es);
    forall pid | Flight.InRound(w.eng) && pid in w.eng.seats && w.eng.seats[pid].cashedOut
      ensures w.eng.seats[pid].payout >= w.eng.seats[pid].amount > 0
    {
      CashedOutPaysStake(env, w, pid);
    }
  }
}
