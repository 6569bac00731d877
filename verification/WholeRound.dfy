/** A round from the opening of its betting window to the settle pause, in closed form: what each player's balance and
    bet row are then, from nothing but the commands sent, the crash point and the ticks. */
module WholeRound {
  import opened Wrappers
  import opened GoInt
  import opened Rounds
  import opened Store
  import opened Multiplier
  import opened System
  import Auth
  import Faultless
  import Flight
  import Ledger
  import Solvency
  import Window

  // ---------------------------------------------------------------- what moves money

  /** A player's balance but for the daily credits. */
  function Earned(s: Store, pid: int): int
    requires pid in s.players
  {
    s.players[pid].balance - DAILY_CREDIT * Ledger.Grants(s.grants, pid)
  }

  lemma OutsideEarnsNothing(b: Auth.Backend, e: Auth.Step, pid: int)
    requires Ledger.TablesOk(b.store) && pid in b.store.players
    ensures var s' := Auth.Next(b, e).store; pid in s'.players && Earned(s', pid) == Earned(b.store, pid)
  {
    var s, s' := b.store, Auth.Next(b, e).store;
    Ledger.OutsideTouches(b, e);
    if q :| CreditDue(s, q) && s' == GrantCredit(s, q) {
      assert s'.grants[..|s'.grants| - 1] == s.grants;
    }
  }

  lemma CommitEarns(env: Env, w: World, fate: Fate, pid: int)
    requires Solvency.Inv(env, w) && w.control.Committing? && pid in w.back.store.players
    ensures var s' := Step(env, w, Commit(fate)).back.store;
            && pid in s'.players
            && Earned(s', pid)
               == Earned(w.back.store, pid) + if fate.Failed? then 0 else Solvency.Due(w.eng, w.control.kind, pid)
  {
    CommitStep(env, w, fate);
    Solvency.CommitMoves(env, w, fate);
  }

  lemma SameMoney(s: Store, s': Store, pid: int)
    requires s'.players == s.players && s'.grants == s.grants && pid in s.players
    ensures pid in s'.players && Earned(s', pid) == Earned(s, pid)
  {
  }

  lemma MovesNoMoney(env: Env, w: World, e: Event)
    requires !e.Outside? && !e.Commit?
    ensures var s, s' := w.back.store, Step(env, w, e).back.store; s'.players == s.players && s'.grants == s.grants
  {
    if Ready(w, e) {
      match e
      case Statement(q, ok) => StatementStores(w, q, ok);
      case Start(roll, salt, endsAt, create, publish) =>
        StartStores(env, w, roll, salt, endsAt, create, publish, w.control.announce);
      case _ =>
    }
  }

  /** Daily credits apart, nothing moves a player's money but a COMMIT that does not fail. */
  lemma StepEarns(env: Env, w: World, e: Event, pid: int)
    requires Solvency.Inv(env, w) && pid in w.back.store.players
    ensures var s' := Step(env, w, e).back.store;
            && pid in s'.players
            && Earned(s', pid)
               == Earned(w.back.store, pid)
                  + if e.Commit? && w.control.Committing? && !e.fate.Failed?
                    then Solvency.Due(w.eng, w.control.kind, pid) else 0
  {
    if Ready(w, e) {
      match e
      case Outside(step) => OutsideEarnsNothing(w.back, step, pid);
      case Commit(fate) => CommitEarns(env, w, fate, pid);
      case _ =>
        MovesNoMoney(env, w, e);
        SameMoney(w.back.store, Step(env, w, e).back.store, pid);
    }
  }

  // ---------------------------------------------------------------- the parts of a round

  /** The round has been given up, or is over: without another startRound there is no way back. */
  ghost predicate Gone(w: World) { w.control.Starting? || (w.control.AtLoop? && w.eng.state.Idle?) }

  predicate TakingOff(w: World) { (w.control.InTx? || w.control.Committing?) && w.control.kind.Takeoff? }

  /** Between the end of the window and the flight neither the inbox nor the ticker is read. */
  ghost predicate Calm(e: Event) { !e.Handle? && !e.Tick? && !e.Start? && !e.ProcessCrash? }

  ghost predicate IsTakeoff(es: seq<Event>) {
    es != [] && es[0].BettingOver? && forall i :: 1 <= i < |es| ==> Calm(es[i])
  }

  ghost predicate SameRound(w: World, w': World) {
    Faultless.SameBets(w.eng.seats, w'.eng.seats) && w'.eng == w.eng.(seats := w'.eng.seats, state := w'.eng.state)
  }

  lemma TakeoffStep(env: Env, w: World, e: Event)
    requires Shape(w) && Calm(e) && (TakingOff(w) || Flight.Airborne(w) || Gone(w))
    ensures var w' := Step(env, w, e);
            && (TakingOff(w) ==>
                  || Gone(w')
                  || (TakingOff(w') && SameRound(w, w') && !(e.Commit? && w.control.Committing?))
                  || (Flight.Airborne(w') && SameRound(w, w') && e == Commit(Done) && w.control.Committing?))
            && (Flight.Airborne(w) ==> Flight.Airborne(w') && w'.eng == w.eng)
            && (Gone(w) ==> Gone(w'))
  {
    if TakingOff(w) && w.control.InTx? && e.Statement? {
      StatementLeaves(w, e.pid, e.ok);
      StatementStores(w, e.pid, e.ok);
    }
  }

  /** What the rest of the takeoff still owes the player. */
  function StillDue(w: World, pid: int): int {
    if TakingOff(w) then Solvency.Due(w.eng, Takeoff, pid) else 0
  }

  lemma TakeoffStepEarns(env: Env, w: World, e: Event, pid: int)
    requires Solvency.Inv(env, w) && Calm(e) && pid in w.back.store.players
    requires TakingOff(w) || Flight.Airborne(w) || Gone(w)
    ensures var w' := Step(env, w, e);
            && (TakingOff(w') || Flight.Airborne(w') || Gone(w')) && pid in w'.back.store.players
            && (Gone(w) ==> Gone(w'))
            && (!Gone(w') ==>
                  && SameRound(w, w')
                  && Earned(w'.back.store, pid) + StillDue(w', pid) == Earned(w.back.store, pid) + StillDue(w, pid))
  {
    TakeoffStep(env, w, e);
    StepEarns(env, w, e, pid);
  }

  lemma {:induction false} TakeoffRest(env: Env, w: World, es: seq<Event>, pid: int)
    requires Solvency.Inv(env, w) && pid in w.back.store.players
    requires TakingOff(w) || Flight.Airborne(w) || Gone(w)
    requires (forall i :: 0 <= i < |es| ==> Calm(es[i])) && Flight.Airborne(Exec(env, w, es))
    ensures var w' := Exec(env, w, es);
            && !Gone(w) && SameRound(w, w') && pid in w'.back.store.players
            && Earned(w'.back.store, pid) == Earned(w.back.store, pid) + StillDue(w, pid)
    decreases |es|
  {
    if es != [] {
      var w1 := Step(env, w, es[0]);
      TakeoffStepEarns(env, w, es[0], pid);
      Solvency.StepKeeps(env, w, es[0]);
      TakeoffRest(env, w1, es[1..], pid);
    }
  }

  /** However long it takes, a takeoff that gets off the ground takes the stakes, once each. */
  lemma TakeoffTakesStakes(env: Env, w: World, es: seq<Event>, pid: int)
    requires Solvency.Inv(env, w) && Window.Open(w) && pid in w.back.store.players
    requires IsTakeoff(es) && Flight.Airborne(Exec(env, w, es))
    ensures var w' := Exec(env, w, es);
            && SameRound(w, w') && pid in w'.back.store.players
            && Earned(w'.back.store, pid) == Earned(w.back.store, pid) + Solvency.Due(w.eng, Takeoff, pid)
  {
    var w1 := Step(env, w, es[0]);
    StepEarns(env, w, es[0], pid);
    Solvency.StepKeeps(env, w, es[0]);
    assert w.eng.seats == map[] ==> Flight.Airborne(w1);
    TakeoffRest(env, w1, es[1..], pid);
  }

  ghost predicate Down(w: World) {
    && w.eng.state.Crashed?
    && match w.control
       case AtLoop => true
       case Revealing => true
       case InTx(kind, _, _, _) => kind.Settlement?
       case Committing(kind, _) => kind.Settlement?
       case _ => false
  }

  ghost predicate SameProcess(es: seq<Event>) {
    forall i :: 0 <= i < |es| ==> !es[i].Start? && !es[i].ProcessCrash?
  }

  lemma LandingStep(env: Env, w: World, e: Event)
    requires Shape(w) && !e.Start? && !e.ProcessCrash? && (Down(w) || w.control.Pausing? || Gone(w))
    ensures var w' := Step(env, w, e);
            && (Down(w) ==>
                  || Gone(w')
                  || (Down(w') && w'.eng == w.eng && !(e.Commit? && w.control.Committing?))
                  || (w'.control.Pausing? && w'.eng == w.eng && e == Commit(Done) && w.control.Committing?))
            && (w.control.Pausing? ==> Gone(w') || (w'.control.Pausing? && w'.eng == w.eng))
            && (Gone(w) ==> Gone(w'))
  {
    if Down(w) && w.control.InTx? && e.Statement? {
      StatementStores(w, e.pid, e.ok);
      assert AfterStatement(w, e.pid, e.ok).eng == w.eng || Gone(AfterStatement(w, e.pid, e.ok));
    }
  }

  /** However long it takes, a landing that comes to the settle pause pays every cash-out, once each. */
  lemma {:induction false} LandingPays(env: Env, w: World, es: seq<Event>, pid: int)
    requires Solvency.Inv(env, w) && pid in w.back.store.players
    requires Down(w) || w.control.Pausing? || Gone(w)
    requires SameProcess(es) && Exec(env, w, es).control.Pausing?
    ensures var w' := Exec(env, w, es);
            && !Gone(w) && w'.eng == w.eng && pid in w'.back.store.players
            && Earned(w'.back.store, pid)
               == Earned(w.back.store, pid) + if Down(w) then Solvency.Due(w.eng, Settlement, pid) else 0
    decreases |es|
  {
    if es != [] {
      LandingStep(env, w, es[0]);
      StepEarns(env, w, es[0], pid);
      Solvency.StepKeeps(env, w, es[0]);
      LandingPays(env, Step(env, w, es[0]), es[1..], pid);
    }
  }

  ghost predicate InFlight(w: World) { Flight.Airborne(w) || (w.control.Revealing? && w.eng.state.Crashed?) }

  lemma FlightStep(env: Env, w: World, e: Event)
    requires InFlight(w) && !e.Reveal? && !e.ProcessCrash?
    ensures var w' := Step(env, w, e);
            InFlight(w') && w'.eng.seats.Keys == w.eng.seats.Keys && w'.eng.roundId == w.eng.roundId
  {
  }

  /** In the air no money moves. */
  lemma {:induction false} FlightEarnsNothing(env: Env, w: World, es: seq<Event>, pid: int)
    requires Solvency.Inv(env, w) && InFlight(w) && Flight.WithinFlight(es) && pid in w.back.store.players
    ensures var w' := Exec(env, w, es);
            && InFlight(w') && w'.eng.seats.Keys == w.eng.seats.Keys && w'.eng.roundId == w.eng.roundId
            && pid in w'.back.store.players && Earned(w'.back.store, pid) == Earned(w.back.store, pid)
    decreases |es|
  {
    if es != [] {
      StepEarns(env, w, es[0], pid);
      FlightStep(env, w, es[0]);
      Solvency.StepKeeps(env, w, es[0]);
      FlightEarnsNothing(env, Step(env, w, es[0]), es[1..], pid);
    }
  }

  lemma {:induction false} WindowEarnsNothing(env: Env, w: World, es: seq<Event>, pid: int)
    requires Solvency.Inv(env, w) && Window.Open(w) && Window.WithinWindow(es) && pid in w.back.store.players
    ensures var w' := Exec(env, w, es);
            pid in w'.back.store.players && Earned(w'.back.store, pid) == Earned(w.back.store, pid)
    decreases |es|
  {
    if es != [] {
      StepEarns(env, w, es[0], pid);
      Solvency.StepKeeps(env, w, es[0]);
      Window.WindowStep(env, w, es[0], pid);
      WindowEarnsNothing(env, Step(env, w, es[0]), es[1..], pid);
    }
  }

  // ---------------------------------------------------------------- the whole of it

  /** The events of a round, cut where its phases end. */
  datatype Round = Round(window: seq<Event>, takeoff: seq<Event>, flight: seq<Event>, landing: seq<Event>)

  function TakenOff(env: Env, w: World, r: Round): World { Exec(env, Exec(env, w, r.window), r.takeoff) }

  function Crashed(env: Env, w: World, r: Round): World { Exec(env, TakenOff(env, w, r), r.flight) }

  function Over(env: Env, w: World, r: Round): World { Exec(env, Crashed(env, w, r), r.landing) }

  /** From an open window without bets the round comes to its settle pause, by any events at all. */
  ghost predicate Completes(env: Env, w: World, r: Round) {
    && Window.Open(w) && w.eng.seats == map[]
    && Window.WithinWindow(r.window)
    && IsTakeoff(r.takeoff) && Flight.Airborne(TakenOff(env, w, r))
    && Flight.WithinFlight(r.flight) && Crashed(env, w, r).eng.state.Crashed?
    && SameProcess(r.landing) && Over(env, w, r).control.Pausing?
  }

  /** What the round makes of a player's bet. */
  ghost function ResultOf(env: Env, w: World, r: Round, c: Command, pid: int): Seat
    requires c.PlaceBet? && Growth(env.g)
  {
    Flight.Outcome(env.g, Seat(c.displayName, c.hidden, c.amount, c.auto, 0, false, 0, 0), w.eng.crash,
                   Flight.FirstCashOut(env, TakenOff(env, w, r), r.flight, pid))
  }

  /** What it comes to: the stake is gone, and the payout there if the player got out. */
  function Gain(c: Command, paid: Seat): int
    requires c.PlaceBet?
  {
    (if paid.cashedOut then paid.payout else 0) - c.amount
  }

  lemma OutcomeIgnoresId(g: real, s: Seat, s': Seat, crash: int, tau: Option<nat>)
    requires Growth(g) && s' == s.(betId := s'.betId)
    ensures Flight.Outcome(g, s', crash, tau) == Flight.Outcome(g, s, crash, tau).(betId := s'.betId)
  {
  }

  /** The flight part, for a player with a seat. */
  lemma SeatOutcome(env: Env, w: World, r: Round, pid: int)
    requires Solvency.Inv(env, w) && Completes(env, w, r)
    requires pid in w.back.store.players && Window.FirstBet(r.window, pid).Some?
    ensures var seats := Crashed(env, w, r).eng.seats;
            && pid in seats
            && seats[pid]
               == ResultOf(env, w, r, Window.FirstBet(r.window, pid).value, pid).(betId := seats[pid].betId)
            && pid in Exec(env, w, r.window).eng.seats
            && Window.SeatOf(Exec(env, w, r.window).eng.seats[pid], Window.FirstBet(r.window, pid).value)
  {
    var w1, w2 := Exec(env, w, r.window), TakenOff(env, w, r);
    Window.WindowOutcome(env, w, r.window, pid);
    WindowEarnsNothing(env, w, r.window, pid);
    Solvency.RunKeeps(env, w, r.window);
    Solvency.RunKeeps(env, w1, r.takeoff);
    TakeoffTakesStakes(env, w1, r.takeoff, pid);
    Flight.FlightOutcome(env, w2, r.flight, pid);
    OutcomeIgnoresId(env.g, w1.eng.seats[pid], w2.eng.seats[pid], w.eng.crash,
                     Flight.FirstCashOut(env, w2, r.flight, pid));
  }

  /** The bet row of a seat in the settle pause, spelt out. */
  ghost predicate IsRowOf(b: Bet, round: int, pid: int, c: Command, paid: Seat)
    requires c.PlaceBet?
  {
    && b.round == round && b.player == pid && b.amount == c.amount
    && b.auto == (if c.auto > 0 then Some(Int32(c.auto)) else None)
    && b.mult == (if paid.cashedOut then Some(Int32(paid.mult)) else None)
    && b.payout == (if paid.cashedOut then Some(paid.payout) else None)
  }

  /** The money part: over the round a player earns what the takeoff and the settlement owe. */
  lemma MoneyMoved(env: Env, w: World, r: Round, pid: int)
    requires Solvency.Inv(env, w) && Completes(env, w, r) && pid in w.back.store.players
    ensures var w1, w3, w' := Exec(env, w, r.window), Crashed(env, w, r), Over(env, w, r);
            && w'.eng == w3.eng && pid in w'.back.store.players
            && w1.eng.roundId == w.eng.roundId && w3.eng.roundId == w.eng.roundId
            && w3.eng.seats.Keys == w1.eng.seats.Keys
            && Earned(w'.back.store, pid)
               == Earned(w.back.store, pid) + Solvency.Due(w1.eng, Takeoff, pid) + Solvency.Due(w3.eng, Settlement, pid)
  {
    var w1, w2, w3 := Exec(env, w, r.window), TakenOff(env, w, r), Crashed(env, w, r);
    Window.WindowOutcome(env, w, r.window, pid);
    WindowEarnsNothing(env, w, r.window, pid);
    Solvency.RunKeeps(env, w, r.window);
    TakeoffTakesStakes(env, w1, r.takeoff, pid);
    Solvency.RunKeeps(env, w1, r.takeoff);
    FlightEarnsNothing(env, w2, r.flight, pid);
    Solvency.RunKeeps(env, w2, r.flight);
    LandingPays(env, w3, r.landing, pid);
  }

  /** How player `pid` comes out of the round. */
  ghost predicate ComesOut(env: Env, w: World, r: Round, pid: int, w': World)
    requires Growth(env.g) && pid in w.back.store.players
  {
    var first := Window.FirstBet(r.window, pid);
    var s, s', e' := w.back.store, w'.back.store, w'.eng;
    && pid in s'.players
    && s'.players[pid].balance - s.players[pid].balance
       == DAILY_CREDIT * (Ledger.Grants(s'.grants, pid) - Ledger.Grants(s.grants, pid))
          + (if first.None? then 0 else Gain(first.value, ResultOf(env, w, r, first.value, pid)))
    && (pid in e'.seats <==> first.Some?)
    && (first.Some? ==>
          && e'.seats[pid].betId in s'.bets
          && IsRowOf(s'.bets[e'.seats[pid].betId], w.eng.roundId, pid, first.value,
                     ResultOf(env, w, r, first.value, pid)))
  }

  lemma RowSpeltOut(e: Engine, pid: int, c: Command, paid: Seat)
    requires c.PlaceBet? && pid in e.seats && e.seats[pid] == paid.(betId := e.seats[pid].betId)
    requires paid.amount == c.amount && paid.auto == c.auto
    ensures IsRowOf(Ledger.SettledRow(e, pid), e.roundId, pid, c, paid)
  {
  }

  lemma RowAtTheEnd(env: Env, w: World, r: Round, pid: int)
    requires Solvency.Inv(env, w) && Solvency.PaidInPause(w)
    ensures var w' := Over(env, w, r);
            w'.control.Pausing? && pid in w'.eng.seats ==> Ledger.HasSettledRow(w'.eng, w'.back.store.bets, pid)
  {
    Solvency.RunKeepsPaid(env, w, r.window);
    Solvency.RunKeepsPaid(env, Exec(env, w, r.window), r.takeoff);
    Solvency.RunKeepsPaid(env, TakenOff(env, w, r), r.flight);
    Solvency.RunKeepsPaid(env, Crashed(env, w, r), r.landing);
  }

  lemma BettorComesOut(env: Env, w: World, r: Round, pid: int)
    requires Solvency.Inv(env, w) && Solvency.PaidInPause(w) && Completes(env, w, r) && pid in w.back.store.players
    requires Window.FirstBet(r.window, pid).Some?
    ensures ComesOut(env, w, r, pid, Over(env, w, r))
  {
    var c, e' := Window.FirstBet(r.window, pid).value, Over(env, w, r).eng;
    MoneyMoved(env, w, r, pid);
    SeatOutcome(env, w, r, pid);
    RowAtTheEnd(env, w, r, pid);
    RowSpeltOut(e', pid, c, ResultOf(env, w, r, c, pid));
  }

  lemma BystanderComesOut(env: Env, w: World, r: Round, pid: int)
    requires Solvency.Inv(env, w) && Completes(env, w, r) && pid in w.back.store.players
    requires Window.FirstBet(r.window, pid).None?
    ensures ComesOut(env, w, r, pid, Over(env, w, r))
  {
    MoneyMoved(env, w, r, pid);
    Window.WindowOutcome(env, w, r.window, pid);
  }

  lemma PlayerComesOut(env: Env, w: World, r: Round, pid: int)
    requires Solvency.Inv(env, w) && Solvency.PaidInPause(w) && Completes(env, w, r) && pid in w.back.store.players
    ensures ComesOut(env, w, r, pid, Over(env, w, r))
  {
    if Window.FirstBet(r.window, pid).Some? {
      BettorComesOut(env, w, r, pid);
    } else {
      BystanderComesOut(env, w, r, pid);
    }
  }

  /** A round in closed form. Take any run up to an open betting window without bets, and any events at all by which
      the round then comes to its settle pause. A player who sent no bet in the window has gained nothing but daily
      credits. One who did has the first bet, whatever was sent after it: the stake is gone, the payout there is
      what Flight.Outcome says of the target, the crash point and the tick of the first cash-out, and the bet row
      records it. */
  lemma RoundInClosedForm(env: Env, before: seq<Event>, r: Round, pid: int)
    requires Growth(env.g) && Completes(env, Exec(env, INIT, before), r)
    requires pid in Exec(env, INIT, before).back.store.players
    ensures var w := Exec(env, INIT, before); ComesOut(env, w, r, pid, Over(env, w, r))
  {
    var w := Exec(env, INIT, before);
    Solvency.RunKeepsPaid(env, INIT, before);
    PlayerComesOut(env, w, r, pid);
  }
}
