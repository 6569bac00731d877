/** The flight (internal/engine/engine.go:263-307, 416-425): what every step of the machine keeps of the
    multiplier and the cash-outs, how far a payout can go, and the closed form of a whole flight. */
module Flight {
  import opened Wrappers
  import opened GoInt
  import opened Rounds
  import opened Multiplier
  import opened System
  import Store
  import Fair
  import Stakes

  // ---------------------------------------------------------------- invariant

  /** A seat of a round that is flying at `current` or crashed there. A cash-out other than the configured
      auto-cashout pays no more than the crash point. */
  ghost predicate SeatOk(s: Seat, crash: int, current: int, ticks: nat) {
    if s.cashedOut then
      && s.payout == Payout(s.amount, s.mult)
      && 0 < s.mult <= current
      && (s.mult == s.auto || 100 <= s.mult <= crash)
    else
      && s.mult == 0 && s.payout == 0
      && (s.auto > 0 && ticks > 0 ==> current < s.auto)
  }

  ghost predicate InRound(e: Engine) { e.state.Betting? || e.state.Flying? || e.state.Crashed? }

  ghost predicate Aloft(env: Env, e: Engine) {
    && e.current == Curve(env.g, e.ticks)
    && e.current as real <= env.g * e.crash as real
    && (forall pid :: pid in e.seats ==> SeatOk(e.seats[pid], e.crash, e.current, e.ticks))
  }

  ghost predicate Inv(env: Env, e: Engine) {
    && (InRound(e) ==> 100 <= e.crash <= 99 * Fair.ROLLS + 1 && Aloft(env, e))
    && (e.state.Betting? ==> e.ticks == 0)
    && (e.state.Betting? ==> forall pid :: pid in e.seats ==> !e.seats[pid].cashedOut)
    && (e.state.Flying? ==> e.ticks == 0 || e.current < e.crash)
    && (e.state.Crashed? ==>
          e.ticks >= 1 && e.crash <= e.current && (e.ticks > 1 ==> Curve(env.g, e.ticks - 1) < e.crash))
  }

  lemma SeatAfterTick(s: Seat, crash: int, before: int, ticks: nat, current: int)
    requires SeatOk(s, crash, before, ticks) && before < current
    ensures SeatOk(AutoSettled(s, current), crash, current, ticks + 1)
  {
  }

  lemma TickKeeps(env: Env, w: World)
    requires Growth(env.g) && Inv(env, w.eng) && w.eng.state.Flying?
    ensures Inv(env, AfterFlightTick(env, w).eng)
  {
    var e, e' := w.eng, AfterTick(env, w.eng);
    CurveStep(env.g, e.ticks);
    Overshoot(env.g, e.crash, e.ticks);
    forall pid | pid in e'.seats ensures SeatOk(e'.seats[pid], e'.crash, e'.current, e'.ticks) {
      SeatAfterTick(e.seats[pid], e.crash, e.current, e.ticks, e'.current);
    }
  }

  lemma TakeoffBelowCrash(g: real, crash: int)
    requires Growth(g) && crash >= 100
    ensures 100.0 <= g * crash as real
  {
    assert (g - 1.0) * crash as real >= 0.0;
  }

  lemma StartKeeps(env: Env, w: World, roll: nat, salt: string, endsAt: int, create: Store.Fate,
                   publish: Store.Fate, announce: bool)
    requires Growth(env.g)
    ensures Inv(env, AfterStart(env, w, roll, salt, endsAt, create, publish, announce).eng)
  {
    CurveStep(env.g, 0);
    StartLeaves(env, w, roll, salt, endsAt, create, publish, announce);
    TakeoffBelowCrash(env.g, Fair.SampleCrash(roll));
  }

  lemma CommandKeeps(env: Env, w: World, c: Command)
    requires Growth(env.g) && Inv(env, w.eng)
    ensures Inv(env, AfterCommand(w, c).eng)
  {
    var e := w.eng;
    if c.CashOut? && MayCashOut(e, c.pid) {
      CurveStep(env.g, e.ticks);
      var s := CashedOutAt(e.seats[c.pid], e.current);
      assert SeatOk(s, e.crash, e.current, e.ticks);
    } else if c.PlaceBet? && MayBet(e, c.pid) {
      assert SeatOk(NewSeat(c.displayName, c.hidden, c.amount, c.auto), e.crash, e.current, e.ticks);
    }
  }

  /** Bet ids do not matter to a flight. */
  lemma BetIdsKeep(env: Env, e: Engine, e': Engine)
    requires Inv(env, e)
    requires e'.seats.Keys == e.seats.Keys
    requires forall q :: q in e'.seats ==> e'.seats[q] == e.seats[q].(betId := e'.seats[q].betId)
    requires e' == e.(seats := e'.seats, state := e'.state)
    requires e'.state == e.state || e'.state.Idle?
    ensures Inv(env, e')
  {
    assert e'.crash == e.crash && e'.current == e.current && e'.ticks == e.ticks;
    if InRound(e') {
      forall q | q in e'.seats ensures SeatOk(e'.seats[q], e'.crash, e'.current, e'.ticks) {
        BetIdIgnored(e.seats[q], e'.seats[q], e.crash, e.current, e.ticks);
      }
    }
  }

  lemma BetIdIgnored(s: Seat, s': Seat, crash: int, current: int, ticks: nat)
    requires SeatOk(s, crash, current, ticks) && s' == s.(betId := s'.betId)
    ensures SeatOk(s', crash, current, ticks)
  {
  }

  lemma StepKeeps(env: Env, w: World, e: Event)
    requires Growth(env.g) && Inv(env, w.eng) && Shape(w)
    ensures Inv(env, Step(env, w, e).eng)
  {
    if Ready(w, e) {
      match e
      case Tick => TickKeeps(env, w);
      case Start(roll, salt, endsAt, create, publish) =>
        StartKeeps(env, w, roll, salt, endsAt, create, publish, w.control.announce);
      case Handle(c) => CommandKeeps(env, w, c);
      case Statement(pid, ok) =>
        StatementLeaves(w, pid, ok);
        BetIdsKeep(env, w.eng, AfterStatement(w, pid, ok).eng);
      case _ =>
    }
  }

  lemma {:induction false} RunKeeps(env: Env, w: World, es: seq<Event>)
    requires Growth(env.g) && Inv(env, w.eng) && Shape(w)
    ensures Inv(env, Exec(env, w, es).eng) && Shape(Exec(env, w, es))
    decreases |es|
  {
    if es != [] {
      StepKeeps(env, w, es[0]);
      ShapeKept(env, w, es[0]);
      RunKeeps(env, Step(env, w, es[0]), es[1..]);
    }
  }

  // ---------------------------------------------------------------- how far a payout can go

  /** In every reachable flight a cash-out pays less than 1.0726 times the crash point, and one that is not
      the configured auto-cashout pays no more than the crash point itself. */
  lemma OvershootBound(env: Env, es: seq<Event>, pid: int)
    requires Growth(env.g)
    ensures var e := Exec(env, INIT, es).eng;
            InRound(e) && pid in e.seats && e.seats[pid].cashedOut ==>
              && e.seats[pid].mult as real < 1.0726 * e.crash as real
              && (e.seats[pid].mult != e.seats[pid].auto ==> 100 <= e.seats[pid].mult <= e.crash)
  {
    RunKeeps(env, INIT, es);
    var e := Exec(env, INIT, es).eng;
    if InRound(e) && pid in e.seats && e.seats[pid].cashedOut {
      Stakes.BelowGrowth(env.g, e.crash, e.current);
      assert SeatOk(e.seats[pid], e.crash, e.current, e.ticks);
      assert e.seats[pid].mult as real <= e.current as real;
    }
  }

  lemma CurrentBounded(env: Env, e: Engine)
    requires Growth(env.g) && Inv(env, e) && InRound(e)
    ensures 100 <= e.current <= Stakes.Top(env.g)
  {
    FirstTickIff(env.g, e.crash, 1);
    if e.ticks > 1 {
      FirstTickIff(env.g, e.crash, e.ticks - 1);
    }
    if e.ticks > 0 && !e.state.Crashed? {
      FirstTickIff(env.g, e.crash, e.ticks);
    }
    Stakes.WithinTop(env.g, e.crash, e.ticks);
  }

  /** No payout of a stake that fits overflows: settleCashout computes the exact quotient. */
  lemma NoOverflow(env: Env, es: seq<Event>, pid: int)
    requires Growth(env.g)
    ensures var e := Exec(env, INIT, es).eng;
            InRound(e) && pid in e.seats && e.seats[pid].cashedOut
            && 0 < e.seats[pid].amount && Stakes.Fits(env.g, e.seats[pid].amount) ==>
              && e.seats[pid].amount * e.seats[pid].mult < INT64_LIMIT
              && e.seats[pid].payout == e.seats[pid].amount * e.seats[pid].mult / 100
  {
    RunKeeps(env, INIT, es);
    var e := Exec(env, INIT, es).eng;
    if InRound(e) && pid in e.seats && e.seats[pid].cashedOut
       && 0 < e.seats[pid].amount && Stakes.Fits(env.g, e.seats[pid].amount) {
      CurrentBounded(env, e);
      assert SeatOk(e.seats[pid], e.crash, e.current, e.ticks);
      Stakes.FitsBelowTop(env.g, e.seats[pid].amount, e.seats[pid].mult);
      PayoutExactIff(e.seats[pid].amount, e.seats[pid].mult);
    }
  }

  /** On a stake that does not fit there is a flight and a target at which settleCashout pays less than the
      stake: the roll with the highest crash point and the target at which the product wraps. */
  lemma UnfitStakeLoses(env: Env, amount: int)
    requires Growth(env.g) && amount > 0 && !Stakes.Fits(env.g, amount)
    ensures var target := Stakes.WrappingTarget(amount);
            var paid := Outcome(env.g, NewSeat("", false, amount, target), Fair.SampleCrash(Fair.ROLLS - 1), None);
            target >= 101 && paid.cashedOut && paid.payout < amount
  {
    Stakes.StakeReturnedIff(env.g, amount);
    Stakes.HighestRoll();
    var top := FirstTick(env.g, Stakes.HIGHEST_CRASH);
    FirstTickIff(env.g, Stakes.HIGHEST_CRASH, 1);
    FirstTickIff(env.g, Stakes.WrappingTarget(amount), top);
  }

  /** There are flights that pay a multiplier its column does not hold: on the highest roll an auto-cashout at
      2^31 is paid, and narrowed to -2^31; the formula on that is not the payout. */
  lemma NarrowedFlight(env: Env, amount: int)
    requires Growth(env.g) && amount > 0 && Stakes.Fits(env.g, amount)
    ensures var paid := Outcome(env.g, NewSeat("", false, amount, INT32_LIMIT), Fair.SampleCrash(Fair.ROLLS - 1), None);
            && paid.cashedOut && paid.mult == INT32_LIMIT && Int32(paid.mult) == -INT32_LIMIT
            && paid.payout != Payout(amount, Int32(paid.mult))
  {
    Stakes.HighestRoll();
    Stakes.TopIsHigh(env.g);
    var top := FirstTick(env.g, Stakes.HIGHEST_CRASH);
    FirstTickIff(env.g, Stakes.HIGHEST_CRASH, 1);
    FirstTickIff(env.g, INT32_LIMIT, top);
    Stakes.NarrowedPayoutIff(env.g, amount, INT32_LIMIT);
  }

  // ---------------------------------------------------------------- a cash-out is final

  /** Nothing but the next round, or the end of the process, touches a seat that has cashed out; only its
      bet id is filled in at takeoff. */
  lemma CashOutIsKept(env: Env, w: World, e: Event, pid: int)
    requires pid in w.eng.seats && w.eng.seats[pid].cashedOut
    requires !e.Start? && !e.ProcessCrash?
    ensures var seats := Step(env, w, e).eng.seats;
            pid in seats && seats[pid] == w.eng.seats[pid].(betId := seats[pid].betId)
  {
    if w.control.InTx? && e.Statement? { StatementLeaves(w, e.pid, e.ok); }
  }

  lemma {:induction false} CashOutIsFinal(env: Env, w: World, es: seq<Event>, pid: int)
    requires pid in w.eng.seats && w.eng.seats[pid].cashedOut
    requires forall i :: 0 <= i < |es| ==> !es[i].Start? && !es[i].ProcessCrash?
    ensures var seats := Exec(env, w, es).eng.seats;
            pid in seats && seats[pid] == w.eng.seats[pid].(betId := seats[pid].betId)
    decreases |es|
  {
    if es != [] {
      CashOutIsKept(env, w, es[0], pid);
      CashOutIsFinal(env, Step(env, w, es[0]), es[1..], pid);
    }
  }

  /** The first accepted bet of a player stands: until the next round or the end of the process nothing
      changes the stake or the target, and no second bet of the player is recorded. */
  lemma {:induction false} FirstBetStands(env: Env, w: World, es: seq<Event>, pid: int)
    requires pid in w.eng.seats
    requires forall i :: 0 <= i < |es| ==> !es[i].Start? && !es[i].ProcessCrash?
    ensures var seats := Exec(env, w, es).eng.seats;
            && pid in seats && seats[pid].amount == w.eng.seats[pid].amount
            && seats[pid].auto == w.eng.seats[pid].auto
    decreases |es|
  {
    if es != [] {
      var w1 := Step(env, w, es[0]);
      if w.control.InTx? && es[0].Statement? { StatementLeaves(w, es[0].pid, es[0].ok); }
      assert pid in w1.eng.seats && w1.eng.seats[pid].amount == w.eng.seats[pid].amount
             && w1.eng.seats[pid].auto == w.eng.seats[pid].auto;
      FirstBetStands(env, w1, es[1..], pid);
    }
  }

  // ---------------------------------------------------------------- a whole flight

  /** Everything that may happen from a takeoff up to the broadcast of its crash, in any order. */
  ghost predicate WithinFlight(es: seq<Event>) {
    forall i :: 0 <= i < |es| ==> !es[i].Reveal? && !es[i].ProcessCrash?
  }

  ghost predicate Airborne(w: World) { w.control.AtLoop? && w.eng.state.Flying? }

  /** The tick count at the first cash-out command of `pid` that the flight processes. */
  ghost function FirstCashOut(env: Env, w: World, es: seq<Event>, pid: int): Option<nat>
    decreases |es|
  {
    if es == [] || !Airborne(w) then None
    else if es[0] == Handle(CashOut(pid)) then Some(w.eng.ticks)
    else FirstCashOut(env, Step(env, w, es[0]), es[1..], pid)
  }

  function Ticks(es: seq<Event>): nat {
    if es == [] then 0 else (if es[0].Tick? then 1 else 0) + Ticks(es[1..])
  }

  /** What a flight pays, in closed form: exactly the auto-cashout target, if its tick comes no later than
      the crash and than the player's own cash-out; else the curve at the player's cash-out, if that comes
      before the crash; else nothing. */
  function Outcome(g: real, s: Seat, crash: int, tau: Option<nat>): Seat
    requires Growth(g)
  {
    var last := FirstTick(g, crash);
    var auto := FirstTick(g, s.auto);
    if s.auto > 0 && auto <= last && (tau.None? || auto <= tau.value) then CashedOutAt(s, s.auto)
    else if tau.Some? && tau.value < last then CashedOutAt(s, Curve(g, tau.value))
    else s
  }

  lemma OtherStepsFly(env: Env, w: World, e: Event, pid: int)
    requires Airborne(w) && pid in w.eng.seats
    requires !e.Tick? && !e.ProcessCrash? && e != Handle(CashOut(pid))
    ensures var w' := Step(env, w, e);
            && Airborne(w') && pid in w'.eng.seats && w'.eng.seats[pid] == w.eng.seats[pid]
            && w'.eng.ticks == w.eng.ticks && w'.eng.crash == w.eng.crash
  {
  }

  lemma {:induction false} CashOutNotEarlier(env: Env, w: World, es: seq<Event>, pid: int)
    requires pid in w.eng.seats && WithinFlight(es)
    ensures FirstCashOut(env, w, es, pid).Some? ==> FirstCashOut(env, w, es, pid).value >= w.eng.ticks
    decreases |es|
  {
    if es != [] && Airborne(w) && es[0] != Handle(CashOut(pid)) {
      if !es[0].Tick? { OtherStepsFly(env, w, es[0], pid); }
      CashOutNotEarlier(env, Step(env, w, es[0]), es[1..], pid);
    }
  }

  lemma {:induction false} CrashedStays(env: Env, w: World, es: seq<Event>)
    requires w.control.Revealing? && w.eng.state.Crashed? && WithinFlight(es)
    ensures Exec(env, w, es).eng == w.eng
    decreases |es|
  {
    if es != [] {
      assert Step(env, w, es[0]).eng == w.eng && Step(env, w, es[0]).control == w.control;
      CrashedStays(env, Step(env, w, es[0]), es[1..]);
    }
  }

  lemma NoStartInFlight(env: Env, w: World, es: seq<Event>, pid: int)
    requires (Airborne(w) || (w.control.Revealing? && w.eng.state.Crashed?)) && WithinFlight(es)
    requires pid in w.eng.seats && w.eng.seats[pid].cashedOut
    ensures pid in Exec(env, w, es).eng.seats && Exec(env, w, es).eng.seats[pid] == w.eng.seats[pid]
    decreases |es|
  {
    if w.control.Revealing? {
      CrashedStays(env, w, es);
    } else if es != [] {
      var w1 := Step(env, w, es[0]);
      assert w1.eng.seats[pid] == w.eng.seats[pid];
      NoStartInFlight(env, w1, es[1..], pid);
    }
  }

  /** The step that decides a seat: it is paid automatically on the tick that reaches its target, paid by
      hand when its first cash-out command is processed, or lost on the crashing tick. */
  ghost predicate Undecided(g: real, s: Seat, crash: int, n: nat)
    requires Growth(g)
  {
    !s.cashedOut && n < FirstTick(g, crash) && (s.auto > 0 ==> n < FirstTick(g, s.auto))
  }

  lemma StillUndecided(env: Env, e: Engine, pid: int)
    requires Growth(env.g) && Inv(env, e) && e.state.Flying?
    requires pid in e.seats && !e.seats[pid].cashedOut
    ensures Undecided(env.g, e.seats[pid], e.crash, e.ticks)
  {
    var s, g, n := e.seats[pid], env.g, e.ticks;
    assert SeatOk(s, e.crash, e.current, n);
    FirstTickIff(g, s.auto, 1);
    FirstTickIff(g, e.crash, 1);
    if n > 0 {
      FirstTickIff(g, s.auto, n);
      FirstTickIff(g, e.crash, n);
    }
  }

  /** What the next tick decides, in terms of the closed form. */
  lemma TickDecides(g: real, s: Seat, crash: int, n: nat, tau: Option<nat>)
    requires Growth(g) && Undecided(g, s, crash, n)
    requires tau.None? || tau.value >= n + 1
    ensures var s' := AutoSettled(s, Curve(g, n + 1));
            && (s'.cashedOut ==> s' == Outcome(g, s, crash, tau))
            && (!s'.cashedOut ==> s' == s)
            && (!s'.cashedOut && Curve(g, n + 1) >= crash ==> s == Outcome(g, s, crash, tau))
  {
    FirstTickIff(g, s.auto, n + 1);
    FirstTickIff(g, crash, n + 1);
  }

  /** Every interleaving of ticks, commands and logins pays the closed form. `w` may be any point of the
      flight at which the player is still in; at takeoff it is the whole flight. */
  lemma {:induction false} FlightOutcome(env: Env, w: World, es: seq<Event>, pid: int)
    requires Growth(env.g) && Inv(env, w.eng) && Airborne(w) && Shape(w)
    requires pid in w.eng.seats && !w.eng.seats[pid].cashedOut
    requires WithinFlight(es) && Exec(env, w, es).eng.state.Crashed?
    ensures var seats := Exec(env, w, es).eng.seats;
            pid in seats
            && seats[pid] == Outcome(env.g, w.eng.seats[pid], w.eng.crash, FirstCashOut(env, w, es, pid))
    decreases |es|, 1
  {
    StillUndecided(env, w.eng, pid);
    assert es != [];
    if es[0].Tick? {
      TickOutcome(env, w, es, pid);
    } else if es[0] == Handle(CashOut(pid)) {
      NoStartInFlight(env, Step(env, w, es[0]), es[1..], pid);
    } else {
      OtherStepsFly(env, w, es[0], pid);
      StepKeeps(env, w, es[0]);
      FlightOutcome(env, Step(env, w, es[0]), es[1..], pid);
    }
  }

  /** In particular from every takeoff, and every later point of a flight, that a run of the system reaches. */
  lemma EveryFlightPays(env: Env, before: seq<Event>, es: seq<Event>, pid: int)
    requires Growth(env.g) && WithinFlight(es)
    ensures var w := Exec(env, INIT, before);
            var seats := Exec(env, w, es).eng.seats;
            Airborne(w) && pid in w.eng.seats && !w.eng.seats[pid].cashedOut
            && Exec(env, w, es).eng.state.Crashed? ==>
              && pid in seats
              && seats[pid] == Outcome(env.g, w.eng.seats[pid], w.eng.crash, FirstCashOut(env, w, es, pid))
  {
    RunKeeps(env, INIT, before);
    var w := Exec(env, INIT, before);
    if Airborne(w) && pid in w.eng.seats && !w.eng.seats[pid].cashedOut && Exec(env, w, es).eng.state.Crashed? {
      FlightOutcome(env, w, es, pid);
    }
  }

  lemma TickOutcome(env: Env, w: World, es: seq<Event>, pid: int)
    requires Growth(env.g) && Inv(env, w.eng) && Airborne(w) && Shape(w)
    requires pid in w.eng.seats && !w.eng.seats[pid].cashedOut
    requires WithinFlight(es) && es != [] && es[0].Tick? && Exec(env, w, es).eng.state.Crashed?
    ensures var seats := Exec(env, w, es).eng.seats;
            pid in seats
            && seats[pid] == Outcome(env.g, w.eng.seats[pid], w.eng.crash, FirstCashOut(env, w, es, pid))
    decreases |es|, 0
  {
    var w1, rest := Step(env, w, es[0]), es[1..];
    var tau := FirstCashOut(env, w1, rest, pid);
    CashOutNotEarlier(env, w1, rest, pid);
    StillUndecided(env, w.eng, pid);
    TickDecides(env.g, w.eng.seats[pid], w.eng.crash, w.eng.ticks, tau);
    StepKeeps(env, w, es[0]);
    if w1.eng.state.Crashed? {
      CrashedStays(env, w1, rest);
    } else if w1.eng.seats[pid].cashedOut {
      NoStartInFlight(env, w1, rest, pid);
    } else {
      FlightOutcome(env, w1, rest, pid);
    }
  }

  /** A flight ends on the first tick that reaches the crash point, whatever else happens. */
  lemma {:induction false} StillFlying(env: Env, w: World, es: seq<Event>)
    requires Growth(env.g) && Inv(env, w.eng) && Airborne(w) && Shape(w) && WithinFlight(es)
    ensures var e := Exec(env, w, es).eng;
            var last := FirstTick(env.g, w.eng.crash);
            && e.crash == w.eng.crash
            && (e.state.Crashed? <==> w.eng.ticks + Ticks(es) >= last)
            && (e.state.Crashed? ==> e.ticks == last)
    decreases |es|
  {
    var g, n := env.g, w.eng.ticks;
    FirstTickIff(g, w.eng.crash, n + 1);
    if n > 0 { FirstTickIff(g, w.eng.crash, n); }
    if es != [] {
      var w1 := Step(env, w, es[0]);
      StepKeeps(env, w, es[0]);
      ShapeKept(env, w, es[0]);
      if w1.eng.state.Crashed? {
        CrashedStays(env, w1, es[1..]);
      } else {
        StillFlying(env, w1, es[1..]);
      }
    }
  }

  /** Termination: a flight that is given its ticks crashes, after at most max(1, ceil((crash - 100) / 7))
      of them, and every tick before that brings it closer. */
  lemma FlightEnds(env: Env, w: World, es: seq<Event>)
    requires Growth(env.g) && Inv(env, w.eng) && Airborne(w) && Shape(w) && WithinFlight(es)
    ensures var bound := if w.eng.crash <= 107 then 1 else (w.eng.crash - 100 + 6) / 7;
            Ticks(es) >= bound - w.eng.ticks ==> Exec(env, w, es).eng.state.Crashed?
    ensures var e := AfterTick(env, w.eng);
            !e.state.Crashed? ==> 0 < e.crash - e.current < w.eng.crash - w.eng.current
  {
    StillFlying(env, w, es);
    FirstTickBound(env.g, w.eng.crash);
    CurveStep(env.g, w.eng.ticks);
  }
}
