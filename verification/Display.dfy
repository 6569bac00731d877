/** The live cash-out value (internal/tui/game.go:148-161) against what the engine pays. */
module Display {
  import opened GoInt
  import opened Rounds
  import opened Multiplier
  import opened System
  import Auth
  import Flight
  import Ledger
  import Stakes

  /** cashoutValues: the player's total return and profit at the multiplier shown. */
  function CashoutValues(snap: Snapshot, pid: int): (int, int) {
    var shown := if snap.state.Crashed? || snap.state.Settling? then snap.crash else snap.current;
    if pid !in snap.seats then (0, 0)
    else
      var total := Payout(snap.seats[pid].amount, shown);
      (total, total - snap.seats[pid].amount)
  }

  /** What is shown: to a player in the round the stake's share of the multiplier on the screen, which after the
      crash is the crash point, and beside it the profit on the stake; to anybody else nothing. */
  lemma ShownValues(snap: Snapshot, pid: int)
    ensures var shown := if snap.state.Crashed? then snap.crash else snap.current;
            var (total, profit) := CashoutValues(snap, pid);
            && (pid !in snap.seats ==> total == 0 && profit == 0)
            && (pid in snap.seats && !snap.state.Settling? ==>
                  var amount := snap.seats[pid].amount;
                  && profit + amount == total
                  && (0 <= amount && 0 <= shown && amount * shown < INT64_LIMIT ==> total == amount * shown / 100))
  {
    var shown := if snap.state.Crashed? then snap.crash else snap.current;
    if pid in snap.seats && 0 <= snap.seats[pid].amount && 0 <= shown {
      PayoutExactIff(snap.seats[pid].amount, shown);
    }
  }

  /** A flying snapshot of the current round, however old, is behind the engine. */
  ghost predicate Behind(e: Engine, f: Snapshot) {
    f.state.Flying? && f.roundId == e.roundId && Flight.InRound(e) ==>
      && !e.state.Betting?
      && 100 <= f.current <= e.current
      && forall pid :: pid in f.seats ==> pid in e.seats && e.seats[pid].amount == f.seats[pid].amount
  }

  ghost predicate Inv(env: Env, w: World) {
    && Growth(env.g) && Shape(w) && Flight.Inv(env, w.eng)
    && 0 <= w.eng.roundId < w.back.store.nextRound
    && (Flight.InRound(w.eng) ==> w.eng.roundId > 0)
    && (forall i :: 0 <= i < |w.frames| ==> w.frames[i].roundId < w.back.store.nextRound)
    && (forall i :: 0 <= i < |w.frames| ==> Behind(w.eng, w.frames[i]))
  }

  /** Either the round goes on, and the engine only moves forward in it, or a new one with an unused id opens. */
  ghost predicate Onward(e: Engine, e': Engine, unused: int) {
    Flight.InRound(e') ==>
      || (e'.roundId == unused && e'.state.Betting?)
      || (&& e'.roundId == e.roundId && Flight.InRound(e)
          && e.current <= e'.current && (e'.state.Betting? ==> e.state.Betting?)
          && forall pid :: pid in e.seats ==> pid in e'.seats && e'.seats[pid].amount == e.seats[pid].amount)
  }

  ghost predicate GoesOn(w: World, w': World) {
    && Onward(w.eng, w'.eng, w.back.store.nextRound)
    && w.back.store.nextRound <= w'.back.store.nextRound
    && 0 <= w'.eng.roundId < w'.back.store.nextRound
    && (w'.frames == w.frames || w'.frames == w.frames + [SnapshotOf(w'.eng)])
    && (Flight.InRound(w'.eng) ==> w'.eng.roundId > 0)
  }

  lemma CommandGoesOn(env: Env, w: World, c: Command)
    requires Inv(env, w) && w.control.AtLoop?
    ensures GoesOn(w, AfterCommand(w, c))
  {
  }

  lemma TickGoesOn(env: Env, w: World)
    requires Inv(env, w) && w.control.AtLoop? && w.eng.state.Flying?
    ensures GoesOn(w, AfterFlightTick(env, w))
  {
    CurveStep(env.g, w.eng.ticks);
  }

  lemma StatementGoesOn(env: Env, w: World, pid: int, ok: bool)
    requires Inv(env, w) && w.control.InTx?
    ensures GoesOn(w, AfterStatement(w, pid, ok))
  {
    StatementLeaves(w, pid, ok);
    StatementStores(w, pid, ok);
  }

  lemma StartGoesOn(env: Env, w: World, e: Event)
    requires Inv(env, w) && w.control.Starting? && e.Start?
    ensures GoesOn(w, AfterStart(env, w, e.roll, e.salt, e.endsAt, e.create, e.publish, w.control.announce))
  {
    StartLeaves(env, w, e.roll, e.salt, e.endsAt, e.create, e.publish, w.control.announce);
    StartStores(env, w, e.roll, e.salt, e.endsAt, e.create, e.publish, w.control.announce);
    StartFrames(env, w, e.roll, e.salt, e.endsAt, e.create, e.publish, w.control.announce);
  }

  lemma OutsideGoesOn(env: Env, w: World, step: Auth.Step)
    requires Inv(env, w)
    ensures GoesOn(w, w.(back := Auth.Next(w.back, step)))
  {
    Ledger.OutsideTouches(w.back, step);
  }

  lemma PlainGoesOn(env: Env, w: World, e: Event)
    requires Inv(env, w) && Ready(w, e)
    requires !e.Handle? && !e.Tick? && !e.Statement? && !e.Start? && !e.Outside?
    ensures GoesOn(w, Step(env, w, e))
  {
  }

  lemma StepGoesOn(env: Env, w: World, e: Event)
    requires Inv(env, w)
    ensures GoesOn(w, Step(env, w, e))
  {
    if Ready(w, e) {
      match e
      case Handle(c) => CommandGoesOn(env, w, c);
      case Tick => TickGoesOn(env, w);
      case Statement(pid, ok) => StatementGoesOn(env, w, pid, ok);
      case Start(_, _, _, _, _) => StartGoesOn(env, w, e);
      case Outside(step) => OutsideGoesOn(env, w, step);
      case _ => PlainGoesOn(env, w, e);
    }
  }

  lemma BehindStaysBehind(e: Engine, e': Engine, f: Snapshot, unused: int)
    requires Behind(e, f) && f.roundId < unused && Onward(e, e', unused)
    ensures Behind(e', f)
  {
  }

  lemma StepKeeps(env: Env, w: World, e: Event)
    requires Inv(env, w)
    ensures Inv(env, Step(env, w, e))
  {
    var w' := Step(env, w, e);
    ShapeKept(env, w, e);
    Flight.StepKeeps(env, w, e);
    StepGoesOn(env, w, e);
    CurveStep(env.g, w'.eng.ticks);
    forall i | 0 <= i < |w'.frames| ensures Behind(w'.eng, w'.frames[i]) {
      if i < |w.frames| { BehindStaysBehind(w.eng, w'.eng, w.frames[i], w.back.store.nextRound); }
    }
  }

  lemma {:induction false} RunKeeps(env: Env, w: World, es: seq<Event>)
    requires Inv(env, w)
    ensures Inv(env, Exec(env, w, es))
    decreases |es|
  {
    if es != [] {
      StepKeeps(env, w, es[0]);
      RunKeeps(env, Step(env, w, es[0]), es[1..]);
    }
  }

  /** Whatever flying snapshot a player is looking at, however stale, a manual cash-out that the engine
      accepts later in that round pays at least the total it shows. */
  lemma ShownIsLowerBound(env: Env, es: seq<Event>, i: nat, pid: int)
    requires Growth(env.g)
    ensures var w := Exec(env, INIT, es);
            i < |w.frames| && w.frames[i].state.Flying? && w.frames[i].roundId == w.eng.roundId
            && pid in w.frames[i].seats
            && 0 <= w.frames[i].seats[pid].amount && Stakes.Fits(env.g, w.frames[i].seats[pid].amount)
            && w.control.AtLoop? && MayCashOut(w.eng, pid) ==>
              var paid := Step(env, w, Handle(CashOut(pid))).eng.seats[pid];
              paid.cashedOut && CashoutValues(w.frames[i], pid).0 <= paid.payout
  {
    RunKeeps(env, INIT, es);
    var w := Exec(env, INIT, es);
    if i < |w.frames| && w.frames[i].state.Flying? && w.frames[i].roundId == w.eng.roundId
       && pid in w.frames[i].seats
       && 0 <= w.frames[i].seats[pid].amount && Stakes.Fits(env.g, w.frames[i].seats[pid].amount)
       && w.control.AtLoop? && MayCashOut(w.eng, pid) {
      assert Behind(w.eng, w.frames[i]);
      Flight.CurrentBounded(env, w.eng);
      Stakes.FitsBelowTop(env.g, w.eng.seats[pid].amount, w.eng.current);
      PayoutMonotone(w.eng.seats[pid].amount, w.frames[i].current, w.eng.current);
    }
  }
}
