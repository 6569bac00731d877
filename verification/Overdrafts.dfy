/** When balances go below zero, exactly. The column has no CHECK and AdjustBalance no guard
    (internal/db/players.sql.go:12-18), so what a commit does to a balance is all there is to it. */
module Overdrafts {
  import opened Multiplier
  import opened Store
  import opened System
  import Auth
  import Ledger
  import Solvency

  /** What a commit of the open transaction would leave below zero: nobody's balance. */
  ghost predicate Covered(w: World)
    requires w.control.Committing?
  {
    if w.control.kind.Takeoff? then
      forall pid :: pid in w.eng.seats ==>
        pid in w.back.store.players && w.eng.seats[pid].amount <= w.back.store.players[pid].balance
    else
      forall pid :: pid in w.eng.seats && w.eng.seats[pid].cashedOut ==>
        pid in w.back.store.players && 0 <= w.back.store.players[pid].balance + w.eng.seats[pid].payout
  }

  /** The seats of an open transaction belong to known players: their debits or bet rows have gone through. */
  lemma SeatsKnown(env: Env, w: World, pid: int)
    requires Solvency.Inv(env, w) && w.control.Committing? && pid in w.eng.seats
    ensures pid in w.back.store.players
  {
    if w.control.kind.Takeoff? {
      assert Ledger.HasRow(w.eng, Visible(w), pid);
    } else {
      assert Ledger.HasRow(w.eng, w.back.store.bets, pid);
    }
  }

  /** A takeoff that is carried out keeps every balance at zero or above if and only if every stake is within
      its player's balance; a settlement, if and only if every payout, should it have wrapped around to a
      negative number, is. */
  lemma CommitSolventIff(env: Env, w: World, fate: Fate)
    requires Solvency.Inv(env, w) && w.control.Committing? && !fate.Failed? && Solvency.Solvent(w.back.store)
    ensures Solvency.Solvent(AfterCommit(w, fate).back.store) <==> Covered(w)
  {
    var s, s' := w.back.store, AfterCommit(w, fate).back.store;
    Solvency.CommitMoves(env, w, fate);
    forall pid | pid in w.eng.seats ensures pid in s.players { SeatsKnown(env, w, pid); }
    if Solvency.Solvent(s') {
      forall pid | pid in w.eng.seats
        ensures s.players[pid].balance + Solvency.Due(w.eng, w.control.kind, pid) >= 0
      {
        assert s'.players[pid].balance >= 0;
      }
    }
  }

  // ---------------------------------------------------------------- over runs

  /** The step is no commit that overdraws a balance. */
  ghost predicate CoveredStep(w: World, e: Event) {
    e.Commit? && !e.fate.Failed? && w.control.Committing? ==> Covered(w)
  }

  lemma OutsideSolvent(w: World, e: Event)
    requires e.Outside? && Ledger.Inv(w) && Solvency.Solvent(w.back.store)
    ensures Solvency.Solvent(Auth.Next(w.back, e.step).store)
  {
    Ledger.OutsideTouches(w.back, e.step);
  }

  /** Nothing but a commit takes money away. */
  lemma OtherStepsSolvent(env: Env, w: World, e: Event)
    requires Ledger.Inv(w) && Solvency.Solvent(w.back.store) && !e.Commit?
    ensures Solvency.Solvent(Step(env, w, e).back.store)
  {
    if Ready(w, e) {
      match e
      case Outside(_) => OutsideSolvent(w, e);
      case Statement(pid, ok) => StatementStores(w, pid, ok);
      case Start(roll, salt, endsAt, create, publish) =>
        StartStores(env, w, roll, salt, endsAt, create, publish, w.control.announce);
      case Commit(_) =>
      case _ => assert Step(env, w, e).back.store.players == w.back.store.players;
    }
  }

  lemma StepSolventIff(env: Env, w: World, e: Event)
    requires Solvency.Inv(env, w) && Solvency.Solvent(w.back.store)
    ensures Solvency.Solvent(Step(env, w, e).back.store) <==> CoveredStep(w, e)
  {
    if !e.Commit? {
      OtherStepsSolvent(env, w, e);
    } else if w.control.Committing? {
      CommitStep(env, w, e.fate);
      if !e.fate.Failed? { CommitSolventIff(env, w, e.fate); }
    }
  }

  ghost predicate AlwaysSolvent(env: Env, w: World, es: seq<Event>)
    decreases |es|
  {
    Solvency.Solvent(w.back.store) && (es == [] || AlwaysSolvent(env, Step(env, w, es[0]), es[1..]))
  }

  ghost predicate AlwaysCovered(env: Env, w: World, es: seq<Event>)
    decreases |es|
  {
    es == [] || (CoveredStep(w, es[0]) && AlwaysCovered(env, Step(env, w, es[0]), es[1..]))
  }

  lemma {:induction false} RunSolventIff(env: Env, w: World, es: seq<Event>)
    requires Solvency.Inv(env, w) && Solvency.Solvent(w.back.store)
    ensures AlwaysSolvent(env, w, es) <==> AlwaysCovered(env, w, es)
    decreases |es|
  {
    if es != [] {
      var w1 := Step(env, w, es[0]);
      StepSolventIff(env, w, es[0]);
      Solvency.StepKeeps(env, w, es[0]);
      if CoveredStep(w, es[0]) { RunSolventIff(env, w1, es[1..]); }
    }
  }

  /** Exact solvency: no balance is negative at any point of a run if and only if every commit that was carried
      out was covered when it was. */
  lemma SolventThroughoutIff(env: Env, es: seq<Event>)
    requires Growth(env.g)
    ensures AlwaysSolvent(env, INIT, es) <==> AlwaysCovered(env, INIT, es)
  {
    RunSolventIff(env, INIT, es);
  }
}
