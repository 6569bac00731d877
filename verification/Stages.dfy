/** rounds.state and the round's record: each mark is in the row if and only if its statement did not fail, a round
    whose marks go through is at every moment marked as what it is, and its row verifies for good. */
module Stages {
  import opened Wrappers
  import opened GoInt
  import opened Rounds
  import opened Store
  import opened Multiplier
  import opened System
  import Fair
  import Flight
  import Ledger
  import WriteOrder

  ghost predicate MarkedAs(s: Store, round: int, stage: Stage) {
    round in s.rounds && s.rounds[round].stage == stage
  }

  /** Nothing but the stage of one round is different. */
  ghost predicate OnlyStage(s: Store, s': Store, round: int) {
    && s' == s.(rounds := s'.rounds) && s'.rounds.Keys == s.rounds.Keys
    && forall id :: id in s.rounds ==>
         s'.rounds[id] == if id == round then s.rounds[id].(stage := s'.rounds[id].stage) else s.rounds[id]
  }

  /** RevealOutcome, in any reachable state: the round is marked crashed if and only if the statement did not fail,
      and the settlement follows in either case. */
  lemma RevealMarksIff(env: Env, w: World, fate: Fate)
    requires WriteOrder.Inv(env, w) && w.control.Revealing?
    ensures var w' := Step(env, w, Reveal(fate));
            && w'.control.AtLoop? && w'.eng == w.eng
            && (MarkedAs(w'.back.store, w.eng.roundId, StageCrashed) <==> !fate.Failed?)
            && OnlyStage(w.back.store, w'.back.store, w.eng.roundId)
  {
  }

  /** A takeoff without bets flies whatever becomes of its statement, and is marked so if and only if that did not
      fail. */
  lemma EmptyTakeoffMarksIff(env: Env, w: World, begin: Fate)
    requires WriteOrder.Inv(env, w) && w.control.AtLoop? && w.eng.state.Betting?
    requires forall pid :: pid !in w.eng.seats
    ensures var w' := Step(env, w, BettingOver(begin));
            && w'.control.AtLoop? && w'.eng == w.eng.(state := Flying)
            && (MarkedAs(w'.back.store, w.eng.roundId, StageFlying) <==> !begin.Failed?)
            && OnlyStage(w.back.store, w'.back.store, w.eng.roundId)
  {
    Inhabited(w.eng.seats.Keys);
    assert w.eng.seats.Keys == {};
  }

  /** The mark before a COMMIT: flying before that of a takeoff, settled before that of a settlement. It goes on to
      the COMMIT only if the statement is reported as done. */
  lemma TransactionMarksIff(env: Env, w: World, fate: Fate)
    requires WriteOrder.Inv(env, w) && Ready(w, MarkRound(fate))
    ensures var w', kind := Step(env, w, MarkRound(fate)), w.control.kind;
            && (MarkedAs(w'.back.store, w.eng.roundId, if kind.Takeoff? then StageFlying else StageSettled)
                <==> !fate.Failed?)
            && OnlyStage(w.back.store, w'.back.store, w.eng.roundId)
            && (w'.control == Committing(kind, w.control.ws) <==> fate.Done?)
            && (!fate.Done? ==> w'.control.AtLoop? && w'.eng == w.eng.(state := Idle))
  {
  }

  // ---------------------------------------------------------------- a round without failing marks

  /** What the row of the current round should say. */
  function StageNow(w: World): Stage {
    match w.control
    case AtLoop =>
      if w.eng.state.Betting? then StageBetting else if w.eng.state.Flying? then StageFlying else StageCrashed
    case InTx(kind, _, _, _) => if kind.Takeoff? then StageBetting else StageCrashed
    case Committing(kind, _) => if kind.Takeoff? then StageFlying else StageSettled
    case Revealing => StageFlying
    case Pausing => StageSettled
    case Starting(_) => StageSettled
  }

  ghost predicate StageRight(w: World) {
    Flight.InRound(w.eng) ==> MarkedAs(w.back.store, w.eng.roundId, StageNow(w))
  }

  /** The event is no mark that fails. */
  ghost predicate Lands(e: Event) {
    match e
    case BettingOver(begin) => !begin.Failed?
    case MarkRound(fate) => !fate.Failed?
    case Reveal(fate) => !fate.Failed?
    case _ => true
  }

  lemma StartRight(env: Env, w: World, e: Event)
    requires WriteOrder.Inv(env, w) && e.Start? && w.control.Starting?
    ensures StageRight(Step(env, w, e))
  {
    StartStores(env, w, e.roll, e.salt, e.endsAt, e.create, e.publish, w.control.announce);
    StartLeaves(env, w, e.roll, e.salt, e.endsAt, e.create, e.publish, w.control.announce);
  }

  lemma StatementStaysRight(w: World, pid: int, ok: bool)
    requires Shape(w) && StageRight(w) && w.control.InTx?
    ensures StageRight(AfterStatement(w, pid, ok))
  {
    StatementStores(w, pid, ok);
    StatementLeaves(w, pid, ok);
    assert AfterStatement(w, pid, ok).control.InTx? || AfterStatement(w, pid, ok).eng.state.Idle?;
  }

  /** Steps that leave the round rows alone. */
  lemma QuietStaysRight(env: Env, w: World, e: Event)
    requires Shape(w) && StageRight(w) && Ready(w, e)
    requires e.Handle? || e.Announce? || e.Tick? || e.Commit? || e.BeginSettle? || e.PauseOver? || e.ProcessCrash?
    ensures StageRight(Step(env, w, e))
  {
    assert Step(env, w, e).back.store.rounds == w.back.store.rounds;
  }

  lemma BettingOverStaysRight(env: Env, w: World, begin: Fate)
    requires WriteOrder.Inv(env, w) && StageRight(w) && Ready(w, BettingOver(begin)) && !begin.Failed?
    ensures StageRight(AfterBetting(w, begin))
  {
  }

  lemma StepStaysRight(env: Env, w: World, e: Event)
    requires WriteOrder.Inv(env, w) && StageRight(w) && Lands(e)
    ensures StageRight(Step(env, w, e))
  {
    if Ready(w, e) {
      match e
      case Start(_, _, _, _, _) => StartRight(env, w, e);
      case Outside(step) => Ledger.OutsideTouches(w.back, step);
      case Statement(pid, ok) => StatementStaysRight(w, pid, ok);
      case BettingOver(begin) => BettingOverStaysRight(env, w, begin);
      case Reveal(fate) => RevealMarksIff(env, w, fate);
      case MarkRound(fate) => TransactionMarksIff(env, w, fate);
      case _ => QuietStaysRight(env, w, e);
    }
  }

  lemma {:induction false} RunStaysRight(env: Env, w: World, es: seq<Event>)
    requires WriteOrder.Inv(env, w) && StageRight(w) && forall i :: 0 <= i < |es| ==> Lands(es[i])
    ensures StageRight(Exec(env, w, es))
    decreases |es|
  {
    if es != [] {
      WriteOrder.StepKeeps(env, w, es[0]);
      StepStaysRight(env, w, es[0]);
      RunStaysRight(env, Step(env, w, es[0]), es[1..]);
    }
  }

  /** From any start of a round on, as long as no mark fails, the row of the current round says at every moment how
      far the round is: betting, flying, crashed or settled. */
  lemma RowSaysWhatIs(env: Env, before: seq<Event>, start: Event, es: seq<Event>)
    requires Growth(env.g) && start.Start? && Exec(env, INIT, before).control.Starting?
    requires forall i :: 0 <= i < |es| ==> Lands(es[i])
    ensures StageRight(Exec(env, INIT, before + [start] + es))
  {
    var w := Exec(env, INIT, before);
    WriteOrder.RunKeeps(env, INIT, before);
    WriteOrder.StepKeeps(env, w, start);
    StartRight(env, w, start);
    RunStaysRight(env, Step(env, w, start), es);
    ExecSnoc(env, INIT, before, start);
    ExecConcat(env, INIT, before + [start], es);
  }

  // ---------------------------------------------------------------- a row that verifies

  /** A round that starts without failures has a new row, still betting, with the salt and the hash that the engine
      then shows. */
  lemma StartWritesRow(env: Env, w: World, e: Event)
    requires w.control.Starting? && e.Start? && e.create.Done? && e.publish.Done?
    ensures var w', id, crash := Step(env, w, e), w.back.store.nextRound, Fair.SampleCrash(e.roll);
            && w'.eng.state.Betting? && w'.eng.roundId == id
            && w'.eng.commitHash == Fair.Commit(env.sha, id, crash, e.salt).1
            && id in w'.back.store.rounds
            && w'.back.store.rounds[id] == RoundRow(w'.eng.commitHash, Int32(crash), e.salt, StageBetting)
            && forall other :: other in w.back.store.rounds && other != id ==>
                 other in w'.back.store.rounds && w'.back.store.rounds[other] == w.back.store.rounds[other]
  {
    StartStep(env, w, e);
    StartOpensStep(env, w, e.roll, e.salt, e.endsAt, Done,
                   Fair.Commit(env.sha, w.back.store.nextRound, Fair.SampleCrash(e.roll), e.salt).1);
  }

  /** Whenever a run starts a round without failures and its crash point fits the column, the row verifies, then
      and after whatever happens next. */
  lemma RowVerifiesForGood(env: Env, before: seq<Event>, start: Event, es: seq<Event>)
    requires Growth(env.g) && Exec(env, INIT, before).control.Starting?
    requires start.Start? && start.create.Done? && start.publish.Done? && Fair.SampleCrash(start.roll) < INT32_LIMIT
    ensures var id, rows := Exec(env, INIT, before).back.store.nextRound,
                            Exec(env, INIT, before + [start] + es).back.store.rounds;
            && id in rows && rows[id].crash == Fair.SampleCrash(start.roll) && rows[id].salt == start.salt
            && Fair.Verify(env.sha, id, rows[id].crash, rows[id].salt, rows[id].commitHash)
  {
    var w := Exec(env, INIT, before);
    WriteOrder.RunKeeps(env, INIT, before);
    WriteOrder.StepKeeps(env, w, start);
    StartWritesRow(env, w, start);
    Int32Exact(Fair.SampleCrash(start.roll));
    WriteOrder.RunAdvances(env, Step(env, w, start), es);
    ExecSnoc(env, INIT, before, start);
    ExecConcat(env, INIT, before + [start], es);
  }
}
