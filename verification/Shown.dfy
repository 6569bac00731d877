/** What players are shown (internal/engine/engine.go:427-491): which steps take a snapshot, and that a snapshot is
    the engine as it stands, seat by seat. */
module Shown {
  import opened Rounds
  import opened System

  /** The view of a seat tells its stake, whether it is cashed out, at what, and for how much; not the target. */
  ghost predicate ShowsSeat(v: View, s: Seat) {
    && (v.displayName, v.hidden, v.amount) == (s.displayName, s.hidden, s.amount)
    && (v.cashedOut, v.mult, v.payout) == (s.cashedOut, s.mult, s.payout)
  }

  /** The snapshot is the engine as it stands, but for the draw, which it holds back until the crash. */
  ghost predicate Shows(f: Snapshot, e: Engine) {
    && (f.state, f.roundId, f.commitHash) == (e.state, e.roundId, e.commitHash)
    && (f.current, f.endsAt) == (e.current, e.endsAt)
    && (e.state.Crashed? ==> f.crash == e.crash && f.salt == e.salt)
    && (e.state.Betting? || e.state.Flying? || e.state.Idle? ==> f.crash == 0 && f.salt == "")
    && f.seats.Keys == e.seats.Keys
    && forall pid :: pid in e.seats ==> ShowsSeat(f.seats[pid], e.seats[pid])
  }

  /** The steps that take a snapshot. */
  ghost predicate TakesSnapshot(w: World, e: Event) {
    var s := w.eng.state;
    match e
    case Announce => w.control.AtLoop? && s.Betting?
    case Tick => w.control.AtLoop? && s.Flying?
    case Handle(Subscribe(_)) => w.control.AtLoop? && (s.Betting? || s.Flying?)
    case Handle(PlaceBet(pid, _, _, _, _)) => w.control.AtLoop? && s.Betting? && pid !in w.eng.seats
    case Handle(CashOut(pid)) =>
      w.control.AtLoop? && s.Flying? && pid in w.eng.seats && !w.eng.seats[pid].cashedOut
    case Commit(fate) => fate.Done? && w.control.Committing? && w.control.kind.Settlement?
    case Start(_, _, _, _, _) => w.control == Starting(true)
    case _ => false
  }

  lemma SnapshotShows(e: Engine)
    requires !e.state.Settling?
    ensures Shows(SnapshotOf(e), e)
  {
  }

  /** One more snapshot, of the engine as it stands. */
  ghost predicate OneMore(w: World, w': World) {
    w'.frames == w.frames + [SnapshotOf(w'.eng)]
  }

  lemma CommandTakes(env: Env, w: World, c: Command)
    ensures var w' := Step(env, w, Handle(c));
            if TakesSnapshot(w, Handle(c)) then OneMore(w, w') else w'.frames == w.frames
  {
  }

  lemma StepTakes(env: Env, w: World, e: Event)
    ensures var w' := Step(env, w, e);
            if TakesSnapshot(w, e) then OneMore(w, w') else w'.frames == w.frames
  {
    match e
    case Handle(c) => CommandTakes(env, w, c);
    case Start(_, _, _, _, _) =>
      if w.control.Starting? {
        StartStep(env, w, e);
        StartFrames(env, w, e.roll, e.salt, e.endsAt, e.create, e.publish, w.control.announce);
      }
    case Statement(pid, ok) => if w.control.InTx? { StatementStores(w, pid, ok); }
    case _ =>
  }

  /** A step adds a snapshot if and only if it is one of these, and then just one, of the engine as the step has
      left it. */
  lemma SnapshotTakenIff(env: Env, w: World, e: Event)
    requires Shape(w)
    ensures var w' := Step(env, w, e);
            if TakesSnapshot(w, e)
            then |w'.frames| == |w.frames| + 1 && w'.frames[..|w.frames|] == w.frames
                 && Shows(w'.frames[|w.frames|], w'.eng)
            else w'.frames == w.frames
  {
    ShapeKept(env, w, e);
    StepTakes(env, w, e);
    SnapshotShows(Step(env, w, e).eng);
  }

  /** From the first tick of a flight to the end of its round, the newest snapshot is the engine as it stands. */
  ghost predicate UpToDate(w: World) {
    (w.eng.state.Flying? && w.eng.ticks > 0) || w.eng.state.Crashed? ==>
      w.frames != [] && Shows(w.frames[|w.frames| - 1], w.eng)
  }

  lemma StatementUpToDate(w: World, pid: int, ok: bool)
    requires Shape(w) && UpToDate(w) && w.control.InTx?
    ensures UpToDate(AfterStatement(w, pid, ok))
  {
    StatementStores(w, pid, ok);
    if w.control.kind.Settlement? {
      assert AfterStatement(w, pid, ok).eng == w.eng || AfterStatement(w, pid, ok).eng.state.Idle?;
    } else {
      StatementLeaves(w, pid, ok);
    }
  }

  /** What a betting window or a takeoff leaves is no flight that has ticked. */
  ghost predicate Grounded(w: World) { w.eng.state.Betting? ==> w.eng.ticks == 0 }

  lemma StepGrounded(env: Env, w: World, e: Event)
    requires Shape(w) && Grounded(w)
    ensures Grounded(Step(env, w, e))
  {
    if Ready(w, e) {
      match e
      case Statement(pid, ok) => StatementLeaves(w, pid, ok);
      case Start(roll, salt, endsAt, create, publish) =>
        StartLeaves(env, w, roll, salt, endsAt, create, publish, w.control.announce);
      case _ =>
    }
  }

  /** A step that takes no snapshot, and is no statement or start of a round. */
  lemma QuietUpToDate(env: Env, w: World, e: Event)
    requires Shape(w) && UpToDate(w) && Grounded(w) && Ready(w, e)
    requires !TakesSnapshot(w, e) && !e.Statement? && !e.Start?
    ensures UpToDate(Step(env, w, e))
  {
    SnapshotTakenIff(env, w, e);
  }

  lemma StepUpToDate(env: Env, w: World, e: Event)
    requires Shape(w) && UpToDate(w) && Grounded(w)
    ensures UpToDate(Step(env, w, e))
  {
    if Ready(w, e) {
      if TakesSnapshot(w, e) {
        SnapshotTakenIff(env, w, e);
      } else {
        match e
        case Statement(pid, ok) => StatementUpToDate(w, pid, ok);
        case Start(roll, salt, endsAt, create, publish) =>
          StartLeaves(env, w, roll, salt, endsAt, create, publish, w.control.announce);
        case _ => QuietUpToDate(env, w, e);
      }
    }
  }

  lemma {:induction false} RunUpToDate(env: Env, w: World, es: seq<Event>)
    requires Shape(w) && UpToDate(w) && Grounded(w)
    ensures UpToDate(Exec(env, w, es))
    decreases |es|
  {
    if es != [] {
      ShapeKept(env, w, es[0]);
      StepGrounded(env, w, es[0]);
      StepUpToDate(env, w, es[0]);
      RunUpToDate(env, Step(env, w, es[0]), es[1..]);
    }
  }

  /** So in every run nobody who receives the newest snapshot is told anything but the truth about a flight: the
      multiplier, and who has cashed out at what and for how much. */
  lemma NewestIsTrue(env: Env, es: seq<Event>)
    ensures UpToDate(Exec(env, INIT, es))
  {
    RunUpToDate(env, INIT, es);
  }
}
