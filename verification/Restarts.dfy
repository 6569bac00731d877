/** A process that is started again: the same machine from fresh memory on the tables it finds, but for the
    record of what earlier processes have broadcast. */
module Restarts {
  import opened Rounds
  import opened System
  import Auth
  import Store

  /** The world a process starts in. */
  function StartOn(back: Auth.Backend): World { World(FRESH, AtLoop, back, [], 0) }

  /** `w` with the broadcasts of earlier processes put before its own. */
  function After(past: seq<Snapshot>, w: World): World {
    w.(frames := past + w.frames, epoch := |past| + w.epoch)
  }

  lemma BroadcastAfter(past: seq<Snapshot>, w: World)
    ensures Broadcast(After(past, w)) == After(past, Broadcast(w))
  {
    assert past + w.frames + [SnapshotOf(w.eng)] == past + (w.frames + [SnapshotOf(w.eng)]);
  }

  lemma StatementAfter(past: seq<Snapshot>, w: World, pid: int, ok: bool)
    requires w.control.InTx?
    ensures AfterStatement(After(past, w), pid, ok) == After(past, AfterStatement(w, pid, ok))
  {
    assert Visible(After(past, w)) == Visible(w);
  }

  lemma CommandAfter(past: seq<Snapshot>, w: World, c: Command)
    ensures AfterCommand(After(past, w), c) == After(past, AfterCommand(w, c))
  {
    var w' := AfterCommand(w, c);
    if w'.frames != w.frames { BroadcastAfter(past, w'.(frames := w.frames)); }
  }

  lemma StartAfter(env: Env, past: seq<Snapshot>, w: World, e: Event)
    requires e.Start? && w.control.Starting?
    ensures Step(env, After(past, w), e) == After(past, Step(env, w, e))
  {
    StartStep(env, w, e);
    StartStep(env, After(past, w), e);
    assert StartQuietly(env, After(past, w), e) == After(past, StartQuietly(env, w, e));
    BroadcastAfter(past, StartQuietly(env, w, e));
  }

  lemma CommitAfter(env: Env, past: seq<Snapshot>, w: World, fate: Store.Fate)
    requires w.control.Committing?
    ensures AfterCommit(After(past, w), fate) == After(past, AfterCommit(w, fate))
  {
    var w' := AfterCommit(w, fate);
    if w'.frames != w.frames { BroadcastAfter(past, w'.(frames := w.frames)); }
  }

  lemma TickAfter(env: Env, past: seq<Snapshot>, w: World)
    ensures AfterFlightTick(env, After(past, w)) == After(past, AfterFlightTick(env, w))
  {
    BroadcastAfter(past, AfterFlightTick(env, w).(frames := w.frames));
  }

  /** What earlier processes broadcast has no influence. */
  lemma StepAfter(env: Env, past: seq<Snapshot>, w: World, e: Event)
    ensures Step(env, After(past, w), e) == After(past, Step(env, w, e))
  {
    if Ready(w, e) {
      match e
      case Handle(c) => CommandAfter(past, w, c);
      case Announce => BroadcastAfter(past, w);
      case Statement(pid, ok) => StatementAfter(past, w, pid, ok);
      case Commit(fate) => CommitAfter(env, past, w, fate);
      case Tick => TickAfter(env, past, w);
      case Start(_, _, _, _, _) => StartAfter(env, past, w, e);
      case _ =>
    }
  }

  lemma {:induction false} ExecAfter(env: Env, past: seq<Snapshot>, w: World, es: seq<Event>)
    ensures Exec(env, After(past, w), es) == After(past, Exec(env, w, es))
    decreases |es|
  {
    if es != [] {
      StepAfter(env, past, w, es[0]);
      ExecAfter(env, past, Step(env, w, es[0]), es[1..]);
    }
  }

  /** Every process but the first starts where the death of an earlier one has left the tables. */
  lemma RestartIsARun(env: Env, before: seq<Event>, es: seq<Event>)
    ensures var w := Exec(env, INIT, before);
            Exec(env, INIT, before + [ProcessCrash] + es)
            == After(w.frames, Exec(env, StartOn(w.back.(desk := Auth.CLOSED)), es))
  {
    var w := Exec(env, INIT, before);
    ExecSnoc(env, INIT, before, ProcessCrash);
    ExecConcat(env, INIT, before + [ProcessCrash], es);
    ExecAfter(env, w.frames, StartOn(w.back.(desk := Auth.CLOSED)), es);
    assert After(w.frames, StartOn(w.back.(desk := Auth.CLOSED))) == Step(env, w, ProcessCrash);
  }

  /** What the death of a process leaves: the tables, and nothing else. The engine is idle, without a round, a bet or
      a subscriber, and nobody is logged in. */
  lemma DeathLeaves(env: Env, w: World)
    ensures var w' := Step(env, w, ProcessCrash);
            && w'.control.AtLoop? && w'.eng.state.Idle? && w'.eng.seats == map[] && w'.eng.subs == {}
            && w'.back.store == w.back.store && w'.back.desk.active == {} && w'.back.desk.logins == map[]
            && w'.frames == w.frames && w'.epoch == |w.frames|
  {
  }
}
