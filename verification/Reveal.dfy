/** Commit and reveal (internal/engine/engine.go:139-169, 463-491): the hash every player is shown before
    the crash is the hash of what is revealed after it, over every run. */
module Reveal {
  import opened Wrappers
  import opened GoInt
  import opened Rounds
  import opened Store
  import opened System
  import Auth
  import Fair
  import Ledger

  // ---------------------------------------------------------------- invariant

  /** The hash of what a round was created with. */
  function HashOf(env: Env, drawn: map<int, (int, string)>, round: int): string
    requires round in drawn
  {
    Fair.Commit(env.sha, round, drawn[round].0, drawn[round].1).1
  }

  ghost predicate InRound(state: State) { state.Betting? || state.Flying? || state.Crashed? }

  /** A snapshot shows the hash of its round's draw; only after the crash does it show the draw itself. */
  ghost predicate FrameOk(env: Env, drawn: map<int, (int, string)>, f: Snapshot) {
    && !f.state.Settling?
    && (InRound(f.state) ==> f.roundId in drawn)
    && (f.roundId != 0 ==> f.roundId in drawn && f.commitHash == HashOf(env, drawn, f.roundId))
    && (f.state.Crashed? ==> (f.crash, f.salt) == drawn[f.roundId])
    && (!f.state.Crashed? ==> f.crash == 0 && f.salt == "")
  }

  ghost predicate EngineOk(env: Env, s: Store, e: Engine) {
    && 0 <= e.roundId < s.nextRound
    && (e.roundId != 0 ==> e.roundId in s.drawn && e.commitHash == HashOf(env, s.drawn, e.roundId))
    && (InRound(e.state) ==> e.roundId != 0 && s.drawn[e.roundId] == (e.crash, e.salt))
  }

  ghost predicate RowOk(env: Env, s: Store, id: int) {
    && id in s.drawn && id in s.rounds
    && s.rounds[id].crash == Int32(s.drawn[id].0) && s.rounds[id].salt == s.drawn[id].1
    && (s.rounds[id].commitHash == PENDING || s.rounds[id].commitHash == HashOf(env, s.drawn, id))
  }

  ghost predicate StoreOk(env: Env, s: Store) {
    && 1 <= s.nextRound
    && (forall id :: id in s.drawn ==> 1 <= id < s.nextRound && s.drawn[id].0 >= 100)
    && (forall id :: id in s.drawn <==> id in s.rounds)
    && (forall id :: id in s.rounds ==> RowOk(env, s, id))
  }

  function At(f: Snapshot): int { Position(f.state, f.roundId) }

  function EngineAt(e: Engine): int { Position(e.state, e.roundId) }

  /** The running process's snapshots never go back to an earlier round or an earlier state of a round. */
  ghost predicate FramesOrdered(w: World) {
    && w.epoch <= |w.frames|
    && (forall i, j :: w.epoch <= i <= j < |w.frames| ==> At(w.frames[i]) <= At(w.frames[j]))
    && (forall i :: w.epoch <= i < |w.frames| ==> At(w.frames[i]) <= EngineAt(w.eng))
  }

  ghost predicate FramesOk(env: Env, w: World) {
    forall i :: 0 <= i < |w.frames| ==> FrameOk(env, w.back.store.drawn, w.frames[i])
  }

  ghost predicate Inv(env: Env, w: World) {
    && Shape(w)
    && StoreOk(env, w.back.store)
    && EngineOk(env, w.back.store, w.eng)
    && FramesOk(env, w)
    && FramesOrdered(w)
  }

  // ---------------------------------------------------------------- preservation

  lemma BroadcastKeeps(env: Env, w: World)
    requires Inv(env, w)
    ensures Inv(env, Broadcast(w))
  {
    var f := SnapshotOf(w.eng);
    assert FrameOk(env, w.back.store.drawn, f) && At(f) == EngineAt(w.eng);
  }

  /** Steps that neither draw a round nor change which round is current. */
  lemma SameRoundKeeps(env: Env, w: World, w': World)
    requires Inv(env, w) && Shape(w')
    requires w'.frames == w.frames && w'.epoch == w.epoch
    requires StoreOk(env, w'.back.store)
    requires w'.back.store.drawn == w.back.store.drawn && w'.back.store.nextRound == w.back.store.nextRound
    requires w'.eng.roundId == w.eng.roundId && w'.eng.commitHash == w.eng.commitHash
    requires w'.eng.crash == w.eng.crash && w'.eng.salt == w.eng.salt
    requires InRound(w'.eng.state) ==> InRound(w.eng.state)
    requires EngineAt(w.eng) <= EngineAt(w'.eng)
    ensures Inv(env, w')
  {
  }

  lemma MarkKeeps(env: Env, s: Store, id: int, stage: Stage)
    requires StoreOk(env, s)
    ensures StoreOk(env, MarkStage(s, id, stage))
  {
    var s' := MarkStage(s, id, stage);
    forall r | r in s'.rounds ensures RowOk(env, s', r) {
      assert RowOk(env, s, r);
    }
  }

  lemma SameTablesKeep(env: Env, s: Store, s': Store)
    requires StoreOk(env, s)
    requires s'.rounds == s.rounds && s'.drawn == s.drawn && s'.nextRound == s.nextRound
    ensures StoreOk(env, s')
  {
    forall r | r in s'.rounds ensures RowOk(env, s', r) {
      assert RowOk(env, s, r);
    }
  }

  lemma InsertRoundKeeps(env: Env, s: Store, crash: int, salt: string)
    requires StoreOk(env, s) && crash >= 100
    ensures var s' := InsertRound(s, crash, salt);
            && StoreOk(env, s')
            && s'.drawn[s.nextRound] == (crash, salt)
            && StoreOk(env, PublishHash(s', s.nextRound, HashOf(env, s'.drawn, s.nextRound)))
  {
    var s' := InsertRound(s, crash, salt);
    forall r | r in s'.rounds ensures RowOk(env, s', r) {
      if r != s.nextRound { assert RowOk(env, s, r); }
    }
    var s'' := PublishHash(s', s.nextRound, HashOf(env, s'.drawn, s.nextRound));
    forall r | r in s''.rounds ensures RowOk(env, s'', r) {
      assert RowOk(env, s', r);
    }
  }

  /** A new draw does not disturb the snapshots of earlier rounds. */
  lemma NewDrawKeepsFrames(env: Env, w: World, s': Store)
    requires Inv(env, w)
    requires forall id :: id in w.back.store.drawn ==> id in s'.drawn && s'.drawn[id] == w.back.store.drawn[id]
    ensures FramesOk(env, WithStore(w, s'))
  {
    forall i | 0 <= i < |w.frames| ensures FrameOk(env, s'.drawn, w.frames[i]) {
      assert FrameOk(env, w.back.store.drawn, w.frames[i]);
    }
  }

  lemma StartKeeps(env: Env, w: World, roll: nat, salt: string, endsAt: int, create: Fate, publish: Fate)
    requires Inv(env, w) && w.control.Starting?
    ensures Inv(env, AfterStart(env, w, roll, salt, endsAt, create, publish, false))
  {
    var w' := AfterStart(env, w, roll, salt, endsAt, create, publish, false);
    var s, s', crash := w.back.store, w'.back.store, Fair.SampleCrash(roll);
    StartLeaves(env, w, roll, salt, endsAt, create, publish, false);
    InsertRoundKeeps(env, s, crash, salt);
    var made := InsertRound(s, crash, salt);
    assert HashOf(env, made.drawn, s.nextRound) == Fair.Commit(env.sha, s.nextRound, crash, salt).1;
    NewDrawKeepsFrames(env, w, s');
    NewRoundOrdered(env, w, w');
  }

  lemma NewRoundOrdered(env: Env, w: World, w': World)
    requires Inv(env, w) && w'.frames == w.frames && w'.epoch == w.epoch
    requires w'.eng.roundId > w.eng.roundId || (w'.eng.roundId == w.eng.roundId && w'.eng.state.Idle?)
    ensures FramesOrdered(w')
  {
  }

  lemma CommandKeeps(env: Env, w: World, c: Command)
    requires Inv(env, w) && w.control.AtLoop?
    ensures Inv(env, AfterCommand(w, c))
  {
    var w', e := AfterCommand(w, c), w.eng;
    var w1 := w'.(frames := w.frames);
    SameRoundKeeps(env, w, w1);
    BroadcastKeeps(env, w1);
    assert w' == w1 || w' == Broadcast(w1);
  }

  lemma TickKeeps(env: Env, w: World)
    requires Inv(env, w) && w.control.AtLoop? && w.eng.state.Flying?
    ensures Inv(env, AfterFlightTick(env, w))
  {
    var w' := AfterFlightTick(env, w);
    var w1 := w'.(frames := w.frames);
    SameRoundKeeps(env, w, w1);
    BroadcastKeeps(env, w1);
    assert w' == Broadcast(w1);
  }

  lemma StatementKeeps(env: Env, w: World, pid: int, ok: bool)
    requires Inv(env, w) && w.control.InTx?
    ensures Inv(env, AfterStatement(w, pid, ok))
  {
    var w' := AfterStatement(w, pid, ok);
    StatementLeaves(w, pid, ok);
    StatementStores(w, pid, ok);
    SameTablesKeep(env, w.back.store, w'.back.store);
    SameRoundKeeps(env, w, w');
  }

  lemma CommitKeeps(env: Env, w: World, fate: Fate)
    requires Inv(env, w) && w.control.Committing?
    ensures Inv(env, AfterCommit(w, fate))
  {
    var w' := AfterCommit(w, fate);
    var w1 := w'.(frames := w.frames);
    SameTablesKeep(env, w.back.store, w'.back.store);
    SameRoundKeeps(env, w, w1);
    BroadcastKeeps(env, w1);
    assert w' == w1 || w' == Broadcast(w1);
  }

  lemma MarkRoundKeeps(env: Env, w: World, fate: Fate)
    requires Inv(env, w) && w.control.InTx?
    ensures Inv(env, AfterMark(w, fate))
  {
    var w' := AfterMark(w, fate);
    MarkKeeps(env, w.back.store, w.eng.roundId, if w.control.kind.Takeoff? then StageFlying else StageSettled);
    SameRoundKeeps(env, w, w');
  }

  lemma BettingOverKeeps(env: Env, w: World, begin: Fate)
    requires Inv(env, w) && w.control.AtLoop? && w.eng.state.Betting?
    ensures Inv(env, AfterBetting(w, begin))
  {
    MarkKeeps(env, w.back.store, w.eng.roundId, StageFlying);
    SameRoundKeeps(env, w, AfterBetting(w, begin));
  }

  lemma RevealKeeps(env: Env, w: World, fate: Fate)
    requires Inv(env, w) && w.control.Revealing?
    ensures Inv(env, Step(env, w, Reveal(fate)))
  {
    MarkKeeps(env, w.back.store, w.eng.roundId, StageCrashed);
    SameRoundKeeps(env, w, Step(env, w, Reveal(fate)));
  }

  lemma LocalKeeps(env: Env, w: World, e: Event)
    requires Inv(env, w) && Ready(w, e) && (e.BeginSettle? || e.PauseOver?)
    ensures Inv(env, Step(env, w, e))
  {
    SameRoundKeeps(env, w, Step(env, w, e));
  }

  lemma CrashKeeps(env: Env, w: World)
    requires Inv(env, w)
    ensures Inv(env, Step(env, w, ProcessCrash))
  {
  }

  lemma StartStepKeeps(env: Env, w: World, e: Event)
    requires Inv(env, w) && Ready(w, e) && e.Start?
    ensures Inv(env, Step(env, w, e))
  {
    StartKeeps(env, w, e.roll, e.salt, e.endsAt, e.create, e.publish);
    BroadcastKeeps(env, StartQuietly(env, w, e));
    StartStep(env, w, e);
  }

  lemma OutsideKeeps(env: Env, w: World, e: Auth.Step)
    requires Inv(env, w)
    ensures Inv(env, Step(env, w, Outside(e)))
  {
    var w' := Step(env, w, Outside(e));
    Ledger.OutsideTouches(w.back, e);
    SameTablesKeep(env, w.back.store, w'.back.store);
    SameRoundKeeps(env, w, w');
  }

  lemma StepKeeps(env: Env, w: World, e: Event)
    requires Inv(env, w)
    ensures Inv(env, Step(env, w, e))
  {
    ShapeKept(env, w, e);
    if Ready(w, e) {
      match e
      case Handle(c) => CommandKeeps(env, w, c);
      case Announce => BroadcastKeeps(env, w);
      case Tick => TickKeeps(env, w);
      case Statement(pid, ok) => StatementKeeps(env, w, pid, ok);
      case Commit(fate) => CommitKeeps(env, w, fate);
      case Start(_, _, _, _, _) => StartStepKeeps(env, w, e);
      case Outside(step) => OutsideKeeps(env, w, step);
      case BettingOver(begin) => BettingOverKeeps(env, w, begin);
      case MarkRound(fate) => MarkRoundKeeps(env, w, fate);
      case Reveal(fate) => RevealKeeps(env, w, fate);
      case BeginSettle(_) => LocalKeeps(env, w, e);
      case PauseOver => LocalKeeps(env, w, e);
      case ProcessCrash => CrashKeeps(env, w);
    }
  }

  lemma {:induction false} RunKeeps(env: Env, w: World, es: seq<Event>)
    requires Inv(env, w)
    ensures Inv(env, Exec(env, w, es))
    decreases |es|
  {
    if es != [] {
      StepKeeps(env, w, es[0]);
      RunKeeps(env, Step(env, w, es[0]), es[1..]);
    }
  }

  // ---------------------------------------------------------------- main results

  /** Commit/reveal. In any run, failed round creations and restarts included, what a crashed snapshot reveals
      verifies against the hash any earlier snapshot of the round has shown, which is the hash of the string that
      parses to the revealed draw; and under a collision-free hash no other round, crash point or salt does. */
  lemma RevealMatchesCommit(env: Env, es: seq<Event>, i: nat, j: nat, round: nat, crash: nat, salt: string)
    ensures var frames := Exec(env, INIT, es).frames;
            i < |frames| && j < |frames| && (frames[i].state.Betting? || frames[i].state.Flying?)
            && frames[j].state.Crashed? && frames[j].roundId == frames[i].roundId ==>
              var hash, shown := frames[i].commitHash, frames[j];
              && Fair.Verify(env.sha, shown.roundId, shown.crash, shown.salt, hash)
              && shown.roundId >= 0 && shown.crash >= 0
              && (forall s :: Fair.Parse(s) == Some(Fair.Opening(shown.roundId, shown.crash, shown.salt)) ==>
                    env.sha(s) == hash)
              && (Fair.CollisionFree(env.sha) && Fair.Verify(env.sha, round, crash, salt, hash) ==>
                    round == shown.roundId && crash == shown.crash && salt == shown.salt)
  {
    RunKeeps(env, INIT, es);
    var w := Exec(env, INIT, es);
    var frames := w.frames;
    if i < |frames| && j < |frames| && InRound(frames[i].state) && frames[j].state.Crashed?
       && frames[j].roundId == frames[i].roundId {
      assert FrameOk(env, w.back.store.drawn, frames[i]) && FrameOk(env, w.back.store.drawn, frames[j]);
      var shown := frames[j];
      Fair.VerifyExactly(env.sha, shown.roundId, shown.crash, shown.salt, round, crash, salt);
      forall s | Fair.Parse(s) == Some(Fair.Opening(shown.roundId, shown.crash, shown.salt))
        ensures env.sha(s) == frames[i].commitHash
      {
        Fair.CommitHashesPreimage(env.sha, shown.roundId, shown.crash, shown.salt, s);
      }
    }
  }

  /** Before the crash a snapshot shows neither the crash point nor the salt. */
  lemma HiddenUntilCrash(env: Env, es: seq<Event>, i: nat)
    ensures var frames := Exec(env, INIT, es).frames;
            i < |frames| && !frames[i].state.Crashed? ==> frames[i].crash == 0 && frames[i].salt == ""
  {
    RunKeeps(env, INIT, es);
    var w := Exec(env, INIT, es);
    if i < |w.frames| { assert FrameOk(env, w.back.store.drawn, w.frames[i]); }
  }

  /** The stored row is a weaker record than the snapshots: it verifies exactly when the hash update went
      through and the crash point fits the 32-bit column it was narrowed to. */
  lemma RowVerifiesIff(env: Env, es: seq<Event>, id: int)
    requires Fair.CollisionFree(env.sha) && forall x: string :: env.sha(x) != PENDING
    ensures var s := Exec(env, INIT, es).back.store;
            id in s.rounds ==>
              id in s.drawn
              && (Fair.Verify(env.sha, id, s.rounds[id].crash, s.rounds[id].salt, s.rounds[id].commitHash)
                  <==> s.rounds[id].commitHash != PENDING && s.drawn[id].0 < INT32_LIMIT)
  {
    RunKeeps(env, INIT, es);
    var s := Exec(env, INIT, es).back.store;
    if id in s.rounds {
      assert RowOk(env, s, id);
      var (crash, salt) := s.drawn[id];
      Int32Exact(crash);
      Fair.MultiplierDecidesPreimage(id, Int32(crash), crash, salt);
    }
  }
}
