/** The whole system as one machine: the engine goroutine (internal/engine/engine.go), the database it
    writes to and the sessions that log in beside it. Every step is atomic in the source: one inbox
    command, one tick, one SQL statement. A step the system is not ready for changes nothing, so every
    sequence of steps is a run, with failures and process crashes wherever it puts them. */
module System {
  import opened Wrappers
  import opened GoInt
  import opened Rounds
  import opened Store
  import opened Multiplier
  import Auth
  import Fair

  /** The growth of the multiplier per tick and the hash function. */
  datatype Env = Env(g: real, sha: string -> string)

  datatype Engine = Engine(state: State, roundId: int, commitHash: string, crash: int, salt: string,
                           endsAt: int, current: int, ticks: nat, seats: map<int, Seat>, subs: set<int>)

  const FRESH := Engine(Idle, 0, "", 0, "", 0, 0, 0, map[], {})

  datatype Kind = Takeoff | Settlement

  /** Where the engine goroutine stands between two steps. */
  datatype Control =
    | AtLoop                                                    // at the top of runLoop, or in its select
    | Starting(announce: bool)                                  // in startRound; announce: from Idle
    | InTx(kind: Kind, ws: seq<Write>, todo: set<int>, half: Option<int>)  // half: balance adjusted, bet row not
    | Committing(kind: Kind, ws: seq<Write>)                    // rounds.state written, COMMIT to come
    | Revealing                                                 // crashed and broadcast, RevealOutcome to come
    | Pausing                                                   // settled, in the settle pause

  /** `frames` is every snapshot taken so far; those from `epoch` on are the running process's. */
  datatype World = World(eng: Engine, control: Control, back: Auth.Backend, frames: seq<Snapshot>, epoch: nat)

  const INIT := World(FRESH, AtLoop, Auth.Backend(EMPTY, Auth.CLOSED), [], 0)

  datatype Command =
    | Subscribe(pid: int)
    | Unsubscribe(pid: int)
    | PlaceBet(pid: int, displayName: string, hidden: bool, amount: int, auto: int)
    | CashOut(pid: int)

  datatype Event =
    | Handle(cmd: Command)                       // a command taken from the inbox
    | Announce                                   // the 500 ms betting ticker
    | BettingOver(begin: Fate)                   // the window closes: BEGIN, or the no-bets UPDATE
    | Statement(pid: int, ok: bool)              // the next statement for a participant in a transaction
    | MarkRound(fate: Fate)                      // rounds.state beside the transaction
    | Commit(fate: Fate)
    | Tick
    | Reveal(fate: Fate)                         // RevealOutcome
    | BeginSettle(ok: bool)
    | PauseOver
    | Start(roll: nat, salt: string, endsAt: int, create: Fate, publish: Fate)
    | ProcessCrash                               // the process dies and is started again
    | Outside(step: Auth.Step)                   // a login step, or midnight

  // ---------------------------------------------------------------- the engine's own state

  function SnapshotOf(e: Engine): Snapshot {
    var shown := e.state.Crashed? || e.state.Settling?;
    Snapshot(e.state, e.roundId, e.commitHash, e.current,
             if shown then e.crash else 0, if shown then e.salt else "", e.endsAt,
             map pid | pid in e.seats :: ViewOf(e.seats[pid]))
  }

  function WithSeat(e: Engine, pid: int, s: Seat): Engine {
    e.(seats := e.seats[pid := s])
  }

  /** The tick branch of runFlying: the auto-cashout pass, then the crash check. */
  function AfterTick(env: Env, e: Engine): Engine {
    var current := Curve(env.g, e.ticks + 1);
    e.(ticks := e.ticks + 1, current := current, seats := AutoPass(e.seats, current),
       state := if current >= e.crash then Crashed else e.state)
  }

  /** The cash-out branch of handleCmd. */
  predicate MayCashOut(e: Engine, pid: int) {
    e.state.Flying? && pid in e.seats && !e.seats[pid].cashedOut
  }

  predicate MayBet(e: Engine, pid: int) {
    e.state.Betting? && pid !in e.seats
  }

  // ---------------------------------------------------------------- steps

  function Broadcast(w: World): World {
    w.(frames := w.frames + [SnapshotOf(w.eng)])
  }

  function WithStore(w: World, s: Store): World {
    w.(back := w.back.(store := s))
  }

  /** Every error path of the two transactions: roll back and go to Idle. */
  function Abort(w: World): World {
    w.(eng := w.eng.(state := Idle), control := AtLoop)
  }

  /** waitForSubscribers when Idle, handleCmd when Betting or Flying; otherwise the inbox is not read. */
  function AfterCommand(w: World, c: Command): World {
    var e := w.eng;
    if e.state.Idle? then
      if c.Subscribe? then w.(eng := e.(subs := e.subs + {c.pid}), control := Starting(true)) else w
    else if e.state.Betting? || e.state.Flying? then
      match c
      case Subscribe(pid) => Broadcast(w.(eng := e.(subs := e.subs + {pid})))
      case Unsubscribe(pid) => w.(eng := e.(subs := e.subs - {pid}))
      case PlaceBet(pid, name, hidden, amount, auto) =>
        if MayBet(e, pid) then Broadcast(w.(eng := WithSeat(e, pid, NewSeat(name, hidden, amount, auto)))) else w
      case CashOut(pid) =>
        if MayCashOut(e, pid)
        then Broadcast(w.(eng := WithSeat(e, pid, CashedOutAt(e.seats[pid], e.current)))) else w
    else w
  }

  /** startRound's reset of the engine. */
  function Drawn(e: Engine, roll: nat, salt: string): Engine {
    e.(seats := map[], ticks := 0, current := 100, crash := Fair.SampleCrash(roll), salt := salt)
  }

  /** startRound, and the broadcast that follows it when it was called from Idle. */
  function AfterStart(env: Env, w: World, roll: nat, salt: string, endsAt: int, create: Fate, publish: Fate,
                      announce: bool): World
  {
    var crash := Fair.SampleCrash(roll);
    var e := Drawn(w.eng, roll, salt);
    var store := w.back.store;
    var id := store.nextRound;
    var hash := Fair.Commit(env.sha, id, crash, salt).1;
    var created := if create.Failed? then store else InsertRound(store, crash, salt);
    var w1 :=
      if !create.Done? then WithStore(w.(eng := e.(state := Idle)), created)
      else WithStore(w.(eng := e.(roundId := id, commitHash := hash, endsAt := endsAt, state := Betting)),
                     if publish.Failed? then created else PublishHash(created, id, hash));
    var w2 := w1.(control := AtLoop);
    if announce then Broadcast(w2) else w2
  }

  /** The head of commitBetsAndTakeoff. */
  function AfterBetting(w: World, begin: Fate): World {
    if w.eng.seats == map[] then
      var store := if begin.Failed? then w.back.store else MarkStage(w.back.store, w.eng.roundId, StageFlying);
      WithStore(w.(eng := w.eng.(state := Flying)), store)
    else if begin.Done? then w.(control := InTx(Takeoff, [], w.eng.seats.Keys, None))
    else Abort(w)
  }

  /** The bets visible inside the open transaction. */
  function Visible(w: World): map<int, Bet> {
    BetsAfter(w.back.store.bets, Pending(w.control))
  }

  function Pending(c: Control): seq<Write> {
    if c.InTx? || c.Committing? then c.ws else []
  }

  function BetRow(e: Engine, pid: int): Bet
    requires pid in e.seats
  {
    var s := e.seats[pid];
    Bet(e.roundId, pid, s.amount, if s.auto > 0 then Some(Int32(s.auto)) else None, None, None)
  }

  /** AdjustBalance: refused when there is no such player. */
  function AfterAdjust(w: World, pid: int, delta: int, ok: bool): World
    requires w.control.InTx?
  {
    if ok && pid in w.back.store.players
    then w.(control := w.control.(ws := w.control.ws + [Adjust(pid, delta)], half := Some(pid)))
    else Abort(w)
  }

  /** CreateBet: refused for an unknown player or round, or a second bet of the player in the round. The
      sequence is advanced at once and is not rolled back. */
  function AfterCreateBet(w: World, pid: int, ok: bool): World
    requires w.control.InTx? && pid in w.eng.seats
  {
    var store := w.back.store;
    if !ok || pid !in store.players || w.eng.roundId !in store.rounds || BetExists(Visible(w), w.eng.roundId, pid)
    then Abort(w)
    else
      var id := store.nextBet;
      WithStore(w.(eng := WithSeat(w.eng, pid, w.eng.seats[pid].(betId := id)),
                   control := InTx(w.control.kind, w.control.ws + [InsertBet(id, BetRow(w.eng, pid))],
                                   w.control.todo - {pid}, None)),
                store.(nextBet := id + 1))
  }

  /** SettleBet: refused when there is no such row. */
  function AfterSettleBet(w: World, pid: int, ok: bool): World
    requires w.control.InTx? && pid in w.eng.seats
  {
    var s := w.eng.seats[pid];
    if !ok || s.betId !in Visible(w) then Abort(w)
    else
      var write := if s.cashedOut then SettleBet(s.betId, Some(Int32(s.mult)), Some(s.payout))
                   else SettleBet(s.betId, None, None);
      w.(control := InTx(w.control.kind, w.control.ws + [write], w.control.todo - {pid}, None))
  }

  /** The next statement of the loop over the participants, in either transaction. */
  function AfterStatement(w: World, pid: int, ok: bool): World
    requires w.control.InTx?
  {
    var c := w.control;
    if pid !in c.todo || pid !in w.eng.seats || (c.half.Some? && c.half.value != pid) then w
    else
      var s := w.eng.seats[pid];
      match c.kind
      case Takeoff =>
        if c.half.None? then AfterAdjust(w, pid, -s.amount, ok) else AfterCreateBet(w, pid, ok)
      case Settlement =>
        if s.betId == 0 then w.(control := c.(todo := c.todo - {pid}))   // continue
        else if s.cashedOut && c.half.None? then AfterAdjust(w, pid, s.payout, ok)
        else AfterSettleBet(w, pid, ok)
  }

  /** The write of rounds.state before a COMMIT. It runs outside the transaction. */
  function AfterMark(w: World, fate: Fate): World
    requires w.control.InTx?
  {
    var stage := if w.control.kind.Takeoff? then StageFlying else StageSettled;
    var w1 := if fate.Failed? then w else WithStore(w, MarkStage(w.back.store, w.eng.roundId, stage));
    if fate.Done? then w1.(control := Committing(w.control.kind, w.control.ws)) else Abort(w1)
  }

  function AfterCommit(w: World, fate: Fate): World
    requires w.control.Committing?
  {
    var w1 := if fate.Failed? then w else WithStore(w, CommitWrites(w.back.store, w.control.ws));
    if !fate.Done? then Abort(w1)
    else if w.control.kind.Takeoff? then w1.(eng := w1.eng.(state := Flying), control := AtLoop)
    else Broadcast(w1.(control := Pausing))
  }

  function AfterFlightTick(env: Env, w: World): World {
    var e := AfterTick(env, w.eng);
    Broadcast(w.(eng := e, control := if e.state.Crashed? then Revealing else AtLoop))
  }

  predicate Ready(w: World, e: Event) {
    var c, s := w.control, w.eng.state;
    match e
    case Handle(_) => c.AtLoop?
    case Announce => c.AtLoop? && s.Betting?
    case BettingOver(_) => c.AtLoop? && s.Betting?
    case Statement(_, _) => c.InTx?
    case MarkRound(_) => c.InTx? && c.todo == {} && c.half.None?
    case Commit(_) => c.Committing?
    case Tick => c.AtLoop? && s.Flying?
    case Reveal(_) => c.Revealing?
    case BeginSettle(_) => c.AtLoop? && s.Crashed?
    case PauseOver => c.Pausing?
    case Start(_, _, _, _, _) => c.Starting?
    case ProcessCrash => true
    case Outside(_) => true
  }

  function Step(env: Env, w: World, e: Event): World {
    if !Ready(w, e) then w
    else
      match e
      case Handle(cmd) => AfterCommand(w, cmd)
      case Announce => Broadcast(w)
      case BettingOver(begin) => AfterBetting(w, begin)
      case Statement(pid, ok) => AfterStatement(w, pid, ok)
      case MarkRound(fate) => AfterMark(w, fate)
      case Commit(fate) => AfterCommit(w, fate)
      case Tick => AfterFlightTick(env, w)
      case Reveal(fate) =>
        var store := if fate.Failed? then w.back.store else MarkStage(w.back.store, w.eng.roundId, StageCrashed);
        WithStore(w.(control := AtLoop), store)
      case BeginSettle(ok) =>
        if ok then w.(control := InTx(Settlement, [], w.eng.seats.Keys, None)) else Abort(w)
      case PauseOver =>
        if w.eng.subs != {} then w.(control := Starting(false)) else Abort(w)
      case Start(roll, salt, endsAt, create, publish) =>
        AfterStart(env, w, roll, salt, endsAt, create, publish, w.control.announce)
      case ProcessCrash =>
        World(FRESH, AtLoop, w.back.(desk := Auth.CLOSED), w.frames, |w.frames|)
      case Outside(step) => w.(back := Auth.Next(w.back, step))
  }

  function Exec(env: Env, w: World, es: seq<Event>): World
    decreases |es|
  {
    if es == [] then w else Exec(env, Step(env, w, es[0]), es[1..])
  }

  lemma {:induction false} ExecConcat(env: Env, w: World, es: seq<Event>, more: seq<Event>)
    ensures Exec(env, w, es + more) == Exec(env, Exec(env, w, es), more)
    decreases |es|
  {
    if es == [] {
      assert es + more == more;
    } else {
      assert (es + more)[1..] == es[1..] + more;
      ExecConcat(env, Step(env, w, es[0]), es[1..], more);
    }
  }

  lemma ExecSnoc(env: Env, w: World, es: seq<Event>, e: Event)
    ensures Exec(env, w, es + [e]) == Step(env, Exec(env, w, es), e)
  {
    ExecConcat(env, w, es, [e]);
    var mid := Exec(env, w, es);
    assert Exec(env, mid, [e]) == Exec(env, Step(env, mid, e), [e][1..]);
  }

  // ---------------------------------------------------------------- control and state

  /** Which states go with which control points. StateSettling is declared but never entered. */
  ghost predicate Shape(w: World) {
    var s := w.eng.state;
    && !s.Settling?
    && match w.control
       case AtLoop => true
       case Starting(announce) => if announce then s.Idle? else s.Crashed?
       case InTx(kind, _, _, _) => if kind.Takeoff? then s.Betting? else s.Crashed?
       case Committing(kind, _) => if kind.Takeoff? then s.Betting? else s.Crashed?
       case Revealing => s.Crashed?
       case Pausing => s.Crashed?
  }

  lemma ShapeKept(env: Env, w: World, e: Event)
    requires Shape(w)
    ensures Shape(Step(env, w, e))
  {
  }

  /** What startRound leaves in the engine. */
  lemma StartLeaves(env: Env, w: World, roll: nat, salt: string, endsAt: int, create: Fate, publish: Fate,
                    announce: bool)
    ensures var e := AfterStart(env, w, roll, salt, endsAt, create, publish, announce).eng;
            && e.seats == map[] && e.ticks == 0 && e.current == 100
            && e.crash == Fair.SampleCrash(roll) && e.salt == salt
            && e.state == if create.Done? then Betting else Idle
  {
  }

  /** What a statement changes in the engine: at most one bet id, or the state on an error. */
  lemma StatementLeaves(w: World, pid: int, ok: bool)
    requires w.control.InTx?
    ensures var e := AfterStatement(w, pid, ok).eng;
            && e.seats.Keys == w.eng.seats.Keys
            && (forall q :: q in e.seats ==> e.seats[q] == w.eng.seats[q].(betId := e.seats[q].betId))
            && e == w.eng.(seats := e.seats, state := e.state)
            && (e.state == w.eng.state || e.state.Idle?)
  {
    if pid in w.control.todo && pid in w.eng.seats {
      if w.control.kind.Takeoff? && w.control.half == Some(pid) {
        assert AfterStatement(w, pid, ok) == AfterCreateBet(w, pid, ok);
      }
    }
  }

  /** What startRound leaves in the database: at most a new round row. */
  lemma StartStores(env: Env, w: World, roll: nat, salt: string, endsAt: int, create: Fate, publish: Fate,
                    announce: bool)
    ensures var w' := AfterStart(env, w, roll, salt, endsAt, create, publish, announce);
            var s, s' := w.back.store, w'.back.store;
            && w'.control.AtLoop? && w'.epoch == w.epoch && w'.back.desk == w.back.desk
            && s' == s.(rounds := s'.rounds, nextRound := s'.nextRound, drawn := s'.drawn)
            && (if create.Failed? then s' == s
                else
                  && s'.nextRound == s.nextRound + 1
                  && s'.drawn == s.drawn[s.nextRound := (Fair.SampleCrash(roll), salt)]
                  && s'.rounds.Keys == s.rounds.Keys + {s.nextRound}
                  && s'.rounds == s.rounds[s.nextRound := s'.rounds[s.nextRound]])
            && (create.Done? ==> w'.eng.roundId == s.nextRound)
            && (!create.Done? ==> w'.eng.roundId == w.eng.roundId && w'.eng.commitHash == w.eng.commitHash)
  {
  }

  /** What a statement of an open transaction changes in the database at once: the bet id sequence. */
  lemma StatementStores(w: World, pid: int, ok: bool)
    requires w.control.InTx?
    ensures var w' := AfterStatement(w, pid, ok);
            && w'.back == w.back.(store := w.back.store.(nextBet := w'.back.store.nextBet))
            && w.back.store.nextBet <= w'.back.store.nextBet
            && w'.frames == w.frames && w'.epoch == w.epoch
            && (w'.control.InTx? ==> w'.control.kind == w.control.kind)
            && !w'.control.Committing?
  {
  }

  /** The round broadcast of startRound, when it is announced. */
  lemma StartFrames(env: Env, w: World, roll: nat, salt: string, endsAt: int, create: Fate, publish: Fate,
                    announce: bool)
    ensures var w' := AfterStart(env, w, roll, salt, endsAt, create, publish, announce);
            w'.frames == w.frames + if announce then [SnapshotOf(w'.eng)] else []
  {
  }

  // ---------------------------------------------------------------- the statement steps one by one

  lemma AdjustStep(env: Env, w: World, pid: int, ok: bool)
    requires w.control.InTx? && w.control.half.None? && pid in w.control.todo && pid in w.eng.seats
    requires w.control.kind.Settlement? ==> w.eng.seats[pid].cashedOut && w.eng.seats[pid].betId != 0
    ensures Step(env, w, Statement(pid, ok))
            == AfterAdjust(w, pid, if w.control.kind.Takeoff? then -w.eng.seats[pid].amount
                                   else w.eng.seats[pid].payout, ok)
  {
  }

  lemma CreateBetStep(env: Env, w: World, pid: int, ok: bool)
    requires w.control.InTx? && w.control.kind.Takeoff? && w.control.half == Some(pid)
    requires pid in w.control.todo && pid in w.eng.seats
    ensures Step(env, w, Statement(pid, ok)) == AfterCreateBet(w, pid, ok)
  {
  }

  lemma SettleBetStep(env: Env, w: World, pid: int, ok: bool)
    requires w.control.InTx? && w.control.kind.Settlement?
    requires pid in w.control.todo && pid in w.eng.seats && w.eng.seats[pid].betId != 0
    requires w.control.half == if w.eng.seats[pid].cashedOut then Some(pid) else None
    ensures Step(env, w, Statement(pid, ok)) == AfterSettleBet(w, pid, ok)
  {
  }

  lemma CommitStep(env: Env, w: World, fate: Fate)
    requires w.control.Committing?
    ensures var stored := WithStore(w, if fate.Failed? then w.back.store else CommitWrites(w.back.store, w.control.ws));
            Step(env, w, Commit(fate))
            == if !fate.Done? then Abort(stored)
               else if w.control.kind.Takeoff? then stored.(eng := w.eng.(state := Flying), control := AtLoop)
               else Broadcast(stored.(control := Pausing))
  {
  }

  /** The machine's step for startRound when nothing is announced. */
  function StartQuietly(env: Env, w: World, e: Event): World
    requires e.Start?
  {
    AfterStart(env, w, e.roll, e.salt, e.endsAt, e.create, e.publish, false)
  }

  lemma StartStep(env: Env, w: World, e: Event)
    requires w.control.Starting? && e.Start?
    ensures var w' := StartQuietly(env, w, e);
            Step(env, w, e) == if w.control.announce then Broadcast(w') else w'
  {
  }

  /** startRound when CreateRound fails. */
  lemma StartFailsStep(env: Env, w: World, roll: nat, salt: string, endsAt: int, create: Fate, publish: Fate)
    requires !create.Done?
    ensures var store := if create.Failed? then w.back.store
                         else InsertRound(w.back.store, Fair.SampleCrash(roll), salt);
            StartQuietly(env, w, Start(roll, salt, endsAt, create, publish))
            == WithStore(w.(eng := Drawn(w.eng, roll, salt).(state := Idle), control := AtLoop), store)
  {
  }

  /** startRound when it succeeds; the hash update may still fail. */
  lemma StartOpensStep(env: Env, w: World, roll: nat, salt: string, endsAt: int, publish: Fate, hash: string)
    requires hash == Fair.Commit(env.sha, w.back.store.nextRound, Fair.SampleCrash(roll), salt).1
    ensures var id := w.back.store.nextRound;
            var e := Drawn(w.eng, roll, salt).(roundId := id, commitHash := hash, endsAt := endsAt, state := Betting);
            var store := InsertRound(w.back.store, Fair.SampleCrash(roll), salt);
            StartQuietly(env, w, Start(roll, salt, endsAt, Done, publish))
            == WithStore(w.(eng := e, control := AtLoop),
                         if publish.Failed? then store else PublishHash(store, id, hash))
  {
  }
}
