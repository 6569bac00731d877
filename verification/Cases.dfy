/** Runs that show what the program does and does not promise: concrete sequences of events, each of which
    the system can go through from its start. */
module Cases {
  import opened Wrappers
  import opened GoInt
  import opened Rounds
  import opened Store
  import opened Multiplier
  import opened System
  import Auth
  import Fair
  import Faultless
  import Flight
  import Ledger
  import Reveal
  import Solvency
  import Stakes
  import WholeRound
  import WriteOrder

  /** Player `pid` subscribes to an idle engine, and a round opens. */
  function Opening(pid: int, roll: nat, salt: string, publish: Fate): seq<Event> {
    [Handle(Subscribe(pid)), Start(roll, salt, 0, Done, publish)]
  }

  lemma OpeningOpens(env: Env, w: World, pid: int, roll: nat, salt: string, publish: Fate)
    requires w.control.AtLoop? && w.eng.state.Idle?
    ensures var w', s := Exec(env, w, Opening(pid, roll, salt, publish)), w.back.store;
            var made := InsertRound(s, Fair.SampleCrash(roll), salt);
            && w'.control.AtLoop? && w'.eng.state.Betting?
            && w'.eng.subs == w.eng.subs + {pid}
            && w'.eng == w'.eng.(roundId := s.nextRound, crash := Fair.SampleCrash(roll), seats := map[], ticks := 0)
            && w'.frames == w.frames + [SnapshotOf(w'.eng)]
            && w'.back.store == if publish.Failed? then made else PublishHash(made, s.nextRound, w'.eng.commitHash)
  {
    var subscribe, start := Handle(Subscribe(pid)), Start(roll, salt, 0, Done, publish);
    var w1 := Step(env, w, subscribe);
    Faultless.Two(env, w, subscribe, start);
    StartStep(env, w1, start);
    StartOpensStep(env, w1, roll, salt, 0, publish,
                   Fair.Commit(env.sha, w1.back.store.nextRound, Fair.SampleCrash(roll), salt).1);
  }

  // ---------------------------------------------------------------- rows that do not verify

  /** A round drawn with a crash point beyond the 32-bit column leaves a row that does not verify. */
  lemma NarrowedRowFails(env: Env, roll: nat, salt: string)
    requires Fair.CollisionFree(env.sha) && forall x: string :: env.sha(x) != PENDING
    requires Fair.SampleCrash(roll) >= INT32_LIMIT
    ensures var rows := Exec(env, INIT, Opening(1, roll, salt, Done)).back.store.rounds;
            1 in rows && !Fair.Verify(env.sha, 1, rows[1].crash, rows[1].salt, rows[1].commitHash)
  {
    OpeningOpens(env, INIT, 1, roll, salt, Done);
    Reveal.RowVerifiesIff(env, Opening(1, roll, salt, Done), 1);
  }

  /** The highest roll is one. */
  lemma HighestRollIsNarrowed(env: Env, salt: string)
    requires Fair.CollisionFree(env.sha) && forall x: string :: env.sha(x) != PENDING
    ensures var rows := Exec(env, INIT, Opening(1, Fair.ROLLS - 1, salt, Done)).back.store.rounds;
            1 in rows && !Fair.Verify(env.sha, 1, rows[1].crash, rows[1].salt, rows[1].commitHash)
  {
    Stakes.HighestRoll();
    NarrowedRowFails(env, Fair.ROLLS - 1, salt);
  }

  /** And so does any round whose hash update fails. */
  lemma UnpublishedRowFails(env: Env, roll: nat, salt: string)
    requires Fair.CollisionFree(env.sha) && forall x: string :: env.sha(x) != PENDING
    ensures var rows := Exec(env, INIT, Opening(1, roll, salt, Failed)).back.store.rounds;
            1 in rows && !Fair.Verify(env.sha, 1, rows[1].crash, rows[1].salt, rows[1].commitHash)
  {
    OpeningOpens(env, INIT, 1, roll, salt, Failed);
    Reveal.RowVerifiesIff(env, Opening(1, roll, salt, Failed), 1);
  }

  // ---------------------------------------------------------------- one betting window after another

  /** When a takeoff with bets fails, the next snapshot anyone is sent is the next round's betting window. */
  lemma BettingFollowsBetting(env: Env, w: World, pid: int, roll: nat, salt: string)
    requires w.control.AtLoop? && w.eng.state.Betting? && w.eng.seats != map[]
    ensures var w' := Exec(env, w, [BettingOver(Failed)] + Opening(pid, roll, salt, Done));
            && w'.frames == w.frames + [SnapshotOf(w'.eng)]
            && w'.eng.state.Betting? && w'.eng.roundId == w.back.store.nextRound
  {
    var w1 := Step(env, w, BettingOver(Failed));
    Faultless.One(env, w, BettingOver(Failed));
    ExecConcat(env, w, [BettingOver(Failed)], Opening(pid, roll, salt, Done));
    OpeningOpens(env, w1, pid, roll, salt, Done);
  }

  /** It happens: round 1 opens, player 1 bets, the takeoff fails, player 2 subscribes. */
  lemma TwoBettingWindows(env: Env)
    ensures var frames := Exec(env, INIT, Opening(1, 0, "", Done) + [Handle(PlaceBet(1, "", false, 5, 0))]
                                          + ([BettingOver(Failed)] + Opening(2, 0, "", Done))).frames;
            && |frames| == 3 && (forall i :: 0 <= i < 3 ==> frames[i].state.Betting?)
            && frames[0].roundId == 1 && frames[1].roundId == 1 && frames[2].roundId == 2
  {
    var opening, bet := Opening(1, 0, "", Done), Handle(PlaceBet(1, "", false, 5, 0));
    var rest := [BettingOver(Failed)] + Opening(2, 0, "", Done);
    OpeningOpens(env, INIT, 1, 0, "", Done);
    ExecSnoc(env, INIT, opening, bet);
    ExecConcat(env, INIT, opening + [bet], rest);
    var w := Exec(env, INIT, opening + [bet]);
    assert 1 in w.eng.seats;
    BettingFollowsBetting(env, w, 2, 0, "");
  }

  // ---------------------------------------------------------------- settled, paid and unpaid

  /** A player logs in for the first time. */
  const LOGIN := [Outside(Auth.Reserve(1, "key")), Outside(Auth.Lookup(1, true)), Outside(Auth.Create(1, Done))]

  /** Round 1 opens with a crash point of 1.00x, and the player stakes `amount` on a target of `auto`. */
  function Betting1(amount: int, auto: int): seq<Event> {
    LOGIN + Opening(1, 0, "", Done) + [Handle(PlaceBet(1, "", false, amount, auto))]
  }

  function Seated(amount: int, auto: int): map<int, Seat> { map[1 := NewSeat("", false, amount, auto)] }

  lemma LoggedIn(env: Env)
    ensures var w := Exec(env, INIT, LOGIN);
            && w == INIT.(back := w.back)
            && w.back.store == EMPTY.(players := map[1 := Player("key", STARTING_BALANCE, None)], nextPlayer := 2)
  {
    var a, b, c := LOGIN[0], LOGIN[1], LOGIN[2];
    Faultless.Two(env, INIT, a, b);
    ExecSnoc(env, INIT, [a, b], c);
    assert LOGIN == [a, b] + [c];
    var w1 := Step(env, INIT, a);
    assert w1.back.desk.logins[1] == Auth.Looking("key");
    assert !Known(w1.back.store.players, "key");
    var w2 := Step(env, w1, b);
    assert w2.back.desk.logins[1] == Auth.Creating("key") && w2.back.store == w1.back.store;
  }

  lemma Bets(env: Env, w: World, amount: int, auto: int)
    requires w.control.AtLoop? && w.eng.state.Betting? && w.eng.seats == map[]
    ensures var w' := Step(env, w, Handle(PlaceBet(1, "", false, amount, auto)));
            w'.control.AtLoop? && w'.eng == w.eng.(seats := Seated(amount, auto)) && w'.back == w.back
  {
  }

  lemma BetTaken(env: Env, amount: int, auto: int)
    ensures var w := Exec(env, INIT, Betting1(amount, auto));
            && w.control.AtLoop? && w.eng.state.Betting? && w.eng.seats == Seated(amount, auto)
            && w.eng.crash == 100 && w.eng.ticks == 0 && w.eng.roundId == 1 && w.eng.subs == {1}
            && w.back.store.players == map[1 := Player("key", STARTING_BALANCE, None)]
  {
    var opening := Opening(1, 0, "", Done);
    LoggedIn(env);
    OpeningOpens(env, Exec(env, INIT, LOGIN), 1, 0, "", Done);
    ExecConcat(env, INIT, LOGIN, opening);
    Bets(env, Exec(env, INIT, LOGIN + opening), amount, auto);
    ExecSnoc(env, INIT, LOGIN + opening, Handle(PlaceBet(1, "", false, amount, auto)));
  }

  /** The takeoff of a single player without failures. */
  function TakeoffOf(amount: int, auto: int): seq<Event> {
    Faultless.Transaction(Takeoff, Seated(amount, auto), [1]) + [Commit(Done)]
  }

  /** The round takes off, crashes on its first tick, and is settled up to the COMMIT. */
  const BET := Betting1(100, 107)
  const TAKEOFF := TakeoffOf(100, 107)
  const LANDING := [Tick, Reveal(Done)]
  const SETTLING := [BeginSettle(true), Statement(1, true), Statement(1, true), MarkRound(Done)]
  const RUN := BET + TAKEOFF + LANDING + SETTLING

  lemma InvAt(env: Env, es: seq<Event>)
    requires Growth(env.g)
    ensures Solvency.Inv(env, Exec(env, INIT, es))
  {
    Solvency.RunKeeps(env, INIT, es);
  }

  /** Whatever the stake, a single known player takes off, and the stake is taken from the balance. */
  lemma TookOff(env: Env, w: World, amount: int, auto: int)
    requires Solvency.Inv(env, w) && w.control.AtLoop? && w.eng.state.Betting? && w.eng.seats == Seated(amount, auto)
    requires w.back.store.players.Keys == {1}
    ensures var w' := Exec(env, w, TakeoffOf(amount, auto));
            && w'.control.AtLoop? && w'.eng.state.Flying?
            && w'.eng == w.eng.(seats := w'.eng.seats, state := Flying)
            && w'.eng.seats.Keys == {1} && w'.eng.seats[1].betId != 0
            && w'.eng.seats[1] == NewSeat("", false, amount, auto).(betId := w'.eng.seats[1].betId)
            && w'.back.store.players.Keys == {1}
            && w'.back.store.players[1].balance == w.back.store.players[1].balance - amount
  {
    assert 1 in w.eng.seats;
    Faultless.TakeoffAloneIff(env, w, [1]);
    HasRowThen(env, w, amount, auto);
  }

  lemma HasRowThen(env: Env, w: World, amount: int, auto: int)
    requires Solvency.Inv(env, w)
    ensures var w' := Exec(env, w, TakeoffOf(amount, auto));
            w'.control.AtLoop? && w'.eng.state.Flying? && 1 in w'.eng.seats ==> w'.eng.seats[1].betId != 0
  {
    Solvency.RunKeeps(env, w, TakeoffOf(amount, auto));
    var w' := Exec(env, w, TakeoffOf(amount, auto));
    if w'.control.AtLoop? && w'.eng.state.Flying? && 1 in w'.eng.seats { HasBetId(env, w'); }
  }

  lemma HasBetId(env: Env, w: World)
    requires Ledger.Inv(w) && w.control.AtLoop? && w.eng.state.Flying? && 1 in w.eng.seats
    ensures w.eng.seats[1].betId != 0
  {
    assert Ledger.HasRow(w.eng, w.back.store.bets, 1);
  }

  lemma Flown(env: Env)
    requires Growth(env.g)
    ensures var w := Exec(env, INIT, BET + TAKEOFF + LANDING);
            && w.control.AtLoop? && w.eng.state.Crashed? && w.eng.roundId == 1
            && w.eng.seats.Keys == {1} && w.eng.seats[1].betId != 0
            && w.eng.seats[1].cashedOut && w.eng.seats[1].payout == 107
            && w.back.store.players.Keys == {1} && w.back.store.players[1].balance == STARTING_BALANCE - 100
  {
    var w0, w := Exec(env, INIT, BET), Exec(env, INIT, BET + TAKEOFF);
    BetTaken(env, 100, 107);
    InvAt(env, BET);
    TookOff(env, w0, 100, 107);
    ExecConcat(env, INIT, BET, TAKEOFF);
    FirstTickCrashes(env, w);
    Faultless.Two(env, w, Tick, Reveal(Done));
    ExecConcat(env, INIT, BET + TAKEOFF, LANDING);
  }

  lemma FirstTickCrashes(env: Env, w: World)
    requires Growth(env.g) && w.control.AtLoop? && w.eng.state.Flying? && w.eng.ticks == 0 && w.eng.crash == 100
    requires w.eng.seats.Keys == {1}
    requires w.eng.seats[1] == NewSeat("", false, 100, 107).(betId := w.eng.seats[1].betId)
    ensures var w' := Step(env, Step(env, w, Tick), Reveal(Done));
            && w'.control.AtLoop? && w'.eng.state.Crashed? && w'.eng.roundId == w.eng.roundId
            && w'.eng.seats == map[1 := CashedOutAt(w.eng.seats[1], 107)]
            && w'.eng.seats[1].payout == 107
            && w'.back.store.players == w.back.store.players && w'.back.store.bets == w.back.store.bets
  {
    CurveStep(env.g, 0);
    PayoutExactIff(100, 107);
    assert AutoPass(w.eng.seats, Curve(env.g, 1)) == map[1 := CashedOutAt(w.eng.seats[1], 107)];
  }

  lemma ScriptOfOne(seats: map<int, Seat>)
    requires 1 in seats && seats[1].betId != 0 && seats[1].cashedOut
    ensures Faultless.Transaction(Settlement, seats, [1]) == SETTLING
  {
    assert Faultless.Script(Settlement, seats, [1])
           == Faultless.Statements(Settlement, seats[1], 1) + Faultless.Script(Settlement, seats, [1][1..]);
  }

  lemma Settling(env: Env)
    requires Growth(env.g)
    ensures var w, w' := Exec(env, INIT, BET + TAKEOFF + LANDING), Exec(env, INIT, RUN);
            && w'.control.Committing? && w'.control.kind.Settlement? && w'.eng == w.eng
            && w'.back.store.players == w.back.store.players
  {
    var w := Exec(env, INIT, BET + TAKEOFF + LANDING);
    Flown(env);
    InvAt(env, BET + TAKEOFF + LANDING);
    Faultless.SettlementAlone(env, w, [1]);
    ScriptOfOne(w.eng.seats);
    ExecConcat(env, INIT, BET + TAKEOFF + LANDING, SETTLING);
  }

  /** The commit goes through: the player has staked 100 of 2000 and been paid 107. */
  lemma SettledAndPaid(env: Env)
    requires Growth(env.g)
    ensures var w := Exec(env, INIT, RUN + [Commit(Done)]);
            && w.eng.seats.Keys == {1} && w.back.store.players.Keys == {1} && w.back.store.players[1].balance == 2007
            && 1 in w.back.store.rounds && w.back.store.rounds[1].stage.StageSettled?
            && w.eng.seats[1].betId in w.back.store.bets
            && w.back.store.bets[w.eng.seats[1].betId].payout == Some(107)
  {
    Flown(env);
    Settling(env);
    InvAt(env, RUN);
    ExecSnoc(env, INIT, RUN, Commit(Done));
    var w := Exec(env, INIT, RUN);
    CommitStep(env, w, Done);
    Solvency.CommitMoves(env, w, Done);
    Solvency.SettledIsPaidIff(env, w, Done, 1);
    assert Step(env, w, Commit(Done)).back == AfterCommit(w, Done).back;
  }

  /** The same run as a round: it meets all that the closed form of a round asks for. */
  const ROUND := WholeRound.Round([Handle(PlaceBet(1, "", false, 100, 107))], TAKEOFF, [Tick],
                                  [Reveal(Done)] + SETTLING + [Commit(Done)])

  lemma TakeoffIsCalm()
    ensures WholeRound.IsTakeoff(TAKEOFF)
  {
    var script := Faultless.Script(Takeoff, Seated(100, 107), [1]);
    Faultless.ScriptIsStatements(Takeoff, Seated(100, 107), [1]);
    assert TAKEOFF == [BettingOver(Done)] + script + [MarkRound(Done)] + [Commit(Done)];
    forall i | 1 <= i < |TAKEOFF| ensures WholeRound.Calm(TAKEOFF[i]) {
      assert i <= |script| ==> TAKEOFF[i] == script[i - 1];
    }
  }

  lemma SameAsRun(env: Env)
    ensures var w := Exec(env, INIT, LOGIN + Opening(1, 0, "", Done));
            && Exec(env, w, ROUND.window) == Exec(env, INIT, BET)
            && WholeRound.TakenOff(env, w, ROUND) == Exec(env, INIT, BET + TAKEOFF)
            && WholeRound.Crashed(env, w, ROUND) == Step(env, Exec(env, INIT, BET + TAKEOFF), Tick)
            && WholeRound.Over(env, w, ROUND) == Exec(env, INIT, RUN + [Commit(Done)])
  {
    var start, w2 := LOGIN + Opening(1, 0, "", Done), Exec(env, INIT, BET + TAKEOFF);
    ExecConcat(env, INIT, start, ROUND.window);
    ExecConcat(env, INIT, BET, TAKEOFF);
    Faultless.One(env, w2, Tick);
    ExecConcat(env, w2, [Tick], ROUND.landing);
    ExecConcat(env, INIT, BET + TAKEOFF, [Tick] + ROUND.landing);
    assert RUN + [Commit(Done)] == BET + TAKEOFF + ([Tick] + ROUND.landing);
  }

  lemma RoundOpens(env: Env)
    ensures var w := Exec(env, INIT, LOGIN + Opening(1, 0, "", Done));
            && w.control.AtLoop? && w.eng.state.Betting? && w.eng.seats == map[] && w.back.store.players.Keys == {1}
  {
    LoggedIn(env);
    OpeningOpens(env, Exec(env, INIT, LOGIN), 1, 0, "", Done);
    ExecConcat(env, INIT, LOGIN, Opening(1, 0, "", Done));
  }

  lemma RoundTakesOff(env: Env)
    requires Growth(env.g)
    ensures var w := Exec(env, INIT, BET + TAKEOFF);
            w.control.AtLoop? && w.eng.state.Flying? && Step(env, w, Tick).eng.state.Crashed?
  {
    BetTaken(env, 100, 107);
    InvAt(env, BET);
    TookOff(env, Exec(env, INIT, BET), 100, 107);
    ExecConcat(env, INIT, BET, TAKEOFF);
    CrashesAtOnce(env, Exec(env, INIT, BET + TAKEOFF));
  }

  lemma CrashesAtOnce(env: Env, w: World)
    requires Growth(env.g) && w.control.AtLoop? && w.eng.state.Flying? && w.eng.crash == 100
    ensures Step(env, w, Tick).eng.state.Crashed?
  {
    CurveStep(env.g, w.eng.ticks);
    CurveMonotone(env.g, 0, w.eng.ticks + 1);
  }

  lemma RoundPauses(env: Env)
    requires Growth(env.g)
    ensures Exec(env, INIT, RUN + [Commit(Done)]).control.Pausing?
  {
    Settling(env);
    ExecSnoc(env, INIT, RUN, Commit(Done));
    CommitStep(env, Exec(env, INIT, RUN), Done);
  }

  lemma RoundFlies(env: Env)
    requires Growth(env.g)
    ensures var w := Exec(env, INIT, LOGIN + Opening(1, 0, "", Done));
            Flight.Airborne(WholeRound.TakenOff(env, w, ROUND)) && WholeRound.Crashed(env, w, ROUND).eng.state.Crashed?
  {
    SameAsRun(env);
    RoundTakesOff(env);
  }

  lemma RoundEnds(env: Env)
    requires Growth(env.g)
    ensures WholeRound.Over(env, Exec(env, INIT, LOGIN + Opening(1, 0, "", Done)), ROUND).control.Pausing?
  {
    SameAsRun(env);
    RoundPauses(env);
  }

  lemma RoundCompletes(env: Env)
    requires Growth(env.g)
    ensures var w := Exec(env, INIT, LOGIN + Opening(1, 0, "", Done));
            WholeRound.Completes(env, w, ROUND) && 1 in w.back.store.players
  {
    RoundOpens(env);
    TakeoffIsCalm();
    RoundFlies(env);
    RoundEnds(env);
  }

  /** Whenever the commit of a settlement fails, or the process dies before it, the round is marked settled and
      no cash-out of the round is in the bet rows, then and after whatever happens next. */
  lemma SettledForGoodUnpaid(env: Env, es: seq<Event>, last: Event, more: seq<Event>, pid: int)
    requires Growth(env.g) && (last == Commit(Failed) || last == ProcessCrash)
    requires var w := Exec(env, INIT, es);
             w.control.Committing? && w.control.kind.Settlement? && pid in w.eng.seats && w.eng.seats[pid].cashedOut
    ensures var e, s := Exec(env, INIT, es).eng, Exec(env, Exec(env, INIT, es + [last]), more).back.store;
            && e.roundId in s.rounds && s.rounds[e.roundId].stage.StageSettled?
            && e.seats[pid].betId in s.bets && s.bets[e.seats[pid].betId].payout == None
  {
    var w := Exec(env, INIT, es);
    InvAt(env, es);
    InvAt(env, es + [last]);
    ExecSnoc(env, INIT, es, last);
    UnpaidAfter(env, w, last, pid);
    StaysSo(env, Step(env, w, last), more, w.eng.roundId, w.eng.seats[pid].betId);
  }

  lemma StaysSo(env: Env, w: World, more: seq<Event>, round: int, id: int)
    requires WriteOrder.Inv(env, w) && WriteOrder.Abandoned(w, id)
    requires round in w.back.store.rounds && w.back.store.rounds[round].stage.StageSettled?
    ensures var s := Exec(env, w, more).back.store;
            && round in s.rounds && s.rounds[round].stage.StageSettled?
            && id in s.bets && s.bets[id].payout == None
  {
    WriteOrder.UnpaidForGood(env, w, more, id);
    WriteOrder.RunAdvances(env, w, more);
  }

  lemma UnpaidAfter(env: Env, w: World, last: Event, pid: int)
    requires Solvency.Inv(env, w) && w.control.Committing? && w.control.kind.Settlement?
    requires last == Commit(Failed) || last == ProcessCrash
    requires pid in w.eng.seats && w.eng.seats[pid].cashedOut
    ensures var w1, round := Step(env, w, last), w.eng.roundId;
            && WriteOrder.Abandoned(w1, w.eng.seats[pid].betId)
            && round in w1.back.store.rounds && w1.back.store.rounds[round].stage.StageSettled?
  {
    CommitStep(env, w, Failed);
    Solvency.SettledIsPaidIff(env, w, Failed, pid);
    assert Ledger.HasRow(w.eng, w.back.store.bets, pid);
    assert Step(env, w, last).back.store == w.back.store == AfterCommit(w, Failed).back.store;
  }

  /** So it is when the mark itself is reported as failed although it was carried out. */
  lemma MarkedButRolledBack(env: Env, es: seq<Event>, more: seq<Event>, pid: int)
    requires Growth(env.g)
    requires var w := Exec(env, INIT, es);
             && w.control.InTx? && w.control.kind.Settlement? && Ready(w, MarkRound(Uncertain))
             && pid in w.eng.seats && w.eng.seats[pid].cashedOut
    ensures var e, w1 := Exec(env, INIT, es).eng, Exec(env, INIT, es + [MarkRound(Uncertain)]);
            var s := Exec(env, w1, more).back.store;
            && e.roundId in s.rounds && s.rounds[e.roundId].stage.StageSettled?
            && e.seats[pid].betId in s.bets && s.bets[e.seats[pid].betId].payout == None
  {
    var w := Exec(env, INIT, es);
    InvAt(env, es);
    InvAt(env, es + [MarkRound(Uncertain)]);
    ExecSnoc(env, INIT, es, MarkRound(Uncertain));
    RolledBack(env, w, pid);
    StaysSo(env, Step(env, w, MarkRound(Uncertain)), more, w.eng.roundId, w.eng.seats[pid].betId);
  }

  lemma RolledBack(env: Env, w: World, pid: int)
    requires Solvency.Inv(env, w) && w.control.InTx? && w.control.kind.Settlement? && Ready(w, MarkRound(Uncertain))
    requires pid in w.eng.seats && w.eng.seats[pid].cashedOut
    ensures var w1, round := Step(env, w, MarkRound(Uncertain)), w.eng.roundId;
            && WriteOrder.Abandoned(w1, w.eng.seats[pid].betId)
            && round in w1.back.store.rounds && w1.back.store.rounds[round].stage.StageSettled?
  {
    assert Ledger.HasRow(w.eng, w.back.store.bets, pid);
  }

  /** It happens: the cash-out of 107 has been announced to the player, the round is settled, and the 107 are
      never paid. */
  lemma SettledYetUnpaid(env: Env, last: Event, more: seq<Event>)
    requires Growth(env.g) && (last == Commit(Failed) || last == ProcessCrash)
    ensures var seats, s := Exec(env, INIT, RUN).eng.seats, Exec(env, Exec(env, INIT, RUN + [last]), more).back.store;
            && 1 in seats && seats[1].cashedOut && seats[1].payout == 107
            && 1 in s.rounds && s.rounds[1].stage.StageSettled?
            && seats[1].betId in s.bets && s.bets[seats[1].betId].payout == None
  {
    Flown(env);
    Settling(env);
    SettledForGoodUnpaid(env, RUN, last, more, 1);
  }

  // ---------------------------------------------------------------- below zero

  /** A stake beyond the balance is taken all the same: the engine does not look, and the column may go below
      zero. A new player who stakes 3000 of 2000 credits is left with -1000. */
  lemma Overdrawn(env: Env, amount: int)
    requires Growth(env.g)
    ensures var w := Exec(env, INIT, Betting1(amount, 0) + TakeoffOf(amount, 0));
            && w.eng.state.Flying? && 1 in w.back.store.players
            && w.back.store.players[1].balance == STARTING_BALANCE - amount
            && (amount > STARTING_BALANCE ==> !Solvency.Solvent(w.back.store))
  {
    BetTaken(env, amount, 0);
    InvAt(env, Betting1(amount, 0));
    TookOff(env, Exec(env, INIT, Betting1(amount, 0)), amount, 0);
    ExecConcat(env, INIT, Betting1(amount, 0), TakeoffOf(amount, 0));
  }

  /** The flight of a bet without a target crashes on its first tick, the settlement goes through, and the next
      round opens, as player 1 is still subscribed. */
  const LOST := [Tick, Reveal(Done)]
  const SETTLED := [BeginSettle(true), Statement(1, true), MarkRound(Done), Commit(Done)]
  const NEXT := [PauseOver, Start(0, "", 0, Done, Done)]

  /** A single player in the air without a target, on a crash point of 1.00x. */
  ghost predicate Aloft(w: World, amount: int) {
    && w.control.AtLoop? && w.eng.state.Flying?
    && w.eng.ticks == 0 && w.eng.crash == 100 && w.eng.subs == {1}
    && w.eng.seats.Keys == {1} && w.eng.seats[1].betId != 0
    && w.eng.seats[1] == NewSeat("", false, amount, 0).(betId := w.eng.seats[1].betId)
    && w.back.store.players.Keys == {1}
  }

  lemma FlightLost(env: Env, w: World, amount: int)
    requires Growth(env.g) && Aloft(w, amount)
    ensures var w' := Exec(env, w, LOST);
            && w'.control.AtLoop? && w'.eng.state.Crashed?
            && w'.eng.seats == w.eng.seats && w'.eng.subs == w.eng.subs
            && w'.back.store.players == w.back.store.players
  {
    Faultless.Two(env, w, Tick, Reveal(Done));
    CurveStep(env.g, 0);
    assert AutoPass(w.eng.seats, Curve(env.g, 1)) == w.eng.seats;
  }

  lemma ScriptOfNone(seats: map<int, Seat>)
    requires 1 in seats && seats[1].betId != 0 && !seats[1].cashedOut
    ensures Faultless.Transaction(Settlement, seats, [1]) + [Commit(Done)] == SETTLED
  {
    assert Faultless.Script(Settlement, seats, [1])
           == Faultless.Statements(Settlement, seats[1], 1) + Faultless.Script(Settlement, seats, [1][1..]);
  }

  lemma NothingToPay(env: Env, w: World)
    requires Solvency.Inv(env, w) && w.control.AtLoop? && w.eng.state.Crashed?
    requires w.eng.seats.Keys == {1} && w.eng.seats[1].betId != 0 && !w.eng.seats[1].cashedOut
    requires w.back.store.players.Keys == {1}
    ensures var w' := Exec(env, w, SETTLED);
            && w'.control.Pausing? && w'.eng == w.eng
            && w'.back.store.players.Keys == {1}
            && w'.back.store.players[1].balance == w.back.store.players[1].balance
  {
    Faultless.SettlementAlonePays(env, w, [1]);
    ScriptOfNone(w.eng.seats);
  }

  lemma NextRound(env: Env, w: World)
    requires w.control.Pausing? && w.eng.subs == {1}
    ensures var w' := Exec(env, w, NEXT);
            && w'.control.AtLoop? && w'.eng.state.Betting? && w'.eng.seats == map[] && w'.eng.subs == {1}
            && w'.eng.ticks == 0 && w'.eng.crash == 100
            && w'.back.store.players == w.back.store.players
  {
    var w1, start := Step(env, w, PauseOver), Start(0, "", 0, Done, Done);
    assert 1 in w.eng.subs;
    Faultless.Two(env, w, PauseOver, start);
    StartStep(env, w1, start);
    StartOpensStep(env, w1, 0, "", 0, Done, Fair.Commit(env.sha, w1.back.store.nextRound, 100, "").1);
  }

  /** Round 2 after a lost round 1, with the same stake. */
  function SecondBet(amount: int): seq<Event> {
    LOST + SETTLED + NEXT + [Handle(PlaceBet(1, "", false, amount, 0))]
  }

  lemma RoundLost(env: Env, w: World, amount: int)
    requires Growth(env.g) && Solvency.Inv(env, w) && Aloft(w, amount)
    ensures var w' := Exec(env, w, LOST + SETTLED);
            && w'.control.Pausing? && w'.eng.subs == {1} && w'.back.store.players.Keys == {1}
            && w'.back.store.players[1].balance == w.back.store.players[1].balance
  {
    FlightLost(env, w, amount);
    Solvency.RunKeeps(env, w, LOST);
    NothingToPay(env, Exec(env, w, LOST));
    ExecConcat(env, w, LOST, SETTLED);
  }

  lemma BetAgain(env: Env, w: World, amount: int)
    requires Growth(env.g) && Solvency.Inv(env, w) && Aloft(w, amount)
    ensures var w' := Exec(env, w, SecondBet(amount));
            && w'.control.AtLoop? && w'.eng.state.Betting? && w'.eng.seats == Seated(amount, 0)
            && w'.back.store.players.Keys == {1}
            && w'.back.store.players[1].balance == w.back.store.players[1].balance
  {
    RoundLost(env, w, amount);
    SeatAgain(env, Exec(env, w, LOST + SETTLED), amount);
    ExecConcat(env, w, LOST + SETTLED, NEXT + [Handle(PlaceBet(1, "", false, amount, 0))]);
    assert LOST + SETTLED + NEXT + [Handle(PlaceBet(1, "", false, amount, 0))]
           == LOST + SETTLED + (NEXT + [Handle(PlaceBet(1, "", false, amount, 0))]);
  }

  lemma SeatAgain(env: Env, w: World, amount: int)
    requires w.control.Pausing? && w.eng.subs == {1}
    ensures var w' := Exec(env, w, NEXT + [Handle(PlaceBet(1, "", false, amount, 0))]);
            && w'.control.AtLoop? && w'.eng.state.Betting? && w'.eng.seats == Seated(amount, 0)
            && w'.back.store.players == w.back.store.players
  {
    NextRound(env, w);
    Bets(env, Exec(env, w, NEXT), amount, 0);
    ExecSnoc(env, w, NEXT, Handle(PlaceBet(1, "", false, amount, 0)));
  }

  /** What the form allows: its maximum is the balance at login in every round. A player who logs in with 2000
      stakes and loses them all, stakes 2000 again, and is left with -2000. */
  lemma TwiceTheLoginBalance(env: Env)
    requires Growth(env.g)
    ensures var es := Betting1(2000, 0) + TakeoffOf(2000, 0) + SecondBet(2000) + TakeoffOf(2000, 0);
            var w := Exec(env, INIT, es);
            w.eng.state.Flying? && 1 in w.back.store.players && w.back.store.players[1].balance == -2000
  {
    var bet, takeoff, again := Betting1(2000, 0), TakeoffOf(2000, 0), SecondBet(2000);
    var w1 := Exec(env, INIT, bet);
    var w2 := Exec(env, w1, takeoff);
    BetTaken(env, 2000, 0);
    InvAt(env, bet);
    TookOff(env, w1, 2000, 0);
    ExecConcat(env, INIT, bet, takeoff);
    Solvency.RunKeeps(env, w1, takeoff);
    BetAgain(env, w2, 2000);
    ExecConcat(env, INIT, bet + takeoff, again);
    Solvency.RunKeeps(env, w2, again);
    TookOff(env, Exec(env, w2, again), 2000, 0);
    ExecConcat(env, INIT, bet + takeoff + again, takeoff);
  }
}
