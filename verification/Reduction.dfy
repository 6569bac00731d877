/** The statements of the engine's transactions and the steps of logins commute. So a transaction into which other
    sessions have broken at any points may be taken as one that runs by itself, with their steps after it; and
    what holds of transactions that run by themselves holds of those that do not. */
module Reduction {
  import opened Rounds
  import opened Store
  import opened System
  import Auth
  import Faultless
  import Ledger
  import Overdrafts
  import Solvency
  import Wrappers

  /** A step of a transaction before its COMMIT. */
  predicate Own(e: Event) { e.BettingOver? || e.BeginSettle? || e.Statement? || e.MarkRound? }

  function OwnIn(es: seq<Event>): seq<Event> {
    if es == [] then [] else if es[0].Outside? then OwnIn(es[1..]) else [es[0]] + OwnIn(es[1..])
  }

  function OthersIn(es: seq<Event>): seq<Event> {
    if es == [] then [] else if es[0].Outside? then [es[0]] + OthersIn(es[1..]) else OthersIn(es[1..])
  }

  function StepsIn(es: seq<Event>): seq<Auth.Step> {
    if es == [] then [] else if es[0].Outside? then [es[0].step] + StepsIn(es[1..]) else StepsIn(es[1..])
  }

  ghost predicate OwnOrOthers(es: seq<Event>) {
    forall i :: 0 <= i < |es| ==> Own(es[i]) || es[i].Outside?
  }

  /** The others let nobody in who has a seat and was not known before. */
  ghost predicate SeatsAsKnown(w: World, steps: seq<Auth.Step>) {
    forall pid :: pid in w.eng.seats && pid in Auth.Run(w.back, steps).store.players ==> pid in w.back.store.players
  }

  // ---------------------------------------------------------------- single steps

  /** What an own step leaves alone. */
  lemma OwnSparesPlayers(env: Env, w: World, e: Event)
    requires Own(e)
    ensures var w' := Step(env, w, e);
            w'.eng.seats.Keys == w.eng.seats.Keys && w'.back == Auth.WithTables(w.back, w'.back.store)
  {
    if e.Statement? && w.control.InTx? {
      StatementLeaves(w, e.pid, e.ok);
      StatementStores(w, e.pid, e.ok);
    }
  }

  function Moved(w: World, o: Auth.Step): World { w.(back := Auth.Next(w.back, o)) }

  lemma {:induction false} PlayersStay(b: Auth.Backend, steps: seq<Auth.Step>)
    ensures b.store.players.Keys <= Auth.Run(b, steps).store.players.Keys
    decreases |steps|
  {
    if steps != [] {
      Ledger.OutsideTouches(b, steps[0]);
      PlayersStay(Auth.Next(b, steps[0]), steps[1..]);
    }
  }

  lemma AbortCommutes(w: World, o: Auth.Step)
    ensures Abort(Moved(w, o)) == Moved(Abort(w), o)
  {
  }

  /** A write to the engine's tables and a login step. */
  lemma StoreCommutes(w: World, o: Auth.Step, s: Store, s': Store)
    requires w.back.(store := s) == Auth.WithTables(w.back, s)
    requires Auth.Next(w.back, o).(store := s') == Auth.WithTables(Auth.Next(w.back, o), s)
    ensures WithStore(Moved(w, o), s') == Moved(WithStore(w, s), o)
  {
    Auth.LoginsIgnoreTables(w.back, s, o);
  }

  lemma MarkCommutes(w: World, o: Auth.Step, stage: Stage)
    ensures var s, s' := MarkStage(w.back.store, w.eng.roundId, stage),
                         MarkStage(Moved(w, o).back.store, w.eng.roundId, stage);
            WithStore(Moved(w, o), s') == Moved(WithStore(w, s), o)
  {
    Ledger.OutsideTouches(w.back, o);
    StoreCommutes(w, o, MarkStage(w.back.store, w.eng.roundId, stage),
                  MarkStage(Moved(w, o).back.store, w.eng.roundId, stage));
  }

  lemma AdjustCommutes(w: World, o: Auth.Step, pid: int, delta: int, ok: bool)
    requires w.control.InTx? && (pid in Moved(w, o).back.store.players <==> pid in w.back.store.players)
    ensures AfterAdjust(Moved(w, o), pid, delta, ok) == Moved(AfterAdjust(w, pid, delta, ok), o)
  {
    AbortCommutes(w, o);
  }

  lemma BetIdCommutes(w: World, o: Auth.Step)
    ensures var s, s' := w.back.store, Moved(w, o).back.store;
            WithStore(Moved(w, o), s'.(nextBet := s.nextBet + 1))
              == Moved(WithStore(w, s.(nextBet := s.nextBet + 1)), o)
  {
    var s, s' := w.back.store, Moved(w, o).back.store;
    Ledger.OutsideTouches(w.back, o);
    StoreCommutes(w, o, s.(nextBet := s.nextBet + 1), s'.(nextBet := s.nextBet + 1));
  }

  /** A bet row written by the transaction. */
  function Recorded(w: World, pid: int): World
    requires w.control.InTx? && pid in w.eng.seats
  {
    var id := w.back.store.nextBet;
    w.(eng := WithSeat(w.eng, pid, w.eng.seats[pid].(betId := id)),
       control := InTx(w.control.kind, w.control.ws + [InsertBet(id, BetRow(w.eng, pid))], w.control.todo - {pid},
                       Wrappers.None))
  }

  predicate Accepts(w: World, pid: int) {
    && pid in w.back.store.players && w.eng.roundId in w.back.store.rounds
    && !BetExists(Visible(w), w.eng.roundId, pid)
  }

  lemma CreateBetIs(w: World, pid: int, ok: bool)
    requires w.control.InTx? && pid in w.eng.seats
    ensures AfterCreateBet(w, pid, ok)
            == if ok && Accepts(w, pid)
               then WithStore(Recorded(w, pid), w.back.store.(nextBet := w.back.store.nextBet + 1)) else Abort(w)
  {
  }

  lemma SameAccepted(w: World, o: Auth.Step, pid: int)
    requires pid in Moved(w, o).back.store.players <==> pid in w.back.store.players
    ensures Accepts(Moved(w, o), pid) <==> Accepts(w, pid)
  {
    Ledger.OutsideTouches(w.back, o);
    assert Visible(Moved(w, o)) == Visible(w);
  }

  lemma CreateBetCommutes(w: World, o: Auth.Step, pid: int, ok: bool)
    requires w.control.InTx? && pid in w.eng.seats
    requires pid in Moved(w, o).back.store.players <==> pid in w.back.store.players
    ensures AfterCreateBet(Moved(w, o), pid, ok) == Moved(AfterCreateBet(w, pid, ok), o)
  {
    CreateBetIs(w, pid, ok);
    CreateBetIs(Moved(w, o), pid, ok);
    SameAccepted(w, o, pid);
    AbortCommutes(w, o);
    SameNextBet(w.back, o);
    BetIdCommutes(Recorded(w, pid), o);
    assert Recorded(Moved(w, o), pid) == Moved(Recorded(w, pid), o);
  }

  lemma SameNextBet(b: Auth.Backend, o: Auth.Step)
    ensures Auth.Next(b, o).store.nextBet == b.store.nextBet
  {
    Ledger.OutsideTouches(b, o);
  }

  lemma SettleBetCommutes(w: World, o: Auth.Step, pid: int, ok: bool)
    requires w.control.InTx? && pid in w.eng.seats
    ensures AfterSettleBet(Moved(w, o), pid, ok) == Moved(AfterSettleBet(w, pid, ok), o)
  {
    AbortCommutes(w, o);
    Ledger.OutsideTouches(w.back, o);
    assert Visible(Moved(w, o)) == Visible(w);
  }

  lemma StatementCommutes(w: World, o: Auth.Step, pid: int, ok: bool)
    requires w.control.InTx?
    requires pid in w.eng.seats ==> (pid in Moved(w, o).back.store.players <==> pid in w.back.store.players)
    ensures AfterStatement(Moved(w, o), pid, ok) == Moved(AfterStatement(w, pid, ok), o)
  {
    var c := w.control;
    if pid in c.todo && pid in w.eng.seats && !(c.half.Some? && c.half.value != pid) {
      var s := w.eng.seats[pid];
      AdjustCommutes(w, o, pid, if c.kind.Takeoff? then -s.amount else s.payout, ok);
      CreateBetCommutes(w, o, pid, ok);
      SettleBetCommutes(w, o, pid, ok);
    }
  }

  lemma MarkRoundCommutes(w: World, o: Auth.Step, fate: Fate)
    requires w.control.InTx?
    ensures AfterMark(Moved(w, o), fate) == Moved(AfterMark(w, fate), o)
  {
    MarkCommutes(w, o, if w.control.kind.Takeoff? then StageFlying else StageSettled);
  }

  lemma BettingOverCommutes(w: World, o: Auth.Step, begin: Fate)
    ensures AfterBetting(Moved(w, o), begin) == Moved(AfterBetting(w, begin), o)
  {
    MarkCommutes(w, o, StageFlying);
  }

  lemma Commutes(env: Env, w: World, o: Auth.Step, e: Event)
    requires Own(e)
    requires forall pid ::
      pid in w.eng.seats && pid in Auth.Next(w.back, o).store.players ==> pid in w.back.store.players
    ensures Step(env, Moved(w, o), e) == Moved(Step(env, w, e), o)
  {
    Ledger.OutsideTouches(w.back, o);
    if Ready(w, e) {
      match e
      case Statement(pid, ok) => StatementCommutes(w, o, pid, ok);
      case MarkRound(fate) => MarkRoundCommutes(w, o, fate);
      case BettingOver(begin) => BettingOverCommutes(w, o, begin);
      case BeginSettle(_) =>
    }
  }

  // ---------------------------------------------------------------- whole transactions

  lemma OwnKeepsSeatsAsKnown(env: Env, w: World, e: Event, steps: seq<Auth.Step>)
    requires Own(e) && SeatsAsKnown(w, steps)
    ensures SeatsAsKnown(Step(env, w, e), steps)
  {
    OwnSparesPlayers(env, w, e);
    Auth.RunIgnoresTables(w.back, Step(env, w, e).back.store, steps);
  }

  /** A login step before a sequence of own steps, or after it. */
  lemma {:induction false} Pass(env: Env, w: World, o: Auth.Step, own: seq<Event>)
    requires forall i :: 0 <= i < |own| ==> Own(own[i])
    requires SeatsAsKnown(w, [o])
    ensures Exec(env, Moved(w, o), own) == Moved(Exec(env, w, own), o)
    decreases |own|
  {
    if own != [] {
      RunOne(w.back, o);
      Commutes(env, w, o, own[0]);
      OwnKeepsSeatsAsKnown(env, w, own[0], [o]);
      Pass(env, Step(env, w, own[0]), o, own[1..]);
    }
  }

  lemma RunOne(b: Auth.Backend, o: Auth.Step)
    ensures Auth.Run(b, [o]) == Auth.Next(b, o)
  {
    assert [o][1..] == [];
    assert Auth.Run(Auth.Next(b, o), []) == Auth.Next(b, o);
  }

  lemma {:induction false} OwnInIsOwn(es: seq<Event>)
    requires OwnOrOthers(es)
    ensures forall i :: 0 <= i < |OwnIn(es)| ==> Own(OwnIn(es)[i])
    decreases |es|
  {
    if es != [] { OwnInIsOwn(es[1..]); }
  }

  /** The others first let nobody in, and then let nobody in. */
  lemma AsKnownSplits(w: World, o: Auth.Step, steps: seq<Auth.Step>)
    requires SeatsAsKnown(w, [o] + steps)
    ensures SeatsAsKnown(w, [o]) && SeatsAsKnown(Moved(w, o), steps)
  {
    assert ([o] + steps)[1..] == steps;
    RunOne(w.back, o);
    PlayersStay(Auth.Next(w.back, o), steps);
    Ledger.OutsideTouches(w.back, o);
  }

  /** Reduction. */
  lemma {:induction false} OthersMoveOut(env: Env, w: World, es: seq<Event>)
    requires OwnOrOthers(es) && SeatsAsKnown(w, StepsIn(es))
    ensures Exec(env, w, es) == Exec(env, Exec(env, w, OwnIn(es)), OthersIn(es))
    decreases |es|
  {
    if es != [] {
      var rest := es[1..];
      if es[0].Outside? {
        var o := es[0].step;
        AsKnownSplits(w, o, StepsIn(rest));
        OthersMoveOut(env, Moved(w, o), rest);
        OwnInIsOwn(rest);
        Pass(env, w, o, OwnIn(rest));
        assert OwnIn(es) == OwnIn(rest) && OthersIn(es) == [es[0]] + OthersIn(rest);
        assert ([es[0]] + OthersIn(rest))[1..] == OthersIn(rest);
      } else {
        OwnKeepsSeatsAsKnown(env, w, es[0], StepsIn(rest));
        OthersMoveOut(env, Step(env, w, es[0]), rest);
        assert OwnIn(es) == [es[0]] + OwnIn(rest) && ([es[0]] + OwnIn(rest))[1..] == OwnIn(rest);
      }
    }
  }

  lemma {:induction false} OthersRunOnly(env: Env, w: World, es: seq<Event>)
    ensures Exec(env, w, OthersIn(es)) == w.(back := Auth.Run(w.back, StepsIn(es)))
    decreases |es|
  {
    if es != [] {
      if es[0].Outside? {
        assert OthersIn(es) == [es[0]] + OthersIn(es[1..]) && ([es[0]] + OthersIn(es[1..]))[1..] == OthersIn(es[1..]);
        assert ([es[0].step] + StepsIn(es[1..]))[1..] == StepsIn(es[1..]);
        OthersRunOnly(env, Moved(w, es[0].step), es[1..]);
      } else {
        OthersRunOnly(env, w, es[1..]);
      }
    }
  }

  /** The same in one line: what the transaction makes of the state, and then what the logins make of that. */
  lemma AsIfAlone(env: Env, w: World, es: seq<Event>)
    requires OwnOrOthers(es) && SeatsAsKnown(w, StepsIn(es))
    ensures var alone := Exec(env, w, OwnIn(es));
            Exec(env, w, es) == alone.(back := Auth.Run(alone.back, StepsIn(es)))
  {
    OthersMoveOut(env, w, es);
    OthersRunOnly(env, Exec(env, w, OwnIn(es)), es);
  }

  // ---------------------------------------------------------------- settlement and takeoff, broken into

  /** Players with a bet row are known. */
  lemma BettorsKnown(w: World, steps: seq<Auth.Step>)
    requires Ledger.Inv(w) && w.control.AtLoop? && w.eng.state.Crashed?
    ensures SeatsAsKnown(w, steps)
  {
    forall pid | pid in w.eng.seats ensures pid in w.back.store.players {
      assert Ledger.HasRow(w.eng, w.back.store.bets, pid);
    }
  }

  /** Nothing can stop a settlement but a failing statement: with none, it comes to its COMMIT, in whatever order
      the map yields the participants and whatever the other sessions do in between. */
  lemma SettlementReachesCommit(env: Env, w: World, order: seq<int>, es: seq<Event>)
    requires Ledger.Inv(w) && w.control.AtLoop? && w.eng.state.Crashed?
    requires Faultless.Covers(order, w.eng.seats.Keys, w.eng.seats)
    requires OwnOrOthers(es) && OwnIn(es) == Faultless.Transaction(Settlement, w.eng.seats, order)
    ensures var w', marked := Exec(env, w, es), MarkStage(w.back.store, w.eng.roundId, StageSettled);
            && w'.control.Committing? && w'.control.kind.Settlement? && w'.eng == w.eng && w'.frames == w.frames
            && w'.back == Auth.WithTables(Auth.Run(w.back, StepsIn(es)), marked)
  {
    BettorsKnown(w, StepsIn(es));
    AsIfAlone(env, w, es);
    Faultless.SettlementAlone(env, w, order);
    var alone := Exec(env, w, OwnIn(es));
    assert alone.back == Auth.WithTables(w.back, alone.back.store);
    Auth.RunIgnoresTables(w.back, alone.back.store, StepsIn(es));
  }

  /** So a settlement without failures pays every player who has cashed out, on top of what the logins in between
      have made of the balances, and marks the round settled. */
  lemma SettlementPays(env: Env, w: World, order: seq<int>, es: seq<Event>)
    requires Solvency.Inv(env, w) && w.control.AtLoop? && w.eng.state.Crashed?
    requires Faultless.Covers(order, w.eng.seats.Keys, w.eng.seats)
    requires OwnOrOthers(es) && OwnIn(es) == Faultless.Transaction(Settlement, w.eng.seats, order)
    ensures var w', players := Exec(env, w, es + [Commit(Done)]), Auth.Run(w.back, StepsIn(es)).store.players;
            && w'.control.Pausing? && w'.eng == w.eng
            && w.eng.roundId in w'.back.store.rounds && w'.back.store.rounds[w.eng.roundId].stage.StageSettled?
            && w'.back.store.players.Keys == players.Keys
            && (forall pid :: pid in players ==>
                  w'.back.store.players[pid].balance
                  == players[pid].balance + Solvency.Due(w.eng, Settlement, pid))
            && (forall pid :: pid in w.eng.seats ==> Ledger.HasSettledRow(w.eng, w'.back.store.bets, pid))
  {
    var w1 := Exec(env, w, es);
    SettlementReachesCommit(env, w, order, es);
    Solvency.RunKeeps(env, w, es);
    ExecSnoc(env, w, es, Commit(Done));
    CommitStep(env, w1, Done);
    Solvency.CommitMoves(env, w1, Done);
    assert Step(env, w1, Commit(Done)).back == AfterCommit(w1, Done).back;
  }

  /** A takeoff without failures takes off if and only if every participant is a known player; a player who is
      first let in in the middle of it is the one case that depends on the moment. Then everybody is debited the
      stake, and nobody else, and has a bet row; otherwise the engine gives up, with the bets as they were and
      the balances as the logins have left them. */
  lemma TakeoffIff(env: Env, w: World, order: seq<int>, es: seq<Event>)
    requires Solvency.Inv(env, w) && w.control.AtLoop? && w.eng.state.Betting? && w.eng.seats != map[]
    requires Faultless.Covers(order, w.eng.seats.Keys, w.eng.seats)
    requires OwnOrOthers(es) && OwnIn(es) == Faultless.Transaction(Takeoff, w.eng.seats, order)
    requires SeatsAsKnown(w, StepsIn(es))
    ensures var w', players := Exec(env, w, es + [Commit(Done)]), Auth.Run(w.back, StepsIn(es)).store.players;
            && w'.control.AtLoop?
            && (w'.eng.state.Flying? <==> forall pid :: pid in w.eng.seats ==> pid in w.back.store.players)
            && (w'.eng.state.Flying? ==>
                  && Faultless.SameBets(w.eng.seats, w'.eng.seats)
                  && w'.eng == w.eng.(seats := w'.eng.seats, state := Flying)
                  && w'.back.store.players.Keys == players.Keys
                  && (forall pid :: pid in players ==>
                        w'.back.store.players[pid].balance
                        == players[pid].balance + Solvency.Due(w.eng, Takeoff, pid))
                  && (forall pid :: pid in w'.eng.seats ==> Ledger.HasRow(w'.eng, w'.back.store.bets, pid)))
            && (!w'.eng.state.Flying? ==>
                  w'.eng.state.Idle? && w'.back.store.players == players && w'.back.store.bets == w.back.store.bets)
  {
    var own, w1 := OwnIn(es), Exec(env, w, es);
    var alone := Exec(env, w, own);
    AsIfAlone(env, w, es);
    Faultless.TakeoffReachesCommit(env, w, order);
    OwnInIsOwn(es);
    RunSparesPlayers(env, w, own);
    Auth.RunIgnoresTables(w.back, alone.back.store, StepsIn(es));
    ExecSnoc(env, w, es, Commit(Done));
    if Faultless.AllKnown(w, w.eng.seats.Keys) {
      Solvency.RunKeeps(env, w, es);
      Faultless.TakeoffCommits(env, w.(back := Auth.Run(w.back, StepsIn(es))), w1);
    } else {
      assert Step(env, w1, Commit(Done)) == w1;
    }
  }

  lemma {:induction false} GroundedBeforeCommit(env: Env, w: World, es: seq<Event>)
    requires OwnOrOthers(es) && !w.eng.state.Flying? && w.eng.seats != map[]
    ensures var e := Exec(env, w, es).eng; !e.state.Flying? && e.seats.Keys == w.eng.seats.Keys
    decreases |es|
  {
    if es != [] {
      var w1 := Step(env, w, es[0]);
      if es[0].Outside? {
        assert w1.eng == w.eng;
      } else {
        OwnSparesPlayers(env, w, es[0]);
        StaysGrounded(env, w, es[0]);
      }
      GroundedBeforeCommit(env, w1, es[1..]);
    }
  }

  lemma StaysGrounded(env: Env, w: World, e: Event)
    requires Own(e) && !w.eng.state.Flying? && w.eng.seats != map[]
    ensures var e' := Step(env, w, e).eng; !e'.state.Flying? && e'.seats != map[]
  {
    OwnSparesPlayers(env, w, e);
    if e.Statement? && w.control.InTx? { StatementLeaves(w, e.pid, e.ok); }
    SameEmptiness(w.eng.seats, Step(env, w, e).eng.seats);
  }

  lemma SameEmptiness(a: map<int, Seat>, b: map<int, Seat>)
    requires a.Keys == b.Keys && a != map[]
    ensures b != map[]
  {
  }

  /** Whatever moment decides: a takeoff goes through if every participant is known when it begins, and only if
      every one is by the time it commits. */
  lemma TakeoffBracket(env: Env, w: World, order: seq<int>, es: seq<Event>)
    requires Solvency.Inv(env, w) && w.control.AtLoop? && w.eng.state.Betting? && w.eng.seats != map[]
    requires Faultless.Covers(order, w.eng.seats.Keys, w.eng.seats)
    requires OwnOrOthers(es) && OwnIn(es) == Faultless.Transaction(Takeoff, w.eng.seats, order)
    ensures var w' := Exec(env, w, es + [Commit(Done)]);
            && ((forall pid :: pid in w.eng.seats ==> pid in w.back.store.players) ==> w'.eng.state.Flying?)
            && (w'.eng.state.Flying?
                ==> forall pid :: pid in w.eng.seats ==> pid in Exec(env, w, es).back.store.players)
  {
    var w1 := Exec(env, w, es);
    GroundedBeforeCommit(env, w, es);
    ExecSnoc(env, w, es, Commit(Done));
    Solvency.RunKeeps(env, w, es);
    if w1.control.Committing? {
      forall pid | pid in w.eng.seats ensures pid in w1.back.store.players { Overdrafts.SeatsKnown(env, w1, pid); }
    }
    if forall pid :: pid in w.eng.seats ==> pid in w.back.store.players { TakeoffIff(env, w, order, es); }
  }

  lemma {:induction false} RunSparesPlayers(env: Env, w: World, own: seq<Event>)
    requires forall i :: 0 <= i < |own| ==> Own(own[i])
    ensures var w' := Exec(env, w, own); w'.back == Auth.WithTables(w.back, w'.back.store)
    decreases |own|
  {
    if own != [] {
      OwnSparesPlayers(env, w, own[0]);
      RunSparesPlayers(env, Step(env, w, own[0]), own[1..]);
    }
  }
}
