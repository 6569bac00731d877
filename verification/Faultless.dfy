/** What the two transactions do when no statement fails: whatever order the participants come in, they are
    carried through to the end, and everybody is debited, or paid. */
module Faultless {
  import opened Wrappers
  import opened Rounds
  import opened Store
  import opened System
  import Ledger
  import Solvency

  /** The statements of one participant, all of them successful. */
  function Statements(kind: Kind, s: Seat, pid: int): seq<Event> {
    if kind.Takeoff? || (s.betId != 0 && s.cashedOut) then [Statement(pid, true), Statement(pid, true)]
    else [Statement(pid, true)]
  }

  /** Those of the participants in the given order. */
  function Script(kind: Kind, seats: map<int, Seat>, order: seq<int>): seq<Event>
    requires forall i :: 0 <= i < |order| ==> order[i] in seats
  {
    if order == [] then [] else Statements(kind, seats[order[0]], order[0]) + Script(kind, seats, order[1..])
  }

  /** The whole transaction, up to its COMMIT. */
  function Transaction(kind: Kind, seats: map<int, Seat>, order: seq<int>): seq<Event>
    requires forall i :: 0 <= i < |order| ==> order[i] in seats
  {
    [if kind.Takeoff? then BettingOver(Done) else BeginSettle(true)] + Script(kind, seats, order) + [MarkRound(Done)]
  }

  ghost predicate Covers(order: seq<int>, pids: set<int>, seats: map<int, Seat>) {
    && (forall i :: 0 <= i < |order| ==> order[i] in seats)
    && forall pid :: pid in pids ==> pid in order
  }

  lemma Two(env: Env, w: World, a: Event, b: Event)
    ensures Exec(env, w, [a, b]) == Step(env, Step(env, w, a), b)
  {
    ExecSnoc(env, w, [a], b);
    ExecSnoc(env, w, [], a);
    assert [a] + [b] == [a, b] && [] + [a] == [a];
  }

  lemma One(env: Env, w: World, a: Event)
    ensures Exec(env, w, [a]) == Step(env, w, a)
  {
    ExecSnoc(env, w, [], a);
    assert [] + [a] == [a];
  }

  // ---------------------------------------------------------------- settlement

  ghost predicate MidSettlement(w: World, todo: set<int>) {
    w.control.InTx? && w.control.kind.Settlement? && w.control.todo == todo && w.control.half.None?
  }

  /** Neither statement of a seat can be refused. */
  lemma SeatSettles(env: Env, w: World, todo: set<int>, pid: int)
    requires Ledger.Inv(w) && MidSettlement(w, todo) && pid in todo
    ensures pid in w.eng.seats
    ensures var w' := Exec(env, w, Statements(Settlement, w.eng.seats[pid], pid));
            && Ledger.Inv(w') && MidSettlement(w', todo - {pid})
            && w'.eng == w.eng && w'.back == w.back && w'.frames == w.frames
  {
    var s := w.eng.seats[pid];
    assert Ledger.HasRow(w.eng, w.back.store.bets, pid) && Ledger.HasRow(w.eng, Visible(w), pid);
    assert pid in w.back.store.players && s.betId in Visible(w) && s.betId != 0;
    var first := Statement(pid, true);
    Ledger.StepKeeps(env, w, first);
    if s.cashedOut {
      var w1 := Step(env, w, first);
      AdjustStep(env, w, pid, true);
      Ledger.BetsSnoc(w.back.store.bets, w.control.ws, Adjust(pid, s.payout));
      Ledger.StepKeeps(env, w1, first);
      SettleBetStep(env, w1, pid, true);
      Two(env, w, first, first);
    } else {
      SettleBetStep(env, w, pid, true);
      One(env, w, first);
    }
  }

  lemma {:induction false} SeatsSettle(env: Env, w: World, todo: set<int>, order: seq<int>)
    requires Ledger.Inv(w) && MidSettlement(w, todo) && Covers(order, todo, w.eng.seats)
    ensures var w' := Exec(env, w, Script(Settlement, w.eng.seats, order));
            && Ledger.Inv(w') && MidSettlement(w', {})
            && w'.eng == w.eng && w'.back == w.back && w'.frames == w.frames
    decreases |order|
  {
    if order == [] {
      Inhabited(todo);
    } else {
      var pid := order[0];
      var head := Statements(Settlement, w.eng.seats[pid], pid);
      var w1 := Exec(env, w, head);
      FirstSeatSettles(env, w, todo, pid);
      assert forall p :: p in todo - {pid} ==> p in order[1..];
      SeatsSettle(env, w1, todo - {pid}, order[1..]);
      ExecConcat(env, w, head, Script(Settlement, w.eng.seats, order[1..]));
    }
  }

  lemma FirstSeatSettles(env: Env, w: World, todo: set<int>, pid: int)
    requires Ledger.Inv(w) && MidSettlement(w, todo) && pid in w.eng.seats
    ensures var w' := Exec(env, w, Statements(Settlement, w.eng.seats[pid], pid));
            && Ledger.Inv(w') && MidSettlement(w', todo - {pid})
            && w'.eng == w.eng && w'.back == w.back && w'.frames == w.frames
  {
    if pid in todo {
      SeatSettles(env, w, todo, pid);
    } else {
      Repeated(env, w, pid, Statements(Settlement, w.eng.seats[pid], pid));
      assert todo - {pid} == todo;
    }
  }

  /** A participant that has had its turn is not in the way. */
  lemma Repeated(env: Env, w: World, pid: int, es: seq<Event>)
    requires w.control.InTx? && pid !in w.control.todo
    requires es == [Statement(pid, true)] || es == [Statement(pid, true), Statement(pid, true)]
    ensures Exec(env, w, es) == w
  {
    One(env, w, Statement(pid, true));
    Two(env, w, Statement(pid, true), Statement(pid, true));
  }

  /** Nothing can stop a settlement but a failing statement: with none, it comes to its COMMIT, in whatever
      order the map yields the participants. */
  lemma SettlementAlone(env: Env, w: World, order: seq<int>)
    requires Ledger.Inv(w) && w.control.AtLoop? && w.eng.state.Crashed? && Covers(order, w.eng.seats.Keys, w.eng.seats)
    ensures var w' := Exec(env, w, Transaction(Settlement, w.eng.seats, order));
            && w'.control.Committing? && w'.control.kind.Settlement?
            && w'.eng == w.eng && w'.frames == w.frames && w'.back.desk == w.back.desk
            && w'.back.store == MarkStage(w.back.store, w.eng.roundId, StageSettled)
  {
    var begin, mark, script := BeginSettle(true), MarkRound(Done), Script(Settlement, w.eng.seats, order);
    var w1 := Step(env, w, begin);
    Ledger.StepKeeps(env, w, begin);
    SeatsSettle(env, w1, w.eng.seats.Keys, order);
    One(env, w, begin);
    ExecConcat(env, w, [begin], script);
    ExecSnoc(env, w, [begin] + script, mark);
  }

  /** So a settlement without failures pays every player who has cashed out, and marks the round settled. */
  lemma SettlementAlonePays(env: Env, w: World, order: seq<int>)
    requires Solvency.Inv(env, w) && w.control.AtLoop? && w.eng.state.Crashed?
    requires Covers(order, w.eng.seats.Keys, w.eng.seats)
    ensures var w' := Exec(env, w, Transaction(Settlement, w.eng.seats, order) + [Commit(Done)]);
            var s, s' := w.back.store, w'.back.store;
            && w'.control.Pausing? && w'.eng == w.eng
            && w.eng.roundId in s'.rounds && s'.rounds[w.eng.roundId].stage.StageSettled?
            && s'.players.Keys == s.players.Keys
            && (forall pid :: pid in s.players ==>
                  s'.players[pid].balance == s.players[pid].balance + Solvency.Due(w.eng, Settlement, pid))
            && (forall pid :: pid in w.eng.seats ==> Ledger.HasSettledRow(w.eng, s'.bets, pid))
  {
    var es := Transaction(Settlement, w.eng.seats, order);
    var w1 := Exec(env, w, es);
    SettlementAlone(env, w, order);
    Solvency.RunKeeps(env, w, es);
    ExecSnoc(env, w, es, Commit(Done));
    CommitStep(env, w1, Done);
    Solvency.CommitMoves(env, w1, Done);
    assert Step(env, w1, Commit(Done)).back == AfterCommit(w1, Done).back;
  }

  // ---------------------------------------------------------------- takeoff

  ghost predicate MidTakeoff(w: World, todo: set<int>) {
    w.control.InTx? && w.control.kind.Takeoff? && w.control.todo == todo && w.control.half.None?
  }

  /** The same seats, but for the bet ids. */
  ghost predicate SameBets(a: map<int, Seat>, b: map<int, Seat>) {
    a.Keys == b.Keys && forall pid :: pid in a ==> b[pid] == a[pid].(betId := b[pid].betId)
  }

  ghost predicate SameButIds(w: World, w': World) {
    && SameBets(w.eng.seats, w'.eng.seats) && w'.eng == w.eng.(seats := w'.eng.seats)
    && w'.back == w.back.(store := w.back.store.(nextBet := w'.back.store.nextBet)) && w'.frames == w.frames
  }

  ghost predicate GivenUp(w: World, w': World) {
    && w'.control.AtLoop? && w'.eng.state.Idle?
    && w'.back.store.players == w.back.store.players && w'.back.store.bets == w.back.store.bets
  }

  /** Neither statement of a known player's seat can be refused. */
  lemma KnownSeatTakesOff(env: Env, w: World, todo: set<int>, pid: int)
    requires Ledger.Inv(w) && MidTakeoff(w, todo) && pid in todo && pid in w.eng.seats
    requires pid in w.back.store.players
    ensures var w' := Exec(env, w, Statements(Takeoff, w.eng.seats[pid], pid));
            Ledger.Inv(w') && MidTakeoff(w', todo - {pid}) && SameButIds(w, w')
  {
    var e := Statement(pid, true);
    var w1 := Step(env, w, e);
    AdjustStep(env, w, pid, true);
    Two(env, w, e, e);
    Ledger.StepKeeps(env, w, e);
    Ledger.UniqueNeverRefuses(w1, pid);
    Ledger.StepKeeps(env, w1, e);
    CreateBetStep(env, w1, pid, true);
  }

  /** The debit of an unknown one is. */
  lemma UnknownSeatGivesUp(env: Env, w: World, todo: set<int>, pid: int)
    requires MidTakeoff(w, todo) && pid in todo && pid in w.eng.seats && pid !in w.back.store.players
    ensures GivenUp(w, Exec(env, w, Statements(Takeoff, w.eng.seats[pid], pid)))
  {
    AdjustStep(env, w, pid, true);
    Two(env, w, Statement(pid, true), Statement(pid, true));
  }

  lemma FirstSeatTakesOff(env: Env, w: World, todo: set<int>, pid: int)
    requires Ledger.Inv(w) && MidTakeoff(w, todo) && pid in w.eng.seats
    ensures var w' := Exec(env, w, Statements(Takeoff, w.eng.seats[pid], pid));
            if pid !in todo || pid in w.back.store.players
            then Ledger.Inv(w') && MidTakeoff(w', todo - {pid}) && SameButIds(w, w')
            else GivenUp(w, w')
  {
    if pid in todo {
      if pid in w.back.store.players { KnownSeatTakesOff(env, w, todo, pid); }
      else { UnknownSeatGivesUp(env, w, todo, pid); }
    } else {
      Repeated(env, w, pid, Statements(Takeoff, w.eng.seats[pid], pid));
      assert todo - {pid} == todo;
    }
  }

  /** What is left of a transaction after it has been given up does nothing. */
  lemma {:induction false} RestIsIdle(env: Env, w: World, es: seq<Event>)
    requires w.control.AtLoop?
    requires forall i :: 0 <= i < |es| ==> es[i].Statement? || es[i].MarkRound? || es[i].Commit?
    ensures Exec(env, w, es) == w
    decreases |es|
  {
    if es != [] { RestIsIdle(env, w, es[1..]); }
  }

  lemma {:induction false} ScriptIsStatements(kind: Kind, seats: map<int, Seat>, order: seq<int>)
    requires forall i :: 0 <= i < |order| ==> order[i] in seats
    ensures forall i :: 0 <= i < |Script(kind, seats, order)| ==> Script(kind, seats, order)[i].Statement?
    decreases |order|
  {
    if order != [] { ScriptIsStatements(kind, seats, order[1..]); }
  }

  lemma {:induction false} TakeoffScriptIgnoresIds(a: map<int, Seat>, b: map<int, Seat>, order: seq<int>)
    requires a.Keys == b.Keys && forall i :: 0 <= i < |order| ==> order[i] in a
    ensures Script(Takeoff, a, order) == Script(Takeoff, b, order)
    decreases |order|
  {
    if order != [] { TakeoffScriptIgnoresIds(a, b, order[1..]); }
  }

  ghost predicate AllKnown(w: World, pids: set<int>) {
    forall pid :: pid in pids ==> pid in w.back.store.players
  }

  lemma {:induction false} SeatsTakeOff(env: Env, w: World, todo: set<int>, order: seq<int>)
    requires Ledger.Inv(w) && MidTakeoff(w, todo) && Covers(order, todo, w.eng.seats)
    ensures var w' := Exec(env, w, Script(Takeoff, w.eng.seats, order));
            if AllKnown(w, todo) then Ledger.Inv(w') && MidTakeoff(w', {}) && SameButIds(w, w')
            else GivenUp(w, w')
    decreases |order|
  {
    if order == [] {
      Inhabited(todo);
    } else {
      var pid, rest := order[0], order[1..];
      var head := Statements(Takeoff, w.eng.seats[pid], pid);
      var w1 := Exec(env, w, head);
      FirstSeatTakesOff(env, w, todo, pid);
      ExecConcat(env, w, head, Script(Takeoff, w.eng.seats, rest));
      if pid !in todo || pid in w.back.store.players {
        assert forall p :: p in todo - {pid} ==> p in rest;
        TakeoffScriptIgnoresIds(w.eng.seats, w1.eng.seats, rest);
        SeatsTakeOff(env, w1, todo - {pid}, rest);
        OneLess(w, w1, todo, pid);
      } else {
        ScriptIsStatements(Takeoff, w.eng.seats, rest);
        RestIsIdle(env, w1, Script(Takeoff, w.eng.seats, rest));
      }
    }
  }

  lemma OneLess(w: World, w1: World, todo: set<int>, pid: int)
    requires w1.back.store.players == w.back.store.players && (pid !in todo || pid in w.back.store.players)
    ensures AllKnown(w1, todo - {pid}) <==> AllKnown(w, todo)
  {
    if AllKnown(w1, todo - {pid}) {
      forall p | p in todo ensures p in w.back.store.players {
        if p != pid { assert p in todo - {pid}; }
      }
    }
  }

  lemma TakeoffReachesCommit(env: Env, w: World, order: seq<int>)
    requires Ledger.Inv(w) && w.control.AtLoop? && w.eng.state.Betting? && w.eng.seats != map[]
    requires Covers(order, w.eng.seats.Keys, w.eng.seats)
    ensures var w' := Exec(env, w, Transaction(Takeoff, w.eng.seats, order));
            if AllKnown(w, w.eng.seats.Keys) then
              && w'.control.Committing? && w'.control.kind.Takeoff?
              && SameBets(w.eng.seats, w'.eng.seats) && w'.eng == w.eng.(seats := w'.eng.seats)
              && w'.back.store.players == w.back.store.players
            else GivenUp(w, w')
  {
    var begin, mark, script := BettingOver(Done), MarkRound(Done), Script(Takeoff, w.eng.seats, order);
    var w1 := Step(env, w, begin);
    Ledger.StepKeeps(env, w, begin);
    SeatsTakeOff(env, w1, w.eng.seats.Keys, order);
    One(env, w, begin);
    ExecConcat(env, w, [begin], script);
    ExecSnoc(env, w, [begin] + script, mark);
  }

  /** A takeoff without failing statements takes off if and only if every participant is a known player. Then
      everybody is debited the stake, and nobody else, and has a bet row; otherwise the engine gives up, with
      balances and bets as they were. */
  lemma TakeoffAloneIff(env: Env, w: World, order: seq<int>)
    requires Solvency.Inv(env, w) && w.control.AtLoop? && w.eng.state.Betting? && w.eng.seats != map[]
    requires Covers(order, w.eng.seats.Keys, w.eng.seats)
    ensures var w' := Exec(env, w, Transaction(Takeoff, w.eng.seats, order) + [Commit(Done)]);
            var s, s' := w.back.store, w'.back.store;
            && w'.control.AtLoop?
            && (w'.eng.state.Flying? <==> forall pid :: pid in w.eng.seats ==> pid in s.players)
            && (w'.eng.state.Flying? ==>
                  && SameBets(w.eng.seats, w'.eng.seats) && w'.eng == w.eng.(seats := w'.eng.seats, state := Flying)
                  && s'.players.Keys == s.players.Keys
                  && (forall pid :: pid in s.players ==>
                        s'.players[pid].balance == s.players[pid].balance + Solvency.Due(w.eng, Takeoff, pid))
                  && (forall pid :: pid in w'.eng.seats ==> Ledger.HasRow(w'.eng, s'.bets, pid)))
            && (!w'.eng.state.Flying? ==> GivenUp(w, w'))
  {
    var es := Transaction(Takeoff, w.eng.seats, order);
    var w1 := Exec(env, w, es);
    TakeoffReachesCommit(env, w, order);
    ExecSnoc(env, w, es, Commit(Done));
    if AllKnown(w, w.eng.seats.Keys) {
      Solvency.RunKeeps(env, w, es);
      CommitStep(env, w1, Done);
      Solvency.CommitMoves(env, w1, Done);
      TakeoffCommits(env, w, w1);
    } else {
      assert Step(env, w1, Commit(Done)) == w1;
    }
  }

  lemma TakeoffCommits(env: Env, w: World, w1: World)
    requires Solvency.Inv(env, w1) && w1.control.Committing? && w1.control.kind.Takeoff?
    requires SameBets(w.eng.seats, w1.eng.seats) && w1.eng == w.eng.(seats := w1.eng.seats)
    requires w1.back.store.players == w.back.store.players
    ensures var s, w' := w.back.store, Step(env, w1, Commit(Done));
            && w'.control.AtLoop? && w'.eng == w1.eng.(state := Flying)
            && w'.back.store.players.Keys == s.players.Keys
            && (forall pid :: pid in s.players ==>
                  w'.back.store.players[pid].balance
                  == s.players[pid].balance + Solvency.Due(w.eng, Takeoff, pid))
            && (forall pid :: pid in w'.eng.seats ==> Ledger.HasRow(w'.eng, w'.back.store.bets, pid))
  {
    CommitStep(env, w1, Done);
    Solvency.CommitMoves(env, w1, Done);
    assert Step(env, w1, Commit(Done)).back == AfterCommit(w1, Done).back;
  }
}
