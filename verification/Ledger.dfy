/** The ledger: over every run, with failed statements, rollbacks, commits of unknown outcome, process
    crashes and daily credits granted in between, every balance is accounted for by the player's grants,
    stakes and payouts, and no bet row is paid twice. */
module Ledger {
  import opened Wrappers
  import opened GoInt
  import opened Store
  import opened System
  import Auth

  // ---------------------------------------------------------------- the books

  function PaidOut(b: Bet): int { if b.payout.Some? then b.payout.value else 0 }

  /** A player's bets among the ids below `n`: what they were paid less what they staked. */
  function Net(bets: map<int, Bet>, pid: int, n: int): int
    decreases n
  {
    if n <= 0 then 0
    else Net(bets, pid, n - 1)
         + if n - 1 in bets && bets[n - 1].player == pid then PaidOut(bets[n - 1]) - bets[n - 1].amount else 0
  }

  /** How often a player was granted a daily credit. */
  function Grants(log: seq<(int, int)>, pid: int): nat {
    if log == [] then 0 else Grants(log[..|log| - 1], pid) + if log[|log| - 1].0 == pid then 1 else 0
  }

  /** The ledger identity. */
  ghost predicate Balanced(s: Store) {
    forall pid :: pid in s.players ==>
      s.players[pid].balance
      == STARTING_BALANCE + DAILY_CREDIT * Grants(s.grants, pid) + Net(s.bets, pid, s.nextBet)
  }

  lemma {:induction false} NetFrame(bets: map<int, Bet>, bets': map<int, Bet>, pid: int, n: int)
    requires forall id :: id < n ==> (id in bets <==> id in bets') && (id in bets ==> bets[id] == bets'[id])
    ensures Net(bets, pid, n) == Net(bets', pid, n)
    decreases n
  {
    if n > 0 { NetFrame(bets, bets', pid, n - 1); }
  }

  lemma {:induction false} NetOfStranger(bets: map<int, Bet>, pid: int, n: int)
    requires forall id :: id in bets ==> bets[id].player != pid
    ensures Net(bets, pid, n) == 0
    decreases n
  {
    if n > 0 { NetOfStranger(bets, pid, n - 1); }
  }

  lemma NetInsert(bets: map<int, Bet>, id: int, bet: Bet, pid: int)
    requires id > 0 && id !in bets
    ensures Net(bets[id := bet], pid, id + 1)
            == Net(bets, pid, id) + if bet.player == pid then PaidOut(bet) - bet.amount else 0
    ensures Net(bets, pid, id + 1) == Net(bets, pid, id)
  {
    NetFrame(bets, bets[id := bet], pid, id);
  }

  lemma {:induction false} NetUpdate(bets: map<int, Bet>, id: int, bet: Bet, pid: int, n: int)
    requires id in bets && 0 <= id < n && bet.player == bets[id].player && bet.amount == bets[id].amount
    ensures Net(bets[id := bet], pid, n)
            == Net(bets, pid, n) + if bet.player == pid then PaidOut(bet) - PaidOut(bets[id]) else 0
    decreases n
  {
    if n - 1 == id {
      NetFrame(bets, bets[id := bet], pid, n - 1);
    } else {
      NetUpdate(bets, id, bet, pid, n - 1);
    }
  }

  lemma {:induction false} GrantsOfStranger(log: seq<(int, int)>, pid: int)
    requires forall i :: 0 <= i < |log| ==> log[i].0 != pid
    ensures Grants(log, pid) == 0
  {
    if log != [] { GrantsOfStranger(log[..|log| - 1], pid); }
  }

  // ---------------------------------------------------------------- invariant

  /** Foreign keys, sequences and the histories. */
  ghost predicate TablesOk(s: Store) {
    && 1 <= s.nextPlayer && 1 <= s.nextRound && 1 <= s.nextBet
    && (forall pid :: pid in s.players ==> 1 <= pid < s.nextPlayer)
    && (forall id :: id in s.rounds ==> 1 <= id < s.nextRound)
    && (forall i :: 0 <= i < |s.grants| ==> s.grants[i].0 in s.players)
    && BetsOk(s, s.bets)
  }

  ghost predicate BetsOk(s: Store, bets: map<int, Bet>) {
    && (forall id :: id in bets ==>
          1 <= id < s.nextBet && bets[id].player in s.players && bets[id].round in s.rounds)
    && (forall i, j ::
          i in bets && j in bets && bets[i].round == bets[j].round && bets[i].player == bets[j].player
          ==> i == j)
  }

  /** The unpaid row of a seat is there. */
  ghost predicate HasRow(e: Engine, bets: map<int, Bet>, pid: int)
    requires pid in e.seats
  {
    e.seats[pid].betId in bets && bets[e.seats[pid].betId] == BetRow(e, pid)
  }

  /** The row of a seat as settlement leaves it. */
  function SettledRow(e: Engine, pid: int): Bet
    requires pid in e.seats
  {
    var s := e.seats[pid];
    if s.cashedOut then BetRow(e, pid).(mult := Some(Int32(s.mult)), payout := Some(s.payout)) else BetRow(e, pid)
  }

  ghost predicate HasSettledRow(e: Engine, bets: map<int, Bet>, pid: int)
    requires pid in e.seats
  {
    e.seats[pid].betId in bets && bets[e.seats[pid].betId] == SettledRow(e, pid)
  }

  ghost predicate NoRows(e: Engine, bets: map<int, Bet>) {
    forall id :: id in bets ==> bets[id].round != e.roundId
  }

  /** How the seats of the current round relate to the bet rows, by control point. */
  ghost predicate SeatsMatch(w: World) {
    var e, bets := w.eng, w.back.store.bets;
    match w.control
    case AtLoop =>
      && (e.state.Betting? ==> NoRows(e, bets) && forall pid :: pid in e.seats ==> !e.seats[pid].cashedOut)
      && (e.state.Flying? || e.state.Crashed? ==> forall pid :: pid in e.seats ==> HasRow(e, bets, pid))
    case Revealing => forall pid :: pid in e.seats ==> HasRow(e, bets, pid)
    case InTx(kind, ws, todo, half) =>
      var seen := BetsAfter(bets, ws);
      && todo <= e.seats.Keys && (half.Some? ==> half.value in todo)
      && if kind.Takeoff? then
           && NoRows(e, bets)
           && (forall pid :: pid in e.seats ==> !e.seats[pid].cashedOut)
           && (forall pid :: pid in e.seats && pid !in todo ==> HasRow(e, seen, pid))
           && (forall id :: id in seen && seen[id].round == e.roundId ==>
                 seen[id].player in e.seats && seen[id].player !in todo)
         else
           && (half.Some? ==> e.seats[half.value].cashedOut)
           && (forall pid :: pid in e.seats ==> HasRow(e, bets, pid))
           && (forall pid :: pid in todo ==> HasRow(e, seen, pid))
           && (forall pid :: pid in e.seats && pid !in todo ==> HasSettledRow(e, seen, pid))
    case Committing(kind, ws) =>
      var seen := BetsAfter(bets, ws);
      if kind.Takeoff? then forall pid :: pid in e.seats ==> HasRow(e, seen, pid)
      else
        && (forall pid :: pid in e.seats ==> HasRow(e, bets, pid))
        && (forall pid :: pid in e.seats ==> HasSettledRow(e, seen, pid))
    case Starting(_) => true
    case Pausing => true
  }

  /** The adjustment whose bet row has yet to be written. */
  function Half(w: World, pid: int): int {
    if w.control.InTx? && w.control.half == Some(pid) && pid in w.eng.seats then
      if w.control.kind.Takeoff? then -w.eng.seats[pid].amount else w.eng.seats[pid].payout
    else 0
  }

  /** The open transaction moves exactly as much money as its bet rows account for. */
  ghost predicate TxBalanced(w: World) {
    var s := w.back.store;
    forall pid :: Delta(Pending(w.control), pid)
                  == Net(Visible(w), pid, s.nextBet) - Net(s.bets, pid, s.nextBet) + Half(w, pid)
  }

  ghost predicate InRounds(w: World) {
    w.eng.state.Betting? || w.eng.state.Flying? || w.eng.state.Crashed? ==> w.eng.roundId in w.back.store.rounds
  }

  ghost predicate Inv(w: World) {
    && Shape(w)
    && TablesOk(w.back.store)
    && BetsOk(w.back.store, Visible(w))
    && InRounds(w)
    && SeatsMatch(w)
    && Balanced(w.back.store)
    && TxBalanced(w)
  }

  // ---------------------------------------------------------------- logins

  /** A login step or a date change leaves rounds and bets alone, and keeps the books. */
  lemma OutsideTouches(b: Auth.Backend, e: Auth.Step)
    ensures var s, s' := b.store, Auth.Next(b, e).store;
            && s'.rounds == s.rounds && s'.bets == s.bets && s'.drawn == s.drawn
            && s'.nextRound == s.nextRound && s'.nextBet == s.nextBet
            && s.players.Keys <= s'.players.Keys
            && (s' == s.(today := s'.today)
                || (exists fp :: s' == InsertPlayer(s, fp))
                || (exists pid :: CreditDue(s, pid) && s' == GrantCredit(s, pid)))
  {
    var s, s' := b.store, Auth.Next(b, e).store;
    if e.Create? && s' != s {
      assert s' == InsertPlayer(s, b.desk.logins[e.session].fp);
    }
  }

  lemma OutsideKeepsBooks(s: Store, s': Store)
    requires TablesOk(s) && Balanced(s)
    requires s' == s.(today := s'.today)
             || (exists fp :: s' == InsertPlayer(s, fp))
             || (exists pid :: CreditDue(s, pid) && s' == GrantCredit(s, pid))
    ensures TablesOk(s') && Balanced(s')
  {
    if fp :| s' == InsertPlayer(s, fp) {
      var pid := s.nextPlayer;
      GrantsOfStranger(s.grants, pid);
      NetOfStranger(s.bets, pid, s.nextBet);
    } else if pid :| CreditDue(s, pid) && s' == GrantCredit(s, pid) {
      assert s'.grants[..|s'.grants| - 1] == s.grants;
    }
  }

  lemma OutsideKeeps(w: World, e: Auth.Step)
    requires Inv(w)
    ensures Inv(w.(back := Auth.Next(w.back, e)))
  {
    OutsideTouches(w.back, e);
    OutsideKeepsBooks(w.back.store, Auth.Next(w.back, e).store);
  }

  // ---------------------------------------------------------------- transactions

  lemma DeltaSnoc(ws: seq<Write>, w: Write, pid: int)
    ensures Delta(ws + [w], pid) == Delta(ws, pid) + if w.Adjust? && w.pid == pid then w.delta else 0
  {
    assert (ws + [w])[..|ws|] == ws;
  }

  lemma BetsSnoc(bets: map<int, Bet>, ws: seq<Write>, w: Write)
    ensures BetsAfter(bets, ws + [w]) == BetAfter(BetsAfter(bets, ws), w)
  {
    assert (ws + [w])[..|ws|] == ws;
  }

  lemma AdjustKeeps(w: World, pid: int, ok: bool)
    requires Inv(w) && w.control.InTx? && w.control.half.None?
    requires pid in w.control.todo && pid in w.eng.seats
    requires w.control.kind.Settlement? ==> w.eng.seats[pid].cashedOut
    ensures var delta := if w.control.kind.Takeoff? then -w.eng.seats[pid].amount else w.eng.seats[pid].payout;
            Inv(AfterAdjust(w, pid, delta, ok))
  {
    var delta := if w.control.kind.Takeoff? then -w.eng.seats[pid].amount else w.eng.seats[pid].payout;
    if ok && pid in w.back.store.players {
      BetsSnoc(w.back.store.bets, w.control.ws, Adjust(pid, delta));
      forall q { DeltaSnoc(w.control.ws, Adjust(pid, delta), q); }
    }
  }

  /** The UNIQUE (round_id, player_id) constraint never refuses a bet of the engine. */
  lemma UniqueNeverRefuses(w: World, pid: int)
    requires Inv(w) && w.control.InTx? && w.control.kind.Takeoff? && pid in w.control.todo
    ensures !BetExists(Visible(w), w.eng.roundId, pid)
  {
  }

  /** CreateBet goes through if and only if it does not fail, player and round are known, and no row that the
      transaction sees is the player's in the round. */
  lemma CreateBetGoesIff(w: World, pid: int, ok: bool)
    requires w.control.InTx? && pid in w.eng.seats
    ensures var w', s := AfterCreateBet(w, pid, ok), w.back.store;
            && (w'.control.InTx?
                <==> ok && pid in s.players && w.eng.roundId in s.rounds
                     && forall id :: id in Visible(w) ==>
                          !(Visible(w)[id].round == w.eng.roundId && Visible(w)[id].player == pid))
            && (!w'.control.InTx? ==>
                  && w'.control.AtLoop? && w'.eng.state.Idle?
                  && w'.eng == w.eng.(state := w'.eng.state) && w'.back == w.back)
  {
  }

  /** The row CreateBet adds to what the transaction sees. */
  lemma CreateBetAdds(w: World, pid: int)
    requires Inv(w) && w.control.InTx? && w.control.kind.Takeoff? && w.control.half == Some(pid)
    requires pid in w.control.todo && pid in w.eng.seats && AfterCreateBet(w, pid, true).control.InTx?
    ensures var s, n, w' := w.back.store, w.back.store.nextBet, AfterCreateBet(w, pid, true);
            && Visible(w') == Visible(w)[n := BetRow(w.eng, pid)]
            && n !in Visible(w) && n !in s.bets
  {
    BetsSnoc(w.back.store.bets, w.control.ws, InsertBet(w.back.store.nextBet, BetRow(w.eng, pid)));
  }

  lemma InsertBalances(ws: seq<Write>, bets: map<int, Bet>, seen: map<int, Bet>, n: int, bet: Bet, pid: int)
    requires n > 0 && n !in seen && n !in bets && bet.payout.None?
    requires Delta(ws, pid) == Net(seen, pid, n) - Net(bets, pid, n) + if bet.player == pid then -bet.amount else 0
    ensures Delta(ws + [InsertBet(n, bet)], pid) == Net(seen[n := bet], pid, n + 1) - Net(bets, pid, n + 1)
  {
    DeltaSnoc(ws, InsertBet(n, bet), pid);
    NetInsert(seen, n, bet, pid);
    NetInsert(bets, n, bet, pid);
  }

  lemma CreateBetBalances(w: World, pid: int)
    requires w.control.InTx? && w.control.kind.Takeoff? && w.control.half == Some(pid) && pid in w.eng.seats
    requires AfterCreateBet(w, pid, true).control.InTx?
    requires var n := w.back.store.nextBet; n > 0 && n !in Visible(w) && n !in w.back.store.bets
    requires TxBalanced(w)
    ensures TxBalanced(AfterCreateBet(w, pid, true))
  {
    var s, n, bet := w.back.store, w.back.store.nextBet, BetRow(w.eng, pid);
    var w' := AfterCreateBet(w, pid, true);
    BetsSnoc(s.bets, w.control.ws, InsertBet(n, bet));
    forall q ensures Delta(Pending(w'.control), q) == Net(Visible(w'), q, n + 1) - Net(s.bets, q, n + 1) + Half(w', q)
    {
      assert Half(w, q) == if q == pid then -bet.amount else 0;
      InsertBalances(w.control.ws, s.bets, Visible(w), n, bet, q);
    }
  }

  lemma CreateBetBooks(w: World, pid: int)
    requires Inv(w) && w.control.InTx? && pid in w.eng.seats && AfterCreateBet(w, pid, true).control.InTx?
    ensures Balanced(AfterCreateBet(w, pid, true).back.store)
  {
    var s, n := w.back.store, w.back.store.nextBet;
    forall q ensures Net(s.bets, q, n + 1) == Net(s.bets, q, n) {
      NetInsert(s.bets, n, BetRow(w.eng, pid), q);
    }
  }

  lemma CreateBetSeats(w: World, pid: int)
    requires Inv(w) && w.control.InTx? && w.control.kind.Takeoff? && w.control.half == Some(pid)
    requires pid in w.control.todo && pid in w.eng.seats && AfterCreateBet(w, pid, true).control.InTx?
    ensures SeatsMatch(AfterCreateBet(w, pid, true))
  {
    var w', e' := AfterCreateBet(w, pid, true), AfterCreateBet(w, pid, true).eng;
    CreateBetAdds(w, pid);
    forall q | q in e'.seats && q !in w'.control.todo ensures HasRow(e', Visible(w'), q) {
      if q != pid { assert HasRow(w.eng, Visible(w), q); }
    }
  }

  lemma InsertKeepsRows(s: Store, seen: map<int, Bet>, bet: Bet)
    requires BetsOk(s, seen) && s.nextBet >= 1 && bet.player in s.players && bet.round in s.rounds
    requires !BetExists(seen, bet.round, bet.player)
    ensures BetsOk(s.(nextBet := s.nextBet + 1), seen[s.nextBet := bet])
  {
    var seen' := seen[s.nextBet := bet];
    forall i, j | i in seen' && j in seen' && seen'[i].round == seen'[j].round && seen'[i].player == seen'[j].player
      ensures i == j
    {
      assert i != s.nextBet ==> seen'[i] == seen[i];
      assert j != s.nextBet ==> seen'[j] == seen[j];
    }
  }

  lemma CreateBetRows(w: World, pid: int)
    requires Inv(w) && w.control.InTx? && w.control.kind.Takeoff? && w.control.half == Some(pid)
    requires pid in w.control.todo && pid in w.eng.seats && AfterCreateBet(w, pid, true).control.InTx?
    ensures var w' := AfterCreateBet(w, pid, true); BetsOk(w'.back.store, Visible(w'))
  {
    CreateBetAdds(w, pid);
    InsertKeepsRows(w.back.store, Visible(w), BetRow(w.eng, pid));
  }

  lemma CreateBetKeeps(w: World, pid: int, ok: bool)
    requires Inv(w) && w.control.InTx? && w.control.kind.Takeoff? && w.control.half == Some(pid)
    requires pid in w.control.todo && pid in w.eng.seats
    ensures Inv(AfterCreateBet(w, pid, ok))
  {
    var w' := AfterCreateBet(w, pid, ok);
    if w'.control.InTx? {
      CreateBetAdds(w, pid);
      CreateBetBalances(w, pid);
      CreateBetBooks(w, pid);
      CreateBetSeats(w, pid);
      CreateBetRows(w, pid);
    } else {
      IdleKeeps(w, w.back.store);
    }
  }

  /** The row SettleBet leaves in what the transaction sees. */
  lemma SettleBetShows(w: World, pid: int)
    requires Inv(w) && w.control.InTx? && w.control.kind.Settlement? && pid in w.control.todo && pid in w.eng.seats
    requires AfterSettleBet(w, pid, true).control.InTx?
    ensures HasRow(w.eng, Visible(w), pid)
    ensures Visible(AfterSettleBet(w, pid, true)) == Visible(w)[w.eng.seats[pid].betId := SettledRow(w.eng, pid)]
  {
    var ws := w.control.ws;
    BetsSnoc(w.back.store.bets, ws, AfterSettleBet(w, pid, true).control.ws[|ws|]);
    assert HasRow(w.eng, Visible(w), pid);
  }

  lemma SettleBetBalances(w: World, pid: int)
    requires Inv(w) && w.control.InTx? && w.control.kind.Settlement? && pid in w.control.todo && pid in w.eng.seats
    requires w.eng.seats[pid].cashedOut <==> w.control.half == Some(pid)
    requires w.control.half.Some? ==> w.control.half.value == pid
    requires AfterSettleBet(w, pid, true).control.InTx?
    ensures TxBalanced(AfterSettleBet(w, pid, true))
  {
    var s, ws, seen, id := w.back.store, w.control.ws, Visible(w), w.eng.seats[pid].betId;
    var w' := AfterSettleBet(w, pid, true);
    SettleBetShows(w, pid);
    forall q ensures Delta(Pending(w'.control), q)
                     == Net(Visible(w'), q, s.nextBet) - Net(s.bets, q, s.nextBet) + Half(w', q)
    {
      DeltaSnoc(ws, w'.control.ws[|ws|], q);
      NetUpdate(seen, id, SettledRow(w.eng, pid), q, s.nextBet);
    }
  }

  lemma SettleBetRows(w: World, pid: int)
    requires Inv(w) && w.control.InTx? && w.control.kind.Settlement? && pid in w.control.todo && pid in w.eng.seats
    requires AfterSettleBet(w, pid, true).control.InTx?
    ensures BetsOk(w.back.store, Visible(AfterSettleBet(w, pid, true)))
  {
    SettleBetShows(w, pid);
  }

  lemma SettleBetSeats(w: World, pid: int)
    requires Inv(w) && w.control.InTx? && w.control.kind.Settlement? && pid in w.control.todo && pid in w.eng.seats
    requires w.control.half.Some? ==> w.control.half.value == pid
    requires AfterSettleBet(w, pid, true).control.InTx?
    ensures SeatsMatch(AfterSettleBet(w, pid, true))
  {
    var w' := AfterSettleBet(w, pid, true);
    SettleBetShows(w, pid);
    forall q | q in w'.control.todo ensures HasRow(w.eng, Visible(w'), q) {
      assert HasRow(w.eng, Visible(w), q) && HasRow(w.eng, Visible(w), pid);
    }
    forall q | q in w.eng.seats && q !in w'.control.todo ensures HasSettledRow(w.eng, Visible(w'), q) {
      if q != pid { assert HasSettledRow(w.eng, Visible(w), q) && HasRow(w.eng, Visible(w), pid); }
    }
  }

  lemma SettleBetKeeps(w: World, pid: int, ok: bool)
    requires Inv(w) && w.control.InTx? && w.control.kind.Settlement?
    requires pid in w.control.todo && pid in w.eng.seats
    requires w.eng.seats[pid].cashedOut <==> w.control.half == Some(pid)
    requires w.control.half.Some? ==> w.control.half.value == pid
    ensures Inv(AfterSettleBet(w, pid, ok))
  {
    var w' := AfterSettleBet(w, pid, ok);
    if w'.control.InTx? {
      SettleBetSeats(w, pid);
      SettleBetRows(w, pid);
      SettleBetBalances(w, pid);
    } else {
      IdleKeeps(w, w.back.store);
    }
  }

  lemma TakeoffStatementKeeps(w: World, pid: int, ok: bool)
    requires Inv(w) && w.control.InTx? && w.control.kind.Takeoff?
    requires pid in w.control.todo && pid in w.eng.seats
    requires w.control.half.Some? ==> w.control.half.value == pid
    ensures Inv(AfterStatement(w, pid, ok))
  {
    if w.control.half.None? {
      assert AfterStatement(w, pid, ok) == AfterAdjust(w, pid, -w.eng.seats[pid].amount, ok);
      AdjustKeeps(w, pid, ok);
    } else {
      assert AfterStatement(w, pid, ok) == AfterCreateBet(w, pid, ok);
      CreateBetKeeps(w, pid, ok);
    }
  }

  lemma SettlementStatementKeeps(w: World, pid: int, ok: bool)
    requires Inv(w) && w.control.InTx? && w.control.kind.Settlement?
    requires pid in w.control.todo && pid in w.eng.seats
    requires w.control.half.Some? ==> w.control.half.value == pid
    ensures Inv(AfterStatement(w, pid, ok))
  {
    assert HasRow(w.eng, w.back.store.bets, pid);
    if w.eng.seats[pid].cashedOut && w.control.half.None? {
      assert AfterStatement(w, pid, ok) == AfterAdjust(w, pid, w.eng.seats[pid].payout, ok);
      AdjustKeeps(w, pid, ok);
    } else {
      assert AfterStatement(w, pid, ok) == AfterSettleBet(w, pid, ok);
      SettleBetKeeps(w, pid, ok);
    }
  }

  lemma StatementKeeps(w: World, pid: int, ok: bool)
    requires Inv(w) && w.control.InTx?
    ensures Inv(AfterStatement(w, pid, ok))
  {
    var c := w.control;
    if pid in c.todo && pid in w.eng.seats && !(c.half.Some? && c.half.value != pid) {
      if c.kind.Takeoff? { TakeoffStatementKeeps(w, pid, ok); } else { SettlementStatementKeeps(w, pid, ok); }
    } else {
      assert AfterStatement(w, pid, ok) == w;
    }
  }

  lemma MarkKeeps(w: World, fate: Fate)
    requires Inv(w) && w.control.InTx? && w.control.todo == {} && w.control.half.None?
    ensures Inv(AfterMark(w, fate))
  {
    assert MarkStage(w.back.store, w.eng.roundId, StageFlying).bets == w.back.store.bets;
    assert forall pid :: Half(w, pid) == 0;
  }

  /** COMMIT turns the transaction's balance into the ledger's. */
  lemma CommitBalances(w: World)
    requires Inv(w) && w.control.Committing?
    ensures var s' := CommitWrites(w.back.store, w.control.ws);
            TablesOk(s') && Balanced(s') && s'.bets == Visible(w)
  {
    var s, s' := w.back.store, CommitWrites(w.back.store, w.control.ws);
    assert s'.players.Keys == s.players.Keys;
    forall pid | pid in s'.players
      ensures s'.players[pid].balance
              == STARTING_BALANCE + DAILY_CREDIT * Grants(s.grants, pid) + Net(s'.bets, pid, s.nextBet)
    {
      assert Delta(w.control.ws, pid) == Net(Visible(w), pid, s.nextBet) - Net(s.bets, pid, s.nextBet);
    }
  }

  lemma CommitKeeps(w: World, fate: Fate)
    requires Inv(w) && w.control.Committing?
    ensures Inv(AfterCommit(w, fate))
  {
    CommitBalances(w);
    var s' := CommitWrites(w.back.store, w.control.ws);
    if fate.Failed? {
      IdleKeeps(w, w.back.store);
    } else if !fate.Done? {
      IdleKeeps(w, s');
    } else {
      CommittedKeeps(w, s');
    }
  }

  lemma CommittedKeeps(w: World, s': Store)
    requires Inv(w) && w.control.Committing? && s' == CommitWrites(w.back.store, w.control.ws)
    requires TablesOk(s') && Balanced(s') && s'.bets == Visible(w)
    ensures Inv(AfterCommit(w, Done))
  {
  }

  /** Rolling back, or giving up after an unclear commit. */
  lemma IdleKeeps(w: World, s: Store)
    requires TablesOk(s) && Balanced(s)
    ensures Inv(Abort(WithStore(w, s)))
  {
  }

  lemma StartKeeps(env: Env, w: World, roll: nat, salt: string, endsAt: int, create: Fate, publish: Fate,
                   announce: bool)
    requires Inv(w) && w.control.Starting?
    ensures Inv(AfterStart(env, w, roll, salt, endsAt, create, publish, announce))
  {
    StartLeaves(env, w, roll, salt, endsAt, create, publish, announce);
    StartStores(env, w, roll, salt, endsAt, create, publish, announce);
    FreshRoundKeeps(w, AfterStart(env, w, roll, salt, endsAt, create, publish, announce));
  }

  lemma FreshRoundKeeps(w: World, w': World)
    requires Inv(w) && w.control.Starting? && w'.control.AtLoop?
    requires w'.eng.seats == map[] && (w'.eng.state.Betting? || w'.eng.state.Idle?)
    requires var s, s' := w.back.store, w'.back.store;
             && s' == s.(rounds := s'.rounds, nextRound := s'.nextRound, drawn := s'.drawn)
             && (s' == s || (s'.nextRound == s.nextRound + 1 && s'.rounds.Keys == s.rounds.Keys + {s.nextRound}))
             && (w'.eng.state.Betting? ==> s' != s && w'.eng.roundId == s.nextRound)
    ensures Inv(w')
  {
  }

  lemma CommandKeeps(w: World, c: Command)
    requires Inv(w) && w.control.AtLoop?
    ensures Inv(AfterCommand(w, c))
  {
    var w' := AfterCommand(w, c);
    assert w'.back == w.back && Pending(w'.control) == Pending(w.control);
    forall pid | pid in w'.eng.seats && w.eng.state.Flying? ensures HasRow(w'.eng, w.back.store.bets, pid) {
      assert HasRow(w.eng, w.back.store.bets, pid);
    }
  }

  lemma TickKeeps(env: Env, w: World)
    requires Inv(w) && w.control.AtLoop? && w.eng.state.Flying?
    ensures Inv(AfterFlightTick(env, w))
  {
    var w' := AfterFlightTick(env, w);
    forall pid | pid in w'.eng.seats ensures HasRow(w'.eng, w.back.store.bets, pid) {
      assert HasRow(w.eng, w.back.store.bets, pid);
    }
  }

  lemma BettingOverKeeps(w: World, begin: Fate)
    requires Inv(w) && w.control.AtLoop? && w.eng.state.Betting?
    ensures Inv(AfterBetting(w, begin))
  {
    if w.eng.seats != map[] && !begin.Done? { IdleKeeps(w, w.back.store); }
  }

  lemma StepKeeps(env: Env, w: World, e: Event)
    requires Inv(w)
    ensures Inv(Step(env, w, e))
  {
    if Ready(w, e) {
      match e
      case Outside(step) => OutsideKeeps(w, step);
      case Statement(pid, ok) => StatementKeeps(w, pid, ok);
      case MarkRound(fate) => MarkKeeps(w, fate);
      case Commit(fate) => CommitKeeps(w, fate);
      case Start(roll, salt, endsAt, create, publish) =>
        StartKeeps(env, w, roll, salt, endsAt, create, publish, w.control.announce);
      case Handle(c) => CommandKeeps(w, c);
      case Tick => TickKeeps(env, w);
      case BettingOver(begin) => BettingOverKeeps(w, begin);
      case Reveal(fate) => RevealKeeps(env, w, fate);
      case _ => PlainKeeps(env, w, e);
    }
  }

  lemma RevealKeeps(env: Env, w: World, fate: Fate)
    requires Inv(w) && w.control.Revealing?
    ensures Inv(Step(env, w, Reveal(fate)))
  {
  }

  lemma PlainKeeps(env: Env, w: World, e: Event)
    requires Inv(w) && Ready(w, e)
    requires e.Announce? || e.BeginSettle? || e.PauseOver? || e.ProcessCrash?
    ensures Inv(Step(env, w, e))
  {
  }

  lemma {:induction false} RunKeeps(env: Env, w: World, es: seq<Event>)
    requires Inv(w)
    ensures Inv(Exec(env, w, es))
    decreases |es|
  {
    if es != [] {
      StepKeeps(env, w, es[0]);
      RunKeeps(env, Step(env, w, es[0]), es[1..]);
    }
  }

  // ---------------------------------------------------------------- main results

  /** Conservation. In every reachable state, whatever failed or crashed on the way, a player's durable
      balance is the starting balance plus the daily credits, less the stakes of the player's bet rows,
      plus their payouts. */
  lemma Conservation(env: Env, es: seq<Event>, pid: int)
    ensures var s := Exec(env, INIT, es).back.store;
            pid in s.players ==>
              s.players[pid].balance
              == STARTING_BALANCE + DAILY_CREDIT * Grants(s.grants, pid) + Net(s.bets, pid, s.nextBet)
  {
    RunKeeps(env, INIT, es);
  }
}
