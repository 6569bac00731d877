/** The connection the engine writes through (internal/db): one method per statement. Whether a statement
    succeeds is up to the database; what it does to the tables is not. */
module Databases {
  import opened Wrappers
  import opened Store
  import Auth

  class Database {
    var back: Auth.Backend
    var pending: seq<Write>   // the open transaction
    ghost var faults: nat     // statements and commits that have been reported as failed

    constructor (back: Auth.Backend)
      ensures this.back == back && pending == [] && faults == 0
    {
      this.back := back;
      pending := [];
      faults := 0;
    }

    /** The statements of other goroutines between two of the engine's. */
    method OthersRun() returns (ghost steps: seq<Auth.Step>)
      modifies this`back
      ensures back == Auth.Run(old(back), steps)
    {
      steps := [];
      var n: nat := *;
      while n > 0
        invariant back == Auth.Run(old(back), steps)
      {
        var step: Auth.Step := *;
        Auth.RunSnoc(old(back), steps, step);
        steps := steps + [step];
        back := Auth.Next(back, step);
        n := n - 1;
      }
    }

    /** CreateRound. */
    method CreateRound(crash: int, salt: string) returns (fate: Fate, id: int)
      modifies this`back, this`faults
      ensures id == old(back).store.nextRound
      ensures back == old(back).(store :=
        if fate.Failed? then old(back).store else InsertRound(old(back).store, crash, salt))
      ensures faults == old(faults) + if fate.Done? then 0 else 1
    {
      fate := *;
      if !fate.Done? { faults := faults + 1; }
      id := back.store.nextRound;
      if !fate.Failed? {
        back := back.(store := InsertRound(back.store, crash, salt));
      }
    }

    /** UPDATE rounds SET commit_hash. */
    method UpdateHash(id: int, hash: string) returns (fate: Fate)
      modifies this`back, this`faults
      ensures back == old(back).(store :=
        if fate.Failed? then old(back).store else PublishHash(old(back).store, id, hash))
      ensures faults == old(faults) + if fate.Done? then 0 else 1
    {
      fate := *;
      if !fate.Done? { faults := faults + 1; }
      if !fate.Failed? {
        back := back.(store := PublishHash(back.store, id, hash));
      }
    }

    /** UPDATE rounds SET state, outside any transaction. */
    method UpdateStage(id: int, stage: Stage) returns (fate: Fate)
      modifies this`back, this`faults
      ensures back == old(back).(store :=
        if fate.Failed? then old(back).store else MarkStage(old(back).store, id, stage))
      ensures faults == old(faults) + if fate.Done? then 0 else 1
    {
      fate := *;
      if !fate.Done? { faults := faults + 1; }
      if !fate.Failed? {
        back := back.(store := MarkStage(back.store, id, stage));
      }
    }

    method BeginTx() returns (fate: Fate)
      modifies this`pending, this`faults
      ensures pending == []
      ensures faults == old(faults) + if fate.Done? then 0 else 1
    {
      fate := *;
      if !fate.Done? { faults := faults + 1; }
      pending := [];
    }

    method AdjustBalance(pid: int, delta: int) returns (ok: bool)
      modifies this`pending, this`faults
      ensures ok ==> pid in back.store.players
      ensures pending == if ok then old(pending) + [Adjust(pid, delta)] else old(pending)
      ensures faults == old(faults) + if ok then 0 else 1
    {
      ok := *;
      ok := ok && pid in back.store.players;
      if !ok { faults := faults + 1; }
      if ok {
        pending := pending + [Adjust(pid, delta)];
      }
    }

    method CreateBet(bet: Bet) returns (ok: bool, id: int)
      modifies this
      ensures ok ==>
        && bet.player in old(back).store.players && bet.round in old(back).store.rounds
        && !BetExists(BetsAfter(old(back).store.bets, old(pending)), bet.round, bet.player)
        && id == old(back).store.nextBet
        && back == old(back).(store := old(back).store.(nextBet := id + 1))
        && pending == old(pending) + [InsertBet(id, bet)]
      ensures !ok ==> back == old(back) && pending == old(pending)
      ensures faults == old(faults) + if ok then 0 else 1
    {
      ok := *;
      id := back.store.nextBet;
      ok := ok && bet.player in back.store.players && bet.round in back.store.rounds
        && !BetExists(BetsAfter(back.store.bets, pending), bet.round, bet.player);
      if !ok { faults := faults + 1; }
      if ok {
        pending := pending + [InsertBet(id, bet)];
        back := back.(store := back.store.(nextBet := id + 1));
      }
    }

    method SettleBet(id: int, mult: Option<int>, payout: Option<int>) returns (ok: bool)
      modifies this`pending, this`faults
      ensures ok ==> id in BetsAfter(back.store.bets, old(pending))
      ensures pending == if ok then old(pending) + [Write.SettleBet(id, mult, payout)] else old(pending)
      ensures faults == old(faults) + if ok then 0 else 1
    {
      ok := *;
      ok := ok && id in BetsAfter(back.store.bets, pending);
      if !ok { faults := faults + 1; }
      if ok {
        pending := pending + [Write.SettleBet(id, mult, payout)];
      }
    }

    method Commit() returns (fate: Fate)
      modifies this
      ensures pending == []
      ensures back == old(back).(store :=
        if fate.Failed? then old(back).store else CommitWrites(old(back).store, old(pending)))
      ensures faults == old(faults) + if fate.Done? then 0 else 1
    {
      fate := *;
      if !fate.Done? { faults := faults + 1; }
      if !fate.Failed? {
        back := back.(store := CommitWrites(back.store, pending));
      }
      pending := [];
    }

    method Rollback()
      modifies this`pending
      ensures pending == []
    {
      pending := [];
    }
  }
}
