/** The game screen and its bet form as code (internal/tui/game.go:30-83, internal/tui/bet.go:112-152): the
    methods that work through a pointer, each proved to do what the reducer in Client says. */
module Games {
  import opened Rounds
  import opened Client

  class GameModel {
    const decimals: Decimals
    const loginBalance: int
    var state: State
    var round: int
    var field: Field
    var amountStr: string
    var acStr: string
    var maxBet: int
    var err: string
    var placedThisRound: bool
    var queued: bool
    var outbox: seq<Order>

    function AsForm(): Form
      reads this
    {
      Form(field, amountStr, acStr, maxBet, err, placedThisRound, queued, loginBalance)
    }

    function AsScreen(): Screen
      reads this
    {
      Screen(state, round, AsForm(), outbox)
    }

    constructor (decimals: Decimals, balance: int)
      ensures AsScreen() == Opened(balance) && this.decimals == decimals
    {
      this.decimals := decimals;
      loginBalance := balance;
      state, round := Idle, 0;
      field, amountStr, acStr, maxBet, err := Amount, "", "", balance, "";
      placedThisRound, queued, outbox := false, false, [];
    }

    /** submitNow. */
    method SubmitNow()
      modifies this
      ensures AsScreen() == Client.SubmitNow(decimals, old(AsScreen()))
    {
      var parsed := ParseValues(decimals, AsForm());
      if parsed.Rejected? {
        err := parsed.err;
        return;
      }
      outbox := outbox + [Bet(round, parsed.amount, parsed.auto)];
      placedThisRound := true;
      queued := false;
      err := "";
    }

    /** queueForNextRound. */
    method QueueForNextRound()
      modifies this
      ensures AsScreen() == old(AsScreen()).(form := Client.QueueForNextRound(decimals, old(AsForm())))
    {
      var parsed := ParseValues(decimals, AsForm());
      if parsed.Rejected? {
        err := parsed.err;
        return;
      }
      queued := true;
      err := "";
    }

    /** autoSubmitQueue. */
    method AutoSubmitQueue()
      modifies this
      ensures AsScreen() == Client.AutoSubmitQueue(decimals, old(AsScreen()))
    {
      if !queued { return; }
      var parsed := ParseValues(decimals, AsForm());
      if parsed.Rejected? {
        err := parsed.err;
        queued := false;
        return;
      }
      outbox := outbox + [Bet(round, parsed.amount, parsed.auto)];
      placedThisRound := true;
      queued := false;
      err := "";
    }

    /** onSnapshot. */
    method OnSnapshot(state': State, round': int)
      modifies this
      ensures AsScreen() == Client.OnSnapshot(decimals, old(AsScreen()), state', round')
    {
      var previous := state;
      state, round := state', round';
      if state.Betting? && !previous.Betting? {
        maxBet := loginBalance;
        if queued {
          AutoSubmitQueue();
        } else {
          placedThisRound := false;
        }
      }
    }

    /** The enter branch of update. */
    method OnEnter()
      modifies this
      ensures AsScreen() == OnKey(decimals, old(AsScreen()), Enter)
    {
      if state.Betting? && !placedThisRound {
        SubmitNow();
      } else {
        QueueForNextRound();
      }
    }

    /** The space branch of update. */
    method OnSpace()
      modifies this`outbox
      ensures AsScreen() == OnKey(decimals, old(AsScreen()), Space)
    {
      if state.Flying? {
        outbox := outbox + [CashOut(round)];
      }
    }
  }
}
