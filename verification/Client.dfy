/** The client's bet form and game screen as a reducer (internal/tui/bet.go, internal/tui/game.go:30-83):
    snapshots, keys and profile refreshes in, bets and cash-outs out. */
module Client {
  import opened Wrappers
  import opened GoInt
  import opened Rounds
  import Fair

  /** What the client sends, with the round its screen showed at that moment. */
  datatype Order = Bet(round: int, amount: int, auto: int) | CashOut(round: int)

  datatype Field = Amount | AutoCashout

  /** betModel with the parts of gameModel it depends on. `loginBalance` is the balance of g.root.player: the
      root the game keeps a pointer to is the model as it was at login, and is not refreshed. */
  datatype Form = Form(field: Field, amountStr: string, acStr: string, maxBet: int, err: string,
                       placed: bool, queued: bool, loginBalance: int)

  datatype Screen = Screen(state: State, round: int, form: Form, outbox: seq<Order>)

  datatype Key = Space | Enter | Tab | Esc | Backspace | Typed(c: char)

  datatype Input = Frame(state: State, round: int) | Press(key: Key) | Refreshed(balance: int)

  datatype Parsed = Accepted(amount: int, auto: int) | Rejected(err: string)

  /** strconv.ParseFloat: the number a text stands for, if it is one. */
  type Decimals = string -> Option<real>

  /** strconv.ParseInt(s, 10, 64) on what the form lets in: digits only. */
  function ParseAmount(s: string): Option<int> {
    if s != [] && Fair.AllDigits(s) && Fair.Value(s) < INT64_LIMIT then Some(Fair.Value(s)) else None
  }

  /** parseValues. */
  function ParseValues(decimals: Decimals, f: Form): (r: Parsed)
    ensures r.Accepted? ==>
              && ParseAmount(f.amountStr) == Some(r.amount) && 0 < r.amount <= f.maxBet
              && if f.acStr == "" then r.auto == 0 else r.auto >= 101
    ensures r.Accepted? <==>
              && ParseAmount(f.amountStr).Some? && 0 < ParseAmount(f.amountStr).value <= f.maxBet
              && (f.acStr == "" || (decimals(f.acStr).Some? && decimals(f.acStr).value >= 1.01))
    ensures r.Accepted? && f.acStr != "" ==>
              r.auto as real <= 100.0 * decimals(f.acStr).value < r.auto as real + 1.0
  {
    match ParseAmount(f.amountStr)
    case None => Rejected("Enter a valid amount")
    case Some(amount) =>
      if amount <= 0 then Rejected("Enter a valid amount")
      else if amount > f.maxBet then Rejected("Maximum bet is " + Fair.Signed(f.maxBet))
      else if f.acStr == "" then Accepted(amount, 0)
      else match decimals(f.acStr)
           case None => Rejected("Auto cashout must be 1.01 or higher")
           case Some(times) =>
             if times < 1.01 then Rejected("Auto cashout must be 1.01 or higher")
             else Accepted(amount, (times * 100.0).Floor)
  }

  /** submitNow: the bet goes out, or the error is shown. */
  function SubmitNow(decimals: Decimals, s: Screen): Screen {
    match ParseValues(decimals, s.form)
    case Rejected(err) => s.(form := s.form.(err := err))
    case Accepted(amount, auto) =>
      s.(form := s.form.(placed := true, queued := false, err := ""), outbox := s.outbox + [Bet(s.round, amount, auto)])
  }

  function QueueForNextRound(decimals: Decimals, f: Form): Form {
    match ParseValues(decimals, f)
    case Rejected(err) => f.(err := err)
    case Accepted(_, _) => f.(queued := true, err := "")
  }

  /** autoSubmitQueue: the queued bet goes out, or is dropped with its error. */
  function AutoSubmitQueue(decimals: Decimals, s: Screen): Screen {
    if !s.form.queued then s
    else match ParseValues(decimals, s.form)
         case Rejected(err) => s.(form := s.form.(err := err, queued := false))
         case Accepted(_, _) => SubmitNow(decimals, s)
  }

  /** onSnapshot. */
  function OnSnapshot(decimals: Decimals, s: Screen, state: State, round: int): Screen {
    var s1 := s.(state := state, round := round);
    if state.Betting? && !s.state.Betting? then
      var s2 := s1.(form := s1.form.(maxBet := s1.form.loginBalance));
      if s2.form.queued then AutoSubmitQueue(decimals, s2) else s2.(form := s2.form.(placed := false))
    else s1
  }

  function Chop(s: string): string { if s == [] then [] else s[..|s| - 1] }

  /** betModel.update. */
  function Edit(f: Form, key: Key): Form {
    match key
    case Tab => f.(field := if f.field.Amount? then AutoCashout else Amount)
    case Esc => if f.queued then f.(queued := false, err := "") else f
    case Backspace =>
      if f.field.Amount? then f.(amountStr := Chop(f.amountStr), err := "")
      else f.(acStr := Chop(f.acStr), err := "")
    case Typed(c) =>
      if Fair.IsDigit(c) then
        if f.field.Amount? then f.(amountStr := f.amountStr + [c], err := "")
        else f.(acStr := f.acStr + [c], err := "")
      else if c == '.' && f.field.AutoCashout? && '.' !in f.acStr then f.(acStr := f.acStr + [c], err := "")
      else f
    case _ => f
  }

  /** gameModel.update. */
  function OnKey(decimals: Decimals, s: Screen, key: Key): Screen {
    match key
    case Space => if s.state.Flying? then s.(outbox := s.outbox + [CashOut(s.round)]) else s
    case Enter =>
      if s.state.Betting? && !s.form.placed then SubmitNow(decimals, s)
      else s.(form := QueueForNextRound(decimals, s.form))
    case _ => s.(form := Edit(s.form, key))
  }

  function Next(decimals: Decimals, s: Screen, e: Input): Screen {
    match e
    case Frame(state, round) => OnSnapshot(decimals, s, state, round)
    case Press(key) => OnKey(decimals, s, key)
    case Refreshed(balance) => s.(form := s.form.(maxBet := balance))
  }

  function Run(decimals: Decimals, s: Screen, es: seq<Input>): Screen
    decreases |es|
  {
    if es == [] then s else Run(decimals, Next(decimals, s, es[0]), es[1..])
  }

  /** newGameModel, newBetModel. */
  function Opened(balance: int): Screen {
    Screen(Idle, 0, Form(Amount, "", "", balance, "", false, false, balance), [])
  }

  // ---------------------------------------------------------------- at most one bet per round

  /** The frames come in the order the engine took them, with any number of them missing. */
  ghost predicate InOrder(s: Screen, es: seq<Input>)
    decreases |es|
  {
    es == [] ||
    (match es[0]
     case Frame(state, round) =>
       Position(s.state, s.round) <= Position(state, round) && InOrder(s.(state := state, round := round), es[1..])
     case _ => InOrder(s, es[1..]))
  }

  ghost predicate OneBetEach(outbox: seq<Order>) {
    forall i, j :: 0 <= i < j < |outbox| && outbox[i].Bet? && outbox[j].Bet? ==> outbox[i].round != outbox[j].round
  }

  ghost predicate Inv(s: Screen) {
    && OneBetEach(s.outbox)
    && (forall i :: 0 <= i < |s.outbox| && s.outbox[i].Bet? ==> s.outbox[i].round <= s.round)
    && (s.state.Betting? && !s.form.placed ==>
          forall i :: 0 <= i < |s.outbox| && s.outbox[i].Bet? ==> s.outbox[i].round < s.round)
  }

  lemma NextKeeps(decimals: Decimals, s: Screen, e: Input)
    requires Inv(s)
    requires e.Frame? ==> Position(s.state, s.round) <= Position(e.state, e.round)
    ensures Inv(Next(decimals, s, e))
    ensures var s' := Next(decimals, s, e);
            if e.Frame? then s'.state == e.state && s'.round == e.round
            else s'.state == s.state && s'.round == s.round
  {
    var s' := Next(decimals, s, e);
    assert s'.outbox == s.outbox || (|s'.outbox| == |s.outbox| + 1 && s'.outbox[..|s.outbox|] == s.outbox);
    if e.Frame? && e.state.Betting? && !s.state.Betting? {
      assert s.round < e.round;
    }
  }

  lemma {:induction false} OrderDependsOnFrames(s: Screen, s': Screen, es: seq<Input>)
    requires InOrder(s, es) && s'.state == s.state && s'.round == s.round
    ensures InOrder(s', es)
    decreases |es|
  {
    if es != [] {
      match es[0]
      case Frame(state, round) =>
        OrderDependsOnFrames(s.(state := state, round := round), s'.(state := state, round := round), es[1..]);
      case _ => OrderDependsOnFrames(s, s', es[1..]);
    }
  }

  lemma {:induction false} RunKeeps(decimals: Decimals, s: Screen, es: seq<Input>)
    requires Inv(s) && InOrder(s, es)
    ensures Inv(Run(decimals, s, es))
    decreases |es|
  {
    if es != [] {
      NextKeeps(decimals, s, es[0]);
      var s1 := Next(decimals, s, es[0]);
      var shown := if es[0].Frame? then s.(state := es[0].state, round := es[0].round) else s;
      OrderDependsOnFrames(shown, s1, es[1..]);
      RunKeeps(decimals, s1, es[1..]);
    }
  }

  /** The client sends at most one bet for any round it shows, whatever keys are pressed and whatever frames
      are missing from an ordered stream. */
  lemma OneBetPerRound(decimals: Decimals, balance: int, es: seq<Input>)
    requires InOrder(Opened(balance), es)
    ensures OneBetEach(Run(decimals, Opened(balance), es).outbox)
  {
    RunKeeps(decimals, Opened(balance), es);
  }

  // ---------------------------------------------------------------- the form

  /** What the form can hold: a row of digits, and digits with at most one point. */
  predicate Decimalish(s: string) {
    && (forall i :: 0 <= i < |s| ==> Fair.IsDigit(s[i]) || s[i] == '.')
    && (forall i, j :: 0 <= i < j < |s| ==> s[i] != '.' || s[j] != '.')
  }

  ghost predicate TextOk(f: Form) { Fair.AllDigits(f.amountStr) && Decimalish(f.acStr) }

  lemma EditKeepsText(f: Form, key: Key)
    requires TextOk(f)
    ensures TextOk(Edit(f, key))
  {
    var ac, ac' := f.acStr, Edit(f, key).acStr;
    assert ac' == ac || ac' == Chop(ac) || (|ac'| == |ac| + 1 && ac'[..|ac|] == ac);
  }

  lemma {:induction false} TextStaysOk(decimals: Decimals, s: Screen, es: seq<Input>)
    requires TextOk(s.form)
    ensures TextOk(Run(decimals, s, es).form)
    decreases |es|
  {
    if es != [] {
      if es[0].Press? { EditKeepsText(s.form, es[0].key); }
      TextStaysOk(decimals, Next(decimals, s, es[0]), es[1..]);
    }
  }

  /** Whatever is typed, the amount is rejected as no number only if it is blank, zero or too long for an
      int64; otherwise it is judged against the maximum. */
  lemma AmountRejectedIff(decimals: Decimals, balance: int, es: seq<Input>)
    ensures var f := Run(decimals, Opened(balance), es).form;
            && Fair.AllDigits(f.amountStr)
            && (ParseValues(decimals, f) == Rejected("Enter a valid amount")
                <==> f.amountStr == "" || Fair.Value(f.amountStr) == 0 || Fair.Value(f.amountStr) >= INT64_LIMIT)
  {
    TextStaysOk(decimals, Opened(balance), es);
    var f := Run(decimals, Opened(balance), es).form;
    assert ("Maximum bet is " + Fair.Signed(f.maxBet))[0] == 'M' && "Enter a valid amount"[0] == 'E';
    assert "Auto cashout must be 1.01 or higher"[0] == 'A';
  }

  /** Which of its three errors a refused form shows: the amount's own comes first, then the maximum's, then the
      target's. */
  lemma RefusedBecause(decimals: Decimals, f: Form)
    ensures ParseValues(decimals, f).Rejected? ==>
              var err, amount := ParseValues(decimals, f).err, ParseAmount(f.amountStr);
              && (amount.None? || amount.value <= 0 ==> err == "Enter a valid amount")
              && (amount.Some? && 0 < amount.value && f.maxBet < amount.value ==>
                    err == "Maximum bet is " + Fair.Signed(f.maxBet))
              && (amount.Some? && 0 < amount.value <= f.maxBet ==> err == "Auto cashout must be 1.01 or higher")
  {
  }

  // ---------------------------------------------------------------- what goes out, and what is left

  /** What an input sends. Enter bets in an open window if nothing was placed; a betting frame sends what is queued;
      space cashes out in flight; nothing else sends anything. */
  function Sends(decimals: Decimals, s: Screen, e: Input): seq<Order> {
    var now, opening := ParseValues(decimals, s.form), ParseAtOpening(decimals, s.form);
    match e
    case Press(Space) => if s.state.Flying? then [CashOut(s.round)] else []
    case Press(Enter) =>
      if s.state.Betting? && !s.form.placed && now.Accepted? then [Bet(s.round, now.amount, now.auto)] else []
    case Frame(state, round) =>
      if state.Betting? && !s.state.Betting? && s.form.queued && opening.Accepted?
      then [Bet(round, opening.amount, opening.auto)] else []
    case _ => []
  }

  lemma SentExactly(decimals: Decimals, s: Screen, e: Input)
    ensures Next(decimals, s, e).outbox == s.outbox + Sends(decimals, s, e)
  {
  }

  /** A bet that goes out is placed and no longer queued, so it does not go out again; one that is refused leaves
      its error and is not queued any longer either. Enter queues a good form when it does not send it, and leaves
      everything but the error alone when the form is bad. */
  lemma FlagsAfter(decimals: Decimals, s: Screen, e: Input)
    ensures var s', sent := Next(decimals, s, e), exists o :: o in Sends(decimals, s, e) && o.Bet?;
            && (sent ==> s'.form.placed && !s'.form.queued && s'.form.err == "")
            && (e.Frame? && e.state.Betting? && !s.state.Betting? ==>
                  var parsed := ParseAtOpening(decimals, s.form);
                  && !s'.form.queued && s'.form.placed == (s.form.queued && (parsed.Accepted? || s.form.placed))
                  && (s.form.queued && parsed.Rejected? ==> s'.form.err == parsed.err))
            && (e == Press(Enter) && !sent ==>
                  var parsed := ParseValues(decimals, s.form);
                  if parsed.Accepted? then s'.form == s.form.(queued := true, err := "")
                  else s'.form == s.form.(err := parsed.err))
  {
    var sends := Sends(decimals, s, e);
    assert sends == [] || (sends == [sends[0]] && sends[0] in sends);
  }

  /** What an input leaves alone: only typing and backspace change the texts, only tab the field, and the maximum only
      a refreshed profile and the opening of a window, which sets it to the balance at login. */
  lemma FormKept(decimals: Decimals, s: Screen, e: Input)
    ensures var f, f' := s.form, Next(decimals, s, e).form;
            && (!(e.Press? && (e.key.Typed? || e.key.Backspace?)) ==>
                  f'.amountStr == f.amountStr && f'.acStr == f.acStr)
            && (e != Press(Tab) ==> f'.field == f.field)
            && (if f.field.Amount? then f'.acStr == f.acStr else f'.amountStr == f.amountStr)
            && f'.loginBalance == f.loginBalance
            && f'.maxBet == match e
                            case Refreshed(balance) => balance
                            case Frame(state, _) =>
                              if state.Betting? && !s.state.Betting? then f.loginBalance else f.maxBet
                            case Press(_) => f.maxBet
  {
  }

  /** Under the balance at login, which is what a betting window judges a queued bet by. */
  function ParseAtOpening(decimals: Decimals, f: Form): Parsed {
    ParseValues(decimals, f.(maxBet := f.loginBalance))
  }

  /** A betting frame sends a bet if and only if the screen did not show a betting window already, a bet is
      queued and the form, as it then stands, is still good; the bet is the form's, for the frame's round. An
      Esc in between takes the queued bet back. */
  lemma QueuedBetGoesOutIff(decimals: Decimals, s: Screen, round: int)
    ensures var parsed := ParseAtOpening(decimals, s.form);
            OnSnapshot(decimals, s, Betting, round).outbox
            == s.outbox + if !s.state.Betting? && s.form.queued && parsed.Accepted?
                          then [Bet(round, parsed.amount, parsed.auto)] else []
    ensures OnSnapshot(decimals, OnKey(decimals, s, Esc), Betting, round).outbox == s.outbox
  {
  }

  // ---------------------------------------------------------------- what "bet placed" means

  ghost predicate BetSentFor(s: Screen, round: int) {
    exists i :: 0 <= i < |s.outbox| && s.outbox[i].Bet? && s.outbox[i].round == round
  }

  /** "Bet placed" is up exactly if a bet has gone out for the round on the screen. */
  ghost predicate FlagRight(s: Screen) { s.form.placed <==> BetSentFor(s, s.round) }

  lemma NothingSentYet(s: Screen, round: int)
    requires Inv(s) && s.round < round
    ensures !BetSentFor(s, round)
  {
  }

  /** On the first frame of a round that reaches the screen, "bet placed" is right about that round unless the
      flag was still up from an earlier one and nothing took it down or justified it: because the frame is not
      of the betting window; or because the screen showed a betting window already; or because a queued bet
      has just been rejected. Then the flag stays up, no bet has gone out, and Enter will only queue. */
  lemma PlacedIsRightIff(decimals: Decimals, s: Screen, state: State, round: int)
    requires Inv(s) && s.round < round
    ensures FlagRight(OnSnapshot(decimals, s, state, round))
            <==> !(s.form.placed
                   && (!state.Betting? || s.state.Betting?
                       || (s.form.queued && ParseAtOpening(decimals, s.form).Rejected?)))
  {
    var s' := OnSnapshot(decimals, s, state, round);
    NothingSentYet(s, round);
    if |s'.outbox| > |s.outbox| {
      assert s'.outbox[|s.outbox|].Bet? && s'.outbox[|s.outbox|].round == round;
    } else {
      assert s'.outbox == s.outbox;
    }
  }

  /** And so it stays until the next round: no key, no refreshed profile and no later frame of the same round
      makes a right flag wrong or a wrong one right. */
  lemma FlagKeptWithinRound(decimals: Decimals, s: Screen, e: Input)
    requires Inv(s)
    requires e.Frame? ==> e.round == s.round && Position(s.state, s.round) <= Position(e.state, e.round)
    ensures FlagRight(Next(decimals, s, e)) <==> FlagRight(s)
  {
    var s' := Next(decimals, s, e);
    if s'.form.placed && !s.form.placed {
      NothingSentNow(s);
      assert s'.outbox[|s.outbox|].Bet? && s'.outbox[|s.outbox|].round == s'.round;
    } else {
      assert s'.outbox == s.outbox || (s'.outbox[..|s.outbox|] == s.outbox && s'.outbox[|s.outbox|].CashOut?);
      SameBetsSent(s, s');
    }
  }

  lemma NothingSentNow(s: Screen)
    requires Inv(s) && s.state.Betting? && !s.form.placed
    ensures !BetSentFor(s, s.round)
  {
  }

  lemma SameBetsSent(s: Screen, s': Screen)
    requires s'.outbox == s.outbox
             || (|s'.outbox| == |s.outbox| + 1 && s'.outbox[..|s.outbox|] == s.outbox && s'.outbox[|s.outbox|].CashOut?)
    ensures forall round :: BetSentFor(s', round) <==> BetSentFor(s, round)
  {
    forall round ensures BetSentFor(s', round) <==> BetSentFor(s, round) {
      if i :| 0 <= i < |s.outbox| && s.outbox[i].Bet? && s.outbox[i].round == round {
        assert s'.outbox[i] == s.outbox[i];
      }
    }
  }

  // ---------------------------------------------------------------- the maximum of the form

  /** When a betting window opens, the form judges a stake by the balance at login: what it then accepts is
      covered by a player's balance, whatever is typed, if and only if the login balance is. */
  lemma OpeningCoveredIff(decimals: Decimals, login: int, balance: int)
    requires 0 < login < INT64_LIMIT
    ensures (forall f: Form :: f.loginBalance == login && ParseAtOpening(decimals, f).Accepted? ==>
               ParseAtOpening(decimals, f).amount <= balance)
            <==> login <= balance
  {
    var all := Form(Amount, Fair.Decimal(login), "", 0, "", false, false, login);
    Fair.DecimalIsCanonical(login);
    assert ParseAtOpening(decimals, all) == Accepted(login, 0);
  }

  lemma {:induction false} RunSnoc(decimals: Decimals, s: Screen, es: seq<Input>, e: Input)
    ensures Run(decimals, s, es + [e]) == Next(decimals, Run(decimals, s, es), e)
    decreases |es|
  {
    if es == [] {
      assert Run(decimals, s, [e]) == Run(decimals, Next(decimals, s, e), [e][1..]);
    } else {
      assert (es + [e])[1..] == es[1..] + [e];
      RunSnoc(decimals, Next(decimals, s, es[0]), es[1..], e);
    }
  }

  lemma TypedFive(f: Form)
    requires f.amountStr == "5"
    ensures ParseAmount(f.amountStr) == Some(5)
  {
    Fair.DecimalIsCanonical(5);
    assert Fair.Decimal(5) == f.amountStr;
  }

  /** A bet of 5 typed and sent in the betting window of round 1. */
  const SENT_IN_ROUND_1 := [Frame(Betting, 1), Press(Typed('5')), Press(Enter)]

  lemma SentInRound1(decimals: Decimals, balance: int)
    requires balance >= 5
    ensures Run(decimals, Opened(balance), SENT_IN_ROUND_1)
            == Screen(Betting, 1, Form(Amount, "5", "", balance, "", true, false, balance), [Bet(1, 5, 0)])
  {
    var s0 := Opened(balance);
    var s1 := Next(decimals, s0, Frame(Betting, 1));
    var s2 := Next(decimals, s1, Press(Typed('5')));
    TypedFive(s2.form);
    RunSnoc(decimals, s0, [], Frame(Betting, 1));
    RunSnoc(decimals, s0, [Frame(Betting, 1)], Press(Typed('5')));
    RunSnoc(decimals, s0, [Frame(Betting, 1), Press(Typed('5'))], Press(Enter));
    assert SENT_IN_ROUND_1 == [Frame(Betting, 1), Press(Typed('5'))] + [Press(Enter)];
  }

  /** Two betting windows in a row on the screen, as when the takeoff of the first has failed: the bet sent in
      the first is still shown as placed in the second. */
  lemma PlacedOutlivesItsRound(decimals: Decimals, balance: int)
    requires balance >= 5
    ensures var es := SENT_IN_ROUND_1 + [Frame(Betting, 2)];
            var s := Run(decimals, Opened(balance), es);
            InOrder(Opened(balance), es) && s.form.placed && s.outbox == [Bet(1, 5, 0)] && !BetSentFor(s, 2)
  {
    SentInRound1(decimals, balance);
    RunSnoc(decimals, Opened(balance), SENT_IN_ROUND_1, Frame(Betting, 2));
    FramesInOrder([Frame(Betting, 2)]);
  }

  /** And a bet queued in the first is still waiting in the second. */
  lemma QueuedOutlivesItsRound(decimals: Decimals, balance: int)
    requires balance >= 5
    ensures var es := SENT_IN_ROUND_1 + [Press(Enter), Frame(Betting, 2)];
            var s := Run(decimals, Opened(balance), es);
            InOrder(Opened(balance), es) && s.form.queued && s.outbox == [Bet(1, 5, 0)]
  {
    var es := SENT_IN_ROUND_1 + [Press(Enter)];
    SentInRound1(decimals, balance);
    TypedFive(Run(decimals, Opened(balance), SENT_IN_ROUND_1).form);
    RunSnoc(decimals, Opened(balance), SENT_IN_ROUND_1, Press(Enter));
    RunSnoc(decimals, Opened(balance), es, Frame(Betting, 2));
    assert es + [Frame(Betting, 2)] == SENT_IN_ROUND_1 + [Press(Enter), Frame(Betting, 2)];
    FramesInOrder([Press(Enter), Frame(Betting, 2)]);
  }

  /** A round of which no betting frame gets through: the first one the screen sees is flying. */
  lemma PlacedOutlivesAMissedWindow(decimals: Decimals, balance: int)
    requires balance >= 5
    ensures var es := SENT_IN_ROUND_1 + [Frame(Flying, 2)];
            var s := Run(decimals, Opened(balance), es);
            InOrder(Opened(balance), es) && s.form.placed && s.outbox == [Bet(1, 5, 0)] && !BetSentFor(s, 2)
  {
    SentInRound1(decimals, balance);
    RunSnoc(decimals, Opened(balance), SENT_IN_ROUND_1, Frame(Flying, 2));
    FramesInOrder([Frame(Flying, 2)]);
  }

  /** A player who logged in with 5 credits, has staked and lost them, and has been told so, bets them again. */
  const BROKE_AND_ON := [Frame(Flying, 1), Refreshed(0), Frame(Betting, 2), Press(Enter)]

  lemma BetsWhatIsGone(decimals: Decimals)
    ensures var es := SENT_IN_ROUND_1 + BROKE_AND_ON;
            InOrder(Opened(5), es) && Run(decimals, Opened(5), es).outbox == [Bet(1, 5, 0), Bet(2, 5, 0)]
  {
    var es := SENT_IN_ROUND_1;
    SentInRound1(decimals, 5);
    TypedFive(Run(decimals, Opened(5), es).form);
    RunSnoc(decimals, Opened(5), es, Frame(Flying, 1));
    RunSnoc(decimals, Opened(5), es + [Frame(Flying, 1)], Refreshed(0));
    RunSnoc(decimals, Opened(5), es + [Frame(Flying, 1)] + [Refreshed(0)], Frame(Betting, 2));
    RunSnoc(decimals, Opened(5), es + [Frame(Flying, 1)] + [Refreshed(0)] + [Frame(Betting, 2)], Press(Enter));
    assert es + [Frame(Flying, 1)] + [Refreshed(0)] + [Frame(Betting, 2)] + [Press(Enter)] == es + BROKE_AND_ON;
    BrokeInOrder();
  }

  lemma BrokeInOrder()
    ensures InOrder(Opened(5), SENT_IN_ROUND_1 + BROKE_AND_ON)
  {
    var s0, es, more := Opened(5), SENT_IN_ROUND_1 + BROKE_AND_ON, BROKE_AND_ON;
    var s1 := s0.(state := Betting, round := 1);
    var s2 := s1.(state := Flying);
    assert more[1..][1..][1..] == [Press(Enter)] && [Press(Enter)][1..] == [];
    assert InOrder(s2.(state := Betting, round := 2), [Press(Enter)]);
    assert InOrder(s2, more[1..][1..]) && InOrder(s2, more[1..]) && InOrder(s1, more);
    assert es[1..][1..][1..] == more;
    assert InOrder(s1, es[1..][1..]) && InOrder(s1, es[1..]);
  }

  lemma FramesInOrder(more: seq<Input>)
    requires more == [Frame(Flying, 2)] || more == [Frame(Betting, 2)] || more == [Press(Enter), Frame(Betting, 2)]
    ensures forall balance :: InOrder(Opened(balance), SENT_IN_ROUND_1 + more)
  {
    forall balance ensures InOrder(Opened(balance), SENT_IN_ROUND_1 + more) {
      var s0, es := Opened(balance), SENT_IN_ROUND_1 + more;
      var s1 := s0.(state := Betting, round := 1);
      assert es[1..][1..][1..] == more;
      assert InOrder(s1, more[|more| - 1..]) by {
        assert InOrder(s1.(state := more[|more| - 1].state, round := 2), more[|more| - 1..][1..]);
      }
      assert InOrder(s1, more) by { if |more| == 2 { assert more[1..] == more[|more| - 1..]; } }
      assert InOrder(s1, es[1..][1..]) && InOrder(s1, es[1..]);
    }
  }
}
