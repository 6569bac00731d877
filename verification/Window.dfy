/** The inbox (internal/engine/engine.go:126-137, 376-427): what becomes of each command, and of a whole betting
    window, in closed form: who bets first is in, with what was bet, and nobody else is. */
module Window {
  import opened Wrappers
  import opened GoInt
  import opened Rounds
  import opened System
  import Ledger

  // ---------------------------------------------------------------- one command

  /** The inbox is read: in the betting window and in flight. */
  ghost predicate Listening(w: World) { w.control.AtLoop? && (w.eng.state.Betting? || w.eng.state.Flying?) }

  /** A bet is taken if and only if the betting window is open and the player has none yet. Then the player has
      exactly this bet, everybody else what they had, and all is shown; otherwise nothing happens at all. */
  lemma BetTakenIff(env: Env, w: World, pid: int, name: string, hidden: bool, amount: int, auto: int)
    requires w.control.AtLoop?
    ensures var e, w' := w.eng, Step(env, w, Handle(PlaceBet(pid, name, hidden, amount, auto)));
            var taken := e.state.Betting? && pid !in e.seats;
            && (w' != w <==> taken)
            && (taken ==>
                  && w'.eng == e.(seats := e.seats[pid := Seat(name, hidden, amount, auto, 0, false, 0, 0)])
                  && w'.control == w.control && w'.back == w.back
                  && |w'.frames| == |w.frames| + 1)
  {
  }

  /** A cash-out is taken if and only if the round is flying and the player is still in. Then the player has the
      current multiplier's share of the stake, everybody else what they had, and all is shown. */
  lemma CashOutTakenIff(env: Env, w: World, pid: int)
    requires w.control.AtLoop?
    ensures var e, w' := w.eng, Step(env, w, Handle(CashOut(pid)));
            var taken := e.state.Flying? && pid in e.seats && !e.seats[pid].cashedOut;
            && (w' != w <==> taken)
            && (taken ==>
                  && w'.eng.seats.Keys == e.seats.Keys && w'.eng == e.(seats := w'.eng.seats)
                  && (forall q :: q in e.seats && q != pid ==> w'.eng.seats[q] == e.seats[q])
                  && PaidSeat(e.seats[pid], w'.eng.seats[pid], e.current)
                  && w'.control == w.control && w'.back == w.back
                  && |w'.frames| == |w.frames| + 1)
  {
    if w.eng.state.Flying? && pid in w.eng.seats && !w.eng.seats[pid].cashedOut {
      PaysHundredths(w.eng.seats[pid], w.eng.current);
    }
  }

  /** `s'` is `s` cashed out at `mult`: the payout is the exact share wherever the product does not wrap. */
  ghost predicate PaidSeat(s: Seat, s': Seat, mult: int) {
    && s'.cashedOut && s'.mult == mult
    && (s'.displayName, s'.hidden, s'.amount, s'.auto, s'.betId) == (s.displayName, s.hidden, s.amount, s.auto, s.betId)
    && (0 <= s.amount && 0 <= mult && s.amount * mult < INT64_LIMIT ==> s'.payout == s.amount * mult / 100)
  }

  lemma PaysHundredths(s: Seat, mult: int)
    ensures PaidSeat(s, CashedOutAt(s, mult), mult)
  {
    if 0 <= s.amount && 0 <= mult && s.amount * mult < INT64_LIMIT { PayoutExactIff(s.amount, mult); }
  }

  /** Idle, the engine hears a subscription, which opens a round, and nothing else. */
  lemma IdleHears(env: Env, w: World, c: Command)
    requires w.control.AtLoop? && w.eng.state.Idle?
    ensures var w' := Step(env, w, Handle(c));
            w' == if c.Subscribe? then w.(eng := w.eng.(subs := w.eng.subs + {c.pid}), control := Starting(true)) else w
  {
  }

  /** The end of the settle pause: the next round, unless nobody is left to see it. */
  lemma PauseEndsIff(env: Env, w: World)
    requires w.control.Pausing?
    ensures var w' := Step(env, w, PauseOver);
            && (w'.eng.state.Idle? && w'.control.AtLoop? <==> forall pid :: pid !in w.eng.subs)
            && (w'.control == Starting(false) <==> exists pid :: pid in w.eng.subs)
            && w'.eng == w.eng.(state := w'.eng.state) && w'.back == w.back && w'.frames == w.frames
            && (w'.control.Starting? ==> w'.eng == w.eng)
  {
    Inhabited(w.eng.subs);
  }

  // ---------------------------------------------------------------- who is subscribed

  /** The last thing the player said about it. */
  function Subscribed(es: seq<Event>, pid: int, before: bool): bool
    decreases |es|
  {
    if es == [] then before
    else
      var e := es[0];
      Subscribed(es[1..], pid,
                 if e == Handle(Subscribe(pid)) then true else if e == Handle(Unsubscribe(pid)) then false else before)
  }

  /** The inbox is read all along. */
  ghost predicate Heard(env: Env, w: World, es: seq<Event>)
    decreases |es|
  {
    es == [] || (Listening(w) && !es[0].ProcessCrash? && Heard(env, Step(env, w, es[0]), es[1..]))
  }

  /** While the inbox is read, exactly those are subscribed whose last word was to subscribe. */
  lemma {:induction false} LastWordCounts(env: Env, w: World, es: seq<Event>, pid: int)
    requires Heard(env, w, es)
    ensures pid in Exec(env, w, es).eng.subs <==> Subscribed(es, pid, pid in w.eng.subs)
    decreases |es|
  {
    if es != [] { LastWordCounts(env, Step(env, w, es[0]), es[1..], pid); }
  }

  // ---------------------------------------------------------------- a whole betting window

  ghost predicate Open(w: World) { w.control.AtLoop? && w.eng.state.Betting? }

  /** Anything that may happen while the window is open, in any order. */
  ghost predicate WithinWindow(es: seq<Event>) {
    forall i :: 0 <= i < |es| ==> !es[i].BettingOver? && !es[i].ProcessCrash?
  }

  ghost predicate IsBetOf(e: Event, pid: int) { e.Handle? && e.cmd.PlaceBet? && e.cmd.pid == pid }

  /** The player's first bet among the events. */
  ghost function FirstBet(es: seq<Event>, pid: int): (c: Option<Command>)
    ensures c.Some? ==> c.value.PlaceBet?
    decreases |es|
  {
    if es == [] then None else if IsBetOf(es[0], pid) then Some(es[0].cmd) else FirstBet(es[1..], pid)
  }

  /** The seat of a bet as it was made. */
  ghost predicate SeatOf(s: Seat, c: Command)
    requires c.PlaceBet?
  {
    s == Seat(c.displayName, c.hidden, c.amount, c.auto, 0, false, 0, 0)
  }

  /** One event of a window keeps it open, and changes nothing but the seat of a player who bets for the first
      time and the subscriptions; money and bet rows are not touched. */
  lemma WindowStep(env: Env, w: World, e: Event, pid: int)
    requires Open(w) && !e.BettingOver? && !e.ProcessCrash?
    ensures var w' := Step(env, w, e);
            && Open(w') && w'.eng == w.eng.(seats := w'.eng.seats, subs := w'.eng.subs)
            && w'.back.store.rounds == w.back.store.rounds && w'.back.store.bets == w.back.store.bets
            && (pid in w.eng.seats ==> pid in w'.eng.seats && w'.eng.seats[pid] == w.eng.seats[pid])
            && (pid !in w.eng.seats ==>
                  && (pid in w'.eng.seats <==> IsBetOf(e, pid))
                  && (IsBetOf(e, pid) ==> SeatOf(w'.eng.seats[pid], e.cmd)))
  {
    if e.Outside? { Ledger.OutsideTouches(w.back, e.step); }
  }

  /** A betting window in closed form, over every interleaving of commands, broadcasts and logins: a player who
      had a bet keeps it; one who had none has the first one sent, as it was sent, or none. */
  lemma {:induction false} WindowOutcome(env: Env, w: World, es: seq<Event>, pid: int)
    requires Open(w) && WithinWindow(es)
    ensures var w', first := Exec(env, w, es), FirstBet(es, pid);
            && Open(w') && w'.eng == w.eng.(seats := w'.eng.seats, subs := w'.eng.subs)
            && w'.back.store.rounds == w.back.store.rounds && w'.back.store.bets == w.back.store.bets
            && (pid in w.eng.seats ==> pid in w'.eng.seats && w'.eng.seats[pid] == w.eng.seats[pid])
            && (pid !in w.eng.seats ==>
                  && (pid in w'.eng.seats <==> first.Some?)
                  && (first.Some? ==> SeatOf(w'.eng.seats[pid], first.value)))
    decreases |es|
  {
    if es != [] {
      WindowStep(env, w, es[0], pid);
      WindowOutcome(env, Step(env, w, es[0]), es[1..], pid);
    }
  }
}
