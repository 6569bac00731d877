/** The results about runs, read off a running engine object. */
module Audit {
  import opened Wrappers
  import opened Multiplier
  import Auth
  import Client
  import EndToEnd
  import Flight
  import Ledger
  import Mailbox
  import Restarts
  import Reveal
  import Rounds
  import Server
  import Solvency
  import S = System
  import WholeRound
  import Window
  import WriteOrder

  /** The engine of a process that was started on the tables an earlier run of the system has left; `before` is
      empty for the first process on an empty database. */
  ghost predicate Process(e: Server.Engine, before: seq<S.Event>)
    reads e, e.participants.Values, e.subs.Values, e.db
  {
    && e.Valid()
    && e.origin == Restarts.StartOn(S.Exec(e.env, S.INIT, before).back.(desk := Auth.CLOSED))
  }

  /** Whatever such an engine has done is the end of a run of the system. */
  lemma ProcessIsARun(e: Server.Engine, before: seq<S.Event>)
    requires Process(e, before)
    ensures var past := S.Exec(e.env, S.INIT, before).frames;
            S.Exec(e.env, S.INIT, before + [S.ProcessCrash] + e.trace) == Restarts.After(past, e.World())
  {
    assert Server.Cited(e.trace);
    Restarts.RestartIsARun(e.env, before, e.trace);
  }

  /** Its books balance, its bet rows are in order and its seats are what its flight has decided so far. */
  lemma EngineKeepsItsBooks(e: Server.Engine, before: seq<S.Event>)
    requires Process(e, before) && Growth(e.env.g)
    ensures Ledger.Balanced(e.db.back.store)
    ensures WriteOrder.Inv(e.env, e.World()) && Flight.Inv(e.env, e.Eng())
  {
    ProcessIsARun(e, before);
    var past := S.Exec(e.env, S.INIT, before).frames;
    WriteOrder.RunKeeps(e.env, S.INIT, before + [S.ProcessCrash] + e.trace);
    PastIsIrrelevant(e.env, past, e.World());
  }

  lemma PastIsIrrelevant(env: S.Env, past: seq<Rounds.Snapshot>, w: S.World)
    requires WriteOrder.Inv(env, Restarts.After(past, w))
    ensures WriteOrder.Inv(env, w)
  {
    assert S.Visible(w) == S.Visible(Restarts.After(past, w));
    assert forall pid :: Ledger.Half(w, pid) == Ledger.Half(Restarts.After(past, w), pid);
  }

  /** A flight of the engine object pays the closed form: when `RunFlying`, called after `before`, has come
      to the crash by the events `es`, every seat that was still in holds what Flight.Outcome says of it. */
  lemma EngineFlightPays(e: Server.Engine, before: seq<S.Event>, es: seq<S.Event>, pid: int)
    requires Growth(e.env.g) && e.origin == Restarts.StartOn(e.origin.back)
    requires e.Flown(before + es) && e.state.Crashed? && Flight.WithinFlight(es)
    requires var w := S.Exec(e.env, e.origin, before);
             Flight.Airborne(w) && pid in w.eng.seats && !w.eng.seats[pid].cashedOut
    ensures var w := S.Exec(e.env, e.origin, before);
            pid in e.participants
            && e.participants[pid].AsSeat()
               == Flight.Outcome(e.env.g, w.eng.seats[pid], w.eng.crash, Flight.FirstCashOut(e.env, w, es, pid))
  {
    assert Server.Cited(before + es);
    S.ExecConcat(e.env, e.origin, before, es);
    var w := S.Exec(e.env, e.origin, before);
    assert S.Exec(e.env, w, es).eng == e.Eng();
    Flight.RunKeeps(e.env, e.origin, before);
    Flight.FlightOutcome(e.env, w, es, pid);
    assert pid in e.Seats() && e.Seats()[pid] == e.participants[pid].AsSeat();
  }

  /** When `RunSettle` has returned with `upto`, every player who had cashed out of the round has the payout in
      the bet row, and has it still, whatever the engine has done since. */
  lemma EnginePays(e: Server.Engine, before: seq<S.Event>, upto: seq<S.Event>, pid: int)
    requires Process(e, before) && Growth(e.env.g) && e.Settled(upto) && upto <= e.trace
    requires var seats := S.Exec(e.env, e.origin, upto).eng.seats; pid in seats && seats[pid].cashedOut
    ensures var s, bets := S.Exec(e.env, e.origin, upto).eng.seats[pid], e.db.back.store.bets;
            s.betId in bets && bets[s.betId].player == pid && bets[s.betId].payout == Some(s.payout)
  {
    var es, more := before + [S.ProcessCrash] + upto, e.trace[|upto|..];
    assert Server.Cited(upto);
    Restarts.RestartIsARun(e.env, before, upto);
    ProcessIsARun(e, before);
    assert es + more == before + [S.ProcessCrash] + e.trace;
    S.ExecConcat(e.env, S.INIT, es, more);
    Solvency.PaidForGood(e.env, es, more, pid);
  }

  /** One bet per round and session: whatever keys are pressed between the snapshots that a subscriber's mailbox
      has handed out, at most one bet goes out for any round. */
  lemma SessionBetsOnce(e: Server.Engine, before: seq<S.Event>, p: int,
                        decimals: Client.Decimals, balance: int, ins: seq<Client.Input>)
    requires Process(e, before) && p in e.subs
    requires var box, fs := e.subs[p].box, EndToEnd.FramesOf(ins);
             |fs| <= |box.got| && forall k :: 0 <= k < |fs| ==>
               0 <= box.got[k] < |box.sent| && fs[k] == EndToEnd.Shown(box.sent[box.got[k]])
    ensures Client.OneBetEach(Client.Run(decimals, Client.Opened(balance), ins).outbox)
  {
    var sub, w := e.subs[p], e.World();
    assert Server.CitedSub(p) && e.SubOk(p);
    EndToEnd.MailboxKeepsOrder(w, sub.offered, sub.box);
    ProcessIsARun(e, before);
    Reveal.RunKeeps(e.env, S.INIT, before + [S.ProcessCrash] + e.trace);
    OwnFramesInOrder(e.env, S.Exec(e.env, S.INIT, before).frames, w);
    EndToEnd.BetsOnceFrom(e.env, w, EndToEnd.Taken(sub.offered, sub.box.got), decimals, balance, ins);
  }

  lemma OwnFramesInOrder(env: S.Env, past: seq<Rounds.Snapshot>, w: S.World)
    requires Reveal.Inv(env, Restarts.After(past, w))
    ensures Reveal.Inv(env, w)
  {
    var w' := Restarts.After(past, w);
    assert forall i :: 0 <= i < |w.frames| ==> w.frames[i] == w'.frames[|past| + i];
  }

  /** After a betting window the engine holds exactly the first bet of every player who sent one. */
  lemma EngineSeatsFirstBets(e: Server.Engine, before: seq<S.Event>, es: seq<S.Event>, pid: int)
    requires e.Valid() && e.trace == before + es && Window.WithinWindow(es)
    requires var w := S.Exec(e.env, e.origin, before); Window.Open(w) && pid !in w.eng.seats
    ensures pid in e.participants <==> Window.FirstBet(es, pid).Some?
    ensures pid in e.participants ==> Window.SeatOf(e.participants[pid].AsSeat(), Window.FirstBet(es, pid).value)
  {
    assert Server.Cited(e.trace);
    S.ExecConcat(e.env, e.origin, before, es);
    Window.WindowOutcome(e.env, S.Exec(e.env, e.origin, before), es, pid);
    assert pid in e.Seats() <==> pid in e.participants;
  }

  lemma PastDoesNotPay(env: S.Env, past: seq<Rounds.Snapshot>, w: S.World)
    requires Solvency.Inv(env, Restarts.After(past, w)) && Solvency.PaidInPause(Restarts.After(past, w))
    ensures Solvency.Inv(env, w) && Solvency.PaidInPause(w)
  {
    PastIsIrrelevant(env, past, w);
  }

  /** A round of the engine object comes out in closed form, for the first and every later process: of whatever it
      has done since its window opened, only the commands, the ticks and the crash point count. */
  lemma EngineRoundPays(e: Server.Engine, before: seq<S.Event>, upto: seq<S.Event>, r: WholeRound.Round, pid: int)
    requires Process(e, before) && Growth(e.env.g)
    requires e.trace == upto + r.window + r.takeoff + r.flight + r.landing
    requires var w := S.Exec(e.env, e.origin, upto);
             WholeRound.Completes(e.env, w, r) && pid in w.back.store.players
    ensures WholeRound.ComesOut(e.env, S.Exec(e.env, e.origin, upto), r, pid, e.World())
  {
    OwnRunKeeps(e, before, upto);
    WholeRound.PlayerComesOut(e.env, S.Exec(e.env, e.origin, upto), r, pid);
    TraceIsRound(e, upto, r);
  }

  /** What any run keeps, the process's own run keeps. */
  lemma OwnRunKeeps(e: Server.Engine, before: seq<S.Event>, upto: seq<S.Event>)
    requires Process(e, before) && Growth(e.env.g)
    ensures var w := S.Exec(e.env, e.origin, upto); Solvency.Inv(e.env, w) && Solvency.PaidInPause(w)
  {
    var past, w := S.Exec(e.env, S.INIT, before).frames, S.Exec(e.env, e.origin, upto);
    Restarts.RestartIsARun(e.env, before, upto);
    Solvency.RunKeepsPaid(e.env, S.INIT, before + [S.ProcessCrash] + upto);
    PastDoesNotPay(e.env, past, w);
  }

  lemma TraceIsRound(e: Server.Engine, upto: seq<S.Event>, r: WholeRound.Round)
    requires e.Valid() && e.trace == upto + r.window + r.takeoff + r.flight + r.landing
    ensures e.World() == WholeRound.Over(e.env, S.Exec(e.env, e.origin, upto), r)
  {
    assert Server.Cited(e.trace);
    S.ExecConcat(e.env, e.origin, upto + r.window + r.takeoff + r.flight, r.landing);
    S.ExecConcat(e.env, e.origin, upto + r.window + r.takeoff, r.flight);
    S.ExecConcat(e.env, e.origin, upto + r.window, r.takeoff);
    S.ExecConcat(e.env, e.origin, upto, r.window);
  }

  /** Nothing is withheld, and nothing sent twice: the mailbox of a subscriber has been sent the snapshot of its
      subscription and every broadcast since, in order, and no other. What it holds of them is up to the receiver
      and to `Mailbox`. */
  lemma EngineDelivers(e: Server.Engine, p: int)
    requires e.Valid() && p in e.subs
    ensures var sub, to := e.subs[p], Server.AudiencesOf(e.env, e.origin, e.trace);
            && |to| == |e.frames| && sub.since <= |to|
            && |sub.offered| == |sub.box.sent|
            && (forall i :: 0 <= i < |sub.offered| ==>
                  sub.offered[i] < |e.frames| && sub.box.sent[i] == e.frames[sub.offered[i]])
            && (forall i, j :: 0 <= i < j < |sub.offered| ==> sub.offered[i] < sub.offered[j])
            && (forall k :: k in sub.offered <==> sub.since <= k < |to| && Server.IsFor(to[k], p))
            && Mailbox.Inv(sub.box) && sub.box.pc.Ready?
  {
    assert Server.Cited(e.trace) && Server.CitedSub(p) && e.SubOk(p);
  }
}
