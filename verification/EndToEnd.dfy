/** One bet per round end to end: the engine's snapshots through the lossy mailbox to the client's form. */
module EndToEnd {
  import opened GoInt
  import opened Multiplier
  import opened Rounds
  import opened Store
  import opened System
  import Client
  import Fair
  import Mailbox
  import Reveal
  import Solvency
  import Stakes

  /** The frames among a client's inputs, in order. */
  function FramesOf(es: seq<Client.Input>): seq<Client.Input>
    decreases |es|
  {
    if es == [] then [] else (if es[0].Frame? then [es[0]] else []) + FramesOf(es[1..])
  }

  function Shown(f: Snapshot): Client.Input { Client.Frame(f.state, f.roundId) }

  ghost predicate KeysOrdered(fs: seq<Client.Input>) {
    && (forall i :: 0 <= i < |fs| ==> fs[i].Frame?)
    && forall i, j :: 0 <= i <= j < |fs| ==> Position(fs[i].state, fs[i].round) <= Position(fs[j].state, fs[j].round)
  }

  lemma {:induction false} OrderedFramesAreInOrder(s: Client.Screen, es: seq<Client.Input>)
    requires KeysOrdered(FramesOf(es))
    requires FramesOf(es) != [] ==>
               Position(s.state, s.round) <= Position(FramesOf(es)[0].state, FramesOf(es)[0].round)
    ensures Client.InOrder(s, es)
    decreases |es|
  {
    if es != [] {
      var rest := FramesOf(es[1..]);
      if es[0].Frame? {
        assert FramesOf(es) == [es[0]] + rest;
        assert forall i :: 0 <= i < |rest| ==> rest[i] == FramesOf(es)[i + 1];
        OrderedFramesAreInOrder(s.(state := es[0].state, round := es[0].round), es[1..]);
      } else {
        assert FramesOf(es) == rest;
        OrderedFramesAreInOrder(s, es[1..]);
      }
    }
  }

  /** Places in the engine's record of broadcasts: of the running process, one after the other. */
  ghost predicate InOrder(w: World, places: seq<nat>) {
    && (forall i :: 0 <= i < |places| ==> w.epoch <= places[i] < |w.frames|)
    && (forall i, j :: 0 <= i < j < |places| ==> places[i] < places[j])
  }

  /** The frames are the broadcasts at these places. */
  ghost predicate ShowsFrames(w: World, places: seq<nat>, fs: seq<Client.Input>)
    requires InOrder(w, places)
  {
    |fs| <= |places| && forall k :: 0 <= k < |fs| ==> fs[k] == Shown(w.frames[places[k]])
  }

  /** What comes out of a mailbox, of what has been put into it. */
  function Taken(offered: seq<nat>, got: seq<int>): seq<nat>
    requires forall k :: 0 <= k < |got| ==> 0 <= got[k] < |offered|
  {
    seq(|got|, k requires 0 <= k < |got| => offered[got[k]])
  }

  /** A mailbox that was offered broadcasts in order hands them out in order, whatever it drops. */
  lemma MailboxKeepsOrder<T>(w: World, offered: seq<nat>, box: Mailbox.Box<T>)
    requires InOrder(w, offered) && Mailbox.Inv(box) && |box.sent| == |offered|
    ensures (forall k :: 0 <= k < |box.got| ==> 0 <= box.got[k] < |offered|) && InOrder(w, Taken(offered, box.got))
  {
  }

  lemma ReceivedInOrder(env: Env, w: World, places: seq<nat>, fs: seq<Client.Input>)
    requires Reveal.Inv(env, w) && InOrder(w, places) && ShowsFrames(w, places, fs)
    ensures KeysOrdered(fs)
    ensures fs != [] ==> Position(Idle, 0) <= Position(fs[0].state, fs[0].round)
  {
    forall i, j | 0 <= i <= j < |fs|
      ensures Position(fs[i].state, fs[i].round) <= Position(fs[j].state, fs[j].round)
    {
      assert places[i] <= places[j];
      assert Reveal.At(w.frames[places[i]]) <= Reveal.At(w.frames[places[j]]);
    }
    if fs != [] { FrameAfterLogin(env, w, places[0]); }
  }

  /** The first frame cannot precede the blank screen a session starts with. */
  lemma FrameAfterLogin(env: Env, w: World, i: nat)
    requires Reveal.Inv(env, w) && i < |w.frames|
    ensures Position(Idle, 0) <= Position(w.frames[i].state, w.frames[i].roundId)
  {
    assert Reveal.FrameOk(env, w.back.store.drawn, w.frames[i]);
  }

  lemma BetsOnceFrom(env: Env, w: World, places: seq<nat>,
                     decimals: Client.Decimals, balance: int, ins: seq<Client.Input>)
    requires Reveal.Inv(env, w) && InOrder(w, places) && ShowsFrames(w, places, FramesOf(ins))
    ensures Client.OneBetEach(Client.Run(decimals, Client.Opened(balance), ins).outbox)
  {
    ReceivedInOrder(env, w, places, FramesOf(ins));
    OrderedFramesAreInOrder(Client.Opened(balance), ins);
    Client.OneBetPerRound(decimals, balance, ins);
  }

  /** For any run of the system, any selection of the running process's broadcasts that is in order, and any
      keys pressed between them: at most one bet goes out per round shown. */
  lemma AtMostOneBet(env: Env, es: seq<Event>, places: seq<nat>,
                     decimals: Client.Decimals, balance: int, ins: seq<Client.Input>)
    requires InOrder(Exec(env, INIT, es), places) && ShowsFrames(Exec(env, INIT, es), places, FramesOf(ins))
    ensures Client.OneBetEach(Client.Run(decimals, Client.Opened(balance), ins).outbox)
  {
    Reveal.RunKeeps(env, INIT, es);
    BetsOnceFrom(env, Exec(env, INIT, es), places, decimals, balance, ins);
  }

  // ---------------------------------------------------------------- what the form accepts

  /** What a form with the given maximum lets through meets the conditions of solvency, whatever is typed, if
      and only if the maximum itself does: it is covered by the player's durable balance when the bet is handled,
      and it fits. The form does not see to either: after each new betting window its maximum is the balance at
      login again (`Client.OpeningCoveredIff`). */
  lemma AcceptedAreSoundIff(g: real, s: Store, pid: int, decimals: Client.Decimals, maxBet: int)
    requires Growth(g) && pid in s.players && maxBet < INT64_LIMIT
    ensures (forall f: Client.Form :: f.maxBet == maxBet && Client.ParseValues(decimals, f).Accepted? ==>
               Solvency.Sound(g, s, pid, Client.ParseValues(decimals, f).amount, Client.ParseValues(decimals, f).auto))
            <==> maxBet <= 0 || (maxBet <= s.players[pid].balance && Stakes.Fits(g, maxBet))
  {
    if maxBet > 0 {
      var all := Client.Form(Client.Amount, Fair.Decimal(maxBet), "", maxBet, "", false, false, 0);
      Fair.DecimalIsCanonical(maxBet);
      assert Client.ParseValues(decimals, all) == Client.Accepted(maxBet, 0);
    }
    Stakes.TopIsHigh(g);
    if Stakes.Fits(g, maxBet) {
      forall amount | 0 < amount <= maxBet ensures Stakes.Fits(g, amount) {
        ScaleUp(Stakes.Top(g), amount, maxBet);
      }
    }
  }
}
