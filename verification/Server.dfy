/** The engine as code (internal/engine/engine.go): its fields, updated in place by the methods of runLoop.
    Every method keeps `Valid`: what the object has done so far is a run of the machine in System, so all
    that is proved there of every run holds of it. */
module Server {
  import opened Wrappers
  import opened GoInt
  import opened Rounds
  import opened Store
  import opened Databases
  import opened Subscribers
  import opened Multiplier
  import Fair
  import Auth
  import Restarts
  import S = System

  class Participant {
    const playerId: int
    const displayName: string
    const hidden: bool
    const amount: int
    const auto: int
    var betId: int
    var cashedOut: bool
    var mult: int
    var payout: int

    constructor (playerId: int, displayName: string, hidden: bool, amount: int, auto: int)
      ensures AsSeat() == NewSeat(displayName, hidden, amount, auto) && this.playerId == playerId
    {
      this.playerId := playerId;
      this.displayName := displayName;
      this.hidden := hidden;
      this.amount := amount;
      this.auto := auto;
      betId := 0;
      cashedOut := false;
      mult := 0;
      payout := 0;
    }

    function AsSeat(): Seat
      reads this
    {
      Seat(displayName, hidden, amount, auto, betId, cashedOut, mult, payout)
    }

    /** settleCashout. */
    method SettleCashout(multBP: int)
      modifies this
      ensures AsSeat() == CashedOutAt(old(AsSeat()), multBP)
    {
      cashedOut := true;
      mult := multBP;
      payout := Quot(Int64(amount * multBP), 100);
    }
  }

  /** The next key of a map iteration: Go promises no order, so any. */
  method AnyKey(keys: set<int>) returns (key: int)
    requires keys != {}
    ensures key in keys
  {
    Inhabited(keys);
    key :| key in keys;
  }

  /** Names a run whose meaning is to be looked up. */
  ghost predicate Cited(es: seq<S.Event>) { true }

  /** Names a subscriber whose mailbox is to be looked into. */
  ghost predicate CitedSub(p: int) { true }

  /** Names an event whose step is to be looked up. */
  ghost predicate CitedEvent(e: S.Event) { true }

  /** What a select of the engine picks: a command, one of the two tickers, or the end of the betting window. A
      pick that the current state's select does not offer is passed over. */
  datatype Pick = Inbox(cmd: S.Command) | BettingTick | FlightTick | TimeUp

  /** The machine's event for a pick. Passed over, it changes nothing there either. */
  function EventOf(pick: Pick): S.Event {
    match pick
    case Inbox(cmd) => S.Handle(cmd)
    case BettingTick => S.Announce
    case FlightTick => S.Tick
    case TimeUp => S.BettingOver(Done)
  }

  function EventsOf(picks: seq<Pick>): seq<S.Event> {
    seq(|picks|, i requires 0 <= i < |picks| => EventOf(picks[i]))
  }

  /** The pick behind an event, if there is one. */
  function PickOf(e: S.Event): seq<Pick> {
    match e
    case Handle(cmd) => [Inbox(cmd)]
    case Announce => [BettingTick]
    case Tick => [FlightTick]
    case BettingOver(_) => [TimeUp]
    case _ => []
  }

  function PicksOf(es: seq<S.Event>): seq<Pick> {
    if es == [] then [] else PicksOf(es[..|es| - 1]) + PickOf(es[|es| - 1])
  }

  /** How many failures an event records. */
  function FaultOf(e: S.Event): nat {
    match e
    case BettingOver(begin) => if begin.Done? then 0 else 1
    case Statement(_, ok) => if ok then 0 else 1
    case MarkRound(fate) => if fate.Done? then 0 else 1
    case Commit(fate) => if fate.Done? then 0 else 1
    case Reveal(fate) => if fate.Done? then 0 else 1
    case BeginSettle(ok) => if ok then 0 else 1
    case Start(_, _, _, create, publish) => if create.Done? && publish.Done? then 0 else 1
    case _ => 0
  }

  function FaultsIn(es: seq<S.Event>): nat {
    if es == [] then 0 else FaultsIn(es[..|es| - 1]) + FaultOf(es[|es| - 1])
  }

  /** The machine's step for `e`, to be looked up. */
  ghost predicate Leads(env: S.Env, w: S.World, e: S.Event, next: S.World) {
    forall x {:trigger CitedEvent(x)} :: CitedEvent(x) && x == e ==> next == S.Step(env, w, x)
  }

  lemma Prolong(env: S.Env, origin: S.World, es: seq<S.Event>, e: S.Event, w: S.World, next: S.World)
    requires w == S.Exec(env, origin, es) && Leads(env, w, e, next)
    ensures next == S.Exec(env, origin, es + [e])
  {
    assert CitedEvent(e);
    S.ExecSnoc(env, origin, es, e);
  }

  /** Whom a snapshot taken by the event is for: the player who has just subscribed, or everybody. */
  function AudienceOf(e: S.Event): Option<int> {
    if e.Handle? && e.cmd.Subscribe? then Some(e.cmd.pid) else None
  }

  /** The audience of the snapshot an event has added, if it has. */
  function Added(e: S.Event, before: nat, after: nat): seq<Option<int>> {
    if after > before then [AudienceOf(e)] else []
  }

  /** Whom the snapshots of a run are for, one after the other. */
  ghost function AudiencesOf(env: S.Env, origin: S.World, es: seq<S.Event>): seq<Option<int>>
    decreases |es|
  {
    if es == [] then []
    else
      var prev := es[..|es| - 1];
      AudiencesOf(env, origin, prev)
      + Added(es[|es| - 1], |S.Exec(env, origin, prev).frames|, |S.Exec(env, origin, es).frames|)
  }

  lemma AudiencesSnoc(env: S.Env, origin: S.World, es: seq<S.Event>, e: S.Event, w: S.World, next: S.World)
    requires w == S.Exec(env, origin, es) && next == S.Exec(env, origin, es + [e])
    ensures AudiencesOf(env, origin, es + [e])
            == AudiencesOf(env, origin, es) + Added(e, |w.frames|, |next.frames|)
  {
    assert (es + [e])[..|es|] == es;
  }

  /** The places from `since` on of the snapshots that are for player `p`. */
  function Addressed(to: seq<Option<int>>, p: int, since: nat): (places: seq<nat>)
    ensures forall i :: 0 <= i < |places| ==> since <= places[i] < |to|
    ensures forall i, j :: 0 <= i < j < |places| ==> places[i] < places[j]
    ensures forall k :: k in places <==> since <= k < |to| && IsFor(to[k], p)
  {
    if |to| <= since then []
    else
      var last := |to| - 1;
      Addressed(to[..last], p, since) + if IsFor(to[last], p) then [last] else []
  }

  predicate IsFor(audience: Option<int>, p: int) { audience.None? || audience.value == p }

  lemma AddressedSnoc(to: seq<Option<int>>, audience: Option<int>, p: int, since: nat)
    requires since <= |to|
    ensures Addressed(to + [audience], p, since)
            == Addressed(to, p, since) + if IsFor(audience, p) then [|to|] else []
  {
    assert (to + [audience])[..|to|] == to;
  }

  lemma HistorySnoc(es: seq<S.Event>, e: S.Event)
    ensures PicksOf(es + [e]) == PicksOf(es) + PickOf(e) && FaultsIn(es + [e]) == FaultsIn(es) + FaultOf(e)
  {
    assert (es + [e])[..|es|] == es;
  }

  /** `es` leads the machine from `origin` to `w`, takes `picks`, records `failed` failures, and addresses its
      snapshots to `heard`. */
  ghost predicate IsHistory(env: S.Env, origin: S.World, es: seq<S.Event>, w: S.World, picks: seq<Pick>, failed: nat,
                            heard: seq<Option<int>>)
  {
    forall x {:trigger Cited(x)} :: Cited(x) && x == es ==>
      && w == S.Exec(env, origin, x) && picks == PicksOf(x) && failed == FaultsIn(x)
      && heard == AudiencesOf(env, origin, x)
  }

  lemma HistoryGrows(env: S.Env, origin: S.World, es: seq<S.Event>, w: S.World, picks: seq<Pick>, failed: nat,
                     heard: seq<Option<int>>, e: S.Event, next: S.World)
    requires IsHistory(env, origin, es, w, picks, failed, heard) && Leads(env, w, e, next)
    ensures IsHistory(env, origin, es + [e], next, picks + PickOf(e), failed + FaultOf(e),
                      heard + Added(e, |w.frames|, |next.frames|))
  {
    assert Cited(es);
    Prolong(env, origin, es, e, w, next);
    HistorySnoc(es, e);
    AudiencesSnoc(env, origin, es, e, w, next);
  }

  /** What has been sent is some of the broadcasts, in order: those at the places `offered`. */
  ghost predicate SentInOrder(sent: seq<Snapshot>, offered: seq<nat>, frames: seq<Snapshot>) {
    && |sent| == |offered|
    && (forall i :: 0 <= i < |sent| ==> offered[i] < |frames| && sent[i] == frames[offered[i]])
    && (forall i, j :: 0 <= i < j < |offered| ==> offered[i] < offered[j])
  }

  /** The latest broadcast has not been sent yet. */
  ghost predicate Owed(offered: seq<nat>, frames: seq<Snapshot>) {
    frames != [] && forall i :: 0 <= i < |offered| ==> offered[i] < |frames| - 1
  }

  lemma BroadcastIsOwed(sent: seq<Snapshot>, offered: seq<nat>, frames: seq<Snapshot>, snap: Snapshot)
    requires SentInOrder(sent, offered, frames)
    ensures SentInOrder(sent, offered, frames + [snap]) && Owed(offered, frames + [snap])
  {
  }

  lemma SentOneMore(sent: seq<Snapshot>, offered: seq<nat>, frames: seq<Snapshot>)
    requires SentInOrder(sent, offered, frames) && Owed(offered, frames)
    ensures SentInOrder(sent + [frames[|frames| - 1]], offered + [|frames| - 1], frames)
  {
  }

  class Engine {
    const env: S.Env
    const db: Database
    var state: State
    var roundId: int
    var commitHash: string
    var crash: int
    var salt: string
    var bettingEnd: int
    var current: int
    var ticks: nat
    var participants: map<int, Participant>
    var subs: map<int, Subscriber>

    // history and program counter
    ghost var at: S.Control
    ghost var frames: seq<Snapshot>
    ghost var to: seq<Option<int>>    // whom each of them is for
    ghost var trace: seq<S.Event>
    ghost var world: S.World     // the machine's state after `trace`
    ghost var inputs: seq<Pick>  // the picks behind `trace`
    ghost var faults: nat        // the failures in `trace`
    ghost var heard: seq<Option<int>>  // whom the snapshots of `trace` are for
    ghost const origin: S.World
    ghost const base: nat        // failures the connection had before

    ghost function Seats(): map<int, Seat>
      reads this`participants, participants.Values
    {
      map pid | pid in participants :: participants[pid].AsSeat()
    }

    ghost function Eng(): S.Engine
      reads this, participants.Values
    {
      S.Engine(state, roundId, commitHash, crash, salt, bettingEnd, current, ticks, Seats(), subs.Keys)
    }

    /** The state of the whole system as the machine sees it. */
    ghost function World(): S.World
      reads this, participants.Values, db
    {
      S.World(Eng(), at, db.back, frames, 0)
    }

    ghost predicate Seated()
      reads this`participants
    {
      forall p :: p in participants ==> participants[p].playerId == p
    }

    ghost predicate Wired()
      reads this`participants, this`subs, this`frames, this`to, this`at, subs.Values, db`pending
    {
      && Seated()
      && SubsWired()
      && (at.InTx? || at.Committing? ==> at.ws == db.pending)
    }

    /** The machine gets from `origin` to `world` by `trace`, which takes `inputs` and records `faults`. */
    ghost predicate Traced()
      reads this`trace, this`heard, this`world, this`inputs, this`faults
    {
      IsHistory(env, origin, trace, world, inputs, faults, heard)
    }

    /** The failures recorded, and those of `e`, are the failures the database has reported: none is made up. And no
        snapshot has been taken since the last event. */
    ghost predicate Reported(e: S.Event)
      reads this`faults, db`faults, this`to, this`heard, this`frames, this`world
    {
      db.faults == base + faults + FaultOf(e) && Silent()
    }

    ghost predicate Silent()
      reads this`to, this`heard, this`frames, this`world
    {
      to == heard && frames == world.frames
    }

    ghost predicate Valid()
      reads this, participants.Values, subs.Values, db
    {
      Wired() && world == World() && Traced() && db.faults == base + faults && to == heard
    }

    /** Since the method was called no input has been taken, and one failure reported, unless all is well. */
    twostate predicate Went(well: bool)
      reads this, db
    {
      && old(trace) <= trace && inputs == old(inputs)
      && db.faults == old(db.faults) + if well then 0 else 1
    }

    constructor (env: S.Env, db: Database)
      ensures Valid() && this.env == env && this.db == db && trace == []
      ensures origin == Restarts.StartOn(db.back)
      ensures participants == map[] && subs == map[] && inputs == []
    {
      this.env := env;
      this.db := db;
      state := Idle;
      roundId, commitHash, crash, salt, bettingEnd := 0, "", 0, "", 0;
      current, ticks := 0, 0;
      participants, subs := map[], map[];
      at, frames, trace := S.AtLoop, [], [];
      world, origin := Restarts.StartOn(db.back), Restarts.StartOn(db.back);
      inputs, faults, base := [], 0, db.faults;
      to, heard := [], [];
    }

    /** Adds an event to the history. */
    ghost method Extend(e: S.Event, next: S.World)
      requires Traced() && Leads(env, world, e, next)
      modifies this`trace, this`heard, this`world, this`inputs, this`faults
      ensures Traced() && trace == old(trace) + [e] && world == next
      ensures inputs == old(inputs) + PickOf(e) && faults == old(faults) + FaultOf(e)
      ensures heard == old(heard) + Added(e, |old(world).frames|, |next.frames|)
    {
      HistoryGrows(env, origin, trace, world, inputs, faults, heard, e, next);
      heard := heard + Added(e, |world.frames|, |next.frames|);
      trace, world, inputs, faults := trace + [e], next, inputs + PickOf(e), faults + FaultOf(e);
    }

    /** Records a step of the machine that has just been carried out. */
    ghost method Log(e: S.Event)
      requires Wired() && Traced() && World() == S.Step(env, world, e)
      requires db.faults == base + faults + FaultOf(e) && to == heard + Added(e, |world.frames|, |frames|)
      modifies this`trace, this`heard, this`world, this`inputs, this`faults
      ensures Valid() && trace == old(trace) + [e] && inputs == old(inputs) + PickOf(e)
    {
      Extend(e, World());
    }

    /** Logins and other sessions' statements come in between the engine's own. */
    method LetOthersRun()
      requires Valid()
      modifies this`trace, this`heard, this`world, this`inputs, this`faults, db`back
      ensures Valid() && db.pending == old(db.pending) && inputs == old(inputs)
      ensures world == old(world).(back := db.back)
      ensures old(trace) <= trace && forall i :: |old(trace)| <= i < |trace| ==> trace[i].Outside?
    {
      var steps := db.OthersRun();
      LogOutside(steps);
    }

    ghost method LogOutside(steps: seq<Auth.Step>)
      requires Traced()
      modifies this`trace, this`heard, this`world, this`inputs, this`faults
      ensures Traced() && world == old(world).(back := Auth.Run(old(world).back, steps))
      ensures inputs == old(inputs) && faults == old(faults) && heard == old(heard)
      ensures old(trace) <= trace && forall i :: |old(trace)| <= i < |trace| ==> trace[i].Outside?
      decreases |steps|
    {
      if steps != [] {
        Extend(S.Outside(steps[0]), world.(back := Auth.Next(world.back, steps[0])));
        LogOutside(steps[1..]);
      }
    }

    /** A pick that the current select does not offer. */
    ghost method PassOver(pick: Pick)
      requires Valid() && !S.Ready(world, EventOf(pick))
      modifies this`trace, this`heard, this`world, this`inputs, this`faults
      ensures Valid() && trace == old(trace) + [EventOf(pick)] && inputs == old(inputs) + [pick]
      ensures world == old(world)
    {
      Log(EventOf(pick));
    }

    // -------------------------------------------------------------- snapshots

    /** snapshot. */
    method TakeSnapshot() returns (snap: Snapshot)
      ensures snap == S.SnapshotOf(Eng())
    {
      var views: map<int, View> := map[];
      var todo := participants.Keys;
      while todo != {}
        invariant todo <= participants.Keys
        invariant views == map pid | pid in participants && pid !in todo :: ViewOf(participants[pid].AsSeat())
        decreases |todo|
      {
        var pid := AnyKey(todo);
        var p := participants[pid];
        views := views[pid := View(p.displayName, p.hidden, p.amount, p.cashedOut, p.mult, p.payout)];
        todo := todo - {pid};
      }
      snap := Snapshot(state, roundId, commitHash, current, 0, "", bettingEnd, views);
      if state.Crashed? || state.Settling? {
        snap := snap.(crash := crash, salt := salt);
      }
    }

    /** The subscriber's mailbox has been sent the snapshots that were for it since it subscribed, and no other. */
    ghost predicate SubOk(p: int)
      requires p in subs
      reads this`subs, this`frames, this`to, subs[p]
    {
      && subs[p].Valid() && SentInOrder(subs[p].box.sent, subs[p].offered, frames)
      && subs[p].since <= |to| && subs[p].offered == Addressed(to, p, subs[p].since)
    }

    /** All but the newest, which is for it. */
    ghost predicate SubOwed(p: int)
      requires p in subs
      reads this`subs, this`frames, this`to, subs[p]
    {
      && subs[p].Valid() && SentInOrder(subs[p].box.sent, subs[p].offered, frames)
      && subs[p].since <= |to| && frames != [] && Owed(subs[p].offered, frames)
      && subs[p].offered + [|frames| - 1] == Addressed(to, p, subs[p].since)
    }

    /** The subscribers of `todo` are still to be sent the newest snapshot. */
    ghost predicate Sending(todo: set<int>)
      reads this`subs, this`frames, this`to, subs.Values
    {
      && |to| == |frames|
      && (forall p :: p in subs ==> subs[p].playerId == p)
      && (forall p {:trigger CitedSub(p)} :: CitedSub(p) && p in subs ==> if p in todo then SubOwed(p) else SubOk(p))
    }

    ghost predicate SubsWired()
      reads this`subs, this`frames, this`to, subs.Values
    {
      Sending({})
    }

    /** A snapshot that is about to be sent. */
    ghost method Record(snap: Snapshot, audience: Option<int>, todo: set<int>)
      requires SubsWired() && forall p :: p in subs ==> (p in todo <==> IsFor(audience, p))
      modifies this`frames, this`to
      ensures Sending(todo)
      ensures frames == old(frames) + [snap] && to == old(to) + [audience]
    {
      forall p | CitedSub(p) && p in subs
        ensures SentInOrder(subs[p].box.sent, subs[p].offered, frames + [snap])
        ensures Owed(subs[p].offered, frames + [snap])
        ensures Addressed(to + [audience], p, subs[p].since)
                == subs[p].offered + if IsFor(audience, p) then [|to|] else []
      {
        assert SubOk(p);
        BroadcastIsOwed(subs[p].box.sent, subs[p].offered, frames, snap);
        AddressedSnoc(to, audience, p, subs[p].since);
      }
      frames, to := frames + [snap], to + [audience];
    }

    method SendToOne(pid: int, snap: Snapshot, ghost todo: set<int>)
      requires Sending(todo) && pid in todo && pid in subs && frames != [] && frames[|frames| - 1] == snap
      modifies subs[pid]
      ensures Sending(todo - {pid}) && subs[pid].box.sent == old(subs[pid].box.sent) + [snap]
      ensures forall p :: p in subs && p != pid ==>
                subs[p].box.sent == old(subs[p].box.sent) && subs[p].offered == old(subs[p].offered)
    {
      assert CitedSub(pid);
      SendNewest(pid, snap);
      forall p | CitedSub(p) && p in subs && p != pid ensures if p in todo then SubOwed(p) else SubOk(p) {
        if p in todo { assert old(SubOwed(p)); } else { assert old(SubOk(p)); }
      }
    }

    method SendNewest(pid: int, snap: Snapshot)
      requires pid in subs && SubOwed(pid) && frames[|frames| - 1] == snap
      modifies subs[pid]
      ensures SubOk(pid) && subs[pid].box.sent == old(subs[pid].box.sent) + [snap]
    {
      var sub := subs[pid];
      SentOneMore(sub.box.sent, sub.offered, frames);
      sub.SendTo(snap);
      sub.offered := sub.offered + [|frames| - 1];
    }

    /** The loop of broadcast: every subscriber's mailbox is sent the same snapshot. */
    method SendToAll(snap: Snapshot)
      requires Sending(subs.Keys) && frames != [] && frames[|frames| - 1] == snap
      modifies subs.Values
      ensures SubsWired()
      ensures forall p :: p in subs ==> subs[p].box.sent == old(subs[p].box.sent) + [snap]
    {
      var todo := subs.Keys;
      while todo != {}
        invariant todo <= subs.Keys && Sending(todo)
        invariant forall p :: p in subs ==>
                    subs[p].box.sent == old(subs[p].box.sent) + if p in todo then [] else [snap]
        decreases |todo|
      {
        var p := AnyKey(todo);
        assert CitedSub(p);
        SendToOne(p, snap, todo);
        todo := todo - {p};
      }
    }

    /** broadcast. */
    method Broadcast()
      requires Wired()
      modifies this`frames, this`to, subs.Values
      ensures Wired() && Eng() == old(Eng())
      ensures frames == old(frames) + [S.SnapshotOf(Eng())] && to == old(to) + [None]
      ensures forall p :: p in subs ==> subs[p].box.sent == old(subs[p].box.sent) + [S.SnapshotOf(Eng())]
    {
      var snap := TakeSnapshot();
      Record(snap, None, subs.Keys);
      SendToAll(snap);
    }

    // -------------------------------------------------------------- commands

    /** addSubscriber. The channel is made here rather than by the session that subscribes. */
    method AddSubscriber(pid: int)
      requires Wired()
      modifies this`subs
      ensures Wired() && Eng() == old(Eng()).(subs := old(subs).Keys + {pid})
      ensures fresh(subs.Values - old(subs.Values)) && pid in subs && fresh(subs[pid])
    {
      var sub := new Subscriber(pid, |to|);
      subs := subs[pid := sub];
      assert subs.Values <= old(subs.Values) + {sub};
      assert Addressed(to, pid, |to|) == [];
    }

    /** The current snapshot, to one subscriber only. */
    method SendCurrent(pid: int)
      requires Wired() && pid in subs
      modifies this`frames, this`to, subs[pid]
      ensures Wired() && Eng() == old(Eng())
      ensures frames == old(frames) + [S.SnapshotOf(Eng())] && to == old(to) + [Some(pid)]
      ensures subs[pid].box.sent == old(subs[pid].box.sent) + [S.SnapshotOf(Eng())]
    {
      var snap := TakeSnapshot();
      Record(snap, Some(pid), {pid});
      assert {pid} - {pid} == {};
      SendToOne(pid, snap, {pid});
    }

    /** The subscribe branch of handleCmd. */
    method DoSubscribe(pid: int)
      requires Wired()
      modifies this`subs, this`frames, this`to, subs.Values
      ensures Wired() && World() == S.Broadcast(old(World()).(eng := old(Eng()).(subs := old(subs).Keys + {pid})))
      ensures to == old(to) + [Some(pid)]
      ensures fresh(subs.Values - old(subs.Values))
    {
      AddSubscriber(pid);
      SendCurrent(pid);
    }

    /** The place-bet branch of handleCmd. */
    method DoPlaceBet(pid: int, displayName: string, hidden: bool, amount: int, auto: int)
      requires Wired() && S.MayBet(Eng(), pid)
      modifies this`participants, this`frames, this`to, subs.Values
      ensures Wired()
      ensures World() == S.Broadcast(old(World()).(eng :=
                           S.WithSeat(old(Eng()), pid, NewSeat(displayName, hidden, amount, auto))))
      ensures to == old(to) + [None]
      ensures fresh(participants.Values - old(participants.Values))
    {
      var p := new Participant(pid, displayName, hidden, amount, auto);
      participants := participants[pid := p];
      assert Seats() == old(Seats())[pid := p.AsSeat()];
      Broadcast();
    }

    /** The cash-out branch of handleCmd. */
    method DoCashOut(pid: int)
      requires Wired() && S.MayCashOut(Eng(), pid)
      modifies this`frames, this`to, participants.Values, subs.Values
      ensures Wired()
      ensures World() == S.Broadcast(old(World()).(eng :=
                           S.WithSeat(old(Eng()), pid, CashedOutAt(old(Seats())[pid], current))))
      ensures to == old(to) + [None]
    {
      CashOutSeat(pid);
      Broadcast();
    }

    method CashOutSeat(pid: int)
      requires Seated() && pid in participants
      modifies participants[pid]
      ensures Seats() == old(Seats())[pid := CashedOutAt(old(Seats())[pid], current)]
    {
      participants[pid].SettleCashout(current);
      assert forall q :: q in participants && q != pid ==> participants[q].AsSeat() == old(participants[q].AsSeat());
    }

    /** handleCmd, as runBetting and runFlying call it. */
    method HandleCmd(cmd: S.Command)
      requires Valid() && at.AtLoop? && (state.Betting? || state.Flying?)
      modifies this`participants, this`subs, this`frames, this`to
      modifies this`trace, this`heard, this`world, this`inputs, this`faults, participants.Values, subs.Values
      ensures Valid() && trace == old(trace) + [S.Handle(cmd)]
      ensures fresh(participants.Values - old(participants.Values))
      ensures fresh(subs.Values - old(subs.Values))
      ensures inputs == old(inputs) + [Inbox(cmd)]
    {
      match cmd {
        case Subscribe(pid) =>
          HandleSubscribe(pid);
        case Unsubscribe(pid) =>
          HandleUnsubscribe(pid);
        case PlaceBet(pid, displayName, hidden, amount, auto) =>
          HandlePlaceBet(pid, displayName, hidden, amount, auto);
        case CashOut(pid) =>
          HandleCashOut(pid);
      }
    }

    method HandleSubscribe(pid: int)
      requires Valid() && at.AtLoop? && (state.Betting? || state.Flying?)
      modifies this`subs, this`frames, this`to, this`trace, this`heard, this`world, this`inputs, this`faults
      modifies subs.Values
      ensures Valid() && trace == old(trace) + [S.Handle(S.Subscribe(pid))]
      ensures fresh(subs.Values - old(subs.Values))
      ensures inputs == old(inputs) + [Inbox(S.Subscribe(pid))]
    {
      DoSubscribe(pid);
      Log(S.Handle(S.Subscribe(pid)));
    }

    method HandleUnsubscribe(pid: int)
      requires Valid() && at.AtLoop? && (state.Betting? || state.Flying?)
      modifies this`subs, this`trace, this`heard, this`world, this`inputs, this`faults
      ensures Valid() && trace == old(trace) + [S.Handle(S.Unsubscribe(pid))]
      ensures subs.Values <= old(subs.Values)
      ensures inputs == old(inputs) + [Inbox(S.Unsubscribe(pid))]
    {
      subs := subs - {pid};
      Log(S.Handle(S.Unsubscribe(pid)));
    }

    method HandlePlaceBet(pid: int, displayName: string, hidden: bool, amount: int, auto: int)
      requires Valid() && at.AtLoop? && (state.Betting? || state.Flying?)
      modifies this`participants, this`frames, this`to, this`trace, this`heard, this`world, this`inputs
      modifies this`faults, subs.Values
      ensures Valid() && trace == old(trace) + [S.Handle(S.PlaceBet(pid, displayName, hidden, amount, auto))]
      ensures fresh(participants.Values - old(participants.Values))
      ensures inputs == old(inputs) + [Inbox(S.PlaceBet(pid, displayName, hidden, amount, auto))]
    {
      if state.Betting? && pid !in participants {
        DoPlaceBet(pid, displayName, hidden, amount, auto);
      }
      Log(S.Handle(S.PlaceBet(pid, displayName, hidden, amount, auto)));
    }

    method HandleCashOut(pid: int)
      requires Valid() && at.AtLoop? && (state.Betting? || state.Flying?)
      modifies this`frames, this`to, this`trace, this`heard, this`world, this`inputs, this`faults
      modifies participants.Values, subs.Values
      ensures Valid() && trace == old(trace) + [S.Handle(S.CashOut(pid))]
      ensures inputs == old(inputs) + [Inbox(S.CashOut(pid))]
    {
      if state.Flying? && pid in participants && !participants[pid].cashedOut {
        DoCashOut(pid);
      }
      Log(S.Handle(S.CashOut(pid)));
    }

    // -------------------------------------------------------------- the flight

    /** The auto-cashout pass of a tick, in whatever order the map yields the participants. */
    method AutoCashouts()
      requires Seated()
      modifies participants.Values
      ensures Seats() == AutoPass(old(Seats()), current)
    {
      ghost var before := Seats();
      var todo := participants.Keys;
      while todo != {}
        invariant todo <= participants.Keys
        invariant Seats() == map pid | pid in before ::
                    if pid in todo then before[pid] else AutoSettled(before[pid], current)
        decreases |todo|
      {
        var pid := AnyKey(todo);
        assert participants[pid].AsSeat() == Seats()[pid] == before[pid];
        AutoCashout(pid);
        todo := todo - {pid};
      }
    }

    /** One iteration of the pass. */
    method AutoCashout(pid: int)
      requires Seated() && pid in participants
      modifies participants[pid]
      ensures Seats() == old(Seats())[pid := AutoSettled(old(Seats())[pid], current)]
    {
      var p := participants[pid];
      if !p.cashedOut && p.auto > 0 && current >= p.auto {
        p.SettleCashout(p.auto);
      }
      assert forall q :: q in participants && q != pid ==> participants[q].AsSeat() == old(participants[q].AsSeat());
    }

    /** The tick branch of runFlying, up to its broadcast. */
    method OnTick()
      requires Valid() && at.AtLoop? && state.Flying?
      modifies this`ticks, this`current, this`state, this`at, this`frames, this`to
      modifies this`trace, this`heard, this`world, this`inputs, this`faults
      modifies participants.Values, subs.Values
      ensures Valid() && trace == old(trace) + [S.Tick]
      ensures if state.Crashed? then at.Revealing? else state.Flying? && at.AtLoop?
      ensures inputs == old(inputs) + [FlightTick]
    {
      Climb();
      NoteTick();
    }

    method NoteTick()
      requires Wired() && Traced() && Reported(S.Tick) && world.control.AtLoop? && world.eng.state.Flying?
      requires World() == world.(eng := S.AfterTick(env, world.eng), control := at)
      requires at == if state.Crashed? then S.Revealing else S.AtLoop
      modifies this`frames, this`to, this`trace, this`heard, this`world, this`inputs, this`faults, subs.Values
      ensures Valid() && Eng() == old(Eng()) && at == old(at)
      ensures trace == old(trace) + [S.Tick] && inputs == old(inputs) + [FlightTick]
    {
      assert S.AfterFlightTick(env, world) == S.Broadcast(World());
      BroadcastAndLog(S.Tick);
    }

    method Climb()
      requires Wired() && at.AtLoop? && state.Flying?
      modifies this`ticks, this`current, this`state, this`at, participants.Values
      ensures Wired() && Eng() == S.AfterTick(env, old(Eng()))
      ensures at == if state.Crashed? then S.Revealing else S.AtLoop
    {
      Rise();
      if current >= crash {
        state := Crashed;
        at := S.Revealing;
      }
    }

    /** The multiplier goes up, and the auto-cashouts it reaches are paid. */
    method Rise()
      requires Seated()
      modifies this`ticks, this`current, participants.Values
      ensures ticks == old(ticks) + 1 && current == Curve(env.g, ticks)
      ensures Seats() == AutoPass(old(Seats()), current)
    {
      ticks := ticks + 1;
      current := Curve(env.g, ticks);
      AutoCashouts();
    }

    /** revealOutcome. */
    method RevealOutcome()
      requires Valid() && at.Revealing?
      modifies this`at, this`trace, this`heard, this`world, this`inputs, this`faults, db`back, db`faults
      ensures Valid() && at.AtLoop? && old(trace) < trace && trace[|trace| - 1].Reveal?
      ensures Eng() == old(Eng()) && frames == old(frames)
      ensures inputs == old(inputs)
    {
      LetOthersRun();
      var fate := db.UpdateStage(roundId, StageCrashed);
      NoteRevealed(fate);
    }

    ghost method NoteRevealed(fate: Fate)
      requires Wired() && Traced() && at.Revealing? && Reported(S.Reveal(fate))
      requires World() == S.WithStore(world, if fate.Failed? then world.back.store
                                             else MarkStage(world.back.store, roundId, StageCrashed))
      modifies this`at, this`trace, this`heard, this`world, this`inputs, this`faults
      ensures Valid() && at.AtLoop? && trace == old(trace) + [S.Reveal(fate)] && inputs == old(inputs)
    {
      at := S.AtLoop;
      Log(S.Reveal(fate));
    }

    /** The engine, and all it has broadcast, are what the machine makes of `es`. */
    ghost predicate Flown(es: seq<S.Event>)
      reads this, participants.Values
    {
      forall x {:trigger Cited(x)} :: Cited(x) && x == es ==>
        S.Exec(env, origin, x).eng == Eng() && S.Exec(env, origin, x).frames == frames
    }

    lemma TraceFlown()
      requires Valid()
      ensures Flown(trace)
    {
    }

    /** What runFlying does with one pick of its select: a command, or a tick and perhaps the crash. */
    method FlyingPick(pick: Pick)
      requires Valid() && at.AtLoop? && state.Flying?
      modifies this, db`back, db`faults, participants.Values, subs.Values
      ensures Valid() && at.AtLoop? && (state.Flying? || state.Crashed?) && old(trace) < trace
      ensures Flown(old(trace) + [EventOf(pick)])
      ensures state.Flying? ==> trace == old(trace) + [EventOf(pick)]
      ensures fresh(participants.Values - old(participants.Values))
      ensures fresh(subs.Values - old(subs.Values))
      ensures inputs == old(inputs) + [pick]
    {
      match pick {
        case Inbox(cmd) =>
          FlyingCommand(cmd);
        case FlightTick =>
          FlyingTick();
        case _ =>
          PassOver(pick);
          TraceFlown();
      }
    }

    method FlyingCommand(cmd: S.Command)
      requires Valid() && at.AtLoop? && state.Flying?
      modifies this`participants, this`subs, this`frames, this`to
      modifies this`trace, this`heard, this`world, this`inputs, this`faults, participants.Values, subs.Values
      ensures Valid() && at.AtLoop? && state.Flying?
      ensures Flown(old(trace) + [S.Handle(cmd)]) && trace == old(trace) + [S.Handle(cmd)]
      ensures fresh(participants.Values - old(participants.Values))
      ensures fresh(subs.Values - old(subs.Values))
      ensures inputs == old(inputs) + [Inbox(cmd)]
    {
      HandleCmd(cmd);
      TraceFlown();
    }

    /** A tick, and revealOutcome if it was the last one. */
    method FlyingTick()
      requires Valid() && at.AtLoop? && state.Flying?
      modifies this`ticks, this`current, this`state, this`at, this`frames, this`to
      modifies this`trace, this`heard, this`world, this`inputs, this`faults
      modifies db`back, db`faults, participants.Values, subs.Values
      ensures Valid() && at.AtLoop? && (state.Flying? || state.Crashed?) && old(trace) < trace
      ensures Flown(old(trace) + [S.Tick])
      ensures state.Flying? ==> trace == old(trace) + [S.Tick]
      ensures inputs == old(inputs) + [FlightTick]
    {
      OnTick();
      TraceFlown();
      if state.Crashed? {
        RevealOutcome();
      }
    }

    /** runFlying, on the picks of its select: it returns once the flight has crashed. After the `n` picks it
        has taken the engine is exactly what the machine makes of their commands and ticks. */
    method RunFlying(picks: seq<Pick>) returns (n: nat)
      requires Valid() && at.AtLoop? && state.Flying?
      modifies this, db`back, db`faults, participants.Values, subs.Values
      ensures Valid() && at.AtLoop? && (state.Flying? || state.Crashed?) && old(trace) <= trace
      ensures n <= |picks| && (state.Flying? ==> n == |picks|) && (picks != [] ==> n > 0)
      ensures inputs == old(inputs) + picks[..n]
      ensures Flown(old(trace) + EventsOf(picks[..n]))
      ensures fresh(participants.Values - old(participants.Values))
      ensures fresh(subs.Values - old(subs.Values))
    {
      n := 0;
      assert EventsOf(picks[..0]) == [] && trace + [] == trace;
      TraceFlown();
      while n < |picks| && state.Flying?
        invariant n <= |picks|
        invariant Valid() && at.AtLoop? && (state.Flying? || state.Crashed?) && old(trace) <= trace
        invariant Flown(old(trace) + EventsOf(picks[..n])) && inputs == old(inputs) + picks[..n]
        invariant n == 0 ==> state.Flying?
        invariant state.Flying? ==> trace == old(trace) + EventsOf(picks[..n])
        invariant fresh(participants.Values - old(participants.Values))
        invariant fresh(subs.Values - old(subs.Values))
      {
        assert old(trace) + EventsOf(picks[..n + 1]) == trace + [EventOf(picks[n])];
        assert picks[..n + 1] == picks[..n] + [picks[n]];
        FlyingPick(picks[n]);
        n := n + 1;
      }
    }

    // -------------------------------------------------------------- takeoff

    ghost predicate Within(kind: S.Kind, todo: set<int>, half: Option<int>)
      reads this
    {
      at.InTx? && at.kind == kind && at.todo == todo && at.half == half && todo <= participants.Keys
    }

    /** An error path of a transaction: roll back and go to Idle. */
    method GiveUp(ghost e: S.Event)
      requires Wired() && Traced() && S.Step(env, world, e) == S.Abort(World()) && Reported(e)
      modifies this`state, this`at, this`trace, this`heard, this`world, this`inputs, this`faults, db`pending
      ensures Valid() && state.Idle? && at.AtLoop? && trace == old(trace) + [e]
      ensures inputs == old(inputs) + PickOf(e)
    {
      db.Rollback();
      state := Idle;
      at := S.AtLoop;
      Log(e);
    }

    /** The same, for a step that is to be looked up. */
    method Abandon(ghost e: S.Event)
      requires RolledBack(e)
      modifies this`state, this`at, this`trace, this`heard, this`world, this`inputs, this`faults, db`pending
      ensures Valid() && state.Idle? && at.AtLoop? && trace == old(trace) + [e]
      ensures inputs == old(inputs) + PickOf(e)
    {
      assert CitedEvent(e);
      GiveUp(e);
    }

    /** The database has answered: the machine's step for `e` is what has been done so far, or an abort. */
    ghost predicate Answered(e: S.Event, ok: bool)
      reads this, participants.Values, subs.Values, db
    {
      && Wired() && Traced() && Reported(e)
      && forall x {:trigger CitedEvent(x)} :: CitedEvent(x) && x == e ==>
           S.Step(env, world, x) == if ok then World() else S.Abort(World())
    }

    /** Goes on, or rolls back. */
    method Conclude(ok: bool, ghost e: S.Event)
      requires Answered(e, ok)
      modifies this`state, this`at, this`trace, this`heard, this`world, this`inputs, this`faults, db`pending
      ensures Valid() && trace == old(trace) + [e] && inputs == old(inputs) + PickOf(e)
      ensures if ok then state == old(state) && at == old(at) else state.Idle? && at.AtLoop?
    {
      assert CitedEvent(e);
      if ok {
        Log(e);
      } else {
        GiveUp(e);
      }
    }

    /** AdjustBalance for one participant, in either transaction. */
    method Adjust(pid: int, delta: int, ghost kind: S.Kind, ghost todo: set<int>) returns (ok: bool)
      requires Valid() && Within(kind, todo, None) && pid in todo
      requires delta == if kind.Takeoff? then -participants[pid].amount else participants[pid].payout
      requires kind.Settlement? ==> participants[pid].cashedOut && participants[pid].betId != 0
      modifies this`state, this`at, this`trace, this`heard, this`world, this`inputs, this`faults, db
      ensures Valid() && old(trace) < trace
      ensures ok ==> state == old(state) && Within(kind, todo, Some(pid))
      ensures !ok ==> state.Idle? && at.AtLoop?
      ensures Went(ok)
    {
      LetOthersRun();
      ok := SendAdjust(pid, delta, kind, todo);
      Conclude(ok, S.Statement(pid, ok));
    }

    method SendAdjust(pid: int, delta: int, ghost kind: S.Kind, ghost todo: set<int>) returns (ok: bool)
      requires Valid() && Within(kind, todo, None) && pid in todo
      requires delta == if kind.Takeoff? then -participants[pid].amount else participants[pid].payout
      requires kind.Settlement? ==> participants[pid].cashedOut && participants[pid].betId != 0
      modifies this`at, db
      ensures Answered(S.Statement(pid, ok), ok) && (ok ==> Within(kind, todo, Some(pid)))
      ensures db.faults == old(db.faults) + if ok then 0 else 1
    {
      ok := db.AdjustBalance(pid, delta);
      if ok {
        NoteAdjusted(pid, delta, kind, todo);
      } else {
        S.AdjustStep(env, world, pid, false);
      }
    }

    ghost method NoteAdjusted(pid: int, delta: int, kind: S.Kind, todo: set<int>)
      requires Seated() && SubsWired() && Traced() && db.faults == base + faults && Silent()
      requires Within(kind, todo, None) && pid in todo && pid in db.back.store.players
      requires world == World() && db.pending == at.ws + [Write.Adjust(pid, delta)]
      requires delta == if kind.Takeoff? then -participants[pid].amount else participants[pid].payout
      requires kind.Settlement? ==> participants[pid].cashedOut && participants[pid].betId != 0
      modifies this`at
      ensures Answered(S.Statement(pid, true), true) && Within(kind, todo, Some(pid))
    {
      S.AdjustStep(env, world, pid, true);
      at := S.InTx(kind, db.pending, todo, Some(pid));
      assert World() == S.AfterAdjust(world, pid, delta, true);
    }

    /** `p.BetID = bet.ID`. */
    method KeepBetId(pid: int, id: int)
      requires Seated() && pid in participants
      modifies participants[pid]
      ensures Seats() == old(Seats())[pid := old(Seats())[pid].(betId := id)]
    {
      participants[pid].betId := id;
      assert forall q :: q in participants && q != pid ==> participants[q].AsSeat() == old(participants[q].AsSeat());
    }

    /** CreateBet for one participant, whose row id is kept. */
    method CreateBet(pid: int, ghost todo: set<int>) returns (ok: bool)
      requires Valid() && Within(S.Takeoff, todo, Some(pid)) && pid in todo
      modifies this`state, this`at, this`trace, this`heard, this`world, this`inputs, this`faults, db
      modifies participants[pid]
      ensures Valid() && old(trace) < trace
      ensures ok ==> state == old(state) && Within(S.Takeoff, todo - {pid}, None)
      ensures !ok ==> state.Idle? && at.AtLoop?
      ensures Went(ok)
    {
      LetOthersRun();
      ok := InsertBet(pid, todo);
      Conclude(ok, S.Statement(pid, ok));
    }

    method InsertBet(pid: int, ghost todo: set<int>) returns (ok: bool)
      requires Valid() && Within(S.Takeoff, todo, Some(pid)) && pid in todo
      modifies this`at, db, participants[pid]
      ensures Answered(S.Statement(pid, ok), ok) && (ok ==> Within(S.Takeoff, todo - {pid}, None))
      ensures db.faults == old(db.faults) + if ok then 0 else 1
    {
      var p := participants[pid];
      var id;
      ok, id := db.CreateBet(
        Bet(roundId, pid, p.amount, if p.auto > 0 then Some(Int32(p.auto)) else None, None, None));
      if ok {
        KeepBetId(pid, id);
        NoteInserted(pid, id, todo);
      } else {
        S.CreateBetStep(env, world, pid, false);
      }
    }

    ghost method NoteInserted(pid: int, id: int, todo: set<int>)
      requires Seated() && SubsWired() && Traced() && db.faults == base + faults && Silent()
      requires Within(S.Takeoff, todo, Some(pid)) && pid in todo && world.control == at && pid in world.eng.seats
      requires World() == S.WithStore(world.(eng := S.WithSeat(world.eng, pid, world.eng.seats[pid].(betId := id))),
                                      world.back.store.(nextBet := id + 1))
      requires id == world.back.store.nextBet && db.pending == at.ws + [Write.InsertBet(id, S.BetRow(world.eng, pid))]
      requires pid in world.back.store.players && world.eng.roundId in world.back.store.rounds
      requires !BetExists(S.Visible(world), world.eng.roundId, pid)
      modifies this`at
      ensures Answered(S.Statement(pid, true), true) && Within(S.Takeoff, todo - {pid}, None)
    {
      S.CreateBetStep(env, world, pid, true);
      at := S.InTx(S.Takeoff, db.pending, todo - {pid}, None);
      assert World() == S.AfterCreateBet(world, pid, true);
    }

    /** SettleBet for one participant. */
    method SettleBet(pid: int, ghost todo: set<int>, ghost half: Option<int>) returns (ok: bool)
      requires Valid() && Within(S.Settlement, todo, half) && pid in todo && participants[pid].betId != 0
      requires half == if participants[pid].cashedOut then Some(pid) else None
      modifies this`state, this`at, this`trace, this`heard, this`world, this`inputs, this`faults, db
      ensures Valid() && old(trace) < trace
      ensures ok ==> state == old(state) && Within(S.Settlement, todo - {pid}, None)
      ensures !ok ==> state.Idle? && at.AtLoop?
      ensures Went(ok)
    {
      LetOthersRun();
      ok := SendSettleBet(pid, todo, half);
      Conclude(ok, S.Statement(pid, ok));
    }

    method SendSettleBet(pid: int, ghost todo: set<int>, ghost half: Option<int>) returns (ok: bool)
      requires Valid() && Within(S.Settlement, todo, half) && pid in todo && participants[pid].betId != 0
      requires half == if participants[pid].cashedOut then Some(pid) else None
      modifies this`at, db
      ensures Answered(S.Statement(pid, ok), ok) && (ok ==> Within(S.Settlement, todo - {pid}, None))
      ensures db.faults == old(db.faults) + if ok then 0 else 1
    {
      var p := participants[pid];
      var mult, payout := None, None;
      if p.cashedOut {
        mult, payout := Some(Int32(p.mult)), Some(p.payout);
      }
      ok := db.SettleBet(p.betId, mult, payout);
      if ok {
        NoteSettled(pid, todo, half, Write.SettleBet(p.betId, mult, payout));
      } else {
        S.SettleBetStep(env, world, pid, false);
      }
    }

    ghost method NoteSettled(pid: int, todo: set<int>, half: Option<int>, write: Write)
      requires Seated() && SubsWired() && Traced() && db.faults == base + faults && to == heard && world == World()
      requires Within(S.Settlement, todo, half) && pid in todo && participants[pid].betId != 0
      requires half == if participants[pid].cashedOut then Some(pid) else None
      requires db.pending == at.ws + [write] && participants[pid].betId in S.Visible(world)
      requires var p := participants[pid];
               write == if p.cashedOut then Write.SettleBet(p.betId, Some(Int32(p.mult)), Some(p.payout))
                        else Write.SettleBet(p.betId, None, None)
      modifies this`at
      ensures Answered(S.Statement(pid, true), true) && Within(S.Settlement, todo - {pid}, None)
    {
      S.SettleBetStep(env, world, pid, true);
      at := S.InTx(S.Settlement, db.pending, todo - {pid}, None);
      assert World() == S.AfterSettleBet(world, pid, true);
    }

    /** The loop body of commitBetsAndTakeoff: debit and record one participant's bet. */
    method CommitBet(pid: int, ghost todo: set<int>) returns (ok: bool)
      requires Valid() && Within(S.Takeoff, todo, None) && pid in todo
      modifies this`state, this`at, this`trace, this`heard, this`world, this`inputs, this`faults, db
      modifies participants[pid]
      ensures Valid() && old(trace) < trace
      ensures ok ==> state == old(state) && Within(S.Takeoff, todo - {pid}, None)
      ensures !ok ==> state.Idle? && at.AtLoop?
      ensures Went(ok)
    {
      ok := Adjust(pid, -participants[pid].amount, S.Takeoff, todo);
      if !ok { return; }
      ok := CreateBet(pid, todo);
    }

    /** The loop of commitBetsAndTakeoff over the participants. */
    method CommitBets() returns (ok: bool)
      requires Valid() && state.Betting? && Within(S.Takeoff, participants.Keys, None)
      modifies this`state, this`at, this`trace, this`heard, this`world, this`inputs, this`faults, db
      modifies participants.Values
      ensures Valid() && old(trace) <= trace
      ensures ok ==> state.Betting? && Within(S.Takeoff, {}, None)
      ensures !ok ==> state.Idle? && at.AtLoop?
      ensures Went(ok)
    {
      var todo := participants.Keys;
      while todo != {}
        invariant Valid() && state.Betting? && Within(S.Takeoff, todo, None) && Went(true)
        decreases |todo|
      {
        var pid := AnyKey(todo);
        ok := CommitBet(pid, todo);
        if !ok { return; }
        todo := todo - {pid};
      }
      ok := true;
    }

    /** rounds.state, written outside the transaction. */
    method MarkRound(ghost kind: S.Kind, stage: Stage) returns (ok: bool)
      requires Valid() && Within(kind, {}, None)
      requires stage == if kind.Takeoff? then StageFlying else StageSettled
      modifies this`state, this`at, this`trace, this`heard, this`world, this`inputs, this`faults, db
      ensures Valid() && old(trace) < trace
      ensures ok ==> at == S.Committing(kind, db.pending) && state == old(state)
      ensures !ok ==> state.Idle? && at.AtLoop?
      ensures Went(ok)
    {
      LetOthersRun();
      var fate := SendMark(kind, stage);
      ok := fate.Done?;
      Conclude(ok, S.MarkRound(fate));
    }

    method SendMark(ghost kind: S.Kind, stage: Stage) returns (fate: Fate)
      requires Valid() && Within(kind, {}, None)
      requires stage == if kind.Takeoff? then StageFlying else StageSettled
      modifies this`at, db`back, db`faults
      ensures Answered(S.MarkRound(fate), fate.Done?) && (fate.Done? ==> at == S.Committing(kind, db.pending))
      ensures db.faults == old(db.faults) + if fate.Done? then 0 else 1
    {
      fate := db.UpdateStage(roundId, stage);
      if fate.Done? {
        at := S.Committing(kind, db.pending);
      }
      assert S.AfterMark(world, fate) == if fate.Done? then World() else S.Abort(World());
    }

    /** Takeoff without bets: the round still flies, for the spectators. */
    method TakeoffEmpty()
      requires Valid() && at.AtLoop? && state.Betting? && participants.Keys == {}
      modifies this`state, this`trace, this`heard, this`world, this`inputs, this`faults, db`back, db`faults
      ensures Valid() && state.Flying? && |trace| == |old(trace)| + 1 && trace[|old(trace)|].BettingOver?
      ensures old(trace) < trace
      ensures inputs == old(inputs) + [TimeUp]
    {
      var fate := db.UpdateStage(roundId, StageFlying);
      state := Flying;
      assert Seats() == map[];
      Log(S.BettingOver(fate));
    }

    /** BEGIN. */
    method BeginTakeoff() returns (ok: bool)
      requires Valid() && at.AtLoop? && state.Betting? && participants.Keys != {}
      modifies this`state, this`at, this`trace, this`heard, this`world, this`inputs, this`faults, db`pending
      modifies db`faults
      ensures Valid() && |trace| == |old(trace)| + 1 && old(trace) < trace && trace[|old(trace)|].BettingOver?
      ensures ok ==> state.Betting? && Within(S.Takeoff, participants.Keys, None)
      ensures !ok ==> state.Idle? && at.AtLoop?
      ensures inputs == old(inputs) + [TimeUp] && db.faults == old(db.faults) + if ok then 0 else 1
    {
      var fate := db.BeginTx();
      ok := fate.Done?;
      NoteBegun(fate);
      if ok {
        at := S.InTx(S.Takeoff, [], participants.Keys, None);
        Log(S.BettingOver(fate));
      } else {
        GiveUp(S.BettingOver(fate));
      }
    }

    /** What the machine does on BEGIN when there are bets. */
    lemma NoteBegun(fate: Fate)
      requires world.control.AtLoop? && world.eng.state.Betting?
      requires world.eng.seats == Seats() && participants.Keys != {}
      ensures S.Step(env, world, S.BettingOver(fate))
              == if fate.Done? then world.(control := S.InTx(S.Takeoff, [], participants.Keys, None))
                 else S.Abort(world)
    {
      Inhabited(participants.Keys);
      ghost var some :| some in participants.Keys;
      assert some in Seats() && Seats().Keys == participants.Keys;
    }

    /** A COMMIT has been reported as done: what the machine then goes on to do. */
    ghost predicate Committed(kind: S.Kind)
      reads this, participants.Values, subs.Values, db
    {
      && Wired() && Traced() && Reported(S.Commit(Done))
      && Leads(env, world, S.Commit(Done),
               if kind.Takeoff? then World().(eng := Eng().(state := Flying), control := S.AtLoop)
               else S.Broadcast(World().(control := S.Pausing)))
    }

    /** Or it has not: the machine gives up. */
    ghost predicate RolledBack(e: S.Event)
      reads this, participants.Values, subs.Values, db
    {
      Wired() && Traced() && Reported(e) && Leads(env, world, e, S.Abort(World()))
    }

    /** COMMIT of either transaction. */
    method SendCommit(ghost kind: S.Kind) returns (fate: Fate)
      requires Valid() && at == S.Committing(kind, db.pending)
      modifies this`at, this`trace, this`heard, this`world, this`inputs, this`faults, db
      ensures if fate.Done? then Committed(kind) else RolledBack(S.Commit(fate))
      ensures Went(fate.Done?)
    {
      LetOthersRun();
      fate := CommitNow(kind);
    }

    method CommitNow(ghost kind: S.Kind) returns (fate: Fate)
      requires Valid() && at == S.Committing(kind, db.pending)
      modifies this`at, db
      ensures if fate.Done? then Committed(kind) else RolledBack(S.Commit(fate))
      ensures db.faults == old(db.faults) + if fate.Done? then 0 else 1
    {
      fate := db.Commit();
      at := S.Committing(kind, []);
      assert Eng() == world.eng;
      assert World() == S.WithStore(world, if fate.Failed? then world.back.store
                                           else CommitWrites(world.back.store, world.control.ws)).(control := at);
      S.CommitStep(env, world, fate);
    }

    /** The end of commitBetsAndTakeoff's transaction. */
    method CommitTakeoff()
      requires Valid() && at == S.Committing(S.Takeoff, db.pending) && state.Betting?
      modifies this`state, this`at, this`trace, this`heard, this`world, this`inputs, this`faults, db
      ensures Valid() && at.AtLoop? && (state.Flying? || state.Idle?) && old(trace) < trace
      ensures Went(state.Flying?)
    {
      var fate := SendCommit(S.Takeoff);
      FlyOrNot(fate);
    }

    method FlyOrNot(fate: Fate)
      requires if fate.Done? then Committed(S.Takeoff) else RolledBack(S.Commit(fate))
      modifies this`state, this`at, this`trace, this`heard, this`world, this`inputs, this`faults, db`pending
      ensures Valid() && at.AtLoop? && state == (if fate.Done? then Flying else Idle)
      ensures trace == old(trace) + [S.Commit(fate)] && inputs == old(inputs)
    {
      if fate.Done? {
        Fly();
      } else {
        Abandon(S.Commit(fate));
      }
    }

    method Fly()
      requires Committed(S.Takeoff)
      modifies this`state, this`at, this`trace, this`heard, this`world, this`inputs, this`faults
      ensures Valid() && state.Flying? && at.AtLoop? && trace == old(trace) + [S.Commit(Done)] && inputs == old(inputs)
    {
      assert CitedEvent(S.Commit(Done));
      state := Flying;
      at := S.AtLoop;
      Log(S.Commit(Done));
    }

    /** commitBetsAndTakeoff. */
    method CommitBetsAndTakeoff()
      requires Valid() && at.AtLoop? && state.Betting?
      modifies this`state, this`at, this`trace, this`heard, this`world, this`inputs, this`faults, db
      modifies participants.Values
      ensures Valid() && at.AtLoop? && (state.Flying? || state.Idle?)
      ensures old(trace) < trace && trace[|old(trace)|].BettingOver?
      ensures inputs == old(inputs) + [TimeUp]
      ensures if participants.Keys == {} then state.Flying?
              else db.faults == old(db.faults) + if state.Flying? then 0 else 1
    {
      if participants.Keys == {} {
        TakeoffEmpty();
      } else {
        TakeoffWithBets();
      }
    }

    /** Its transaction. */
    method TakeoffWithBets()
      requires Valid() && at.AtLoop? && state.Betting? && participants.Keys != {}
      modifies this`state, this`at, this`trace, this`heard, this`world, this`inputs, this`faults, db
      modifies participants.Values
      ensures Valid() && at.AtLoop? && (state.Flying? || state.Idle?)
      ensures old(trace) < trace && trace[|old(trace)|].BettingOver?
      ensures inputs == old(inputs) + [TimeUp]
      ensures db.faults == old(db.faults) + if state.Flying? then 0 else 1
    {
      var ok := BeginTakeoff();
      if ok {
        FinishTakeoff();
      }
    }

    /** From BEGIN on. */
    method FinishTakeoff()
      requires Valid() && state.Betting? && Within(S.Takeoff, participants.Keys, None)
      modifies this`state, this`at, this`trace, this`heard, this`world, this`inputs, this`faults, db
      modifies participants.Values
      ensures Valid() && at.AtLoop? && (state.Flying? || state.Idle?) && Went(state.Flying?)
    {
      var ok := CommitAndMark();
      if ok {
        CommitTakeoff();
      }
    }

    method CommitAndMark() returns (ok: bool)
      requires Valid() && state.Betting? && Within(S.Takeoff, participants.Keys, None)
      modifies this`state, this`at, this`trace, this`heard, this`world, this`inputs, this`faults, db
      modifies participants.Values
      ensures Valid() && old(trace) <= trace
      ensures ok ==> at == S.Committing(S.Takeoff, db.pending) && state.Betting?
      ensures !ok ==> at.AtLoop? && state.Idle?
      ensures Went(ok)
    {
      ok := CommitBets();
      if ok {
        ok := MarkRound(S.Takeoff, StageFlying);
      }
    }

    // -------------------------------------------------------------- settlement

    /** The loop body of runSettle: credit and settle one participant's bet. */
    method SettleOne(pid: int, ghost todo: set<int>) returns (ok: bool)
      requires Valid() && Within(S.Settlement, todo, None) && pid in todo
      modifies this`state, this`at, this`trace, this`heard, this`world, this`inputs, this`faults, db
      ensures Valid() && old(trace) <= trace
      ensures ok ==> state == old(state) && Within(S.Settlement, todo - {pid}, None)
      ensures !ok ==> state.Idle? && at.AtLoop?
      ensures Went(ok)
    {
      var p := participants[pid];
      if p.betId == 0 {
        Skip(pid, todo);
        return true;
      }
      if p.cashedOut {
        ok := Adjust(pid, p.payout, S.Settlement, todo);
        if !ok { return; }
        ok := SettleBet(pid, todo, Some(pid));
      } else {
        ok := SettleBet(pid, todo, None);
      }
    }

    /** `continue` for a bet that was never committed. */
    method Skip(pid: int, ghost todo: set<int>)
      requires Valid() && Within(S.Settlement, todo, None) && pid in todo && participants[pid].betId == 0
      modifies this`at, this`trace, this`heard, this`world, this`inputs, this`faults
      ensures Valid() && old(trace) < trace && Within(S.Settlement, todo - {pid}, None)
      ensures Went(true)
    {
      at := S.InTx(S.Settlement, db.pending, todo - {pid}, None);
      Log(S.Statement(pid, true));
    }

    /** The loop of runSettle. */
    method SettleBets() returns (ok: bool)
      requires Valid() && state.Crashed? && Within(S.Settlement, participants.Keys, None)
      modifies this`state, this`at, this`trace, this`heard, this`world, this`inputs, this`faults, db
      ensures Valid() && old(trace) <= trace
      ensures ok ==> state.Crashed? && Within(S.Settlement, {}, None)
      ensures !ok ==> state.Idle? && at.AtLoop?
      ensures Went(ok)
    {
      var todo := participants.Keys;
      while todo != {}
        invariant Valid() && state.Crashed? && Within(S.Settlement, todo, None)
        invariant old(trace) <= trace && inputs == old(inputs) && db.faults == old(db.faults)
        decreases |todo|
      {
        var pid := AnyKey(todo);
        ok := SettleOne(pid, todo);
        if !ok { return; }
        todo := todo - {pid};
      }
      ok := true;
    }

    /** BEGIN of the settlement. */
    method BeginSettlement() returns (ok: bool)
      requires Valid() && at.AtLoop? && state.Crashed?
      modifies this`state, this`at, this`trace, this`heard, this`world, this`inputs, this`faults, db`pending
      modifies db`faults
      ensures Valid() && trace == old(trace) + [S.BeginSettle(ok)]
      ensures ok ==> state.Crashed? && Within(S.Settlement, participants.Keys, None)
      ensures !ok ==> state.Idle? && at.AtLoop?
      ensures Went(ok)
    {
      var fate := db.BeginTx();
      ok := fate.Done?;
      if ok {
        assert Seats().Keys == participants.Keys;
        at := S.InTx(S.Settlement, [], participants.Keys, None);
        Log(S.BeginSettle(true));
      } else {
        GiveUp(S.BeginSettle(false));
      }
    }

    /** The end of runSettle's transaction: the broadcast if it was committed. */
    method CommitSettlement() returns (ok: bool)
      requires Valid() && at == S.Committing(S.Settlement, db.pending) && state.Crashed?
      modifies this`state, this`at, this`trace, this`heard, this`world, this`inputs, this`faults, this`frames
      modifies this`to, db, subs.Values
      ensures Valid() && old(trace) < trace
      ensures if ok then at.Pausing? && state.Crashed? else at.AtLoop? && state.Idle?
      ensures Went(ok)
    {
      var fate := SendCommit(S.Settlement);
      ok := fate.Done?;
      AnnounceOrNot(fate);
    }

    method AnnounceOrNot(fate: Fate)
      requires state.Crashed? && if fate.Done? then Committed(S.Settlement) else RolledBack(S.Commit(fate))
      modifies this`state, this`at, this`trace, this`heard, this`world, this`inputs, this`faults, this`frames
      modifies this`to, db`pending, subs.Values
      ensures Valid() && if fate.Done? then at.Pausing? && state.Crashed? else at.AtLoop? && state.Idle?
      ensures trace == old(trace) + [S.Commit(fate)] && inputs == old(inputs)
    {
      if fate.Done? {
        Announce();
      } else {
        Abandon(S.Commit(fate));
      }
    }

    method Announce()
      requires Committed(S.Settlement)
      modifies this`at, this`frames, this`to, this`trace, this`heard, this`world, this`inputs, this`faults
      modifies subs.Values
      ensures Valid() && at.Pausing? && trace == old(trace) + [S.Commit(Done)]
      ensures Went(true)
    {
      ghost var before := World();
      assert CitedEvent(S.Commit(Done));
      at := S.Pausing;
      assert World() == before.(control := S.Pausing);
      BroadcastAndLog(S.Commit(Done));
    }

    method BroadcastAndLog(ghost e: S.Event)
      requires Wired() && Traced() && S.Step(env, world, e) == S.Broadcast(World()) && Reported(e)
      requires AudienceOf(e).None?
      modifies this`frames, this`to, this`trace, this`heard, this`world, this`inputs, this`faults, subs.Values
      ensures Valid() && Eng() == old(Eng()) && trace == old(trace) + [e]
      ensures inputs == old(inputs) + PickOf(e)
    {
      Broadcast();
      Log(e);
    }

    /** What startRound does before it talks to the database. */
    method DrawRound() returns (roll: nat)
      requires Wired()
      modifies this`participants, this`ticks, this`current, this`crash, this`salt
      ensures Wired() && participants == map[] && Eng() == S.Drawn(old(Eng()), roll, salt)
    {
      participants := map[];
      assert Seats() == map[];
      ticks, current := 0, 100;
      roll := *;
      crash := Fair.SampleCrash(roll);
      salt := *;
    }

    /** The engine has just done what the machine does for `start`, unannounced. */
    ghost predicate Started(start: S.Event)
      reads this, participants.Values, db
    {
      && at.AtLoop? && start.Start? && Reported(start) && state == (if start.create.Done? then Betting else Idle)
      && forall e {:trigger CitedEvent(e)} :: CitedEvent(e) && e == start ==> World() == S.StartQuietly(env, world, e)
    }

    /** The hash of the round, and the UPDATE that publishes it in the row. */
    method PublishHashOf(id: int) returns (published: Fate)
      requires Wired()
      modifies this`roundId, this`commitHash, db`back, db`faults
      ensures Wired() && commitHash == Fair.Commit(env.sha, id, crash, salt).1
      ensures Eng() == old(Eng()).(roundId := id, commitHash := commitHash)
      ensures db.back == old(db.back).(store :=
        if published.Failed? then old(db.back).store else PublishHash(old(db.back).store, id, commitHash))
      ensures db.faults == old(db.faults) + if published.Done? then 0 else 1
    {
      roundId := id;
      commitHash := Fair.Commit(env.sha, roundId, crash, salt).1;
      published := db.UpdateHash(roundId, commitHash);
    }

    /** The rest of startRound once the row is there. */
    method OpenRound(id: int, roll: nat) returns (ghost start: S.Event)
      requires Wired() && db.faults == base + faults && to == heard && id == world.back.store.nextRound
      requires World() == S.WithStore(world.(eng := S.Drawn(world.eng, roll, salt)),
                                      InsertRound(world.back.store, Fair.SampleCrash(roll), salt))
      modifies this`roundId, this`commitHash, this`bettingEnd, this`state, this`at, db`back, db`faults
      ensures Wired() && Started(start)
      ensures state.Betting? && db.faults >= old(db.faults)
    {
      var published := PublishHashOf(id);
      bettingEnd := *;
      state := Betting;
      at := S.AtLoop;
      start := S.Start(roll, salt, bettingEnd, Done, published);
      NoteOpened(roll, published);
    }

    /** What the machine does for a start that succeeds. */
    lemma NoteOpened(roll: nat, published: Fate)
      requires Wired() && at.AtLoop? && state.Betting?
      requires db.faults == base + faults + if published.Done? then 0 else 1
      requires commitHash == Fair.Commit(env.sha, world.back.store.nextRound, Fair.SampleCrash(roll), salt).1
      requires Eng() == S.Drawn(world.eng, roll, salt).(roundId := world.back.store.nextRound, commitHash := commitHash,
                                                        endsAt := bettingEnd, state := Betting)
      requires frames == world.frames && to == heard && world.epoch == 0
      requires var made := InsertRound(world.back.store, Fair.SampleCrash(roll), salt);
               db.back == world.back.(store := if published.Failed? then made
                                               else PublishHash(made, world.back.store.nextRound, commitHash))
      ensures Started(S.Start(roll, salt, bettingEnd, Done, published))
    {
      S.StartOpensStep(env, world, roll, salt, bettingEnd, published, commitHash);
    }

    /** startRound when CreateRound has failed. */
    method RoundFailed(fate: Fate, roll: nat) returns (ghost start: S.Event)
      requires Wired() && !fate.Done? && db.faults == base + faults + 1 && to == heard
      requires World() == S.WithStore(world.(eng := S.Drawn(world.eng, roll, salt)),
                                      if fate.Failed? then world.back.store
                                      else InsertRound(world.back.store, Fair.SampleCrash(roll), salt))
      modifies this`state, this`at
      ensures Wired() && Started(start)
      ensures state.Idle?
    {
      at := S.AtLoop;
      state := Idle;
      start := S.Start(roll, salt, 0, fate, Failed);
      NoteFailed(fate, roll);
    }

    /** What the machine does for a start that fails. */
    lemma NoteFailed(fate: Fate, roll: nat)
      requires Wired() && at.AtLoop? && state.Idle? && !fate.Done?
      requires db.faults == base + faults + 1
      requires Eng() == S.Drawn(world.eng, roll, salt).(state := Idle)
      requires frames == world.frames && to == heard && world.epoch == 0
      requires db.back == world.back.(store := if fate.Failed? then world.back.store
                                               else InsertRound(world.back.store, Fair.SampleCrash(roll), salt))
      ensures Started(S.Start(roll, salt, 0, fate, Failed))
    {
      S.StartFailsStep(env, world, roll, salt, 0, fate, Failed);
    }

    /** CreateRound, and what follows. */
    method CreateRound(roll: nat) returns (ghost start: S.Event)
      requires Wired() && db.faults == base + faults && to == heard && participants == map[]
      requires World() == world.(eng := S.Drawn(world.eng, roll, salt))
      modifies this`state, this`roundId, this`commitHash, this`bettingEnd, this`at, db`back, db`faults
      ensures Wired() && Started(start)
      ensures if state.Idle? then db.faults > old(db.faults) else db.faults >= old(db.faults)
    {
      var fate, id := db.CreateRound(crash, salt);
      if fate.Done? {
        start := OpenRound(id, roll);
      } else {
        start := RoundFailed(fate, roll);
      }
    }

    /** startRound, up to the broadcast its caller may owe. The result names the machine's step. */
    method StartRound() returns (ghost start: S.Event)
      requires Valid() && at.Starting?
      modifies this`participants, this`ticks, this`current, this`crash, this`salt, this`state, this`roundId
      modifies this`commitHash, this`bettingEnd, this`at, db`back, db`faults
      ensures Wired() && Traced() && participants == map[] && Started(start)
      ensures if state.Idle? then db.faults > old(db.faults) else db.faults >= old(db.faults)
    {
      var roll := DrawRound();
      start := CreateRound(roll);
    }

    /** startRound called by runSettle, which announces nothing. */
    method StartNext()
      requires Valid() && at == S.Starting(false)
      modifies this`participants, this`ticks, this`current, this`crash, this`salt, this`state, this`roundId
      modifies this`commitHash, this`bettingEnd, this`at, this`trace, this`heard, this`world, this`inputs, this`faults
      modifies db`back, db`faults
      ensures Valid() && at.AtLoop? && (state.Betting? || state.Idle?)
      ensures old(trace) < trace && inputs == old(inputs) && (state.Idle? ==> db.faults > old(db.faults))
      ensures participants == map[]
    {
      LetOthersRun();
      ghost var start := StartRound();
      LogStart(start);
    }

    ghost method LogStart(start: S.Event)
      requires Wired() && Traced() && Started(start) && world.control == S.Starting(false)
      modifies this`trace, this`heard, this`world, this`inputs, this`faults
      ensures Valid() && trace == old(trace) + [start] && inputs == old(inputs)
    {
      assert CitedEvent(start);
      S.StartStep(env, world, start);
      Log(start);
    }

    /** After the settle pause: the next round if anyone is subscribed, else Idle. */
    method AfterPause()
      requires Valid() && at.Pausing? && state.Crashed?
      modifies this`participants, this`ticks, this`current, this`crash, this`salt, this`state, this`roundId
      modifies this`commitHash, this`bettingEnd, this`at, this`trace, this`heard, this`world, this`inputs, this`faults
      modifies db`back, db`faults
      ensures Valid() && at.AtLoop? && (state.Betting? || state.Idle?)
      ensures old(trace) < trace && inputs == old(inputs)
      ensures state.Idle? ==> subs == map[] || db.faults > old(db.faults)
      ensures participants == map[] || participants == old(participants)
    {
      if subs.Keys == {} {
        Rest();
      } else {
        GoOn();
        StartNext();
      }
    }

    method Rest()
      requires Valid() && at.Pausing? && subs.Keys == {}
      modifies this`state, this`at, this`trace, this`heard, this`world, this`inputs, this`faults
      ensures Valid() && at.AtLoop? && state.Idle? && trace == old(trace) + [S.PauseOver] && inputs == old(inputs)
    {
      state := Idle;
      at := S.AtLoop;
      Log(S.PauseOver);
    }

    ghost method GoOn()
      requires Valid() && at.Pausing? && subs.Keys != {}
      modifies this`at, this`trace, this`heard, this`world, this`inputs, this`faults
      ensures Valid() && at == S.Starting(false) && trace == old(trace) + [S.PauseOver] && inputs == old(inputs)
    {
      Inhabited(subs.Keys);
      at := S.Starting(false);
      Log(S.PauseOver);
    }

    /** By `es` a round has been settled, and its payouts committed. */
    ghost predicate Settled(es: seq<S.Event>) {
      forall x {:trigger Cited(x)} :: Cited(x) && x == es ==> S.Exec(env, origin, x).control.Pausing?
    }

    lemma TraceSettled()
      requires Valid() && at.Pausing?
      ensures Settled(trace)
    {
    }

    /** The transaction of runSettle. */
    method Settle() returns (ok: bool)
      requires Valid() && at.AtLoop? && state.Crashed?
      modifies this`state, this`at, this`trace, this`heard, this`world, this`inputs, this`faults, this`frames
      modifies this`to, db, subs.Values
      ensures Valid() && old(trace) < trace
      ensures if ok then at.Pausing? && state.Crashed? else at.AtLoop? && state.Idle?
      ensures Went(ok) && (ok ==> Settled(trace))
    {
      ok := BeginSettlement();
      if ok {
        ok := FinishSettlement();
      }
    }

    /** From BEGIN on. */
    method FinishSettlement() returns (ok: bool)
      requires Valid() && state.Crashed? && Within(S.Settlement, participants.Keys, None)
      modifies this`state, this`at, this`trace, this`heard, this`world, this`inputs, this`faults, this`frames
      modifies this`to, db, subs.Values
      ensures Valid()
      ensures if ok then at.Pausing? && state.Crashed? else at.AtLoop? && state.Idle?
      ensures Went(ok) && (ok ==> Settled(trace))
    {
      ok := SettleAndMark();
      if ok {
        ok := CommitSettlement();
        if ok { TraceSettled(); }
      }
    }

    method SettleAndMark() returns (ok: bool)
      requires Valid() && state.Crashed? && Within(S.Settlement, participants.Keys, None)
      modifies this`state, this`at, this`trace, this`heard, this`world, this`inputs, this`faults, db
      ensures Valid() && old(trace) <= trace
      ensures ok ==> at == S.Committing(S.Settlement, db.pending) && state.Crashed?
      ensures !ok ==> at.AtLoop? && state.Idle?
      ensures Went(ok)
    {
      ok := SettleBets();
      if ok {
        ok := MarkRound(S.Settlement, StageSettled);
      }
    }

    /** runSettle. With no statement failing, the payouts are committed and the next round opens, unless nobody
        is subscribed; `upto` is what has happened up to the settle pause. The first failure ends in Idle. */
    method RunSettle() returns (ghost upto: Option<seq<S.Event>>)
      requires Valid() && at.AtLoop? && state.Crashed?
      modifies this, db, subs.Values
      ensures Valid() && at.AtLoop? && (state.Betting? || state.Idle?) && old(trace) < trace && inputs == old(inputs)
      ensures upto.None? ==> state.Idle? && db.faults == old(db.faults) + 1
      ensures upto.Some? ==>
                && old(trace) < upto.value <= trace && Settled(upto.value)
                && (state.Idle? ==> subs == map[] || db.faults > old(db.faults))
      ensures subs == old(subs) && (participants == map[] || participants == old(participants))
    {
      upto := None;
      var ok := Settle();
      if !ok { return; }
      upto := Some(trace);
      AfterPause();
    }

    // -------------------------------------------------------------- the loop

    /** waitForSubscribers: everything but a subscription is discarded; the first one opens a round. */
    method WaitForSubscribers(picks: seq<Pick>) returns (n: nat)
      requires Valid() && at.AtLoop? && state.Idle?
      modifies this, db`back, db`faults, subs.Values
      ensures Valid() && at.AtLoop? && n <= |picks| && inputs == old(inputs) + picks[..n]
      ensures forall i :: 0 <= i < n - 1 ==> !Opens(picks[i])
      ensures if n > 0 && Opens(picks[n - 1])
              then OpenedSince(old(trace) + EventsOf(picks[..n]))
              else state.Idle? && n == |picks| && trace == old(trace) + EventsOf(picks)
      ensures state.Idle? && n > 0 && Opens(picks[n - 1]) ==> db.faults > old(db.faults)
      ensures participants == map[] || participants == old(participants)
      ensures fresh(subs.Values - old(subs.Values))
    {
      n := DiscardUntil(picks);
      if n < |picks| {
        Taken(old(trace), old(inputs), picks, n);
        OpenFor(picks[n].cmd.pid);
        n := n + 1;
      } else {
        assert picks[..n] == picks;
      }
    }

    /** The select of waitForSubscribers, up to the first subscription: nothing else has an effect in Idle. */
    method DiscardUntil(picks: seq<Pick>) returns (n: nat)
      requires Valid() && at.AtLoop? && state.Idle?
      modifies this`trace, this`heard, this`world, this`inputs, this`faults
      ensures Valid() && n <= |picks| && (forall i :: 0 <= i < n ==> !Opens(picks[i]))
      ensures n < |picks| ==> Opens(picks[n])
      ensures trace == old(trace) + EventsOf(picks[..n]) && inputs == old(inputs) + picks[..n]
    {
      n := 0;
      assert EventsOf(picks[..0]) == [] && trace + [] == trace;
      while n < |picks| && !Opens(picks[n])
        invariant n <= |picks|
        invariant Valid()
        invariant forall i :: 0 <= i < n ==> !Opens(picks[i])
        invariant trace == old(trace) + EventsOf(picks[..n]) && inputs == old(inputs) + picks[..n]
      {
        Taken(old(trace), old(inputs), picks, n);
        Discard(picks[n]);
        n := n + 1;
      }
    }

    predicate Opens(pick: Pick) { pick.Inbox? && pick.cmd.Subscribe? }

    /** Taking one more pick appends its event. */
    lemma Taken(trace0: seq<S.Event>, inputs0: seq<Pick>, picks: seq<Pick>, n: nat)
      requires n < |picks|
      requires trace == trace0 + EventsOf(picks[..n]) && inputs == inputs0 + picks[..n]
      ensures trace + [EventOf(picks[n])] == trace0 + EventsOf(picks[..n + 1])
      ensures inputs + [picks[n]] == inputs0 + picks[..n + 1]
    {
    }

    /** After `es` a round has been started, or the attempt has failed; in between only others have run. */
    ghost predicate OpenedSince(es: seq<S.Event>)
      reads this
    {
      && es < trace && (forall i :: |es| <= i < |trace| - 1 ==> trace[i].Outside?)
      && trace[|trace| - 1].Start?
      && state == if trace[|trace| - 1].create.Done? then Betting else Idle
    }

    /** A command that is not a subscription, taken in Idle. */
    ghost method Discard(pick: Pick)
      requires Valid() && at.AtLoop? && state.Idle? && !Opens(pick)
      modifies this`trace, this`heard, this`world, this`inputs, this`faults
      ensures Valid() && trace == old(trace) + [EventOf(pick)] && inputs == old(inputs) + [pick]
    {
      Log(EventOf(pick));
    }

    /** The subscription that opens a round, and the broadcast of the betting form. */
    method OpenFor(pid: int)
      requires Valid() && at.AtLoop? && state.Idle?
      modifies this, db`back, db`faults, subs.Values
      ensures Valid() && at.AtLoop? && (state.Idle? ==> db.faults > old(db.faults))
      ensures OpenedSince(old(trace) + [S.Handle(S.Subscribe(pid))])
      ensures inputs == old(inputs) + [Inbox(S.Subscribe(pid))]
      ensures participants == map[]
      ensures fresh(subs.Values - old(subs.Values))
    {
      Welcome(pid);
      StartAnnounced();
    }

    method Welcome(pid: int)
      requires Valid() && at.AtLoop? && state.Idle?
      modifies this`subs, this`at, this`trace, this`heard, this`world, this`inputs, this`faults
      ensures Valid() && at == S.Starting(true) && trace == old(trace) + [S.Handle(S.Subscribe(pid))]
      ensures inputs == old(inputs) + [Inbox(S.Subscribe(pid))]
      ensures fresh(subs.Values - old(subs.Values))
    {
      AddSubscriber(pid);
      at := S.Starting(true);
      Log(S.Handle(S.Subscribe(pid)));
    }

    /** startRound and broadcast, as waitForSubscribers calls them. */
    method StartAnnounced()
      requires Valid() && at == S.Starting(true)
      modifies this, db`back, db`faults, subs.Values
      ensures Valid() && at.AtLoop? && OpenedSince(old(trace)) && inputs == old(inputs)
      ensures state.Idle? ==> db.faults > old(db.faults)
      ensures subs == old(subs) && participants == map[]
    {
      LetOthersRun();
      StartAtOnce();
    }

    method StartAtOnce()
      requires Valid() && at == S.Starting(true)
      modifies this, db`back, db`faults, subs.Values
      ensures Valid() && at.AtLoop? && inputs == old(inputs)
      ensures old(trace) < trace && |trace| == |old(trace)| + 1 && OpenedSince(old(trace))
      ensures state.Idle? ==> db.faults > old(db.faults)
      ensures subs == old(subs) && participants == map[]
    {
      ghost var start := StartRound();
      AnnounceRound(start);
    }

    /** waitForSubscribers' broadcast of the new round, or of the failure to open one. */
    method AnnounceRound(ghost start: S.Event)
      requires Wired() && Traced() && Started(start) && world.control == S.Starting(true)
      modifies this`frames, this`to, this`trace, this`heard, this`world, this`inputs, this`faults, subs.Values
      ensures Valid() && Eng() == old(Eng()) && at == old(at) && trace == old(trace) + [start] && inputs == old(inputs)
    {
      assert CitedEvent(start);
      S.StartStep(env, world, start);
      BroadcastAndLog(start);
    }

    /** runBetting, on the picks of its select: it returns when the window is over. */
    method RunBetting(picks: seq<Pick>) returns (n: nat)
      requires Valid() && at.AtLoop? && state.Betting?
      modifies this, db, participants.Values, subs.Values
      ensures Valid() && at.AtLoop? && n <= |picks| && inputs == old(inputs) + picks[..n]
      ensures forall i :: 0 <= i < n - 1 ==> !picks[i].TimeUp?
      ensures if n > 0 && picks[n - 1].TimeUp?
              then (state.Flying? || (state.Idle? && db.faults > old(db.faults)))
                   && old(trace) + EventsOf(picks[..n - 1]) < trace
              else state.Betting? && n == |picks| && trace == old(trace) + EventsOf(picks)
      ensures fresh(participants.Values - old(participants.Values))
      ensures fresh(subs.Values - old(subs.Values))
    {
      n := TakeBets(picks);
      if n < |picks| {
        assert picks[..n + 1] == picks[..n] + [picks[n]];
        n := n + 1;
        CommitBetsAndTakeoff();
      } else {
        assert picks[..n] == picks;
      }
    }

    /** The picks up to the end of the window. */
    method TakeBets(picks: seq<Pick>) returns (n: nat)
      requires Valid() && at.AtLoop? && state.Betting?
      modifies this, participants.Values, subs.Values
      ensures Valid() && at.AtLoop? && state.Betting?
      ensures n <= |picks| && (n < |picks| ==> picks[n].TimeUp?)
      ensures forall i :: 0 <= i < n ==> !picks[i].TimeUp?
      ensures trace == old(trace) + EventsOf(picks[..n]) && inputs == old(inputs) + picks[..n]
      ensures fresh(participants.Values - old(participants.Values))
      ensures fresh(subs.Values - old(subs.Values))
    {
      n := 0;
      assert EventsOf(picks[..0]) == [] && trace + [] == trace;
      while n < |picks| && !picks[n].TimeUp?
        invariant n <= |picks|
        invariant Valid() && at.AtLoop? && state.Betting?
        invariant forall i :: 0 <= i < n ==> !picks[i].TimeUp?
        invariant trace == old(trace) + EventsOf(picks[..n]) && inputs == old(inputs) + picks[..n]
        invariant fresh(participants.Values - old(participants.Values))
        invariant fresh(subs.Values - old(subs.Values))
      {
        Taken(old(trace), old(inputs), picks, n);
        BettingPick(picks[n]);
        n := n + 1;
      }
    }

    /** A pick of runBetting's select while the window is open. */
    method BettingPick(pick: Pick)
      requires Valid() && at.AtLoop? && state.Betting? && !pick.TimeUp?
      modifies this`participants, this`subs, this`frames, this`to, this`trace, this`heard, this`world
      modifies this`inputs, this`faults
      modifies participants.Values, subs.Values
      ensures Valid() && trace == old(trace) + [EventOf(pick)] && inputs == old(inputs) + [pick]
      ensures fresh(participants.Values - old(participants.Values))
      ensures fresh(subs.Values - old(subs.Values))
    {
      match pick {
        case Inbox(cmd) => HandleCmd(cmd);
        case BettingTick => BroadcastAndLog(S.Announce);
        case FlightTick => PassOver(pick);
      }
    }

    /** runLoop: the goroutine, on any sequence of picks. It takes them all, one after the other, each in the
        state that the ones before have led to: whatever it does is the machine's run on exactly these inputs
        and the failures the database has reported, from the state the process started in. */
    method RunLoop(picks: seq<Pick>)
      requires Valid() && at.AtLoop? && !state.Settling?
      modifies this, db, participants.Values, subs.Values
      ensures Valid() && at.AtLoop? && (state.Idle? || state.Betting? || state.Flying?)
      ensures inputs == old(inputs) + picks
    {
      var i: nat := 0;
      while i < |picks| || state.Crashed?
        invariant i <= |picks| && inputs == old(inputs) + picks[..i]
        invariant Valid() && at.AtLoop? && !state.Settling?
        invariant fresh(participants.Values - old(participants.Values))
        invariant fresh(subs.Values - old(subs.Values))
        decreases |picks| - i, if state.Crashed? then 1 else 0
      {
        var n := Turn(picks[i..]);
        assert picks[..i + n] == picks[..i] + picks[i..][..n];
        i := i + n;
      }
      assert picks[..i] == picks;
    }

    /** One turn of runLoop's switch. */
    method Turn(picks: seq<Pick>) returns (n: nat)
      requires Valid() && at.AtLoop? && !state.Settling? && (picks != [] || state.Crashed?)
      modifies this, db, participants.Values, subs.Values
      ensures Valid() && at.AtLoop? && !state.Settling? && n <= |picks| && inputs == old(inputs) + picks[..n]
      ensures if old(state).Crashed? then n == 0 && !state.Crashed? else n > 0
      ensures fresh(participants.Values - old(participants.Values))
      ensures fresh(subs.Values - old(subs.Values))
    {
      match state {
        case Idle => n := WaitForSubscribers(picks);
        case Betting => n := RunBetting(picks);
        case Flying => n := RunFlying(picks);
        case Crashed =>
          n := 0;
          ghost var upto := RunSettle();
      }
    }
  }
}
