/** The drop-stale mailbox (internal/engine/engine.go:444-461): a channel of four snapshots with one sender
    that never waits and a receiver that may run between any two of the sender's three selects. */
module Mailbox {

  const CAPACITY := 4

  /** Where sendTo stands: not running, before its second select, before its third. */
  datatype Pc = Ready | Draining | Retrying

  /** `sent` is every frame sendTo was called with; the queue and the receiver's list hold positions in it. */
  datatype Box<T> = Box(sent: seq<T>, queue: seq<int>, got: seq<int>, pc: Pc)

  datatype Step<T> =
    | Offer(frame: T)   // first select: send, or fall through to draining
    | Drain             // second select: take the oldest frame if there is one
    | Retry             // third select: send, or give up
    | Receive           // the receiver takes the oldest frame if there is one

  function Next<T>(b: Box<T>, e: Step<T>): Box<T> {
    match e
    case Offer(frame) =>
      if !b.pc.Ready? then b
      else if |b.queue| < CAPACITY then b.(sent := b.sent + [frame], queue := b.queue + [|b.sent|])
      else b.(sent := b.sent + [frame], pc := Draining)
    case Drain =>
      if !b.pc.Draining? then b
      else b.(queue := if b.queue == [] then [] else b.queue[1..], pc := Retrying)
    case Retry =>
      if !b.pc.Retrying? then b
      else if |b.queue| < CAPACITY then b.(queue := b.queue + [|b.sent| - 1], pc := Ready)
      else b.(pc := Ready)
    case Receive =>
      if b.queue == [] then b else b.(queue := b.queue[1..], got := b.got + [b.queue[0]])
  }

  function Run<T>(b: Box<T>, es: seq<Step<T>>): Box<T>
    decreases |es|
  {
    if es == [] then b else Run(Next(b, es[0]), es[1..])
  }

  function Empty<T>(): Box<T> { Box([], [], [], Ready) }

  /** The frames the queue may hold: all that were sent, but for the one sendTo is still trying to send. */
  function Settled<T>(b: Box<T>): int {
    if b.pc.Ready? then |b.sent| else |b.sent| - 1
  }

  ghost predicate Inv<T>(b: Box<T>) {
    var n := Settled(b);
    && n >= 0
    && |b.queue| <= CAPACITY && |b.queue| <= n
    && (b.pc.Retrying? ==> |b.queue| < CAPACITY)
    && (forall i :: 0 <= i < |b.queue| ==> b.queue[i] == n - |b.queue| + i)
    && (forall i :: 0 <= i < |b.got| ==> 0 <= b.got[i] < n - |b.queue|)
    && (forall i, j :: 0 <= i < j < |b.got| ==> b.got[i] < b.got[j])
    && (b.pc.Ready? && b.queue == [] && n > 0 ==> b.got != [] && b.got[|b.got| - 1] == n - 1)
  }

  lemma NextKeeps<T>(b: Box<T>, e: Step<T>)
    requires Inv(b)
    ensures Inv(Next(b, e))
  {
  }

  lemma {:induction false} RunKeeps<T>(b: Box<T>, es: seq<Step<T>>)
    requires Inv(b)
    ensures Inv(Run(b, es))
    decreases |es|
  {
    if es != [] {
      NextKeeps(b, es[0]);
      RunKeeps(Next(b, es[0]), es[1..]);
    }
  }

  /** Over every interleaving of sender and receiver: the queue is a contiguous run of at most four frames
      ending with the newest one sent (or, in mid-send, the one before); the receiver sees frames in strictly
      increasing order and none that is still queued; and whenever sendTo has returned, the newest frame is
      last in the queue or the last one received. */
  lemma DropsOnlyStale<T>(es: seq<Step<T>>)
    ensures var b := Run(Empty<T>(), es);
            && |b.queue| <= CAPACITY
            && (forall i :: 0 <= i < |b.queue| ==> b.queue[i] == Settled(b) - |b.queue| + i)
            && (forall i, j :: 0 <= i < j < |b.got| ==> b.got[i] < b.got[j])
            && (forall i, k :: 0 <= i < |b.got| && 0 <= k < |b.queue| ==> b.got[i] < b.queue[k])
            && (b.pc.Ready? && b.sent != [] ==>
                  if b.queue != [] then b.queue[|b.queue| - 1] == |b.sent| - 1
                  else b.got != [] && b.got[|b.got| - 1] == |b.sent| - 1)
  {
    RunKeeps(Empty<T>(), es);
  }

  // ---------------------------------------------------------------- what is dropped

  /** Frames that the receiver has neither had nor can still have. */
  function Lost<T>(b: Box<T>): int { Settled(b) - |b.queue| - |b.got| }

  /** How many sends found the channel full. */
  function Overruns<T>(b: Box<T>, es: seq<Step<T>>): nat
    decreases |es|
  {
    if es == [] then 0
    else (if es[0].Offer? && b.pc.Ready? && |b.queue| == CAPACITY then 1 else 0) + Overruns(Next(b, es[0]), es[1..])
  }

  /** No step but the drain takes a frame from the receiver, and that takes only the oldest one. */
  lemma OnlyTheOldestIsDropped<T>(b: Box<T>, e: Step<T>)
    ensures var b' := Next(b, e);
            if b.pc.Draining? && e.Drain? && b.queue != [] then b'.queue == b.queue[1..] && b'.got == b.got
            else b.got + b.queue <= b'.got + b'.queue
  {
    if e.Receive? && b.queue != [] { assert b.queue == [b.queue[0]] + b.queue[1..]; }
  }

  lemma {:induction false} LossIsBounded<T>(b: Box<T>, es: seq<Step<T>>)
    requires Inv(b)
    ensures var b' := Run(b, es);
            Lost(b') + (if b'.pc.Draining? then 1 else 0)
            <= Lost(b) + (if b.pc.Draining? then 1 else 0) + Overruns(b, es)
    decreases |es|
  {
    if es != [] {
      NextKeeps(b, es[0]);
      LossIsBounded(Next(b, es[0]), es[1..]);
    }
  }

  /** Over every interleaving no more frames are lost than sends have found the channel full: one each. */
  lemma LosesOnePerOverrun<T>(es: seq<Step<T>>)
    ensures var b := Run(Empty<T>(), es);
            0 <= Lost(b) <= Overruns(Empty<T>(), es)
  {
    RunKeeps(Empty<T>(), es);
    LossIsBounded(Empty<T>(), es);
    GotIsShort(Run(Empty<T>(), es));
  }

  /** What has been received is part of what left the queue. */
  lemma GotIsShort<T>(b: Box<T>)
    requires Inv(b)
    ensures |b.got| <= Settled(b) - |b.queue|
  {
    Increasing(b.got, Settled(b) - |b.queue|);
  }

  lemma {:induction false} Increasing(xs: seq<int>, n: int)
    requires n >= 0 && forall i :: 0 <= i < |xs| ==> 0 <= xs[i] < n
    requires forall i, j :: 0 <= i < j < |xs| ==> xs[i] < xs[j]
    ensures |xs| <= n
    decreases |xs|
  {
    if xs != [] { Increasing(xs[..|xs| - 1], xs[|xs| - 1]); }
  }

  /** sendTo with nobody receiving. */
  function SendAlone<T>(b: Box<T>, frame: T): Box<T> {
    Run(b, [Offer(frame), Drain, Retry])
  }

  /** Then the frame is added, and the oldest one is dropped if and only if there were four. */
  lemma SendAloneDropsIff<T>(b: Box<T>, frame: T)
    requires Inv(b) && b.pc.Ready?
    ensures var b' := SendAlone(b, frame);
            && b'.pc.Ready? && b'.sent == b.sent + [frame] && b'.got == b.got
            && b'.queue == (if |b.queue| == 4 then b.queue[1..] else b.queue) + [|b.sent|]
  {
    var es := [Offer(frame), Drain, Retry];
    var b1 := Next(b, es[0]);
    var b2 := Next(b1, es[1]);
    assert es[1..] == [Drain, Retry] && es[1..][1..] == [Retry] && es[1..][1..][1..] == [];
    assert Run(b2, [Retry]) == Run(Next(b2, Retry), []);
    assert Run(b1, es[1..]) == Run(b2, [Retry]);
  }

  /** The third select never gives up: the engine is the only sender, so draining leaves room. */
  lemma RetryAlwaysSends<T>(es: seq<Step<T>>)
    ensures var b := Run(Empty<T>(), es);
            b.pc.Retrying? ==> Next(b, Retry).queue == b.queue + [|b.sent| - 1]
  {
    RunKeeps(Empty<T>(), es);
  }
}
