/** A subscriber's buffered channel and sendTo as code (internal/engine/engine.go:42-45, 444-461). */
module Subscribers {
  import opened Rounds
  import Mailbox

  /** The channel holds the frames the mailbox's queue stands for. */
  ghost predicate Holds(ch: seq<Snapshot>, box: Mailbox.Box<Snapshot>) {
    && Mailbox.Inv(box)
    && |ch| == |box.queue|
    && forall i :: 0 <= i < |ch| ==> ch[i] == box.sent[box.queue[i]]
  }

  class Subscriber {
    const playerId: int
    var ch: seq<Snapshot>
    ghost var box: Mailbox.Box<Snapshot>
    ghost var offered: seq<nat>            // which of the engine's broadcasts `box.sent` consists of
    ghost const since: nat                 // how many there had been when it subscribed

    ghost predicate Linked()
      reads this
    {
      Holds(ch, box)
    }

    ghost predicate Valid()
      reads this
    {
      Holds(ch, box) && box.pc.Ready?
    }

    constructor (playerId: int, ghost since: nat)
      ensures Valid() && box.sent == [] && offered == [] && this.playerId == playerId && this.since == since
    {
      this.playerId := playerId;
      this.since := since;
      ch := [];
      box := Mailbox.Empty();
      offered := [];
    }

    /** The session's goroutine takes the oldest frame, if there is one. */
    method Receive() returns (taken: bool, frame: Snapshot)
      requires Linked()
      modifies this`ch, this`box
      ensures Linked() && box == Mailbox.Next(old(box), Mailbox.Receive)
      ensures taken <==> old(ch) != []
      ensures taken ==> frame == old(ch)[0] && frame == box.sent[box.got[|box.got| - 1]]
    {
      frame := *;
      taken := ch != [];
      ghost var before := box;
      box := Mailbox.Next(box, Mailbox.Receive);
      if taken {
        frame := ch[0];
        ch := ch[1..];
        assert forall i :: 0 <= i < |ch| ==> box.queue[i] == before.queue[i + 1];
      }
    }

    /** The session's goroutine runs for a while. */
    method ReceiverRuns()
      requires Linked()
      modifies this`ch, this`box
      ensures Linked() && box.sent == old(box.sent) && box.pc == old(box.pc)
      ensures old(box.got) <= box.got && |box.queue| <= |old(box.queue)|
    {
      var n: nat := *;
      while n > 0
        invariant Linked() && box.sent == old(box.sent) && box.pc == old(box.pc)
        invariant old(box.got) <= box.got && |box.queue| <= |old(box.queue)|
      {
        var _, _ := Receive();
        n := n - 1;
      }
    }

    /** sendTo, with the receiver running before, between and after its selects. The frame always ends up
        newest: by Valid it is last in the channel or the last one received. */
    method SendTo(snap: Snapshot)
      requires Valid()
      modifies this`ch, this`box
      ensures Valid() && box.sent == old(box.sent) + [snap]
      ensures old(box.got) <= box.got
      ensures if ch != [] then ch[|ch| - 1] == snap
              else box.got != [] && box.sent[box.got[|box.got| - 1]] == snap
    {
      ReceiverRuns();
      ghost var offered := Mailbox.Next(box, Mailbox.Offer(snap));
      if |ch| < Mailbox.CAPACITY {
        ch, box := ch + [snap], offered;
      } else {
        box := offered;
        ReceiverRuns();
        Drain();
        ReceiverRuns();
        Retry(snap);
      }
      ReceiverRuns();
    }

    /** The second select. */
    method Drain()
      requires Linked() && box.pc.Draining?
      modifies this`ch, this`box
      ensures Linked() && box == Mailbox.Next(old(box), Mailbox.Drain)
    {
      ghost var before := box;
      box := Mailbox.Next(box, Mailbox.Drain);
      if ch != [] {
        ch := ch[1..];
        assert forall i :: 0 <= i < |ch| ==> box.queue[i] == before.queue[i + 1];
      }
    }

    /** The third select. */
    method Retry(snap: Snapshot)
      requires Linked() && box.pc.Retrying? && box.sent != [] && box.sent[|box.sent| - 1] == snap
      modifies this`ch, this`box
      ensures Valid() && box == Mailbox.Next(old(box), Mailbox.Retry)
    {
      box := Mailbox.Next(box, Mailbox.Retry);
      if |ch| < Mailbox.CAPACITY {
        ch := ch + [snap];
      }
    }
  }
}
