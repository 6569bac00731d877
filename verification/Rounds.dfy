/** The values of a round (internal/engine/round.go) and what the engine computes of them. */
module Rounds {
  import opened GoInt

  datatype State = Idle | Betting | Flying | Crashed | Settling

  /** A Participant, without its player id, which keys the map it is held in. */
  datatype Seat = Seat(displayName: string, hidden: bool, amount: int, auto: int, betId: int,
                       cashedOut: bool, mult: int, payout: int)

  /** A ParticipantView, likewise. */
  datatype View = View(displayName: string, hidden: bool, amount: int,
                       cashedOut: bool, mult: int, payout: int)

  /** A Snapshot; the participants are compared as a map, as the slice has no fixed order. */
  datatype Snapshot = Snapshot(state: State, roundId: int, commitHash: string, current: int,
                               crash: int, salt: string, endsAt: int, seats: map<int, View>)

  function NewSeat(displayName: string, hidden: bool, amount: int, auto: int): Seat {
    Seat(displayName, hidden, amount, auto, 0, false, 0, 0)
  }

  function ViewOf(s: Seat): View {
    View(s.displayName, s.hidden, s.amount, s.cashedOut, s.mult, s.payout)
  }

  /** `amount * int64(mult) / 100` in int64 arithmetic. */
  function Payout(amount: int, mult: int): int {
    Quot(Int64(amount * mult), 100)
  }

  /** settleCashout. */
  function CashedOutAt(s: Seat, mult: int): Seat {
    s.(cashedOut := true, mult := mult, payout := Payout(s.amount, mult))
  }

  /** One iteration of the auto-cashout pass of a tick. */
  function AutoSettled(s: Seat, current: int): Seat {
    if !s.cashedOut && s.auto > 0 && current >= s.auto then CashedOutAt(s, s.auto) else s
  }

  /** The auto-cashout pass. */
  function AutoPass(seats: map<int, Seat>, current: int): map<int, Seat> {
    map pid | pid in seats :: AutoSettled(seats[pid], current)
  }

  /** Where a snapshot stands in the life of the process: rounds in order, and within a round Betting, Flying,
      Crashed, and Idle once the round is given up. */
  function Position(state: State, round: int): int {
    4 * round + match state
                case Betting => 0
                case Flying => 1
                case Crashed => 2
                case Settling => 2
                case Idle => 3
  }

  /** How far a round has come in the life of the process. */
  lemma PositionOrder(state: State, round: int, state': State, round': int)
    ensures round < round' ==> Position(state, round) < Position(state', round')
    ensures Position(Betting, round) < Position(Flying, round) < Position(Crashed, round) < Position(Idle, round)
  {
  }

  // ---------------------------------------------------------------- the order of the pass

  /** The pass as the loop runs it, visiting the participants in the given order. */
  function PassInOrder(seats: map<int, Seat>, order: seq<int>, current: int): map<int, Seat>
    requires forall i :: 0 <= i < |order| ==> order[i] in seats
  {
    if order == [] then seats
    else PassInOrder(seats[order[0] := AutoSettled(seats[order[0]], current)], order[1..], current)
  }

  lemma {:induction false} PassVisits(seats: map<int, Seat>, order: seq<int>, current: int)
    requires forall i :: 0 <= i < |order| ==> order[i] in seats
    ensures var r := PassInOrder(seats, order, current);
            r.Keys == seats.Keys
            && forall pid :: pid in seats ==>
                 r[pid] == if pid in order then AutoSettled(seats[pid], current) else seats[pid]
  {
    if order != [] {
      var head := order[0];
      var seats1 := seats[head := AutoSettled(seats[head], current)];
      PassVisits(seats1, order[1..], current);
      assert AutoSettled(seats1[head], current) == seats1[head];
      assert forall pid :: pid in order <==> pid == head || pid in order[1..];
    }
  }

  /** Go's map order does not matter to an auto-cashout pass, and neither does visiting a seat twice. */
  lemma PassIsOrderIndependent(seats: map<int, Seat>, order: seq<int>, current: int)
    requires forall i :: 0 <= i < |order| ==> order[i] in seats
    requires forall pid :: pid in seats ==> pid in order
    ensures PassInOrder(seats, order, current) == AutoPass(seats, current)
  {
    PassVisits(seats, order, current);
    var r, want := PassInOrder(seats, order, current), AutoPass(seats, current);
    assert r.Keys == want.Keys;
    assert forall pid :: pid in seats ==> r[pid] == want[pid];
  }

  // ---------------------------------------------------------------- payouts

  lemma QuotientExactIff(x: nat)
    ensures Quot(Int64(x), 100) == x / 100 <==> x < INT64_LIMIT
  {
    if x >= INT64_LIMIT {
      assert Int64(x) < INT64_LIMIT && (x - Int64(x)) % (2 * INT64_LIMIT) == 0;
      assert x >= Int64(x) + 2 * INT64_LIMIT;
    }
  }

  /** A payout is the exact quotient if and only if the product fits in an int64. */
  lemma PayoutExactIff(amount: int, mult: int)
    requires 0 <= amount && 0 <= mult
    ensures Payout(amount, mult) == amount * mult / 100 <==> amount * mult < INT64_LIMIT
  {
    assert amount * mult >= 0;
    QuotientExactIff(amount * mult);
  }

  /** In general it is a hundredth of the product as an int64 holds it, cut off toward zero. */
  lemma PayoutCutsOff(amount: int, mult: int)
    ensures var product, rest := Int64(amount * mult), Int64(amount * mult) - 100 * Payout(amount, mult);
            && -INT64_LIMIT <= product < INT64_LIMIT && (amount * mult - product) % (2 * INT64_LIMIT) == 0
            && -100 < rest < 100 && (product >= 0 ==> rest >= 0) && (product <= 0 ==> rest <= 0)
  {
    ConversionsWrap(amount * mult, Int64(amount * mult));
    QuotTruncates(Int64(amount * mult), 100);
  }

  lemma ScaleUp(amount: nat, low: nat, high: nat)
    requires low <= high
    ensures amount * low <= amount * high
  {
  }

  lemma HundredthsMonotone(a: nat, b: nat)
    requires a <= b
    ensures a / 100 <= b / 100
  {
  }

  /** As long as nothing wraps, a higher multiplier never pays less, and one of at least 100 returns at least
      the stake. */
  lemma PayoutMonotone(amount: int, low: int, high: int)
    requires 0 <= amount && 0 <= low <= high && amount * high < INT64_LIMIT
    ensures Payout(amount, low) <= Payout(amount, high)
    ensures low >= 100 ==> Payout(amount, low) >= amount
  {
    ScaleUp(amount, low, high);
    PayoutExactIff(amount, low);
    PayoutExactIff(amount, high);
    HundredthsMonotone(amount * low, amount * high);
    if low >= 100 {
      ScaleUp(amount, 100, low);
      HundredthsMonotone(amount * 100, amount * low);
    }
  }
}
