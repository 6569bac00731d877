/** What the engine's flight makes of the sampler's odds. An auto-cashout is tested against the tick, and
    only then is the crash point (internal/engine/engine.go:280-290), so a target is paid on every roll
    whose crash point the flight has not reached one tick earlier. */
module Odds {
  import opened Multiplier
  import opened Fair

  /** The rolls on which an auto-cashout at `target` is paid: its tick comes no later than the crash. */
  ghost function PayingRolls(g: real, target: int): set<nat>
    requires Growth(g)
  {
    set n: nat | 0 <= n < ROLLS && FirstTick(g, target) <= FirstTick(g, SampleCrash(n))
  }

  /** The curve one tick before the target is reached: the bar a crash point has to clear. */
  function Bar(g: real, target: int): (bar: int)
    requires Growth(g)
    ensures bar >= 100
  {
    assert FirstTick(g, target) >= 1 by { FirstTickIff(g, target, 1); }
    assert Curve(g, FirstTick(g, target) - 1) >= 100 by { CurveStep(g, FirstTick(g, target) - 1); }
    Curve(g, FirstTick(g, target) - 1)
  }

  lemma PaysIff(g: real, target: int, crash: int)
    requires Growth(g)
    ensures FirstTick(g, target) <= FirstTick(g, crash)
            <==> FirstTick(g, target) == 1 || Bar(g, target) < crash
  {
    var t := FirstTick(g, target);
    FirstTickIff(g, target, 1);
    FirstTickIff(g, crash, 1);
    if t > 1 { FirstTickIff(g, crash, t - 1); }
  }

  /** The exact number of rolls that pay a target: all of them up to the first tick's multiplier, and
      beyond it as many as the sampler sends past the bar. */
  lemma PayingCount(g: real, target: int)
    requires Growth(g)
    ensures |PayingRolls(g, target)|
            == if target <= Curve(g, 1) then ROLLS else 99 * ROLLS / Bar(g, target)
  {
    var bar := Bar(g, target);
    FirstTickIff(g, target, 1);
    if target <= Curve(g, 1) {
      forall n: nat ensures n in PayingRolls(g, target) <==> 0 <= n < ROLLS {
        if n < ROLLS { PaysIff(g, target, SampleCrash(n)); }
      }
      IntervalCard(PayingRolls(g, target), 0, ROLLS);
    } else {
      forall n: nat ensures n in PayingRolls(g, target) <==> n in Survivors(bar + 1) {
        if n < ROLLS { PaysIff(g, target, SampleCrash(n)); }
      }
      assert PayingRolls(g, target) == Survivors(bar + 1);
      SurvivalCount(bar + 1);
    }
  }

  // ---------------------------------------------------------------- who the odds favour

  lemma EdgeHolds(m: nat, bar: nat, q: nat, n: nat)
    requires bar > 0 && 99 * m <= 100 * bar && q * bar <= 99 * n
    ensures m * q <= 100 * n
  {
    assert 99 * (m * q) == (99 * m) * q <= (100 * bar) * q == 100 * (q * bar);
  }

  lemma EdgeFails(m: nat, bar: nat, q: nat, n: nat)
    requires m > 0 && bar > 0 && 99 * m > 100 * bar && m * bar <= n && 99 * n < (q + 1) * bar
    ensures m * q > 100 * n
  {
    if m * q <= 100 * n {
      var x := (q + 1) * bar;
      Scaled(99 * n + 1, x, m);
      Scaled(100 * bar + 1, 99 * m, n);
      Scaled(m * q, 100 * n, bar);
      Regroup(m, bar, q, n);
    }
  }

  lemma Scaled(a: nat, b: nat, k: nat)
    requires a <= b
    ensures a * k <= b * k
  {
  }

  lemma Regroup(m: nat, bar: nat, q: nat, n: nat)
    ensures ((q + 1) * bar) * m == (m * q) * bar + m * bar
    ensures (99 * n + 1) * m == (99 * m) * n + m
    ensures (100 * bar + 1) * n == (100 * n) * bar + n
  {
  }

  /** The sampler's edge does not carry over to the flight. Always cashing out at one target, a player stakes
      100 * ROLLS over all the rolls and is paid `target` on the paying ones. For every target, the house comes
      out even or ahead if and only if the target lies past the first tick and the rolls that clear its bar are
      no more than one in target / 100. */
  lemma HouseHoldsIff(g: real, target: int)
    requires Growth(g) && target > 100
    ensures target * |PayingRolls(g, target)| <= 100 * ROLLS
            <==> target > Curve(g, 1) && 99 * ROLLS / Bar(g, target) <= 100 * ROLLS / target
  {
    PayingCount(g, target);
    if target > Curve(g, 1) {
      MulDiv(100 * ROLLS, target, 99 * ROLLS / Bar(g, target));
    }
  }

  /** Without the rounding: a target within 100/99 of its bar keeps the edge, and for targets up to some six
      hundred times the stake only such a target does. */
  lemma HouseHoldsWithinBar(g: real, target: int)
    requires Growth(g) && target > Curve(g, 1)
    ensures 99 * target <= 100 * Bar(g, target) ==> target * |PayingRolls(g, target)| <= 100 * ROLLS
    ensures target * Bar(g, target) <= ROLLS ==>
              (target * |PayingRolls(g, target)| <= 100 * ROLLS <==> 99 * target <= 100 * Bar(g, target))
  {
    PayingCount(g, target);
    CurveStep(g, 0);
    var bar := Bar(g, target);
    var q := 99 * ROLLS / bar;
    MulDiv(99 * ROLLS, bar, q);
    MulDiv(99 * ROLLS, bar, q + 1);
    if 99 * target <= 100 * bar {
      EdgeHolds(target, bar, q, ROLLS);
    } else if target * bar <= ROLLS {
      EdgeFails(target, bar, q, ROLLS);
    }
  }

  /** So the targets a tick lands on exactly all favour the player, the first of them with certainty. */
  lemma TickTargetsBeatTheHouse(g: real, t: nat)
    requires Growth(g) && t >= 1 && Curve(g, t) * Curve(g, t - 1) <= ROLLS
    ensures Curve(g, t) * |PayingRolls(g, Curve(g, t))| > 100 * ROLLS
  {
    var target, below := Curve(g, t), Curve(g, t - 1);
    CurveStep(g, t - 1);
    FirstTickIff(g, target, t);
    if t > 1 { FirstTickIff(g, target, t - 1); }
    assert Bar(g, target) == below;
    StepRatio(g, t - 1);
    if t == 1 {
      HouseHoldsIff(g, target);
    } else {
      CurveMonotone(g, 1, t);
      HouseHoldsWithinBar(g, target);
    }
  }

  /** A tick multiplies the curve by more than 100/99, whatever truncation takes off. */
  lemma StepRatio(g: real, t: nat)
    requires Growth(g)
    ensures 99 * Curve(g, t + 1) > 100 * Curve(g, t)
  {
    var p := Pow(g, t);
    CurveStep(g, t);
    assert Curve(g, t) as real <= 100.0 * p;
    assert (g - 1.07) * p >= 0.0;
    assert Curve(g, t + 1) as real > 100.0 * (g * p) - 1.0;
    assert 99.0 * (107.0 * p - 1.0) > 100.0 * (100.0 * p);
  }
}
