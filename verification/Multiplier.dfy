/** The multiplier curve of a flight (internal/engine/engine.go:272-275, internal/engine/round.go:72).
    `math.Exp(growthK * ticks)` is the power `g^ticks` of a real number `g` (g = e^0.07). */
module Multiplier {

  /** What is used of e^0.07 = 1.072508...: the bounds below. */
  ghost predicate Growth(g: real) { 1.07 < g < 1.0726 }

  function Pow(g: real, t: nat): real {
    if t == 0 then 1.0 else g * Pow(g, t - 1)
  }

  /** The multiplier shown after `t` ticks, truncated to basis points. */
  function Curve(g: real, t: nat): int {
    (100.0 * Pow(g, t)).Floor
  }

  lemma PowOne(g: real)
    ensures Pow(g, 1) == g
  {
    assert Pow(g, 1) == g * Pow(g, 0);
  }

  /** Growth compounds: as many factors of `g` as ticks. */
  lemma {:induction false} PowAdds(g: real, s: nat, t: nat)
    ensures Pow(g, s + t) == Pow(g, s) * Pow(g, t)
  {
    if s > 0 {
      PowAdds(g, s - 1, t);
      assert Pow(g, s + t) == g * Pow(g, s - 1 + t);
      Regroup(g, Pow(g, s - 1), Pow(g, t));
    }
  }

  lemma Regroup(a: real, b: real, c: real)
    ensures a * (b * c) == (a * b) * c
  {
  }

  /** The curve is the power of `g` in hundredths, cut off: after one tick `g` itself, and over any further span
      of ticks another power of it. */
  lemma CurveTruncates(g: real, s: nat, t: nat)
    ensures Curve(g, s + t) as real <= 100.0 * (Pow(g, s) * Pow(g, t)) < Curve(g, s + t) as real + 1.0
    ensures Curve(g, 1) as real <= 100.0 * g < Curve(g, 1) as real + 1.0
  {
    PowAdds(g, s, t);
    PowOne(g);
  }

  lemma {:induction false} PowGrows(g: real, t: nat)
    requires Growth(g)
    ensures Pow(g, t) >= 1.0
    ensures Pow(g, t + 1) >= Pow(g, t) + 0.07
  {
    if t > 0 { PowGrows(g, t - 1); }
    var p := Pow(g, t);
    assert p >= 1.0 by {
      if t > 0 { assert p >= Pow(g, t - 1) + 0.07; }
    }
    assert (g - 1.07) * p >= 0.0;
    assert g * p == 1.07 * p + (g - 1.07) * p;
  }

  /** Every tick adds at least seven basis points. */
  lemma CurveStep(g: real, t: nat)
    requires Growth(g)
    ensures Curve(g, 0) == 100
    ensures Curve(g, t) >= 100
    ensures Curve(g, t + 1) >= Curve(g, t) + 7
  {
    PowGrows(g, t);
    assert 100.0 * Pow(g, t + 1) >= 100.0 * Pow(g, t) + 7.0;
  }

  lemma {:induction false} CurveMonotone(g: real, s: nat, t: nat)
    requires Growth(g) && s <= t
    ensures Curve(g, t) >= Curve(g, s) + 7 * (t - s)
    decreases t
  {
    if s < t {
      CurveMonotone(g, s, t - 1);
      CurveStep(g, t - 1);
    }
  }

  /** The first tick, counting from `t`, at which the curve has reached `target`. */
  function Search(g: real, target: int, t: nat): (r: nat)
    requires Growth(g)
    decreases target - Curve(g, t)
  {
    if Curve(g, t) >= target then t
    else
      assert Curve(g, t + 1) > Curve(g, t) by { CurveStep(g, t); }
      Search(g, target, t + 1)
  }

  /** The first tick of a flight at which the curve has reached `target`. */
  function FirstTick(g: real, target: int): nat
    requires Growth(g)
  {
    Search(g, target, 1)
  }

  lemma {:induction false} SearchIsLeast(g: real, target: int, t: nat)
    requires Growth(g)
    ensures var r := Search(g, target, t);
            t <= r && Curve(g, r) >= target && forall s: nat :: t <= s < r ==> Curve(g, s) < target
    decreases target - Curve(g, t)
  {
    if Curve(g, t) < target {
      CurveStep(g, t);
      SearchIsLeast(g, target, t + 1);
    }
  }

  /** FirstTick by what it means: a flight is at or past its `target` from that tick on and not before. */
  lemma FirstTickIff(g: real, target: int, t: nat)
    requires Growth(g) && t >= 1
    ensures FirstTick(g, target) >= 1
    ensures FirstTick(g, target) <= t <==> Curve(g, t) >= target
  {
    SearchIsLeast(g, target, 1);
    var r := FirstTick(g, target);
    if r <= t { CurveMonotone(g, r, t); }
  }

  /** A flight lasts at most max(1, ceil((crash - 100) / 7)) ticks. */
  lemma FirstTickBound(g: real, target: int)
    requires Growth(g) && target >= 100
    ensures FirstTick(g, target) <= if target <= 107 then 1 else (target - 100 + 6) / 7
  {
    var n := if target <= 107 then 1 else (target - 100 + 6) / 7;
    CurveStep(g, 0);
    CurveMonotone(g, 0, n);
    FirstTickIff(g, target, n);
  }

  /** A tick that starts below the crash point overshoots it by less than one growth factor. */
  lemma Overshoot(g: real, crash: int, t: nat)
    requires Growth(g) && crash >= 100
    requires t == 0 || Curve(g, t) < crash
    ensures Curve(g, t + 1) as real <= g * crash as real
  {
    var p := 100.0 * Pow(g, t);
    assert p <= crash as real by {
      if t > 0 { assert p < Curve(g, t) as real + 1.0; }
    }
    assert 100.0 * Pow(g, t + 1) == g * p;
    assert g * (crash as real - p) >= 0.0;
  }
}
