/** Which stakes a payout cannot overflow on. settleCashout multiplies in int64 (internal/engine/engine.go:305),
    and the engine takes any stake, so the bound is on the stake and on how high a flight can go. */
module Stakes {
  import opened GoInt
  import opened Rounds
  import opened Multiplier
  import Fair
  import Odds

  const HIGHEST_CRASH := 99 * Fair.ROLLS + 1

  /** Where the highest flight crashes: the top of every multiplier that can be paid. */
  function Top(g: real): int
    requires Growth(g)
  {
    Curve(g, FirstTick(g, HIGHEST_CRASH))
  }

  lemma FirstTickMonotone(g: real, low: int, high: int)
    requires Growth(g) && low <= high
    ensures FirstTick(g, low) <= FirstTick(g, high)
  {
    FirstTickIff(g, high, 1);
    FirstTickIff(g, high, FirstTick(g, high));
    FirstTickIff(g, low, FirstTick(g, high));
  }

  lemma HighestRoll()
    ensures Fair.SampleCrash(Fair.ROLLS - 1) == HIGHEST_CRASH
  {
    assert (Fair.ROLLS - 1) % Fair.ROLLS == Fair.ROLLS - 1;
  }

  /** A target is paid on some roll if and only if it is at most Top. */
  lemma PayableIff(g: real, target: int)
    requires Growth(g)
    ensures Odds.PayingRolls(g, target) != {} <==> target <= Top(g)
  {
    var rolls, last := Odds.PayingRolls(g, target), Fair.ROLLS - 1;
    var top := FirstTick(g, HIGHEST_CRASH);
    FirstTickIff(g, HIGHEST_CRASH, 1);
    FirstTickIff(g, target, top);
    HighestRoll();
    if target <= Top(g) {
      assert last in rolls;
    } else {
      forall n | n in rolls ensures false {
        FirstTickMonotone(g, Fair.SampleCrash(n), HIGHEST_CRASH);
      }
    }
  }

  /** Wherever a flight stands, on the way up or crashed, it is no higher than Top. */
  lemma WithinTop(g: real, crash: int, t: nat)
    requires Growth(g) && crash <= HIGHEST_CRASH && t <= FirstTick(g, crash)
    ensures 100 <= Curve(g, t) <= Top(g)
  {
    FirstTickMonotone(g, crash, HIGHEST_CRASH);
    CurveMonotone(g, t, FirstTick(g, HIGHEST_CRASH));
    CurveStep(g, t);
  }

  // ---------------------------------------------------------------- safe stakes

  /** No payout of the stake wraps around. */
  ghost predicate Fits(g: real, amount: int)
    requires Growth(g)
  {
    amount * Top(g) < INT64_LIMIT
  }

  lemma FitsBelowTop(g: real, amount: nat, mult: nat)
    requires Growth(g) && Fits(g, amount) && mult <= Top(g)
    ensures amount * mult < INT64_LIMIT
  {
    ScaleUp(amount, mult, Top(g));
  }

  /** The least target of at least 1.01 whose payout on the stake wraps around. */
  function WrappingTarget(amount: int): int
    requires amount > 0
  {
    var least := (INT64_LIMIT + amount - 1) / amount;
    if least < 101 then 101 else least
  }

  lemma WrappingTargetIsLeast(amount: int, top: int)
    requires amount > 0 && top >= 101 && amount * top >= INT64_LIMIT
    ensures var m := WrappingTarget(amount);
            101 <= m <= top && amount * m >= INT64_LIMIT && (m > 101 ==> amount * (m - 1) < INT64_LIMIT)
  {
    var least := (INT64_LIMIT + amount - 1) / amount;
    Fair.MulDiv(INT64_LIMIT + amount - 1, amount, least);
    Fair.MulDiv(INT64_LIMIT + amount - 1, amount, least + 1);
    assert amount * least >= INT64_LIMIT && amount * (least - 1) < INT64_LIMIT;
    if least < 101 {
      ScaleUp(amount, least, 101);
    } else if least > top {
      ScaleUp(amount, top, least - 1);
    }
  }

  /** A product just past the limit wraps to a negative number, and no product pays more than a hundredth of
      the limit. */
  lemma WrappedPayout(amount: int, mult: int)
    requires amount > 0 && mult >= 101 && amount * mult >= INT64_LIMIT
    requires mult > 101 ==> amount * (mult - 1) < INT64_LIMIT
    ensures Payout(amount, mult) < amount
  {
    var x := amount * mult;
    assert Int64(x) < INT64_LIMIT;
    if 100 * amount < INT64_LIMIT {
      assert x == amount * (mult - 1) + amount;
      assert x < 2 * INT64_LIMIT;
      assert Int64(x) == x - 2 * INT64_LIMIT;
    }
  }

  /** The stakes that every payable multiplier of at least 1.01 returns are exactly the stakes that fit. */
  lemma StakeReturnedIff(g: real, amount: int)
    requires Growth(g) && amount > 0
    ensures Fits(g, amount) <==> forall mult :: 101 <= mult <= Top(g) ==> Payout(amount, mult) >= amount
    ensures !Fits(g, amount) ==> var m := WrappingTarget(amount); 101 <= m <= Top(g) && Payout(amount, m) < amount
  {
    TopIsHigh(g);
    if Fits(g, amount) {
      forall mult | 101 <= mult <= Top(g) ensures Payout(amount, mult) >= amount {
        FitsBelowTop(g, amount, mult);
        PayoutMonotone(amount, mult, mult);
      }
    } else {
      WrappingTargetIsLeast(amount, Top(g));
      WrappedPayout(amount, WrappingTarget(amount));
    }
  }

  lemma TopIsHigh(g: real)
    requires Growth(g)
    ensures Top(g) >= HIGHEST_CRASH
  {
    FirstTickIff(g, HIGHEST_CRASH, 1);
    FirstTickIff(g, HIGHEST_CRASH, FirstTick(g, HIGHEST_CRASH));
  }

  // ---------------------------------------------------------------- the 32-bit column

  lemma NarrowedProduct(amount: int, mult: int, narrow: int)
    requires amount > 0 && 0 < mult && amount * mult < INT64_LIMIT
    requires narrow == Int32(mult) && narrow != mult
    ensures Payout(amount, narrow) < Payout(amount, mult)
  {
    NarrowedBy(mult, narrow);
    PayoutExactIff(amount, mult);
    if narrow >= 0 {
      ScaleDown(amount, narrow, mult);
      ScaleUp(amount, narrow, mult);
      PayoutExactIff(amount, narrow);
      LowerHundredths(amount * narrow, amount * mult);
    } else {
      ScaleUp(mult, 1, amount);
      StakeIsSmall(amount, mult);
      NegativePayout(amount, narrow);
      LowerHundredths(0, amount * mult);
    }
  }

  lemma NarrowedBy(mult: int, narrow: int)
    requires 0 < mult && narrow == Int32(mult) && narrow != mult
    ensures -0x8000_0000 <= narrow <= mult - 0x1_0000_0000 && mult >= 0x8000_0000
  {
    Int32Exact(mult);
  }

  lemma StakeIsSmall(amount: int, mult: int)
    requires amount > 0 && mult >= 0x8000_0000 && amount * mult < INT64_LIMIT
    ensures amount <= 0x1_0000_0000 && amount * mult >= 0x8000_0000
  {
    ScaleUp(amount, 0x8000_0000, mult);
  }

  lemma LowerHundredths(low: nat, high: nat)
    requires low + 100 <= high
    ensures low / 100 < high / 100
  {
  }

  lemma ScaleDown(amount: int, narrow: int, mult: int)
    requires amount > 0 && narrow <= mult - 0x1_0000_0000
    ensures amount * narrow <= amount * mult - 0x1_0000_0000
  {
    assert amount * narrow <= amount * (mult - 0x1_0000_0000) == amount * mult - amount * 0x1_0000_0000;
  }

  lemma NegativePayout(amount: int, narrow: int)
    requires 0 < amount <= 0x1_0000_0000 && -0x8000_0000 <= narrow < 0
    ensures Payout(amount, narrow) <= 0
  {
    ScaleUp(amount, -narrow, 0x8000_0000);
    ScaleUp(0x8000_0000, amount, 0x1_0000_0000);
    ScaleUp(amount, 1, -narrow);
    Negated(amount, narrow);
    NegativeQuotient(amount * narrow);
  }

  lemma Negated(amount: int, narrow: int)
    ensures amount * -narrow == -(amount * narrow)
  {
  }

  lemma NegativeQuotient(x: int)
    requires -INT64_LIMIT <= x < 0
    ensures Quot(Int64(x), 100) <= 0
  {
    assert (x + INT64_LIMIT) % (2 * INT64_LIMIT) == x + INT64_LIMIT;
  }

  /** The payout column and the multiplier column of a bet row tell the same story if and only if the multiplier
      is below 2^31: its column is 32 bits wide. */
  lemma NarrowedPayoutIff(g: real, amount: int, mult: int)
    requires Growth(g) && amount > 0 && Fits(g, amount) && 0 < mult <= Top(g)
    ensures Payout(amount, Int32(mult)) == Payout(amount, mult) <==> mult < INT32_LIMIT
  {
    Int32Exact(mult);
    if mult >= INT32_LIMIT {
      FitsBelowTop(g, amount, mult);
      NarrowedProduct(amount, mult, Int32(mult));
    }
  }

  // ---------------------------------------------------------------- in plain numbers

  /** Stakes of up to twenty million credits fit. */
  const MAX_STAKE := 20_000_000

  lemma TopInNumbers(g: real)
    requires Growth(g)
    ensures Top(g) <= 456_071_410_248
  {
    var t := FirstTick(g, HIGHEST_CRASH);
    FirstTickIff(g, HIGHEST_CRASH, 1);
    if t > 1 { FirstTickIff(g, HIGHEST_CRASH, t - 1); }
    Overshoot(g, HIGHEST_CRASH, t - 1);
    BelowGrowth(g, HIGHEST_CRASH, Top(g));
  }

  lemma BelowGrowth(g: real, crash: int, top: int)
    requires Growth(g) && crash > 0 && top as real <= g * crash as real
    ensures top as real < 1.0726 * crash as real
  {
    assert (1.0726 - g) * crash as real > 0.0;
  }

  lemma MaxStakeFits(g: real, amount: int)
    requires Growth(g) && 0 < amount <= MAX_STAKE
    ensures Fits(g, amount)
  {
    TopInNumbers(g);
    TopIsHigh(g);
    ScaleUp(amount, Top(g), 456_071_410_248);
    ScaleUp(456_071_410_248, amount, MAX_STAKE);
  }
}
