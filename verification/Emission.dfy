/** The block reward schedule. */
module Emission {

  /** Blocks in five years at one every ten seconds. */
  const REWARD_PERIOD: nat := 5 * 365 * 24 * 60 * 60 / 10
  const REWARD_INIT_VALUE: nat := 8 * 100000000
  const INT64_MAX: int := 0x7FFF_FFFF_FFFF_FFFF

  /** The reward of the next period: a quarter less. */
  function Decayed(r: nat): nat
  {
    if r < 4 then r * 3 / 4 else r - r / 4
  }

  function PeriodReward(i: nat): nat
  {
    if i == 0 then REWARD_INIT_VALUE else Decayed(PeriodReward(i - 1))
  }

  /** `GetBlockReward` of a height. */
  function BlockReward(height: nat): nat
  {
    PeriodReward(height / REWARD_PERIOD)
  }

  lemma {:induction false} OnceZero(i: nat, j: nat)
    requires i <= j && PeriodReward(i) == 0
    ensures PeriodReward(j) == 0
    decreases j
  {
    if i < j { OnceZero(i, j - 1); }
  }

  /** The source's division rounds toward zero. */
  function Quotient(x: int, n: nat): int
    requires n > 0
  {
    if x >= 0 then x / n else -(-x / n)
  }

  method GetBlockReward(height: int) returns (result: int)
    ensures height >= 0 ==> result == BlockReward(height)
    ensures height < 0 ==> result == REWARD_INIT_VALUE
  {
    var periodIndex := Quotient(height, REWARD_PERIOD);
    result := REWARD_INIT_VALUE;
    var i := 0;
    while i < periodIndex
      invariant 0 <= i && (i <= periodIndex || (i == 0 && periodIndex < 0))
      invariant result == PeriodReward(i)
    {
      if result <= 0 {
        OnceZero(i, periodIndex);
        return 0;
      } else if result < 4 {
        result := result * 3 / 4;
      } else {
        result := result - result / 4;
      }
      i := i + 1;
    }
  }

  // ---- The schedule never rises and ends ----

  lemma {:induction false} PeriodsFall(i: nat, j: nat)
    requires i <= j
    ensures PeriodReward(j) <= PeriodReward(i)
    ensures PeriodReward(j) > 0 && i < j ==> PeriodReward(j) < PeriodReward(i)
    decreases j
  {
    if i < j { PeriodsFall(i, j - 1); }
  }

  lemma RewardNeverRises(g: nat, h: nat)
    requires g <= h
    ensures BlockReward(h) <= BlockReward(g)
  {
    DivMonotone(g, h, REWARD_PERIOD);
    PeriodsFall(g / REWARD_PERIOD, h / REWARD_PERIOD);
  }

  lemma DivMonotone(g: nat, h: nat, n: nat)
    requires g <= h && n > 0
    ensures g / n <= h / n
  {
    var d := g / n - h / n;
    assert n * (g / n) <= g < n * (g / n) + n && n * (h / n) <= h < n * (h / n) + n;
    assert n * d == n * (g / n) - n * (h / n) < n;
    MulSign(n, d);
  }

  lemma MulSign(p: nat, d: int)
    requires p > 0
    ensures d >= 1 ==> p * d >= p
    ensures d <= -1 ==> p * d <= 0 - p
  {
  }

  function Power2(k: nat): nat
  {
    if k == 0 then 1 else 2 * Power2(k - 1)
  }

  /** Three periods halve the reward, up to rounding. */
  lemma Halves(i: nat)
    ensures 2 * PeriodReward(i + 3) <= PeriodReward(i) + 4
  {
    var r0, r1, r2 := PeriodReward(i), PeriodReward(i + 1), PeriodReward(i + 2);
    assert 4 * r1 <= 3 * r0 + 3 && 4 * r2 <= 3 * r1 + 3 && 4 * PeriodReward(i + 3) <= 3 * r2 + 3;
  }

  lemma HalvedBound(before: int, now: int, power: nat, bound: int)
    requires 2 * now <= before && before * power <= bound
    ensures now * (2 * power) <= bound
  {
    assert (before - 2 * now) * power >= 0;
    assert now * (2 * power) == before * power - (before - 2 * now) * power;
  }

  lemma {:induction false} HalvedOften(k: nat)
    ensures (PeriodReward(3 * k) - 4) * Power2(k) <= REWARD_INIT_VALUE
  {
    if k > 0 {
      HalvedOften(k - 1);
      Halves(3 * (k - 1));
      assert 3 * (k - 1) + 3 == 3 * k;
      hide PeriodReward;
      HalvedBound(PeriodReward(3 * (k - 1)) - 4, PeriodReward(3 * k) - 4, Power2(k - 1), REWARD_INIT_VALUE);
    }
  }

  lemma {:induction false} StepsToZero(i: nat, k: nat)
    requires PeriodReward(i) <= k
    ensures PeriodReward(i + k) == 0
    decreases k
  {
    if k > 0 {
      PeriodsFall(i, i + 1);
      StepsToZero(i + 1, k - 1);
    }
  }

  lemma Power2Of30()
    ensures Power2(30) == 0x4000_0000
  {
    assert Power2(10) == 1024;
    assert Power2(20) == 1024 * 1024;
  }

  lemma SmallAfter90()
    ensures PeriodReward(90) <= 4
  {
    hide PeriodReward;
    HalvedOften(30);
    Power2Of30();
    MulSign(0x4000_0000, PeriodReward(90) - 4);
  }

  /** No block from the 94th period on has a reward. */
  lemma RewardEnds(height: nat)
    requires height >= 94 * REWARD_PERIOD
    ensures BlockReward(height) == 0
  {
    hide PeriodReward, REWARD_PERIOD;
    SmallAfter90();
    StepsToZero(90, 4);
    PeriodPositive();
    DivMonotone(94 * REWARD_PERIOD, height, REWARD_PERIOD);
    DivIs(94 * REWARD_PERIOD, REWARD_PERIOD, 94, 0);
    OnceZero(94, height / REWARD_PERIOD);
  }

  // ---- Total emission ----

  function PeriodTotal(k: nat): nat
  {
    if k == 0 then 0 else PeriodTotal(k - 1) + PeriodReward(k - 1)
  }

  /** All rewards of the first n blocks. */
  function Emitted(n: nat): nat
  {
    if n == 0 then 0 else Emitted(n - 1) + BlockReward(n - 1)
  }

  /** What is left to come never exceeds seven times the current reward per block of a period. */
  lemma {:induction false} PeriodBudget(k: nat)
    ensures PeriodTotal(k) + 7 * PeriodReward(k) <= 7 * REWARD_INIT_VALUE
  {
    if k > 0 { PeriodBudget(k - 1); }
  }

  /** The periods' rewards add up to four times what the reward has lost, within three coins a period. */
  lemma {:induction false} FourfoldTotal(k: nat)
    ensures -3 * k <= PeriodTotal(k) - 4 * (REWARD_INIT_VALUE - PeriodReward(k)) <= 3 * k
  {
    if k > 0 { FourfoldTotal(k - 1); }
  }

  lemma NextBlock(n: nat, p: nat)
    requires p > 0
    ensures n % p + 1 < p ==> (n + 1) / p == n / p && (n + 1) % p == n % p + 1
    ensures n % p + 1 == p ==> (n + 1) / p == n / p + 1 && (n + 1) % p == 0
  {
    var q, r := n / p, n % p;
    assert n == p * q + r;
    if r + 1 < p {
      DivIs(n + 1, p, q, r + 1);
    } else {
      assert n + 1 == p * (q + 1);
      DivIs(n + 1, p, q + 1, 0);
    }
  }

  lemma DivIs(n: nat, p: nat, q: nat, r: nat)
    requires r < p && n == p * q + r
    ensures n / p == q && n % p == r
  {
    var d := n / p - q;
    assert p * d == r - n % p;
    MulSign(p, d);
  }

  /** Full periods at their rate, and the blocks begun at the current one. */
  lemma {:induction false} EmittedIs(n: nat)
    ensures Emitted(n) == REWARD_PERIOD * PeriodTotal(n / REWARD_PERIOD) + n % REWARD_PERIOD * BlockReward(n)
  {
    hide REWARD_PERIOD;
    if n == 0 {
      EmittedNothing();
    } else {
      var p := REWARD_PERIOD;
      var m := n - 1;
      EmittedIs(m);
      PeriodPositive();
      NextBlock(m, p);
      EmittedStep(m / p, m % p, p);
    }
  }

  lemma PeriodPositive()
    ensures REWARD_PERIOD > 0
  {
  }

  lemma EmittedNothing()
    ensures REWARD_PERIOD * PeriodTotal(0 / REWARD_PERIOD) + 0 % REWARD_PERIOD * BlockReward(0) == 0
  {
  }

  lemma EmittedStep(q: nat, r: nat, p: nat)
    ensures p * PeriodTotal(q) + r * PeriodReward(q) + PeriodReward(q) == p * PeriodTotal(q) + (r + 1) * PeriodReward(q)
    ensures r + 1 == p ==> p * PeriodTotal(q) + (r + 1) * PeriodReward(q) == p * PeriodTotal(q + 1)
  {
    hide PeriodReward;
  }

  lemma BudgetInBlocks(p: nat, total: nat, rate: nat, begun: nat, budget: nat)
    requires begun <= p && total + 7 * rate <= budget
    ensures p * total + begun * rate <= p * budget
  {
    assert begun * rate <= p * rate;
    assert p * total + p * rate == p * (total + rate) <= p * budget;
  }

  /** Bounded emission: over any number of blocks, and within 64 bits. */
  lemma EmissionBounded(n: nat)
    ensures Emitted(n) <= REWARD_PERIOD * (7 * REWARD_INIT_VALUE) <= INT64_MAX
  {
    assert REWARD_PERIOD * (7 * REWARD_INIT_VALUE) <= INT64_MAX;
    hide PeriodReward, PeriodTotal, REWARD_PERIOD, REWARD_INIT_VALUE, Emitted;
    PeriodPositive();
    EmittedIs(n);
    var k := n / REWARD_PERIOD;
    PeriodBudget(k);
    BudgetInBlocks(REWARD_PERIOD, PeriodTotal(k), PeriodReward(k), n % REWARD_PERIOD, 7 * REWARD_INIT_VALUE);
  }
}
