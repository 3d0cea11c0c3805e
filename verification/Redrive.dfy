/**
 Back-off delays over real numbers: the redrive delay of a delivery whose
 queries keep failing, and the retry delay inside one watch.
 */
module Redrive {
  datatype Policy = Policy(base: real, max: real, jitter: real)

  /** What the policy's own constructor demands. */
  predicate PolicyOk(p: Policy) {
    0.0 < p.base <= p.max && 0.0 <= p.jitter
  }

  function Min(a: real, b: real): real {
    if a <= b then a else b
  }

  function Max(a: real, b: real): real {
    if a <= b then b else a
  }

  /** A random value clamped to the unit interval. */
  function Clamp(random: real): real {
    Max(0.0, Min(1.0, random))
  }

  function Pow2(n: nat): (r: real)
    ensures r >= 1.0
  {
    if n == 0 then 1.0 else 2.0 * Pow2(n - 1)
  }

  /** The largest exponent used. */
  const CAP: nat := 31

  function Exponent(count: nat): nat {
    if count <= 1 then 0 else if count - 1 >= CAP then CAP else count - 1
  }

  function Base(p: Policy, exponent: nat): real {
    Min(p.max, p.base * Pow2(exponent))
  }

  function PreviousBase(p: Policy, exponent: nat): real {
    if exponent == 0 then 0.0 else Base(p, exponent - 1)
  }

  function Clip(max: real, previous: real, amount: real): real {
    Min(max, Max(0.000001, Max(previous, amount)))
  }

  /** The longest wait a base allows. */
  function Full(base: real, jitter: real): real {
    base * (1.0 + jitter)
  }

  function Amount(base: real, jitter: real, u: real): real {
    base + base * jitter * u
  }

  /** The delay from the two bases and the clamped draw: never less than the previous count could have waited. */
  function DelayOf(max: real, jitter: real, previous: real, base: real, u: real): real {
    Clip(max, Min(max, Full(previous, jitter)), Amount(base, jitter, u))
  }

  /** `ChannelDeliveryRedrivePolicy.delay`. */
  function Delay(p: Policy, count: nat, random: real): real {
    var e := Exponent(count);
    DelayOf(p.max, p.jitter, PreviousBase(p, e), Base(p, e), Clamp(random))
  }

  lemma DelayBounds(p: Policy, count: nat, random: real)
    requires PolicyOk(p)
    ensures 0.0 < Delay(p, count, random) <= p.max
  {
  }

  lemma Scale(a: real, b: real, k: real)
    requires a <= b && 0.0 <= k
    ensures a * k <= b * k
  {
  }

  lemma BaseGrows(p: Policy, e: nat)
    requires PolicyOk(p)
    ensures 0.0 < Base(p, e) <= Base(p, e + 1)
    ensures 0.0 <= PreviousBase(p, e) <= Base(p, e)
  {
    var x := p.base * Pow2(e);
    Scale(1.0, Pow2(e), p.base);
    assert p.base * Pow2(e + 1) == 2.0 * x;
    if e > 0 {
      Scale(1.0, Pow2(e - 1), p.base);
      assert x == 2.0 * (p.base * Pow2(e - 1));
    }
  }

  /** A draw adds at most the full jitter. */
  lemma JitterRange(b: real, j: real, u: real)
    requires 0.0 <= b && 0.0 <= j && 0.0 <= u <= 1.0
    ensures b <= Amount(b, j, u) <= Full(b, j)
  {
    Scale(0.0, b, j);
    Scale(0.0, u, b * j);
    Scale(u, 1.0, b * j);
  }

  lemma FullGrows(b0: real, b1: real, j: real)
    requires b0 <= b1 && 0.0 <= j
    ensures Full(b0, j) <= Full(b1, j)
  {
    Scale(b0, b1, j);
  }

  lemma ClipGrows(max: real, full0: real, amount0: real, full1: real, amount1: real)
    requires full0 <= full1 && amount0 <= full1
    ensures Clip(max, Min(max, full0), amount0) <= Clip(max, Min(max, full1), amount1)
  {
  }

  lemma DelayOfGrows(max: real, j: real, b0: real, b1: real, b2: real, u1: real, u2: real)
    requires 0.0 <= j && 0.0 <= b0 <= b1 && 0.0 <= u1 <= 1.0
    ensures DelayOf(max, j, b0, b1, u1) <= DelayOf(max, j, b1, b2, u2)
  {
    FullGrows(b0, b1, j);
    JitterRange(b1, j, u1);
    ClipGrows(max, Full(b0, j), Amount(b1, j, u1), Full(b1, j), Amount(b2, j, u2));
  }

  /** Below the exponent cap the delay never decreases from one count to the next, whatever the two draws are. */
  lemma DelaysGrow(p: Policy, count: nat, r1: real, r2: real)
    requires PolicyOk(p) && 1 <= count <= CAP
    ensures Delay(p, count, r1) <= Delay(p, count + 1, r2)
  {
    var e := Exponent(count);
    BaseGrows(p, e);
    DelayOfGrows(p.max, p.jitter, PreviousBase(p, e), Base(p, e), Base(p, e + 1), Clamp(r1), Clamp(r2));
  }

  /** At the cap the draw no longer matters; `half` is the uncapped base one count earlier. */
  predicate SettledAt(max: real, half: real, j: real) {
    j == 0.0
    || 2.0 * half >= max
    || Full(half, j) >= max
    || max <= 0.000001
    || Full(2.0 * half, j) <= 0.000001
  }

  /** The base one count before the cap, before it is bounded. */
  function Half(p: Policy): real {
    p.base * Pow2(CAP - 1)
  }

  lemma HalfPositive(p: Policy)
    requires PolicyOk(p)
    ensures Half(p) > 0.0
  {
    Scale(1.0, Pow2(CAP - 1), p.base);
  }

  predicate Settled(p: Policy) {
    SettledAt(p.max, Half(p), p.jitter)
  }

  /** The delay at the cap. */
  function CapDelay(max: real, half: real, j: real, u: real): real {
    DelayOf(max, j, Min(max, half), Min(max, 2.0 * half), u)
  }

  lemma CapBases(p: Policy, e: nat)
    requires e == CAP
    ensures PreviousBase(p, e) == Min(p.max, Half(p)) && Base(p, e) == Min(p.max, 2.0 * Half(p))
  {
    assert Pow2(e) == 2.0 * Pow2(e - 1);
    assert p.base * (2.0 * Pow2(e - 1)) == 2.0 * (p.base * Pow2(e - 1));
  }

  lemma CapDelayIs(p: Policy, count: nat, random: real)
    requires count > CAP
    ensures Delay(p, count, random) == CapDelay(p.max, Half(p), p.jitter, Clamp(random))
  {
    CapBases(p, Exponent(count));
  }

  lemma ClipSaturates(max: real, previous: real, amount: real)
    ensures max <= 0.000001 || max <= previous || max <= amount ==> Clip(max, previous, amount) == max
    ensures previous <= 0.000001 && amount <= 0.000001 ==> Clip(max, previous, amount) == Min(max, 0.000001)
  {
  }

  lemma CapIsConstant(max: real, half: real, j: real, u1: real, u2: real)
    requires 0.0 < half && 0.0 < max && 0.0 <= j && 0.0 <= u1 <= 1.0 && 0.0 <= u2 <= 1.0
    requires SettledAt(max, half, j)
    ensures CapDelay(max, half, j, u1) == CapDelay(max, half, j, u2)
  {
    if j == 0.0 {
      CapWithoutJitter(max, half, u1);
      CapWithoutJitter(max, half, u2);
    } else {
      CapValue(max, half, j, u1);
      CapValue(max, half, j, u2);
    }
  }

  lemma CapWithoutJitter(max: real, half: real, u: real)
    ensures CapDelay(max, half, 0.0, u) == CapDelay(max, half, 0.0, 0.0)
  {
    assert Min(max, 2.0 * half) * 0.0 * u == 0.0;
  }

  lemma CapValue(max: real, half: real, j: real, u: real)
    requires 0.0 < half && 0.0 < max && 0.0 < j && 0.0 <= u <= 1.0
    requires SettledAt(max, half, j)
    ensures CapDelay(max, half, j, u)
         == if 2.0 * half >= max || Full(half, j) >= max then max else Min(max, 0.000001)
  {
    var h, b := Min(max, half), Min(max, 2.0 * half);
    JitterRange(b, j, u);
    FullGrows(half, 2.0 * half, j);
    ClipSaturates(max, Min(max, Full(h, j)), Amount(b, j, u));
    if half >= max {
      CapAbove(max, half);
    } else {
      assert h == half;
    }
  }

  lemma CapAbove(max: real, half: real)
    requires 0.0 < max <= half
    ensures Min(max, 2.0 * half) == max
  {
  }

  lemma CapDependsOnDraw(max: real, half: real, j: real)
    requires 0.0 < half && 0.0 < max && 0.0 < j && !SettledAt(max, half, j)
    ensures CapDelay(max, half, j, 1.0) > CapDelay(max, half, j, 0.0)
  {
    DrawEnds(2.0 * half, j);
    TwiceFull(half, j);
    assert Min(max, half) == half && Min(max, 2.0 * half) == 2.0 * half;
    CapLess(max, Full(half, j), 2.0 * half);
  }

  lemma DrawEnds(b: real, j: real)
    requires 0.0 < b && 0.0 < j
    ensures Amount(b, j, 0.0) == b && Amount(b, j, 1.0) == Full(b, j)
  {
  }

  lemma TwiceFull(half: real, j: real)
    requires 0.0 < half && 0.0 < j
    ensures 0.0 < half < Full(half, j) && Full(2.0 * half, j) == 2.0 * Full(half, j)
  {
    assert half * j > 0.0;
    assert half * (1.0 + j) == half + half * j;
    assert 2.0 * half * (1.0 + j) == 2.0 * half + 2.0 * (half * j);
  }

  lemma CapLess(max: real, full: real, b: real)
    requires 0.0 < b < max && 0.0 < full < max && max > 0.000001 && 2.0 * full > 0.000001 && b < 2.0 * full
    ensures Clip(max, Min(max, full), 2.0 * full) > Clip(max, Min(max, full), b)
  {
  }

  /** The delays never decrease, for every count from 1 on and all draws. */
  ghost predicate NeverDecreases(p: Policy) {
    forall count: nat, next: nat, r1: real, r2: real | 1 <= count && next == count + 1 :: Delay(p, count, r1) <= Delay(p, next, r2)
  }

  lemma SettledNeverDecreases(p: Policy)
    requires PolicyOk(p) && Settled(p)
    ensures NeverDecreases(p)
  {
    HalfPositive(p);
    forall count: nat, next: nat, r1: real, r2: real | 1 <= count && next == count + 1
      ensures Delay(p, count, r1) <= Delay(p, next, r2)
    {
      if count <= CAP {
        DelaysGrow(p, count, r1, r2);
      } else {
        CapDelayIs(p, count, r1);
        CapDelayIs(p, count + 1, r2);
        CapIsConstant(p.max, Half(p), p.jitter, Clamp(r1), Clamp(r2));
      }
    }
  }

  lemma UnsettledDecreases(p: Policy)
    requires PolicyOk(p) && !Settled(p)
    ensures Delay(p, CAP + 1, 1.0) > Delay(p, CAP + 2, 0.0)
  {
    HalfPositive(p);
    CapDependsOnDraw(p.max, Half(p), p.jitter);
    CapDelayIs(p, CAP + 1, 1.0);
    CapDelayIs(p, CAP + 2, 0.0);
    assert Clamp(1.0) == 1.0 && Clamp(0.0) == 0.0;
  }

  /** Beyond the exponent cap they never decrease exactly when the draw no longer matters there. */
  lemma NeverDecreasesExactly(p: Policy)
    requires PolicyOk(p)
    ensures NeverDecreases(p) <==> Settled(p)
  {
    if Settled(p) {
      SettledNeverDecreases(p);
    } else {
      UnsettledDecreases(p);
      var count: nat, next: nat := CAP + 1, CAP + 2;
      assert !(Delay(p, count, 1.0) <= Delay(p, next, 0.0));
    }
  }

  /** `WatchRetryPolicy.delay`. */
  function RetryDelay(p: Policy, attempt: nat, random: real): real {
    var base := Min(p.max, p.base * Pow2(if attempt == 0 then 0 else attempt - 1));
    Min(p.max, base + base * p.jitter * Clamp(random))
  }
}
