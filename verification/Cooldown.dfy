/** The cooldown schedule of one provider (internal/provider/failover/state.go).

    Durations are Go int64 values, so the multiplication in the growth loop
    wraps around. The guard of that loop is meant to turn every overflow into
    the configured maximum; this module says for exactly which factors it does. */
module Cooldown {
  import opened Common

  const TWO63: int := 0x8000_0000_0000_0000
  const TWO64: int := 0x1_0000_0000_0000_0000

  /** Two's-complement reduction to 64 bits: the result of a Go int64 operation. */
  function Wrap(x: int): (r: int)
    ensures -TWO63 <= r < TWO63
  {
    (x + TWO63) % TWO64 - TWO63
  }

  predicate PositiveDuration(d: int) {
    0 < d < TWO63
  }

  function Pow(b: nat, e: nat): nat {
    if e == 0 then 1 else b * Pow(b, e - 1)
  }

  /** A factor below one is treated as one. */
  function Effective(factor: int): int {
    if factor < 1 then 1 else factor
  }

  /** What n rounds of the growth loop do to a cooldown, wrap-around included. */
  function Grow(cooldown: int, max: int, factor: int, n: nat): int
    decreases n
  {
    if n == 0 then cooldown
    else
      var next := Wrap(cooldown * factor);
      if next > max || next < cooldown then max else Grow(next, max, factor, n - 1)
  }

  /** The cooldown of the k-th consecutive trip as the code computes it. */
  function Applied(base: int, max: int, factor: int, k: nat): int
    requires k >= 1
  {
    var c := Grow(base, max, Effective(factor), k - 1);
    if max > 0 && c > max then max else c
  }

  /** The documented schedule, over mathematical integers. */
  function Ideal(base: nat, max: nat, factor: int, k: nat): int
    requires k >= 1
  {
    Min(max, base * Pow(Effective(factor), k - 1))
  }

  datatype Policy = Policy(base: int, max: int, factor: int)

  /** The value of a health record. An `until` of None stands for the zero time:
      never tripped, or recovered since. */
  datatype Health = Health(fails: nat, cooldown: int, until: Option<int>)

  const FRESH := Health(0, 0, None)

  function Tripped(p: Policy, h: Health, now: int): Health {
    var c := Applied(p.base, p.max, p.factor, h.fails + 1);
    Health(h.fails + 1, c, Some(now + c))
  }

  predicate Healthy(h: Health) {
    h.until.None?
  }

  predicate ShouldProbe(h: Health, now: int) {
    h.until.Some? && now >= h.until.value
  }

  /** The health record of one chain entry, updated in place. */
  class ProviderState {
    const policy: Policy
    var consecutiveFails: nat
    var currentCooldown: int
    var trippedUntil: Option<int>

    function View(): Health
      reads this
    {
      Health(consecutiveFails, currentCooldown, trippedUntil)
    }

    constructor (policy: Policy)
      ensures this.policy == policy && View() == FRESH
    {
      this.policy := policy;
      consecutiveFails, currentCooldown, trippedUntil := 0, 0, None;
    }

    method Trip(now: int)
      modifies this
      ensures View() == Tripped(policy, old(View()), now)
    {
      var base, max := policy.base, policy.max;
      consecutiveFails := consecutiveFails + 1;
      var cooldown := base;
      var f := policy.factor;
      if f < 1 {
        f := 1;
      }
      var i := 1;
      while i < consecutiveFails
        invariant 1 <= i <= consecutiveFails
        invariant Grow(base, max, f, consecutiveFails - 1) == Grow(cooldown, max, f, consecutiveFails - i)
      {
        var next := Wrap(cooldown * f);
        if next > max || next < cooldown { // overflow guard
          cooldown := max;
          break;
        }
        cooldown := next;
        i := i + 1;
      }
      if max > 0 && cooldown > max {
        cooldown := max;
      }
      currentCooldown := cooldown;
      trippedUntil := Some(now + cooldown);
    }

    method Recover()
      modifies this
      ensures View() == FRESH
    {
      consecutiveFails, currentCooldown, trippedUntil := 0, 0, None;
    }
  }

  // ----- The schedule is the documented one, for exactly the factors up to 3 -----

  lemma WrapOnce(x: int)
    requires TWO63 <= x < TWO64 + TWO63
    ensures Wrap(x) == x - TWO64
  {
  }

  lemma PowPositive(b: nat, e: nat)
    requires b >= 1
    ensures Pow(b, e) >= 1
  {
  }

  lemma {:induction false} ScaleAtLeast(c: nat, f: nat, n: nat)
    requires f >= 1
    ensures c * Pow(f, n) >= c
  {
    PowPositive(f, n);
    assert c * Pow(f, n) >= c * 1;
  }

  /** One round of the loop with a factor of at most 3: it either multiplies
      exactly or the guard fires, and it fires only when the product exceeds max. */
  lemma GuardSound(c: int, max: int, f: int)
    requires PositiveDuration(c) && PositiveDuration(max) && 1 <= f <= 3
    ensures var next := Wrap(c * f);
            if c * f <= max then next == c * f && next >= c else next > max || next < c
  {
  }

  lemma {:induction false} GrowIsCapped(c: int, max: int, f: int, n: nat)
    requires PositiveDuration(c) && PositiveDuration(max) && 1 <= f <= 3
    ensures Min(max, Grow(c, max, f, n)) == Min(max, c * Pow(f, n))
    decreases n
  {
    if n > 0 {
      GuardSound(c, max, f);
      var p := c * f;
      assert c * Pow(f, n) == p * Pow(f, n - 1) by {
        assert Pow(f, n) == f * Pow(f, n - 1);
        MulAssoc(c, f, Pow(f, n - 1));
      }
      if p <= max {
        GrowIsCapped(p, max, f, n - 1);
      } else {
        ScaleAtLeast(p, f, n - 1);
      }
    }
  }

  lemma MulAssoc(a: int, b: int, c: int)
    ensures a * (b * c) == (a * b) * c
  {
  }

  /** The record after a trip: one more failure, unhealthy from now until exactly the
      cooldown later, and for factors up to 3 that is the documented one. */
  lemma TrippedReads(p: Policy, h: Health, now: int)
    ensures var t := Tripped(p, h, now);
            && t.fails == h.fails + 1 && !Healthy(t)
            && (forall later :: ShouldProbe(t, later) <==> later >= now + t.cooldown)
            && (PositiveDuration(p.base) && PositiveDuration(p.max) && p.factor <= 3 ==>
                  t.cooldown == Min(p.max, p.base * Pow(if p.factor < 1 then 1 else p.factor, h.fails)))
  {
    if PositiveDuration(p.base) && PositiveDuration(p.max) && p.factor <= 3 {
      AppliedIsIdeal(p.base, p.max, p.factor, h.fails + 1);
    }
  }

  /** For factors up to 3 the wrapped loop computes min(max, base * factor^(k-1)). */
  lemma AppliedIsIdeal(base: int, max: int, factor: int, k: nat)
    requires PositiveDuration(base) && PositiveDuration(max) && factor <= 3 && k >= 1
    ensures Applied(base, max, factor, k) == Ideal(base, max, factor, k)
  {
    GrowIsCapped(base, max, Effective(factor), k - 1);
  }

  /** The base at which a factor of 4 or more slips through the guard: the
      product overflows 2^64 and lands between the base and the largest int64. */
  function EvadingBase(factor: int): int
    requires factor >= 4
  {
    (TWO64 + factor - 2) / (factor - 1)
  }

  lemma QuotientBelow(c: int, g: int, m: int)
    requires g > 0 && c * g < m * g
    ensures c < m
  {
  }

  lemma EvadingBaseBounds(factor: int)
    requires 4 <= factor < TWO63
    ensures var c := EvadingBase(factor);
            0 < c < TWO63 && TWO64 + c <= c * factor < TWO64 + TWO63 - 1
  {
    var g := factor - 1;
    var c := EvadingBase(factor);
    var q := TWO64 + g - 1;
    assert c == q / g && q == c * g + q % g;
    assert c * factor == c * g + c;
    assert TWO64 <= c * g <= q;
    if g >= TWO63 - 8 {
      QuotientBelow(c, g, 4);
      QuotientBelow(2, g, c);
    } else if g >= 8 {
      SmallSum(c, g);
    }
  }

  lemma SmallSum(c: int, g: int)
    requires 8 <= g < TWO63 - 8 && c * g <= TWO64 + g - 1
    ensures c + g < TWO63
  {
  }

  /** The overflow guard is right for exactly the factors up to 3: the loop
      yields min(max, base * factor^(k-1)) on every positive base and maximum
      and every trip count if and only if the factor is at most 3. */
  lemma GuardIsExactUpToThree(factor: int)
    requires factor < TWO63
    ensures (forall base: int, max: int, k: nat ::
               PositiveDuration(base) && PositiveDuration(max) && k >= 1 ==>
                 Applied(base, max, factor, k) == Ideal(base, max, factor, k))
            <==> factor <= 3
  {
    if factor <= 3 {
      forall base: int, max: int, k: nat | PositiveDuration(base) && PositiveDuration(max) && k >= 1
        ensures Applied(base, max, factor, k) == Ideal(base, max, factor, k)
      {
        AppliedIsIdeal(base, max, factor, k);
      }
    } else {
      var base, max := EvadingBase(factor), TWO63 - 1;
      GuardMissesOverflow(factor);
      assert Applied(base, max, factor, 2) != Ideal(base, max, factor, 2);
    }
  }

  /** Concretely: two consecutive trips from the evading base leave a cooldown
      below the maximum although the documented schedule has reached it. */
  lemma GuardMissesOverflow(factor: int)
    requires 4 <= factor < TWO63
    ensures var base := EvadingBase(factor);
            PositiveDuration(base) &&
            Applied(base, TWO63 - 1, factor, 2) < TWO63 - 1 == Ideal(base, TWO63 - 1, factor, 2)
  {
    var c, max := EvadingBase(factor), TWO63 - 1;
    EvadingBaseBounds(factor);
    WrapOnce(c * factor);
    assert Grow(c, max, factor, 1) == Wrap(c * factor);
    assert Pow(factor, 1) == factor * Pow(factor, 0) == factor;
  }

  // ----- Facts that hold for every factor -----

  lemma {:induction false} GrowNeverShrinks(c: int, max: int, f: int, n: nat)
    ensures Min(max, c) <= Min(max, Grow(c, max, f, n))
    decreases n
  {
    if n > 0 {
      var next := Wrap(c * f);
      if !(next > max || next < c) {
        GrowNeverShrinks(next, max, f, n - 1);
      }
    }
  }

  lemma {:induction false} GrowMonotone(c: int, max: int, f: int, n: nat)
    ensures Min(max, Grow(c, max, f, n)) <= Min(max, Grow(c, max, f, n + 1))
    decreases n
  {
    var next := Wrap(c * f);
    if n == 0 {
      assert Grow(c, max, f, 1) == if next > max || next < c then max else Grow(next, max, f, 0);
    } else if !(next > max || next < c) {
      GrowMonotone(next, max, f, n - 1);
    }
  }

  /** A further consecutive trip never shortens the cooldown, whatever the
      factor; the first trip after a recovery applies min(base, max). */
  lemma CooldownMonotone(base: int, max: int, factor: int, k: nat)
    requires PositiveDuration(base) && PositiveDuration(max) && k >= 1
    ensures Applied(base, max, factor, 1) == Min(base, max)
    ensures 0 < Applied(base, max, factor, k) <= Applied(base, max, factor, k + 1) <= max
  {
    GrowMonotone(base, max, Effective(factor), k - 1);
    GrowNeverShrinks(base, max, Effective(factor), k - 1);
  }
}
