// Exponential backoff with jitter, over the reals: a float64 is taken for the
// number it stands for, and only the final conversion to a duration truncates.
module Backoff {

  // Delays in nanoseconds.
  datatype Config = Config(baseDelay: int, multiplier: real, jitter: real, maxDelay: int)

  // What the documentation of the settings asks for.
  predicate Sensible(c: Config) {
    0 < c.baseDelay <= c.maxDelay && c.multiplier >= 1.0 && 0.0 <= c.jitter <= 1.0
  }

  // rand.Float64
  predicate Draw(r: real) {
    0.0 <= r < 1.0
  }

  // A product by name: equal factors then give equal products without any
  // arithmetic, which the verifier does not see for the bare operator.
  function Times(x: real, y: real): real {
    x * y
  }

  function Pow(m: real, n: nat): real {
    if n == 0 then 1.0 else Times(m, Pow(m, n - 1))
  }

  function Min(x: real, y: real): real {
    if x <= y then x else y
  }

  // The loop, from a current value of b.
  function Grown(c: Config, b: real, retries: int): real
    decreases if retries > 0 then retries else 0
  {
    if b < c.maxDelay as real && retries > 0 then Grown(c, Times(b, c.multiplier), retries - 1) else b
  }

  // The factor that jitter comes to.
  function Factor(c: Config, r: real): real {
    1.0 + Times(c.jitter, r * 2.0 - 1.0)
  }

  function NonNegative(x: real): real {
    if x < 0.0 then 0.0 else x
  }

  // Before it is truncated. The first delay has neither cap nor jitter.
  function Exact(c: Config, retries: int, r: real): real {
    if retries == 0 then c.baseDelay as real
    else NonNegative(Times(Min(Grown(c, c.baseDelay as real, retries), c.maxDelay as real), Factor(c, r)))
  }

  method Backoff(c: Config, retries: int, r: real) returns (delay: int)
    ensures delay == Exact(c, retries, r).Floor
    ensures if retries == 0 then delay == c.baseDelay else delay >= 0
  {
    if retries == 0 {
      return c.baseDelay;
    }
    var backoff, maxBackoff := c.baseDelay as real, c.maxDelay as real;
    var left := retries;
    while backoff < maxBackoff && left > 0
      invariant Grown(c, backoff, left) == Grown(c, c.baseDelay as real, retries)
      decreases left
    {
      backoff := Times(backoff, c.multiplier);
      left := left - 1;
    }
    if backoff > maxBackoff {
      backoff := maxBackoff;
    }
    backoff := Times(backoff, 1.0 + Times(c.jitter, r * 2.0 - 1.0));
    if backoff < 0.0 {
      backoff := 0.0;
    }
    delay := backoff.Floor;
  }

  /******* The loop computes a capped power *******/

  // The delay that n retries stand for, before jitter.
  function Nominal(c: Config, n: nat): real {
    Min(Times(c.baseDelay as real, Pow(c.multiplier, n)), c.maxDelay as real)
  }

  lemma TimesMono(x: real, y: real, z: real)
    requires x <= y && 0.0 <= z
    ensures Times(x, z) <= Times(y, z) && Times(z, x) <= Times(z, y)
  {
  }

  lemma TimesStrict(x: real, y: real, z: real)
    requires x < y && 0.0 < z
    ensures Times(x, z) < Times(y, z) && Times(z, x) < Times(z, y)
  {
  }

  lemma TimesAssociates(x: real, y: real, z: real)
    ensures Times(x, Times(y, z)) == Times(Times(x, y), z)
  {
  }

  lemma TimesOne(x: real)
    ensures Times(x, 1.0) == x == Times(1.0, x) && Times(x, 0.0) == 0.0 == Times(0.0, x)
    ensures Times(x, -1.0) == -x
  {
  }

  // A factor of at least one does not shrink.
  lemma TimesGrows(x: real, m: real)
    requires 0.0 <= x && 1.0 <= m
    ensures x <= Times(x, m) && x <= Times(m, x)
  {
    TimesMono(1.0, m, x);
    TimesOne(x);
  }

  lemma {:induction false} PowAtLeastOne(m: real, n: nat)
    requires m >= 1.0
    ensures Pow(m, n) >= 1.0
  {
    if n > 0 {
      PowAtLeastOne(m, n - 1);
      TimesGrows(Pow(m, n - 1), m);
    }
  }

  // Leaving the loop early does not matter, because the value never shrinks.
  lemma {:induction false} LoopIsPower(c: Config, b: real, n: nat)
    requires c.multiplier >= 1.0 && b >= 0.0
    ensures Min(Grown(c, b, n), c.maxDelay as real) == Min(Times(b, Pow(c.multiplier, n)), c.maxDelay as real)
    decreases n
  {
    var max := c.maxDelay as real;
    if n == 0 {
      TimesOne(b);
    } else if b < max {
      TimesGrows(b, c.multiplier);
      LoopIsPower(c, Times(b, c.multiplier), n - 1);
      TimesAssociates(b, c.multiplier, Pow(c.multiplier, n - 1));
    } else {
      PowAtLeastOne(c.multiplier, n);
      TimesGrows(b, Pow(c.multiplier, n));
    }
  }

  lemma {:induction false} NominalMonotone(c: Config, m: nat, n: nat)
    requires Sensible(c) && m <= n
    ensures Nominal(c, m) <= Nominal(c, n)
    decreases n
  {
    if m < n {
      NominalMonotone(c, m, n - 1);
      PowAtLeastOne(c.multiplier, n - 1);
      TimesGrows(Pow(c.multiplier, n - 1), c.multiplier);
      TimesMono(Pow(c.multiplier, n - 1), Pow(c.multiplier, n), c.baseDelay as real);
    }
  }

  lemma NominalInRange(c: Config, n: nat)
    requires Sensible(c)
    ensures 0.0 < c.baseDelay as real <= Nominal(c, n) <= c.maxDelay as real
  {
    NominalMonotone(c, 0, n);
    TimesOne(c.baseDelay as real);
  }

  /******* Bounds *******/

  lemma FactorBounds(c: Config, r: real)
    requires 0.0 <= c.jitter <= 1.0 && Draw(r)
    ensures 0.0 <= 1.0 - c.jitter <= Factor(c, r) <= 1.0 + c.jitter
    ensures c.jitter > 0.0 ==> Factor(c, r) < 1.0 + c.jitter
    ensures Factor(c, 0.0) == 1.0 - c.jitter
  {
    var j := c.jitter;
    TimesOne(j);
    TimesMono(-1.0, r * 2.0 - 1.0, j);
    TimesMono(r * 2.0 - 1.0, 1.0, j);
    if j > 0.0 {
      TimesStrict(r * 2.0 - 1.0, 1.0, j);
    }
  }

  // From the second delay on: the capped power times a factor.
  lemma CappedPower(c: Config, n: nat, r: real)
    requires Sensible(c) && n > 0 && Draw(r)
    ensures Exact(c, n, r) == Times(Nominal(c, n), Factor(c, r)) >= 0.0
  {
    LoopIsPower(c, c.baseDelay as real, n);
    NominalInRange(c, n);
    FactorBounds(c, r);
    TimesMono(0.0, Factor(c, r), Nominal(c, n));
    TimesOne(Nominal(c, n));
  }

  lemma DelayInRange(c: Config, n: nat, r: real)
    requires Sensible(c) && Draw(r)
    ensures 0.0 <= Exact(c, n, r) <= Times(c.maxDelay as real, 1.0 + c.jitter)
    ensures n > 0 ==>
      Times(Nominal(c, n), 1.0 - c.jitter) <= Exact(c, n, r) <= Times(Nominal(c, n), 1.0 + c.jitter)
  {
    TimesGrows(c.maxDelay as real, 1.0 + c.jitter);
    if n > 0 {
      CappedPower(c, n, r);
      NominalInRange(c, n);
      FactorBounds(c, r);
      TimesMono(1.0 - c.jitter, Factor(c, r), Nominal(c, n));
      TimesMono(Factor(c, r), 1.0 + c.jitter, Nominal(c, n));
      TimesMono(Nominal(c, n), c.maxDelay as real, 1.0 + c.jitter);
    }
  }

  /******* When delays must increase *******/

  // The next delay would not be capped.
  predicate Uncapped(c: Config, n: nat) {
    Times(c.baseDelay as real, Pow(c.multiplier, n + 1)) <= c.maxDelay as real
  }

  lemma NextNominal(c: Config, n: nat)
    requires Sensible(c) && Uncapped(c, n)
    ensures Nominal(c, n + 1) == Times(Nominal(c, n), c.multiplier)
  {
    var b, m, p := c.baseDelay as real, c.multiplier, Pow(c.multiplier, n);
    PowAtLeastOne(m, n);
    TimesGrows(p, m);
    TimesMono(p, Times(m, p), b);
    Rotate(b, m, p);
  }

  lemma Rotate(b: real, m: real, p: real)
    ensures Times(b, Times(m, p)) == Times(Times(b, p), m)
  {
  }

  ghost predicate AlwaysIncreases(c: Config, n: nat) {
    forall r, r' | Draw(r) && Draw(r') :: Exact(c, n, r) < Exact(c, n + 1, r')
  }

  // The multiplier outweighs the jitter.
  predicate Outweighs(c: Config) {
    Times(c.multiplier, 1.0 - c.jitter) >= 1.0 + c.jitter && c.multiplier > 1.0
  }

  lemma Quotient(x: real, y: real)
    requires 0.0 <= x < y
    ensures 0.0 <= x / y < 1.0 && Times(y, x / y) == x
  {
    var q := x / y;
    assert q * y == x;
    TimesMono(1.0, if q >= 1.0 then q else 1.0, y);
  }

  lemma TwiceTimes(j: real, q: real)
    ensures Times(j, q * 2.0 - 1.0) == Times(2.0 * j, q) - j
  {
  }

  // The worst case: a high draw now, the lowest next time.
  lemma HighDraw(c: Config) returns (r: real)
    requires Sensible(c) && !Outweighs(c)
    ensures Draw(r) && Factor(c, r) >= Times(c.multiplier, 1.0 - c.jitter)
  {
    var j, low := c.jitter, Times(c.multiplier, 1.0 - c.jitter);
    r := 0.0;
    FactorBounds(c, r);
    if low > 1.0 - j {
      TimesOne(1.0 - j);
      TimesOne(c.multiplier);
      assert c.multiplier > 1.0 && low < 1.0 + j;
      r := (low - 1.0 + j) / (2.0 * j);
      Quotient(low - 1.0 + j, 2.0 * j);
      TwiceTimes(j, r);
    }
  }

  lemma IncreasesIfOutweighing(c: Config, n: nat, r: real, r': real)
    requires Sensible(c) && n > 0 && Uncapped(c, n) && Outweighs(c) && Draw(r) && Draw(r')
    ensures Exact(c, n, r) < Exact(c, n + 1, r')
  {
    var x, m := Nominal(c, n), c.multiplier;
    NominalInRange(c, n);
    NextNominal(c, n);
    CappedPower(c, n, r);
    CappedPower(c, n + 1, r');
    FactorBounds(c, r);
    FactorBounds(c, r');
    TimesMono(1.0 - c.jitter, Factor(c, r'), m);
    assert Factor(c, r) < Times(m, Factor(c, r')) by {
      if c.jitter == 0.0 { TimesOne(m); }
    }
    TimesStrict(Factor(c, r), Times(m, Factor(c, r')), x);
    TimesAssociates(x, m, Factor(c, r'));
  }

  // From the second delay on, below the cap, a delay exceeds the one before it for
  // every pair of draws exactly if the multiplier outweighs the jitter and is
  // greater than one.
  lemma IncreasesExactlyWhen(c: Config, n: nat)
    requires Sensible(c) && n > 0 && Uncapped(c, n)
    ensures AlwaysIncreases(c, n) <==> Outweighs(c)
  {
    if Outweighs(c) {
      forall r, r' | Draw(r) && Draw(r')
        ensures Exact(c, n, r) < Exact(c, n + 1, r')
      {
        IncreasesIfOutweighing(c, n, r, r');
      }
    } else {
      var r := HighDraw(c);
      DoesNotIncrease(c, n, r);
      assert Draw(r) && Draw(0.0) && !(Exact(c, n, r) < Exact(c, n + 1, 0.0));
    }
  }

  lemma DoesNotIncrease(c: Config, n: nat, r: real)
    requires Sensible(c) && n > 0 && Uncapped(c, n) && Draw(r)
    requires Factor(c, r) >= Times(c.multiplier, 1.0 - c.jitter)
    ensures Exact(c, n, r) >= Exact(c, n + 1, 0.0)
  {
    var x, m := Nominal(c, n), c.multiplier;
    NominalInRange(c, n);
    NextNominal(c, n);
    CappedPower(c, n, r);
    CappedPower(c, n + 1, 0.0);
    FactorBounds(c, 0.0);
    TimesMono(Times(m, 1.0 - c.jitter), Factor(c, r), x);
    TimesAssociates(x, m, 1.0 - c.jitter);
  }

  // The first delay is not jittered, so the second exceeds it for every draw
  // exactly if even the lowest one does.
  lemma FirstIncreaseExactlyWhen(c: Config)
    requires Sensible(c) && Uncapped(c, 0)
    ensures AlwaysIncreases(c, 0) <==> Times(c.multiplier, 1.0 - c.jitter) > 1.0
  {
    forall r' | Draw(r')
      ensures Exact(c, 1, r') >= Exact(c, 1, 0.0)
    {
      LowestDraw(c, r');
    }
    LowestSecondDelay(c);
    assert Draw(0.0);
    assert forall r :: Exact(c, 0, r) == c.baseDelay as real;
    if AlwaysIncreases(c, 0) {
      assert Exact(c, 0, 0.0) < Exact(c, 0 + 1, 0.0);
    }
  }

  lemma LowestDraw(c: Config, r: real)
    requires Sensible(c) && Draw(r)
    ensures Exact(c, 1, r) >= Exact(c, 1, 0.0)
  {
    NominalInRange(c, 1);
    CappedPower(c, 1, r);
    CappedPower(c, 1, 0.0);
    FactorBounds(c, r);
    TimesMono(Factor(c, 0.0), Factor(c, r), Nominal(c, 1));
  }

  lemma LowestSecondDelay(c: Config)
    requires Sensible(c) && Uncapped(c, 0)
    ensures Exact(c, 1, 0.0) > c.baseDelay as real <==> Times(c.multiplier, 1.0 - c.jitter) > 1.0
  {
    var b, low := c.baseDelay as real, Times(c.multiplier, 1.0 - c.jitter);
    NominalInRange(c, 0);
    NextNominal(c, 0);
    CappedPower(c, 1, 0.0);
    FactorBounds(c, 0.0);
    TimesOne(b);
    TimesAssociates(b, c.multiplier, 1.0 - c.jitter);
    if low > 1.0 { TimesStrict(1.0, low, b); } else { TimesMono(low, 1.0, b); }
  }
}
