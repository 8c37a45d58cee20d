/** retryDelay: exponential backoff with a cap. Durations are real numbers here, as the code computes them in
    floating point; rounding is not modelled. */
module Backoff {
  datatype Policy = Policy(first: real, cap: real, factor: real) {
    predicate Valid() {
      first > 0.0 && cap > 0.0 && factor > 0.0
    }
  }

  function Pow(f: real, n: nat): real {
    if n == 0 then 1.0 else f * Pow(f, n - 1)
  }

  function MinReal(a: real, b: real): real {
    if a < b then a else b
  }

  // first * factor^n
  function Scaled(p: Policy, n: nat): real {
    p.first * Pow(p.factor, n)
  }

  // The documented delay: first * factor^retries, at most the cap.
  function Documented(p: Policy, retries: nat): real {
    MinReal(Scaled(p, retries), p.cap)
  }

  // The delay the code computes: a first delay at or above the cap is never scaled down.
  function Computed(p: Policy, retries: nat): real {
    if p.first >= p.cap then p.cap else Documented(p, retries)
  }

  lemma {:induction false} PowPositive(f: real, n: nat)
    requires f > 0.0
    ensures Pow(f, n) > 0.0
  {
    if n > 0 {
      PowPositive(f, n - 1);
    }
  }

  lemma Scale(a: real, x: real, y: real)
    requires a > 0.0
    ensures x <= y ==> a * x <= a * y
    ensures x < y ==> a * x < a * y
  {
    assert a * y - a * x == a * (y - x);
  }

  // One more factor: up when the factor is at least 1, down when it is at most 1.
  lemma ScaledStep(p: Policy, n: nat)
    requires p.Valid()
    ensures var d, e := Scaled(p, n), Scaled(p, n + 1);
            d > 0.0 && e == d * p.factor && (p.factor >= 1.0 ==> d <= e) && (p.factor <= 1.0 ==> e <= d)
    ensures Scaled(p, 0) == p.first
  {
    PowPositive(p.factor, n);
    var d := Scaled(p, n);
    Scale(p.first, 0.0, Pow(p.factor, n));
    Scale(d, 1.0, p.factor);
    Scale(d, p.factor, 1.0);
  }

  lemma {:induction false} ScaledMonotone(p: Policy, m: nat, n: nat)
    requires p.Valid() && m <= n
    ensures p.factor >= 1.0 ==> Scaled(p, m) <= Scaled(p, n)
    ensures p.factor <= 1.0 ==> Scaled(p, n) <= Scaled(p, m)
  {
    hide Scaled;
    if m < n {
      ScaledMonotone(p, m, n - 1);
      ScaledStep(p, n - 1);
    }
  }

  /** retryDelay, truncated to a whole duration. */
  method RetryDelay(p: Policy, retries: nat) returns (r: int)
    requires p.Valid()
    ensures r == Computed(p, retries).Floor
  {
    hide Scaled;
    ScaledStep(p, 0);
    var delay, maxDelay := p.first, p.cap;
    var i := 0;
    while i < retries && delay < maxDelay
      invariant 0 <= i <= retries && delay == Scaled(p, i)
      invariant i > 0 ==> p.first < p.cap
    {
      ScaledStep(p, i);
      delay := delay * p.factor;
      i := i + 1;
    }
    if i < retries && p.first < p.cap {
      StaysAbove(p, i, retries);
    }
    if delay > maxDelay {
      delay := maxDelay;
    }
    r := delay.Floor;
  }

  // Once scaling has reached the cap from below it stays there.
  lemma StaysAbove(p: Policy, i: nat, retries: nat)
    requires p.Valid() && i <= retries && p.first < p.cap && Scaled(p, i) >= p.cap
    ensures Scaled(p, retries) >= p.cap
  {
    ScaledStep(p, 0);
    hide Scaled;
    if p.factor <= 1.0 {
      ScaledMonotone(p, 0, i);
    }
    ScaledMonotone(p, i, retries);
  }

  // For one number of retries: a shrinking factor with a first delay at the cap matters once the formula is below it.
  lemma DocumentedAt(p: Policy, retries: nat)
    requires p.Valid()
    ensures Computed(p, retries) == Documented(p, retries)
            <==> p.factor >= 1.0 || p.first < p.cap || Scaled(p, retries) >= p.cap
  {
    ScaledStep(p, 0);
    hide Scaled;
    ScaledMonotone(p, 0, retries);
  }

  // Bernoulli's inequality for a factor below 1, with h == 1/f - 1.
  lemma {:induction false} ShrinksHyperbolically(f: real, h: real, n: nat)
    requires 0.0 < f < 1.0 && h > 0.0 && f * h == 1.0 - f
    ensures Pow(f, n) * (1.0 + n as real * h) <= 1.0
  {
    if n > 0 {
      var m := (n - 1) as real;
      PowPositive(f, n - 1);
      ShrinksHyperbolically(f, h, n - 1);
      ShrinkStep(f, h, m);
      Scale(Pow(f, n - 1), f * (1.0 + (m + 1.0) * h), 1.0 + m * h);
      Regroup(f, Pow(f, n - 1), 1.0 + (m + 1.0) * h);
    }
  }

  lemma ShrinkStep(f: real, h: real, m: real)
    requires 0.0 < f < 1.0 && h > 0.0 && f * h == 1.0 - f && m >= 0.0
    ensures f * (1.0 + (m + 1.0) * h) <= 1.0 + m * h
  {
    calc {
      f * (1.0 + (m + 1.0) * h);
      f + f * (m * h) + f * h;
      1.0 + f * (m * h);
    }
    Products(m, h);
    assert m * h - f * (m * h) == (1.0 - f) * (m * h);
    Products(1.0 - f, m * h);
  }

  lemma Products(a: real, b: real)
    requires a >= 0.0 && b >= 0.0
    ensures a * b >= 0.0
  {
  }

  lemma Regroup(a: real, b: real, c: real)
    ensures (a * b) * c == b * (a * c)
  {
  }

  // A shrinking factor brings every first delay below the cap in the end.
  lemma FallsBelow(p: Policy) returns (n: nat)
    requires p.Valid() && p.factor < 1.0
    ensures Scaled(p, n) < p.cap
  {
    var h := (1.0 - p.factor) / p.factor;
    var steps := p.first / p.cap / h;
    n := (steps.Floor + 1) as nat;
    ShrinksHyperbolically(p.factor, h, n);
    var pow, m := Pow(p.factor, n), 1.0 + n as real * h;
    PowPositive(p.factor, n);
    Scale(h, steps, n as real);
    assert m > p.first / p.cap;
    Scale(p.cap, p.first / p.cap, m);
    assert p.cap * (p.first / p.cap) == p.first;
    Scale(pow, p.first, p.cap * m);
    Scale(p.cap, pow * m, 1.0);
    Regroup(p.cap, pow, m);
    Regroup(pow, p.cap, m);
  }

  /** A configuration meets the documented formula for every number of retries if and only if its factor does not
      shrink or its first delay is below the cap. */
  lemma DocumentedIff(p: Policy)
    requires p.Valid()
    ensures (forall n: nat :: Computed(p, n) == Documented(p, n)) <==> p.factor >= 1.0 || p.first < p.cap
  {
    hide Scaled, Computed, Documented;
    forall n: nat
      ensures Computed(p, n) == Documented(p, n) <==> p.factor >= 1.0 || p.first < p.cap || Scaled(p, n) >= p.cap
    {
      DocumentedAt(p, n);
    }
    if p.factor < 1.0 && p.first >= p.cap {
      var n := FallsBelow(p);
      assert Computed(p, n) != Documented(p, n);
    }
  }

  /** A configuration that does not meet it does so up to a last number of retries and never again. */
  lemma MissesFrom(p: Policy) returns (k: nat)
    requires p.Valid() && p.factor < 1.0 && p.first >= p.cap
    ensures k > 0 && forall n: nat :: Computed(p, n) == Documented(p, n) <==> n < k
  {
    ScaledStep(p, 0);
    hide Scaled, Computed, Documented;
    k := FallsBelow(p);
    while k > 0 && Scaled(p, k - 1) < p.cap
      invariant Scaled(p, k) < p.cap
    {
      k := k - 1;
    }
    forall n: nat ensures Computed(p, n) == Documented(p, n) <==> n < k {
      DocumentedAt(p, n);
      if n < k {
        ScaledMonotone(p, n, k - 1);
      } else {
        ScaledMonotone(p, k, n);
      }
    }
  }

  // The formula is missed: 10 scaled by 1/2 three times is 1.25, but the code answers its cap of 5.
  lemma ShrinkingFactorIsIgnored()
    ensures var p := Policy(10.0, 5.0, 0.5); Documented(p, 3) == 1.25 && Computed(p, 3) == 5.0
  {
    assert Pow(0.5, 3) == 0.5 * (0.5 * (0.5 * Pow(0.5, 0)));
  }

  /** The delay is positive, never above the cap, and grows with the retries when the factor is at least 1. */
  lemma Bounded(p: Policy, m: nat, n: nat)
    requires p.Valid() && m <= n
    ensures 0.0 < Computed(p, m) <= p.cap
    ensures p.factor >= 1.0 ==> Computed(p, m) <= Computed(p, n)
  {
    hide Scaled;
    ScaledStep(p, m);
    ScaledMonotone(p, m, n);
  }
}
