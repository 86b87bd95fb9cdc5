/** Quantisation of AAC coefficients: the value of a coefficient at a scalefactor index, and the codebook a band then needs. */
module AacQuantiser {

  /** What is added before a value is cut to an integer. */
  const ROUNDING: real := 0.4054

  /** The factor of each scalefactor index; a coefficient stands for the power of 3/4 of its size, with its sign. */
  type Steps = int -> real

  /** The factor shrinks as the index grows. */
  ghost predicate Falling(step: Steps) {
    forall x, y | x < y :: Falls(step, x, y)
  }

  predicate Falls(step: Steps, x: int, y: int) {
    0.0 < step(y) < step(x)
  }

  function Magnitude(a: real, q: real): (m: int)
    requires a >= 0.0 && q > 0.0
    ensures m >= 0
  {
    NotNegative(a, q);
    (a * q + ROUNDING).Floor
  }

  lemma NotNegative(a: real, q: real)
    requires a >= 0.0 && q > 0.0
    ensures a * q >= 0.0
  {
  }

  function Quantised(c: real, q: real): int
    requires q > 0.0
  {
    if c < 0.0 then -Magnitude(-c, q) else Magnitude(c, q)
  }

  function QuantiseBand(cs: seq<real>, q: real): (v: seq<int>)
    requires q > 0.0
    ensures |v| == |cs|
  {
    seq(|cs|, k requires 0 <= k < |cs| => Quantised(cs[k], q))
  }

  lemma Smaller(a: real, b: real, p: real, q: real)
    requires 0.0 <= a <= b && 0.0 < p <= q
    ensures a * p <= b * q
  {
    assert a * p <= b * p;
    assert b * p <= b * q;
  }

  /** A value never grows with the index, nor with a smaller coefficient. */
  lemma MagnitudeFalls(a: real, b: real, p: real, q: real)
    requires 0.0 <= a <= b && 0.0 < p <= q
    ensures Magnitude(a, p) <= Magnitude(b, q)
  {
    Smaller(a, b, p, q);
    NotNegative(a, p);
  }

  // ----- the codebook a band needs

  /** The smallest codebook for values of at most m. */
  function MinBook(m: int): nat {
    if m == 0 then 0
    else if m == 1 then 1
    else if m == 2 then 3
    else if m <= 4 then 5
    else if m <= 7 then 7
    else if m <= 12 then 9
    else 11
  }

  function Size(c: real): (a: real)
    ensures a >= 0.0
  {
    if c < 0.0 then -c else c
  }

  function Larger(a: real, b: real): real {
    if a < b then b else a
  }

  /** The largest size among the coefficients of a band. */
  function Peak(cs: seq<real>): (a: real)
    ensures a >= 0.0
  {
    if cs == [] then 0.0 else Larger(Peak(cs[..|cs| - 1]), Size(cs[|cs| - 1]))
  }

  lemma {:induction false} PeakBounds(cs: seq<real>, k: nat)
    requires k < |cs|
    ensures Size(cs[k]) <= Peak(cs)
  {
    if k < |cs| - 1 {
      PeakBounds(cs[..|cs| - 1], k);
    }
  }

  lemma {:induction false} PeakReached(cs: seq<real>) returns (k: nat)
    requires cs != []
    ensures k < |cs| && Size(cs[k]) == Peak(cs)
  {
    var n := |cs| - 1;
    if n > 0 && Peak(cs[..n]) > Size(cs[n]) {
      k := PeakReached(cs[..n]);
    } else {
      k := n;
    }
  }

  /** A value has the magnitude of its coefficient's size and the coefficient's sign. */
  lemma QuantisedSize(c: real, q: real)
    requires q > 0.0
    ensures -Magnitude(Size(c), q) <= Quantised(c, q) <= Magnitude(Size(c), q)
    ensures Quantised(c, q) == Magnitude(Size(c), q) || Quantised(c, q) == -Magnitude(Size(c), q)
    ensures if c < 0.0 then Quantised(c, q) <= 0 else Quantised(c, q) >= 0
    ensures Quantised(-c, q) == -Quantised(c, q)
  {
  }

  lemma {:induction false} PeakOfEqual(cs: seq<real>, a: real)
    requires a >= 0.0 && forall k | 0 <= k < |cs| :: cs[k] == a
    ensures Peak(cs) == if cs == [] then 0.0 else a
  {
    if cs != [] {
      PeakOfEqual(cs[..|cs| - 1], a);
    }
  }

  // ----- the steps as they are

  function Sixteenth(r: real): real {
    var r2 := r * r;
    var r4 := r2 * r2;
    var r8 := r4 * r4;
    r8 * r8
  }

  predicate StepAt(step: Steps, r: real, x: int) {
    step(x) > 0.0 && step(x + 1) == step(x) * r
  }

  /** From one index to the next the factor goes down by the sixteenth root of 8: four indices halve the step of the
      coefficient, and the factor is the power of 3/4 of that. */
  ghost predicate IsStep(step: Steps, r: real) {
    r > 0.0 && Sixteenth(r) * 8.0 == 1.0 && forall x :: StepAt(step, r, x)
  }

  lemma Square(r: real, s: real)
    requires 0.0 <= r <= s
    ensures r * r <= s * s
  {
    assert r * r <= r * s;
    assert r * s <= s * s;
  }

  lemma RootAbove(r: real)
    requires r > 0.0 && Sixteenth(r) * 8.0 == 1.0
    ensures r > 0.878
  {
    var r2 := r * r;
    var r4 := r2 * r2;
    var r8 := r4 * r4;
    if r <= 0.878 {
      Square(r, 0.878);
      Square(r2, 0.7709);
      Square(r4, 0.5943);
      Square(r8, 0.3532);
    }
  }

  lemma RootBelow(r: real)
    requires r > 0.0 && Sixteenth(r) * 8.0 == 1.0
    ensures r < 0.8782
  {
    var r2 := r * r;
    var r4 := r2 * r2;
    var r8 := r4 * r4;
    if r >= 0.8782 {
      Square(0.8782, r);
      Square(0.7712, r2);
      Square(0.5947, r4);
      Square(0.3536, r8);
    }
  }

  lemma StepFalls(step: Steps, r: real, x: int)
    requires IsStep(step, r)
    ensures Falls(step, x, x + 1)
  {
    RootBelow(r);
    assert StepAt(step, r, x) && StepAt(step, r, x + 1);
    Shrinks(step(x), r, 1.0);
  }

  lemma Shrinks(a: real, q: real, p: real)
    requires a > 0.0 && q < p
    ensures a * q < a * p
  {
  }

  lemma {:induction false} StepsFall(step: Steps, r: real, x: int, y: int)
    requires IsStep(step, r) && x < y
    ensures Falls(step, x, y)
    decreases y - x
  {
    hide IsStep;
    StepFalls(step, r, y - 1);
    if x < y - 1 {
      StepsFall(step, r, x, y - 1);
    }
  }

  lemma IsStepFalls(step: Steps, r: real)
    requires IsStep(step, r)
    ensures Falling(step)
  {
    hide IsStep, Falls;
    forall x, y | x < y
      ensures Falls(step, x, y)
    {
      StepsFall(step, r, x, y);
    }
  }

  // ----- a size with values on either side of 32

  function Over(n: real, p: real): (s: real)
    requires n > 0.0 && p > 0.0
    ensures s > 0.0 && s * p == n
  {
    Positive(n, p);
    Cancels(n, p);
    n / p
  }

  /** With p the larger factor: a size that gives at least 32 there, and 16 to 31 at q. */
  function Between(p: real, q: real): (a: real)
    requires 0.0 < q < p
  {
    Larger(Over(31.5946, p), Over(15.5946, q))
  }

  lemma Cancels(n: real, p: real)
    requires p > 0.0
    ensures n / p * p == n
  {
  }

  lemma BetweenIs(p: real, q: real)
    requires 0.0 < q < p
    ensures Between(p, q) >= 0.0 && Magnitude(Between(p, q), p) >= 32 && 16 <= Magnitude(Between(p, q), q) <= 31
  {
    hide Larger, Over, Magnitude;
    LargerFalls(Over(31.5946, p), Over(15.5946, q), p, q);
  }

  lemma LargerFalls(b: real, c: real, p: real, q: real)
    requires 0.0 < q < p && b > 0.0 && c > 0.0 && b * p == 31.5946 && c * q == 15.5946
    ensures Larger(b, c) > 0.0
    ensures Magnitude(Larger(b, c), p) >= 32 && 16 <= Magnitude(Larger(b, c), q) <= 31
  {
    hide Larger, Magnitude;
    LargerIs(b, c);
    assert Larger(b, c) * p >= 31.5946 && 15.5946 <= Larger(b, c) * q < 31.5946 by {
      Product(b, q, p, 31.5946);
      LargerTimes(b, c, p);
      LargerTimes(b, c, q);
      LargerIs(b * p, c * p);
      LargerIs(b * q, c * q);
    }
    Cut(Larger(b, c), p, 32);
    Cut(Larger(b, c), q, 16);
    Cut(Larger(b, c), q, 32);
  }

  lemma LargerIs(b: real, c: real)
    ensures Larger(b, c) == if b < c then c else b
  {
  }

  lemma LargerTimes(b: real, c: real, p: real)
    requires p > 0.0
    ensures Larger(b, c) * p == Larger(b * p, c * p)
  {
    if b < c {
      Shrinks(p, b, c);
      assert Larger(b, c) == c;
    } else {
      assert Larger(b, c) == b;
      Scaled(c, b, p);
    }
  }

  lemma Product(b: real, q: real, p: real, n: real)
    requires b > 0.0 && 0.0 < q < p && b * p == n
    ensures b * q < n
  {
  }

  lemma Scaled(b: real, c: real, p: real)
    requires b <= c && p > 0.0
    ensures b * p <= c * p
  {
  }

  /** A value is at least n exactly when what is cut is. */
  lemma Cut(a: real, q: real, n: int)
    requires a >= 0.0 && q > 0.0
    ensures Magnitude(a, q) >= n <==> a * q + ROUNDING >= n as real
  {
  }

  lemma Positive(n: real, p: real)
    requires n > 0.0 && p > 0.0
    ensures n / p > 0.0
  {
  }

  /** The size that just gives 32 at an index gives 28 at the next. */
  lemma AtLoud(step: Steps, r: real, x: int)
    requires IsStep(step, r)
    ensures step(x) > 0.0 && step(x + 1) > 0.0 && 31.5946 / step(x) > 0.0
    ensures Magnitude(31.5946 / step(x), step(x)) == 32 && Magnitude(31.5946 / step(x), step(x + 1)) == 28
  {
    assert StepAt(step, r, x) && StepAt(step, r, x + 1);
    var a := 31.5946 / step(x);
    Positive(31.5946, step(x));
    Cancels(31.5946, step(x));
    RootAbove(r);
    RootBelow(r);
    assert a * step(x + 1) == 31.5946 * r by {
      assert a * (step(x) * r) == (a * step(x)) * r;
    }
  }
}
