/** The ranges `[n*g/G, n*(g+1)/G)` split `n` items into `G` nonempty runs of nearly equal length. */
module Partition {

  lemma MulMonotone(a: nat, b: nat, c: nat)
    requires a <= b
    ensures a * c <= b * c
  {
  }

  lemma MulNext(a: nat, c: nat)
    ensures (a + 1) * c == a * c + c
  {
  }

  lemma QuotientUnique(a: nat, x: nat, b: nat, y: nat, divisor: nat)
    requires x < divisor && y < divisor && a * divisor + x == b * divisor + y
    ensures a == b
  {
    MulNext(a, divisor);
    MulNext(b, divisor);
    if a < b {
      MulMonotone(a + 1, b, divisor);
    } else if b < a {
      MulMonotone(b + 1, a, divisor);
    }
  }

  lemma Division(value: nat, divisor: nat)
    requires divisor >= 1
    ensures value == (value / divisor) * divisor + value % divisor && 0 <= value % divisor < divisor
  {
  }

  lemma QuotientIs(value: nat, quotient: nat, rest: nat, divisor: nat)
    requires rest < divisor && value == quotient * divisor + rest
    ensures value / divisor == quotient
  {
    Division(value, divisor);
    QuotientUnique(value / divisor, value % divisor, quotient, rest, divisor);
  }

  /** Whole multiples of the divisor pass through a division. */
  lemma DivideSum(whole: nat, value: nat, divisor: nat)
    requires divisor >= 1
    ensures (whole * divisor + value) / divisor == whole + value / divisor
  {
    Division(value, divisor);
    var quotient := value / divisor;
    assert (whole + quotient) * divisor == whole * divisor + quotient * divisor;
    QuotientIs(whole * divisor + value, whole + quotient, value % divisor, divisor);
  }

  /** Raising a numerator by less than the divisor raises the quotient by at most one. */
  lemma DivideStep(value: nat, r: nat, divisor: nat)
    requires r < divisor
    ensures value / divisor <= (value + r) / divisor <= value / divisor + 1
  {
    Division(value, divisor);
    var quotient, rest := value / divisor, value % divisor;
    if rest + r < divisor {
      QuotientIs(value + r, quotient, rest + r, divisor);
    } else {
      MulNext(quotient, divisor);
      QuotientIs(value + r, quotient + 1, rest + r - divisor, divisor);
    }
  }

  lemma Distribute(n: nat, q: nat, groups: nat, r: nat, g: nat)
    requires n == q * groups + r
    ensures n * g == (q * g) * groups + r * g
  {
    assert (q * groups) * g == (q * g) * groups;
  }

  lemma GroupStart(n: nat, q: nat, r: nat, g: nat, groups: nat)
    requires groups >= 1 && n == q * groups + r
    ensures n * g / groups == q * g + r * g / groups
  {
    Distribute(n, q, groups, r, g);
    DivideSum(q * g, r * g, groups);
  }

  /** The growth from one start to the next, with the products as numbers of their own. */
  lemma StartGrowth(qg: nat, q: nat, rg: nat, r: nat, groups: nat)
    requires r < groups
    ensures q <= (qg + q + (rg + r) / groups) - (qg + rg / groups) <= q + 1
  {
    DivideStep(rg, r, groups);
  }

  function Start(n: nat, g: nat, groups: nat): nat
    requires groups >= 1
  {
    n * g / groups
  }

  /** Every group holds the quotient of items, or one more. */
  lemma GroupSize(n: nat, g: nat, groups: nat)
    requires groups >= 1
    ensures n / groups <= Start(n, g + 1, groups) - Start(n, g, groups) <= n / groups + 1
  {
    Division(n, groups);
    var q, r := n / groups, n % groups;
    GroupStart(n, q, r, g, groups);
    GroupStart(n, q, r, g + 1, groups);
    MulStep(q, g);
    MulStep(r, g);
    StartGrowth(q * g, q, r * g, r, groups);
  }

  lemma MulStep(a: nat, b: nat)
    ensures a * (b + 1) == a * b + a
  {
  }

  lemma QuotientPositive(n: nat, groups: nat)
    requires 1 <= groups <= n
    ensures n / groups >= 1
  {
    Division(n, groups);
  }

  /** Where each group starts, followed by where the last one ends. */
  function Bounds(n: nat, groups: nat): (b: seq<nat>)
    requires groups >= 1
    ensures |b| == groups + 1 && forall g :: 0 <= g <= groups ==> b[g] == Start(n, g, groups)
  {
    seq(groups + 1, g requires 0 <= g <= groups => Start(n, g, groups))
  }

  /** Consecutive nonempty ranges from nothing to everything. */
  predicate Splits(b: seq<nat>, n: nat) {
    && |b| >= 2 && b[0] == 0 && b[|b| - 1] == n
    && forall g :: 0 <= g < |b| - 1 ==> b[g] < b[g + 1]
  }

  predicate Even(b: seq<nat>) {
    forall g, h :: 0 <= g < |b| - 1 && 0 <= h < |b| - 1 ==> b[g + 1] + b[h] <= b[h + 1] + b[g] + 1
  }

  /** The partition theorem: for every item count and every group count not above it. */
  lemma BoundsSplit(n: nat, groups: nat)
    requires 1 <= groups <= n
    ensures Splits(Bounds(n, groups), n) && Even(Bounds(n, groups))
  {
    var b := Bounds(n, groups);
    QuotientIs(0, 0, 0, groups);
    assert n * 0 == 0;
    QuotientIs(n * groups, n, 0, groups);
    forall g | 0 <= g < groups ensures n / groups <= b[g + 1] - b[g] <= n / groups + 1 {
      GroupSize(n, g, groups);
    }
    QuotientPositive(n, groups);
  }

  lemma {:induction false} BoundsIncrease(b: seq<nat>, n: nat, g: nat, h: nat)
    requires Splits(b, n) && g < h < |b|
    ensures b[g] < b[h]
    decreases h
  {
    if g < h - 1 { BoundsIncrease(b, n, g, h - 1); }
  }

  predicate InGroup(b: seq<nat>, i: nat, g: nat) { g + 1 < |b| && b[g] <= i < b[g + 1] }

  lemma {:induction false} GroupContaining(b: seq<nat>, n: nat, i: nat, upTo: nat) returns (g: nat)
    requires Splits(b, n) && upTo < |b| && i < b[upTo]
    ensures InGroup(b, i, g)
    decreases upTo
  {
    if b[upTo - 1] <= i {
      g := upTo - 1;
    } else {
      g := GroupContaining(b, n, i, upTo - 1);
    }
  }

  /** Every item lies in exactly one group. */
  lemma EveryItemOnce(b: seq<nat>, n: nat, i: nat)
    requires Splits(b, n) && i < n
    ensures exists g: nat :: InGroup(b, i, g)
    ensures forall g: nat, h: nat :: InGroup(b, i, g) && InGroup(b, i, h) ==> g == h
  {
    var g := GroupContaining(b, n, i, |b| - 1);
    forall h: nat, k: nat | InGroup(b, i, h) && InGroup(b, i, k) ensures h == k {
      if h + 1 < k { BoundsIncrease(b, n, h + 1, k); }
      if k + 1 < h { BoundsIncrease(b, n, k + 1, h); }
    }
  }
}
