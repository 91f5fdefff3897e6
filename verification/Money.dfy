/** Decimal columns.  Domain arithmetic is exact; a NUMERIC(p, s) column rounds a value
    once, half away from zero, when it is written.  `Exact` is a column that does not
    round, so that each ledger theorem is stated for both kinds of storage at once. */
module Money {
  /** x times n, as repeated addition: products of two unknowns stay out of the proofs. */
  function Times(x: real, n: int): real
    decreases if n < 0 then -n else n
  {
    if n == 0 then 0.0
    else if n > 0 then Times(x, n - 1) + x
    else Times(x, n + 1) - x
  }

  lemma {:induction false} TimesIsProduct(x: real, n: int)
    ensures Times(x, n) == x * n as real
    decreases if n < 0 then -n else n
  {
    if n > 0 {
      TimesIsProduct(x, n - 1);
      assert x * n as real == x * (n - 1) as real + x;
    } else if n < 0 {
      TimesIsProduct(x, n + 1);
      assert x * n as real == x * (n + 1) as real - x;
    }
  }

  lemma {:induction false} TimesSum(x: real, y: real, n: int)
    ensures Times(x + y, n) == Times(x, n) + Times(y, n)
    ensures Times(x - y, n) == Times(x, n) - Times(y, n)
    decreases if n < 0 then -n else n
  {
    if n > 0 {
      TimesSum(x, y, n - 1);
    } else if n < 0 {
      TimesSum(x, y, n + 1);
    }
  }

  lemma {:induction false} TimesSplit(x: real, m: int, n: int)
    ensures Times(x, m + n) == Times(x, m) + Times(x, n)
    decreases if n < 0 then -n else n
  {
    if n > 0 {
      TimesSplit(x, m, n - 1);
      assert Times(x, m + n) == Times(x, m + n - 1) + x;
    } else if n < 0 {
      TimesSplit(x, m, n + 1);
      assert Times(x, m + n) == Times(x, m + n + 1) - x;
    }
  }

  lemma {:induction false} TimesPositive(x: real, n: nat)
    requires x >= 0.0
    ensures Times(x, n) >= 0.0 && (x > 0.0 && n > 0 ==> Times(x, n) > 0.0)
  {
    if n > 0 {
      TimesPositive(x, n - 1);
    }
  }

  lemma {:induction false} TimesWithin(x: real, y: real, h: real, n: nat)
    requires Within(x, y, h)
    ensures Within(Times(x, n), Times(y, n), Times(h, n))
  {
    if n > 0 {
      TimesWithin(x, y, h, n - 1);
    }
  }

  /** The share of a total: multiplying it out gives the total back. */
  lemma TimesOfShare(total: real, n: int)
    requires n > 0
    ensures Times(total / n as real, n) == total
    ensures total >= 0.0 ==> total / n as real >= 0.0
  {
    TimesIsProduct(total / n as real, n);
  }

  datatype Column = Exact | Scale6 | Scale10

  /** A value counted in steps of the column. */
  function InSteps(c: Column, x: real): real {
    match c
    case Scale10 => x * 10000000000.0
    case _ => x * 1000000.0
  }

  function OfSteps(c: Column, k: int): real {
    match c
    case Scale10 => k as real / 10000000000.0
    case _ => k as real / 1000000.0
  }

  /** Half a step: the largest error one write can make. */
  function HalfStep(c: Column): real {
    match c
    case Exact => 0.0
    case Scale6 => 0.0000005
    case Scale10 => 0.00000000005
  }

  function RoundHalfAway(x: real): int {
    if x >= 0.0 then (x + 0.5).Floor else -((0.5 - x).Floor)
  }

  /** The value a column holds after x is written to it. */
  function Store(c: Column, x: real): real {
    if c.Exact? then x else OfSteps(c, RoundHalfAway(InSteps(c, x)))
  }

  /** y is the multiple of 1/perUnit nearest to x, the one farther from zero on a tie. */
  ghost predicate IsNearest(x: real, y: real, perUnit: real) {
    exists k: int :: NearestAt(x, y, perUnit, k)
  }

  predicate NearestAt(x: real, y: real, perUnit: real, k: int) {
    && y * perUnit == k as real
    && if x >= 0.0 then -0.5 < k as real - x * perUnit <= 0.5 else -0.5 <= k as real - x * perUnit < 0.5
  }

  /** Six decimals or ten, rounded half away from zero, or no rounding at all. */
  lemma StoreIsNearest(c: Column, x: real)
    ensures match c
            case Exact => Store(c, x) == x
            case Scale6 => IsNearest(x, Store(c, x), 1000000.0)
            case Scale10 => IsNearest(x, Store(c, x), 10000000000.0)
  {
    var k := RoundHalfAway(InSteps(c, x));
    match c
    case Exact =>
    case Scale6 => assert NearestAt(x, Store(c, x), 1000000.0, k);
    case Scale10 => assert NearestAt(x, Store(c, x), 10000000000.0, k);
  }

  /** There is only one such value. */
  lemma NearestIsUnique(x: real, y: real, z: real, perUnit: real)
    requires perUnit > 0.0 && IsNearest(x, y, perUnit) && IsNearest(x, z, perUnit)
    ensures y == z
  {
    var k :| NearestAt(x, y, perUnit, k);
    var m :| NearestAt(x, z, perUnit, m);
    assert k == m;
    assert (y - z) * perUnit == 0.0;
  }

  /** x survives a write unchanged. */
  predicate OnGrid(c: Column, x: real) {
    Store(c, x) == x
  }

  predicate Within(x: real, y: real, bound: real) {
    -bound <= x - y <= bound
  }

  lemma RoundOfInt(k: int)
    ensures RoundHalfAway(k as real) == k
  {
    if k >= 0 {
      assert (k as real + 0.5).Floor == k;
    } else {
      assert ((-k) as real + 0.5).Floor == -k;
    }
  }

  /** The grid is exactly the whole multiples of a step. */
  lemma GridIsMultiples(c: Column, x: real, k: int)
    requires !c.Exact? && InSteps(c, x) == k as real
    ensures OnGrid(c, x)
  {
    RoundOfInt(k);
  }

  lemma StoreLandsOnGrid(c: Column, x: real)
    ensures OnGrid(c, Store(c, x))
  {
    if !c.Exact? {
      GridIsMultiples(c, Store(c, x), RoundHalfAway(InSteps(c, x)));
    }
  }

  /** One write moves a value by at most half a step. */
  lemma StoreError(c: Column, x: real)
    ensures Within(Store(c, x), x, HalfStep(c))
  {
    if !c.Exact? {
      var y := InSteps(c, x);
      assert -0.5 <= RoundHalfAway(y) as real - y <= 0.5;
    }
  }

  /** Writing keeps the order of values. */
  lemma StoreMonotone(c: Column, x: real, y: real)
    requires x <= y
    ensures Store(c, x) <= Store(c, y)
  {
    if !c.Exact? {
      assert RoundHalfAway(InSteps(c, x)) <= RoundHalfAway(InSteps(c, y));
    }
  }

  lemma StoreOfZero(c: Column)
    ensures Store(c, 0.0) == 0.0
  {
    RoundOfInt(0);
  }

  lemma GridClosedUnderSum(c: Column, x: real, y: real)
    requires OnGrid(c, x) && OnGrid(c, y)
    ensures OnGrid(c, x + y) && OnGrid(c, x - y)
  {
    if !c.Exact? {
      var k, m := RoundHalfAway(InSteps(c, x)), RoundHalfAway(InSteps(c, y));
      GridIsMultiples(c, x + y, k + m);
      GridIsMultiples(c, x - y, k - m);
    }
  }

  lemma {:induction false} GridClosedUnderScaling(c: Column, x: real, n: int)
    requires OnGrid(c, x)
    ensures OnGrid(c, Times(x, n))
    decreases if n < 0 then -n else n
  {
    if n == 0 {
      StoreOfZero(c);
    } else if n > 0 {
      GridClosedUnderScaling(c, x, n - 1);
      GridClosedUnderSum(c, Times(x, n - 1), x);
    } else {
      GridClosedUnderScaling(c, x, n + 1);
      GridClosedUnderSum(c, Times(x, n + 1), x);
    }
  }

  /** Charging n shares at the quoted price leaves the balance that charging them at the
      written price leaves. */
  ghost predicate ChargedAlike(c: Column, p: real, balance: real, n: nat) {
    Store(c, balance - Times(p, n)) == balance - Times(Store(c, p), n)
  }

  /** A price is on the grid exactly when the written price explains every charge that a
      balance can bear. */
  lemma ChargeIsExactIffOnGrid(c: Column, p: real)
    requires !c.Exact? && p > 0.0
    ensures OnGrid(c, p) <==>
            forall balance: real, n: nat :: OnGrid(c, balance) && Times(p, n) <= balance ==>
              ChargedAlike(c, p, balance, n)
  {
    if OnGrid(c, p) {
      forall balance: real, n: nat | OnGrid(c, balance) && Times(p, n) <= balance
        ensures ChargedAlike(c, p, balance, n)
      {
        GridClosedUnderScaling(c, p, n);
        GridClosedUnderSum(c, balance, Times(p, n));
      }
    } else {
      var n := OffGridChargeDiffers(c, p);
      var balance := EnoughCash(c, Times(p, n));
      assert !ChargedAlike(c, p, balance, n);
    }
  }

  /** Some whole number of currency units covers any amount. */
  lemma EnoughCash(c: Column, amount: real) returns (balance: real)
    ensures OnGrid(c, balance) && amount <= balance && balance > 0.0
  {
    var k := if amount > 0.0 then amount.Floor + 1 else 1;
    balance := k as real;
    if !c.Exact? {
      GridIsMultiples(c, balance, k * if c.Scale10? then 10000000000 else 1000000);
    }
  }

  /** Off the grid there is a share count that no balance is charged exactly for. */
  lemma OffGridChargeDiffers(c: Column, p: real) returns (n: nat)
    requires !c.Exact? && !OnGrid(c, p)
    ensures n > 0 && forall balance: real :: !ChargedAlike(c, p, balance, n)
  {
    var written := Store(c, p);
    n := EnoughShares(if written > p then written - p else p - written, 3.0 * HalfStep(c));
    TimesSum(written, p, n);
    TimesSum(p, written, n);
    forall balance: real ensures !ChargedAlike(c, p, balance, n) {
      StoreError(c, balance - Times(p, n));
    }
  }

  /** Some multiple of a positive amount reaches any bound. */
  lemma EnoughShares(d: real, bound: real) returns (n: nat)
    requires d > 0.0 && bound > 0.0
    ensures n > 0 && Times(d, n) >= bound
  {
    var q := bound / d;
    n := q.Floor + 1;
    assert d * q == bound;
    ScaleUp(d, q, n as real);
    TimesIsProduct(d, n);
  }

  lemma ScaleUp(d: real, q: real, m: real)
    requires d > 0.0 && q <= m
    ensures d * q <= d * m
  {
  }
}
