/**
 Money in kobo. An amount travels through the code as an exact decimal and is a `real` here; a money
 column is numeric(18,2), so what is stored is a whole number of kobo and is an `int` here. Storing
 an amount therefore rounds it, and Postgres rounds halves away from zero.
 */
module Money {

  /** The value a numeric(18,2) column keeps. Decimal.js ROUND_HALF_UP is the same function. */
  function Column(x: real): int {
    if x >= 0.0 then (x + 0.5).Floor else -((0.5 - x).Floor)
  }

  /** Math.round of an amount in kobo, which is what the gateway is told: a half goes up. */
  function ToKobo(x: real): int {
    (x + 0.5).Floor
  }

  /** Exactly between two kobo. */
  predicate Half(x: real) {
    x - x.Floor as real == 0.5
  }

  predicate Whole(x: real) {
    x == x.Floor as real
  }

  /** Adding x to a stored balance moves the balance by exactly what the ledger entry will say. */
  predicate Lands(balance: int, x: real) {
    Column(balance as real + x) == balance + Column(x)
  }

  lemma ColumnOfWhole(n: int)
    ensures Column(n as real) == n && Whole(n as real) && !Half(n as real)
  {
    var x := n as real;
    assert x.Floor == n;
    if n >= 0 {
      assert (x + 0.5).Floor == n;
    } else {
      assert (0.5 - x).Floor == -n;
    }
  }

  /** Column by the whole part n and the fraction of x. */
  lemma ColumnBySplit(x: real, n: int)
    requires n as real <= x < n as real + 1.0
    ensures x.Floor == n
    ensures x - n as real < 0.5 ==> Column(x) == n
    ensures x - n as real > 0.5 ==> Column(x) == n + 1
    ensures x - n as real == 0.5 ==> Half(x) && Column(x) == if x >= 0.0 then n + 1 else n
  {
    var up := (x + 0.5).Floor;
    assert up == if x - n as real >= 0.5 then n + 1 else n;
    var down := (0.5 - x).Floor;
    assert down == if x - n as real <= 0.5 then -n else -n - 1;
  }

  /** Column rounds to a nearest kobo, never further than half of one. */
  lemma ColumnIsNearest(x: real)
    ensures -0.5 <= Column(x) as real - x <= 0.5
    ensures Half(x) <==> Column(x) as real - x == 0.5 || Column(x) as real - x == -0.5
  {
    ColumnBySplit(x, x.Floor);
  }

  /** A nearest kobo to x; of two, the upper one unless x is negative. */
  ghost predicate IsNearest(kobo: int, x: real) {
    -0.5 <= kobo as real - x <= 0.5 && (x >= 0.0 ==> kobo as real - x > -0.5)
  }

  lemma ColumnIsTheNearest(x: real)
    ensures IsNearest(Column(x), x)
  {
    ColumnBySplit(x, x.Floor);
  }

  /** The one case where balance and entry disagree: a half kobo that carries the balance across zero. */
  lemma LandsIff(balance: int, x: real)
    ensures Lands(balance, x) <==> !Half(x) || (x >= 0.0 <==> balance as real + x >= 0.0)
  {
    ColumnBySplit(x, x.Floor);
    ColumnBySplit(balance as real + x, balance + x.Floor);
  }

  lemma HalfOdd(x: real)
    ensures Half(x) <==> Half(-x)
  {
    if Half(x) {
      assert (-x).Floor == -x.Floor - 1;
    }
    if Half(-x) {
      assert x.Floor == -(-x).Floor - 1;
    }
  }

  lemma ColumnMonotone(x: real, y: real)
    requires x <= y
    ensures Column(x) <= Column(y)
  {}

  // ---------------------------------------------------------------- rates

  /** A rate of an amount. */
  function Portion(amount: real, rate: real): real {
    amount * rate
  }

  lemma PortionMonotone(a: real, b: real, rate: real)
    requires a <= b && rate >= 0.0
    ensures Portion(a, rate) <= Portion(b, rate)
  {
    assert (b - a) * rate >= 0.0;
    assert b * rate == a * rate + (b - a) * rate;
  }

  lemma PortionAdds(a: real, b: real, rate: real)
    ensures Portion(a + b, rate) == Portion(a, rate) + Portion(b, rate)
    ensures Portion(0.0, rate) == 0.0
  {}

  /** A rate of at most one takes at most the amount; one above it takes more. */
  lemma PortionAgainstWhole(a: real, rate: real)
    requires a >= 0.0
    ensures rate >= 0.0 ==> Portion(a, rate) >= 0.0
    ensures rate <= 1.0 ==> Portion(a, rate) <= a
    ensures rate > 1.0 && a > 0.0 ==> Portion(a, rate) > a
    ensures rate >= 1.0 ==> Portion(a, rate) >= a
  {
    assert a * rate == a + a * (rate - 1.0);
    if rate >= 0.0 {
      assert a * rate >= 0.0;
    }
    if rate <= 1.0 {
      assert a * (1.0 - rate) >= 0.0;
    } else {
      assert a * (rate - 1.0) >= 0.0;
      if a > 0.0 {
        assert a * (rate - 1.0) > 0.0;
      }
    }
  }

  lemma ColumnNonNegative(x: real)
    requires x >= 0.0
    ensures Column(x) >= 0
  {
    ColumnOfWhole(0);
    ColumnMonotone(0.0, x);
  }

  lemma ColumnAtMostWhole(x: real, n: int)
    requires x <= n as real
    ensures Column(x) <= n
  {
    ColumnOfWhole(n);
    ColumnMonotone(x, n as real);
  }

  /** Rounding commutes with whole kobo, above zero. */
  lemma ColumnShift(x: real, k: nat)
    requires x >= 0.0
    ensures Column(x + k as real) == Column(x) + k
  {
    ColumnBySplit(x, x.Floor);
    ColumnBySplit(x + k as real, x.Floor + k);
  }
}
