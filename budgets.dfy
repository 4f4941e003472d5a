/**
 * The budgets view: utilisation as a percentage of the limit, the progress
 * bar's width (capped at 100) and its near-limit colour (above 90).
 * Utilisation is a real number; the view does not guard a zero limit, so the
 * model requires a non-zero one.
 */
module Budgets {
  import opened Records

  /** `getBudgetUtilization`: `currentAmount / limit * 100`, not capped. */
  function Utilization(b: Budget): (r: real)
    requires b.limit != 0
    ensures r * (b.limit as real) == (b.currentAmount as real) * 100.0
    ensures b.currentAmount == b.limit ==> r == 100.0
  {
    assert b.currentAmount == b.limit ==> (b.currentAmount as real) / (b.limit as real) == 1.0;
    (b.currentAmount as real) / (b.limit as real) * 100.0
  }

  /** What the view draws for one budget: the bar's width and whether it is coloured red. */
  datatype Bar = Bar(width: real, nearLimit: bool)

  /** `Math.min(getBudgetUtilization(budget), 100)` and `getBudgetUtilization(budget) > 90`. */
  function BudgetBar(b: Budget): (bar: Bar)
    requires b.limit != 0
    ensures bar.width <= 100.0 && bar.width <= Utilization(b)
    ensures bar.width == Utilization(b) || bar.width == 100.0
  {
    var u := Utilization(b);
    Bar(if u < 100.0 then u else 100.0, u > 90.0)
  }

  /** The bar is red exactly when the amount is more than nine tenths of the limit (less,
      for a negative limit); exactly 90 percent is not flagged. */
  lemma NearLimitIff(b: Budget)
    requires b.limit != 0
    ensures BudgetBar(b).nearLimit <==>
      if b.limit > 0 then 10 * b.currentAmount > 9 * b.limit else 10 * b.currentAmount < 9 * b.limit
  {
    var u, l, c := Utilization(b), b.limit as real, b.currentAmount as real;
    if b.limit > 0 {
      ScaledCompare(u, l, c, 90.0);
    } else {
      assert u * -l == -c * 100.0;
      ScaledCompare(u, -l, -c, 90.0);
    }
  }

  /** With `u * l == c * 100` and `l` positive, `u` exceeds `t` exactly when `c * 100` exceeds `t * l`. */
  lemma ScaledCompare(u: real, l: real, c: real, t: real)
    requires l > 0.0 && u * l == c * 100.0
    ensures u > t <==> c * 100.0 > t * l
  {
  }

  /** Utilisation goes beyond 100 when the amount exceeds a positive limit, while the bar
      stays full. */
  lemma OverLimit(b: Budget)
    requires b.limit > 0 && b.currentAmount > b.limit
    ensures Utilization(b) > 100.0
    ensures BudgetBar(b) == Bar(100.0, true)
  {
    ScaledCompare(Utilization(b), b.limit as real, b.currentAmount as real, 100.0);
  }

  /** A budget of 200 with 190 spent is at 95 percent and flagged; one at exactly 90
      percent is not. */
  lemma Examples()
    ensures Utilization(Budget(1, 1, 200, 190)) == 95.0 && BudgetBar(Budget(1, 1, 200, 190)).nearLimit
    ensures Utilization(Budget(1, 1, 200, 180)) == 90.0 && !BudgetBar(Budget(1, 1, 200, 180)).nearLimit
  {
  }
}
