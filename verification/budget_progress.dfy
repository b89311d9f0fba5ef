/**
 * The figures of one row of the budget list
 * (Views/Dashboard/Components/BudgetProgressRow.swift): the filled fraction
 * of the bar, the amount left, and the thresholds that turn them red.
 */
module BudgetProgress {

  /**
   * `progress`: the spent fraction of the limit, capped at 1.  The limit is
   * positive: the source divides by it.
   */
  function Progress(spent: real, limit: real): (p: real)
    requires limit > 0.0
    ensures p <= 1.0 && p <= spent / limit
    ensures p == 1.0 || p == spent / limit
    ensures spent <= limit ==> p == spent / limit
    ensures spent >= limit ==> p == 1.0
  {
    var fraction := spent / limit;
    if fraction < 1.0 then fraction else 1.0
  }

  /** `remainingAmount`: what is left of the limit, negative once it is exceeded. */
  function RemainingAmount(spent: real, limit: real): (r: real)
    ensures r + spent == limit
    ensures r < 0.0 <==> spent > limit
  {
    limit - spent
  }

  /** The percentage label and the bar are red above 90 %. */
  predicate IsNearLimit(progress: real) {
    progress > 0.9
  }

  /** The amount left is shown red when it is negative. */
  predicate IsOverspent(remaining: real) {
    remaining < 0.0
  }

  /** The displayed percentage, `progress * 100`. */
  function Percentage(progress: real): real {
    progress * 100.0
  }

  /** The row turns red exactly when more than 90 % of the limit is spent. */
  lemma NearLimitIffNinetyPercentSpent(spent: real, limit: real)
    requires limit > 0.0
    ensures IsNearLimit(Progress(spent, limit)) <==> spent > 0.9 * limit
  {
    var fraction := spent / limit;
    assert spent == fraction * limit;
    if spent > 0.9 * limit {
      assert fraction > 0.9;
    } else {
      assert (fraction - 0.9) * limit == spent - 0.9 * limit;
      assert fraction <= 0.9;
    }
  }

  /** The percentage never exceeds 100, however much is spent. */
  lemma PercentageAtMostHundred(spent: real, limit: real)
    requires limit > 0.0
    ensures Percentage(Progress(spent, limit)) <= 100.0
    ensures spent >= 0.0 ==> Percentage(Progress(spent, limit)) >= 0.0
  {
  }

  /** An exceeded budget shows both a full red bar and a red remaining amount. */
  lemma OverspentIsNearLimit(spent: real, limit: real)
    requires limit > 0.0 && spent > limit
    ensures Progress(spent, limit) == 1.0
    ensures IsNearLimit(Progress(spent, limit))
    ensures IsOverspent(RemainingAmount(spent, limit))
  {
  }
}
