/** Low-credit threshold crossing: `check_all_low_credit_thresholds` compares
    the notification level of an account's balance, as a percentage of its
    last top-up, after a debit with the level before it. Amounts are exact
    decimals in the source and exact reals here. */
module LowCredit {

  import opened Options
  import opened NotificationLevels

  /** The balance as an exact percentage of the last top-up. */
  function Percent(n: real, lastTopup: real): real
    requires lastTopup != 0.0
  {
    n * 100.0 / lastTopup
  }

  /** `ceil_percent`: the balance as a percentage of the last top-up, rounded
      up to a whole percent. */
  function CeilPercent(n: real, lastTopup: real): int
    requires lastTopup != 0.0
  {
    -((-(n * 100.0 / lastTopup)).Floor)
  }

  /** The rounded-up percentage is the least whole percent at or above the
      exact one. */
  lemma CeilPercentBounds(n: real, lastTopup: real)
    requires lastTopup != 0.0
    ensures (CeilPercent(n, lastTopup) - 1) as real < n * 100.0 / lastTopup <= CeilPercent(n, lastTopup) as real
  {
  }

  /** Rounding up to whole percents keeps the order of balances when the
      top-up is positive. */
  lemma CeilPercentMonotone(a: real, b: real, lastTopup: real)
    requires lastTopup > 0.0 && a <= b
    ensures CeilPercent(a, lastTopup) <= CeilPercent(b, lastTopup)
  {
    CeilPercentBounds(a, lastTopup);
    CeilPercentBounds(b, lastTopup);
    assert a * 100.0 / lastTopup <= b * 100.0 / lastTopup by {
      assert b * 100.0 / lastTopup - a * 100.0 / lastTopup == (b - a) * 100.0 / lastTopup;
    }
  }

  /** What the check reports: nothing, an alert at a level expressed as a
      fraction, or the `TypeError` Python raises when it divides an undefined
      current level by 100. */
  datatype ThresholdCheck = NoAlert | Alert(fraction: real) | UndefinedLevelError

  /** `check_all_low_credit_thresholds`, with `creditBalance` the balance after
      the debit and `creditAmount` the (positive) cost of the debit, so that
      `creditBalance + creditAmount` is the balance before it. */
  function CheckAllLowCreditThresholds(
    mapping: seq<int>, creditBalance: real, creditAmount: real, lastTopup: Option<real>): (r: ThresholdCheck)
    requires Dense(mapping)
    ensures lastTopup.None? || lastTopup.value == 0.0 ==> r == NoAlert
  {
    if lastTopup.None? || lastTopup.value == 0.0 then NoAlert
    else
      var t := lastTopup.value;
      CompareLevels(mapping, CeilPercent(creditBalance, t), CeilPercent(creditBalance + creditAmount, t))
  }

  /** The end of `check_all_low_credit_thresholds`: the current level divided
      by 100 when it differs from the previous level. */
  function CompareLevels(mapping: seq<int>, currentPercentage: int, previousPercentage: int): ThresholdCheck
    requires Dense(mapping)
  {
    var current := GetNotificationLevel(mapping, currentPercentage);
    var previous := GetNotificationLevel(mapping, previousPercentage);
    if current == previous then NoAlert
    else if current.None? then UndefinedLevelError
    else Alert(current.value as real / 100.0)
  }

  /** When the current percentage is at most the previous one, comparing their
      levels never meets an undefined current level, alerts exactly when the
      levels differ, and then alerts at the current level, below the previous. */
  lemma CompareLevelsOnDebit(levels: seq<int>, mapping: seq<int>, pAfter: int, pBefore: int)
    requires StrictlyAscending(levels) && IsNotificationMapping(levels, mapping)
    requires pAfter <= pBefore
    ensures Dense(mapping)
    ensures
      var r := CompareLevels(mapping, pAfter, pBefore);
      var after := LeastAtOrAbove(levels, pAfter);
      var before := LeastAtOrAbove(levels, pBefore);
      && r != UndefinedLevelError
      && (r.Alert? <==> after != before)
      && (r.Alert? ==> after.Some? && r.fraction * 100.0 == after.value as real)
      && (r.Alert? ==> before.None? || after.value < before.value)
  {
    LookupIsStepFunction(levels, mapping, pAfter);
    LookupIsStepFunction(levels, mapping, pBefore);
    if LeastAtOrAbove(levels, pBefore).Some? {
      StepMonotone(levels, pAfter, pBefore);
    }
  }

  /** For a debit (non-negative cost) against a positive top-up, the check
      never divides an undefined level, reports exactly when the levels before
      and after differ, and then reports the level the balance now falls
      under, which is lower than the level before. */
  lemma CrossingRule(levels: seq<int>, mapping: seq<int>, creditBalance: real, creditAmount: real, lastTopup: real)
    requires StrictlyAscending(levels) && IsNotificationMapping(levels, mapping)
    requires lastTopup > 0.0 && creditAmount >= 0.0
    ensures Dense(mapping)
    ensures
      var r := CheckAllLowCreditThresholds(mapping, creditBalance, creditAmount, Some(lastTopup));
      var after := LeastAtOrAbove(levels, CeilPercent(creditBalance, lastTopup));
      var before := LeastAtOrAbove(levels, CeilPercent(creditBalance + creditAmount, lastTopup));
      && r != UndefinedLevelError
      && (r.Alert? <==> after != before)
      && (r.Alert? ==> after.Some? && r.fraction * 100.0 == after.value as real)
      && (r.Alert? ==> before.None? || after.value < before.value)
  {
    CeilPercentMonotone(creditBalance, creditBalance + creditAmount, lastTopup);
    CompareLevelsOnDebit(levels, mapping,
      CeilPercent(creditBalance, lastTopup), CeilPercent(creditBalance + creditAmount, lastTopup));
  }

  /** For a debit, the undefined-level error needs a negative top-up on
      record: no top-up or a zero one reports nothing, and a positive one
      never leaves the tracked range. */
  lemma UndefinedLevelNeedsNegativeTopup(levels: seq<int>, mapping: seq<int>, creditBalance: real, creditAmount: real,
                                         lastTopup: Option<real>)
    requires StrictlyAscending(levels) && IsNotificationMapping(levels, mapping)
    requires creditAmount >= 0.0
    ensures CheckAllLowCreditThresholds(mapping, creditBalance, creditAmount, lastTopup).UndefinedLevelError? ==>
      lastTopup.Some? && lastTopup.value < 0.0
  {
    LookupIsStepFunction(levels, mapping, 0);
    if lastTopup.Some? && lastTopup.value > 0.0 {
      CrossingRule(levels, mapping, creditBalance, creditAmount, lastTopup.value);
    }
  }

  /** Between two percentages p <= q the step function changes exactly when a
      configured level lies in [p, q), and the level at p is then one of them. */
  lemma {:induction false} StepChangesIffLevelBetween(levels: seq<int>, p: int, q: int)
    requires p <= q
    ensures LeastAtOrAbove(levels, p) != LeastAtOrAbove(levels, q) <==> exists l :: l in levels && p <= l < q
    ensures LeastAtOrAbove(levels, p) != LeastAtOrAbove(levels, q) ==>
      LeastAtOrAbove(levels, p).Some? && LeastAtOrAbove(levels, p).value < q
  {
    var after := LeastAtOrAbove(levels, p);
    var before := LeastAtOrAbove(levels, q);
    if before.Some? {
      StepMonotone(levels, p, q);
    }
    if after != before {
      assert after.Some?;
      var v := after.value;
      assert v in levels && p <= v < q;
    }
  }

  /** For whole percents, the rounded-up percentage is at most a level exactly
      when the exact percentage is. */
  lemma CeilPercentAtMost(n: real, lastTopup: real, l: int)
    requires lastTopup != 0.0
    ensures CeilPercent(n, lastTopup) <= l <==> n * 100.0 / lastTopup <= l as real
  {
    CeilPercentBounds(n, lastTopup);
  }

  /** For a debit against a positive top-up, an alert is raised exactly when
      some configured level lies between the balance after the debit
      (inclusive) and the balance before it (exclusive), both as percentages
      of the top-up; the level reported is one such level. */
  lemma AlertIffLevelCrossed(levels: seq<int>, mapping: seq<int>, creditBalance: real, creditAmount: real, lastTopup: real)
    requires StrictlyAscending(levels) && IsNotificationMapping(levels, mapping)
    requires lastTopup > 0.0 && creditAmount >= 0.0
    ensures Dense(mapping)
    ensures
      var r := CheckAllLowCreditThresholds(mapping, creditBalance, creditAmount, Some(lastTopup));
      var pctAfter := Percent(creditBalance, lastTopup);
      var pctBefore := Percent(creditBalance + creditAmount, lastTopup);
      && (r.Alert? <==> exists l :: l in levels && pctAfter <= l as real < pctBefore)
      && (r.Alert? ==> exists l :: l in levels && r.fraction * 100.0 == l as real && pctAfter <= l as real < pctBefore)
  {
    CrossingRule(levels, mapping, creditBalance, creditAmount, lastTopup);
    var pctAfter := Percent(creditBalance, lastTopup);
    var pctBefore := Percent(creditBalance + creditAmount, lastTopup);
    var cAfter := CeilPercent(creditBalance, lastTopup);
    var cBefore := CeilPercent(creditBalance + creditAmount, lastTopup);
    CeilPercentMonotone(creditBalance, creditBalance + creditAmount, lastTopup);
    StepChangesIffLevelBetween(levels, cAfter, cBefore);
    forall l | l in levels ensures (pctAfter <= l as real < pctBefore) <==> (cAfter <= l < cBefore) {
      CeilPercentAtMost(creditBalance, lastTopup, l);
      CeilPercentAtMost(creditBalance + creditAmount, lastTopup, l);
    }
  }

  /** The step function for levels 10, 20 and 50: a percentage maps up to the
      next level at or above it, 5 to the lowest, 51 to none. */
  lemma LevelExamples(mapping: seq<int>)
    requires IsNotificationMapping([10, 20, 50], mapping)
    ensures Dense(mapping)
    ensures GetNotificationLevel(mapping, 5) == Some(10)
    ensures GetNotificationLevel(mapping, 10) == Some(10)
    ensures GetNotificationLevel(mapping, 15) == Some(20)
    ensures GetNotificationLevel(mapping, 20) == Some(20)
    ensures GetNotificationLevel(mapping, 35) == Some(50)
    ensures GetNotificationLevel(mapping, 51) == None
  {
    var levels := [10, 20, 50];
    assert StrictlyAscending(levels);
    LookupIsStepFunction(levels, mapping, 5);
    LookupIsStepFunction(levels, mapping, 10);
    LookupIsStepFunction(levels, mapping, 15);
    LookupIsStepFunction(levels, mapping, 20);
    LookupIsStepFunction(levels, mapping, 35);
    LookupIsStepFunction(levels, mapping, 51);
  }

  /** The levels of the percentages the crossing examples below meet. */
  lemma CrossingLevels(mapping: seq<int>)
    requires IsNotificationMapping([10, 20, 50], mapping)
    ensures Dense(mapping)
    ensures GetNotificationLevel(mapping, 19) == Some(20)
    ensures GetNotificationLevel(mapping, 21) == Some(50)
    ensures GetNotificationLevel(mapping, 45) == Some(50)
    ensures GetNotificationLevel(mapping, 48) == Some(50)
    ensures GetNotificationLevel(mapping, 55) == None
  {
    var levels := [10, 20, 50];
    assert StrictlyAscending(levels);
    LookupIsStepFunction(levels, mapping, 19);
    LookupIsStepFunction(levels, mapping, 21);
    LookupIsStepFunction(levels, mapping, 45);
    LookupIsStepFunction(levels, mapping, 48);
    LookupIsStepFunction(levels, mapping, 55);
  }

  /** The ceilings the worked examples below need. */
  lemma CeilPercentExamples()
    ensures CeilPercent(19.0, 100.0) == 19 && CeilPercent(21.0, 100.0) == 21
    ensures CeilPercent(45.0, 100.0) == 45 && CeilPercent(48.0, 100.0) == 48
    ensures CeilPercent(55.0, 100.0) == 55
    ensures CeilPercent(-60.0, -100.0) == 60 && CeilPercent(-40.0, -100.0) == 40
  {
  }

  /** Levels 10, 20 and 50 against a top-up of 100. From 21 to 19 the balance
      falls under 20 and is reported as 0.2; from 55 to 45 it enters the
      tracked range (55% has no level) and is reported as 0.5; from 48 to 45
      it stays under 50 and nothing is reported; a zero top-up reports
      nothing. */
  lemma CrossingExamples(mapping: seq<int>)
    requires IsNotificationMapping([10, 20, 50], mapping)
    ensures Dense(mapping)
    ensures CheckAllLowCreditThresholds(mapping, 19.0, 2.0, Some(100.0)) == Alert(0.2)
    ensures CheckAllLowCreditThresholds(mapping, 45.0, 10.0, Some(100.0)) == Alert(0.5)
    ensures CheckAllLowCreditThresholds(mapping, 45.0, 3.0, Some(100.0)) == NoAlert
    ensures CheckAllLowCreditThresholds(mapping, 19.0, 2.0, Some(0.0)) == NoAlert
  {
    CrossingLevels(mapping);
    CeilPercentExamples();
    assert CompareLevels(mapping, 19, 21) == Alert(0.2);
    assert CompareLevels(mapping, 45, 55) == Alert(0.5);
    assert CompareLevels(mapping, 45, 48) == NoAlert;
  }

  /** A negative last top-up reverses the order of the percentages: a debit
      can then move the balance from a tracked level (40% gives 50) to none
      (60% is above every level), and the check divides the undefined level. */
  lemma NegativeTopupUndefinedLevel(mapping: seq<int>)
    requires IsNotificationMapping([10, 20, 50], mapping)
    ensures Dense(mapping)
    ensures CheckAllLowCreditThresholds(mapping, -60.0, 20.0, Some(-100.0)) == UndefinedLevelError
  {
    var levels := [10, 20, 50];
    assert StrictlyAscending(levels);
    LookupIsStepFunction(levels, mapping, 60);
    LookupIsStepFunction(levels, mapping, 40);
    CeilPercentExamples();
  }

}
