/**
 The housing-subscription point score: three sub-scores (homeless period,
 dependents, subscription-account tenure), their total, and the tier the
 total falls in.

 Instants are integer milliseconds since the epoch, and the evaluation
 instant ("now") is a parameter. A year is 365.25 days, which is an exact
 whole number of milliseconds, so every "fewer than k years" test of the
 program becomes an exact integer comparison.
 */
module Calculator {
  import opened Wrappers
  import opened Ints

  /** Milliseconds in one 365.25-day year: 1000 * 60 * 60 * 24 * 365.25. */
  const MsPerYear: nat := 31_557_600_000

  /** Upper bounds of the homeless-period and dependents sub-scores. */
  const HomelessCap: int := 32
  const DependentsCap: int := 35

  /** The full score the program rates against (32 + 35 + 17). */
  const MaxTotal: int := 84

  /** Tier thresholds on the total score. */
  const HighThreshold: int := 60
  const MediumThreshold: int := 40

  datatype Level = Low | Medium | High

  /** The record handed to the result screen. */
  datatype ScoreResult = ScoreResult(
    totalScore: int,
    homelessScore: int,
    dependentsScore: int,
    subscriptionScore: int,
    level: Level)

  /** The inputs of one calculation, once the form's text fields have been
      parsed: whole homeless years, number of dependents, and the instant the
      subscription account was opened, `None` when the date text is not a
      valid date. */
  datatype ScoreInput = ScoreInput(
    homelessYears: int,
    dependents: int,
    subscriptionDate: Option<int>)

  /** Two points per homeless year, capped at 32. The result is the minimum of
      2h and the cap: it is bounded by both and equal to one of them. */
  function HomelessScore(homelessYears: int): (r: int)
    ensures r <= HomelessCap && r <= 2 * homelessYears
    ensures r == HomelessCap || r == 2 * homelessYears
    ensures 0 <= homelessYears <= 16 ==> r == 2 * homelessYears
    ensures homelessYears >= 16 ==> r == HomelessCap
    ensures homelessYears >= 0 ==> 0 <= r
  {
    Min(homelessYears * 2, HomelessCap)
  }

  /** Five points with no dependents and five more per dependent, capped at 35. */
  function DependentsScore(dependents: int): (r: int)
    ensures r <= DependentsCap && r <= 5 + 5 * dependents
    ensures r == DependentsCap || r == 5 + 5 * dependents
    ensures 0 <= dependents ==> 5 <= r <= DependentsCap
    ensures 0 <= dependents < 6 ==> r == 5 + 5 * dependents
    ensures dependents >= 6 ==> r == DependentsCap
  {
    Min(5 + dependents * 5, DependentsCap)
  }

  /** The tenure rule in closed form, over whole years elapsed: nothing below
      one year, k + 2 points for the k-th year (1 <= k <= 14), and 17 points
      from fifteen years on. */
  function StepScore(wholeYears: nat): int {
    if wholeYears == 0 then 0
    else if wholeYears >= 15 then 17
    else wholeYears + 2
  }

  /** The tenure score as the program computes it: a chain of sixteen
      "fewer than k years" tests, each one here an exact comparison of the
      elapsed milliseconds with k whole years. */
  function SubscriptionScore(elapsedMs: int): (r: int)
    ensures 0 <= r <= 17
    ensures r != 1 && r != 2
    ensures elapsedMs < MsPerYear ==> r == 0
    ensures elapsedMs >= 15 * MsPerYear ==> r == 17
    ensures elapsedMs >= 0 ==> r == StepScore(elapsedMs / MsPerYear)
  {
    if elapsedMs < 1 * MsPerYear then 0
    else if elapsedMs < 2 * MsPerYear then 3
    else if elapsedMs < 3 * MsPerYear then 4
    else if elapsedMs < 4 * MsPerYear then 5
    else if elapsedMs < 5 * MsPerYear then 6
    else if elapsedMs < 6 * MsPerYear then 7
    else if elapsedMs < 7 * MsPerYear then 8
    else if elapsedMs < 8 * MsPerYear then 9
    else if elapsedMs < 9 * MsPerYear then 10
    else if elapsedMs < 10 * MsPerYear then 11
    else if elapsedMs < 11 * MsPerYear then 12
    else if elapsedMs < 12 * MsPerYear then 13
    else if elapsedMs < 13 * MsPerYear then 14
    else if elapsedMs < 14 * MsPerYear then 15
    else if elapsedMs < 15 * MsPerYear then 16
    else 17
  }

  /** Every year from the first to the fourteenth is worth exactly k + 2 points
      throughout, which places 16 points on [14, 15) years. */
  lemma SubscriptionScoreOnYear(k: int, elapsedMs: int)
    requires 1 <= k <= 14
    requires k * MsPerYear <= elapsedMs < (k + 1) * MsPerYear
    ensures SubscriptionScore(elapsedMs) == k + 2
  {
    assert elapsedMs / MsPerYear == k;
  }

  /** A longer tenure never scores less. */
  lemma SubscriptionScoreMonotone(a: int, b: int)
    requires a <= b
    ensures SubscriptionScore(a) <= SubscriptionScore(b)
  {
    if 0 <= a {
      assert a / MsPerYear <= b / MsPerYear;
    }
  }

  /** The elapsed time between two instants: the absolute difference, so the
      order of the two dates does not matter. */
  function ElapsedMs(startMs: int, endMs: int): (d: nat)
    ensures d == endMs - startMs || d == startMs - endMs
    ensures startMs <= endMs ==> d == endMs - startMs
  {
    if endMs >= startMs then endMs - startMs else startMs - endMs
  }

  lemma ElapsedSymmetric(startMs: int, endMs: int)
    ensures ElapsedMs(startMs, endMs) == ElapsedMs(endMs, startMs)
  {
  }

  /** An account "opened" after the evaluation instant still gets a positive
      tenure, the distance to the future date. */
  lemma FutureSubscriptionHasPositiveTenure(subscriptionMs: int, nowMs: int)
    requires nowMs < subscriptionMs
    ensures ElapsedMs(subscriptionMs, nowMs) == subscriptionMs - nowMs > 0
  {
  }

  /** Tier bands: high from 60, medium from 40, low below. */
  function LevelOf(total: int): (l: Level)
    ensures l == High <==> total >= HighThreshold
    ensures l == Medium <==> MediumThreshold <= total < HighThreshold
    ensures l == Low <==> total < MediumThreshold
  {
    if total >= HighThreshold then High
    else if total >= MediumThreshold then Medium
    else Low
  }

  function Rank(l: Level): nat {
    match l
    case Low => 0
    case Medium => 1
    case High => 2
  }

  /** A higher total never lands in a lower tier. */
  lemma LevelMonotone(a: int, b: int)
    requires a <= b
    ensures Rank(LevelOf(a)) <= Rank(LevelOf(b))
  {
  }

  lemma LevelBoundaries()
    ensures LevelOf(39) == Low && LevelOf(40) == Medium
    ensures LevelOf(59) == Medium && LevelOf(60) == High
  {
  }

  /** One calculation. The tenure is measured from the account's opening to
      the single evaluation instant `nowMs`, read once for the whole result.
      An invalid subscription date makes the elapsed years NaN: every
      "fewer than k years" test is then false, and the chain falls through to
      its last value, the full 17 points. */
  function CalculateScore(input: ScoreInput, nowMs: int): (r: ScoreResult)
    ensures r.homelessScore == HomelessScore(input.homelessYears)
    ensures r.dependentsScore == DependentsScore(input.dependents)
    ensures input.subscriptionDate.Some? ==>
      r.subscriptionScore == SubscriptionScore(ElapsedMs(input.subscriptionDate.value, nowMs))
    ensures input.subscriptionDate.None? ==> r.subscriptionScore == 17
    ensures r.totalScore == r.homelessScore + r.dependentsScore + r.subscriptionScore
    ensures r.level == LevelOf(r.totalScore)
    ensures input.homelessYears >= 0 && input.dependents >= 0 ==> 5 <= r.totalScore <= MaxTotal
  {
    var homeless := HomelessScore(input.homelessYears);
    var dependents := DependentsScore(input.dependents);
    var subscription :=
      match input.subscriptionDate
      case Some(openedMs) => SubscriptionScore(ElapsedMs(openedMs, nowMs))
      case None => 17;
    var total := homeless + dependents + subscription;
    ScoreResult(total, homeless, dependents, subscription, LevelOf(total))
  }

  /** The stated maximum of 84 is reached: sixteen homeless years, six
      dependents and fifteen years of tenure. */
  lemma MaxTotalAttained(nowMs: int)
    ensures CalculateScore(ScoreInput(16, 6, Some(nowMs - 15 * MsPerYear)), nowMs).totalScore == MaxTotal
  {
  }

  /** Five homeless years, three dependents, ten years of tenure: 10 + 20 + 12,
      a medium result. */
  lemma MediumScenario(nowMs: int)
    ensures CalculateScore(ScoreInput(5, 3, Some(nowMs - 10 * MsPerYear)), nowMs)
      == ScoreResult(42, 10, 20, 12, Medium)
  {
  }

  /** No homeless years, no dependents, half a year of tenure: the minimum of 5. */
  lemma MinimumScenario(nowMs: int)
    ensures CalculateScore(ScoreInput(0, 0, Some(nowMs - MsPerYear / 2)), nowMs)
      == ScoreResult(5, 0, 5, 0, Low)
  {
  }
}
