/**
 * The scoring formulas of `TravelSpotRanker` (src/ranker.py): the six sub-scores, the weighted
 * relevance sum and the per-component explanation, as functions on exact reals. The ranker class
 * in ranker.dfy computes them step by step and is proved equal to these definitions.
 */
module Scoring {
  import opened Wrappers
  import opened Text
  import opened IndexModel
  import opened QueryProcessing

  function Min(a: real, b: real): real { if a <= b then a else b }
  function Max(a: real, b: real): real { if a >= b then a else b }
  function Abs(x: int): nat { if x < 0 then -x else x }

  /** Python truthiness of a numeric constraint: missing and 0 are both false. */
  predicate Given(o: Option<nat>) { o.Some? && o.value != 0 }

  // ---------------------------------------------------------------------------------------------
  // Sub-scores

  /**
   * `_calculate_budget_score`: full marks inside the spot's range, fixed steps for a small deficit,
   * a capped proportional penalty for a large one, and two levels for a budget above the range.
   * The caller only asks with a non-zero budget, which the division needs.
   */
  function BudgetScore(budgetMin: int, budgetMax: int, userBudget: int): (r: real)
    requires userBudget > 0
    ensures 0.3 <= r <= 1.0
    ensures r == 1.0 <==> budgetMin <= userBudget <= budgetMax
    ensures 0 < budgetMin - userBudget <= 500 ==> r == 0.85
    ensures 500 < budgetMin - userBudget <= 1000 ==> r == 0.75
    ensures budgetMin - userBudget > 1000 ==> r < 1.0
    ensures budgetMin <= userBudget && budgetMax < userBudget ==>
      (r == 0.5 <==> userBudget - budgetMax > budgetMax) && (r == 0.85 <==> userBudget - budgetMax <= budgetMax)
  {
    if budgetMin <= userBudget <= budgetMax then
      var bonus := Max(0.0, 1.0 - (budgetMin as real / userBudget as real) * 0.1);
      Min(1.0, 1.0 + bonus)
    else if userBudget < budgetMin then
      var deficit := budgetMin - userBudget;
      if deficit <= 500 then 0.85
      else if deficit <= 1000 then 0.75
      else
        var penalty := Min(DeficitRatio(deficit, budgetMin), 0.7);
        Max(0.3, 1.0 - penalty)
    else
      var overage := userBudget - budgetMax;
      if overage > budgetMax then 0.5 else 0.85
  }

  /**
   * Inside the range the affordability bonus is capped away: a cheaper range earns no more than a
   * dearer one that also contains the budget.
   */
  lemma AffordabilityBonusIsCapped(cheapMin: int, cheapMax: int, dearMin: int, dearMax: int, userBudget: int)
    requires userBudget > 0 && cheapMin < dearMin
    requires cheapMin <= userBudget <= cheapMax && dearMin <= userBudget <= dearMax
    ensures BudgetScore(cheapMin, cheapMax, userBudget) == BudgetScore(dearMin, dearMax, userBudget) == 1.0
  {
  }

  /**
   * Beyond a deficit of 1000 the penalty is the deficit relative to the minimum, so against a large
   * minimum a spot far over the budget scores above one that is only 500 over.
   */
  lemma FarOverBudgetCanOutscoreNear(budgetMin: int, budgetMax: int, userBudget: int)
    requires userBudget > 0 && budgetMin - userBudget > 1000
    requires (budgetMin - userBudget) * 20 < budgetMin * 3
    ensures BudgetScore(budgetMin, budgetMax, userBudget) > BudgetScore(userBudget + 500, budgetMax, userBudget) == 0.85
  {
    var deficit := budgetMin - userBudget;
    var q := DeficitRatio(deficit, budgetMin);
    var m := budgetMin as real;
    assert q < 0.15 by {
      QuotientBelow(deficit as real, m, 0.15);
    }
    assert BudgetScore(budgetMin, budgetMax, userBudget) == 1.0 - q;
  }

  /** `a / b < c` for a positive divisor when `a < c * b`. */
  lemma QuotientBelow(a: real, b: real, c: real)
    requires b > 0.0 && a < c * b
    ensures a / b < c
  {
    var q := a / b;
    assert q * b == a;
    assert (q - c) * b < 0.0;
  }

  /** The smallest such case: 1001 over a minimum of 101001 scores above 500 over. */
  lemma FarOverBudgetExample()
    ensures BudgetScore(101001, 200000, 100000) > BudgetScore(100500, 200000, 100000) == 0.85
  {
    FarOverBudgetCanOutscoreNear(101001, 200000, 100000);
  }

  /** `deficit / budget_min`, positive for a positive deficit on a positive minimum. */
  function DeficitRatio(deficit: int, budgetMin: int): (r: real)
    requires deficit > 0 && budgetMin > 0
    ensures r > 0.0
  {
    deficit as real / budgetMin as real
  }

  /** The number of requested items the spot offers, over the number requested. */
  function SharedFraction(wanted: set<string>, offered: seq<string>): (r: real)
    requires wanted != {}
    ensures 0.0 <= r <= 1.0
    ensures r == 1.0 <==> wanted <= Elements(offered)
    ensures r == 0.0 <==> wanted !! Elements(offered)
  {
    SharedCount(wanted, Elements(offered));
    FractionOfWhole(|wanted * Elements(offered)|, |wanted|);
    |wanted * Elements(offered)| as real / |wanted| as real
  }

  /** A part over a positive whole lies in [0, 1], is 1 only for the whole and 0 only for nothing. */
  lemma FractionOfWhole(part: nat, whole: nat)
    requires 0 < whole && part <= whole
    ensures 0.0 <= part as real / whole as real <= 1.0
    ensures part as real / whole as real == 1.0 <==> part == whole
    ensures part as real / whole as real == 0.0 <==> part == 0
  {
    var f := part as real / whole as real;
    assert f * whole as real == part as real;
  }

  /** How many of `a` are also in `b`: at most all of `a`, all of `a` exactly when `a <= b`. */
  lemma SharedCount(a: set<string>, b: set<string>)
    ensures |a * b| <= |a|
    ensures |a * b| == |a| <==> a <= b
    ensures |a * b| == 0 <==> a !! b
  {
    assert |a - b| == |a| - |a * b|;
    if |a * b| == |a| {
      assert a - b == {};
      forall x | x in a ensures x in b {
        assert x !in a - b;
      }
    }
    if |a * b| == 0 {
      assert a * b == {};
      forall x | x in a ensures x !in b {
        assert x !in a * b;
      }
    }
    if a !! b {
      assert a * b == {};
    }
  }

  /**
   * `_calculate_mood_score`: the fraction of the requested moods that the spot has; 1.0 when none
   * is requested. The requested moods are distinct (they come out of a set).
   */
  function MoodScore(spotMoods: seq<string>, userMoods: set<string>): (r: real)
    ensures 0.0 <= r <= 1.0
    ensures r == 1.0 <==> userMoods <= Elements(spotMoods)
    ensures userMoods != {} ==> (r == 0.0 <==> userMoods !! Elements(spotMoods))
  {
    if userMoods == {} then 1.0 else SharedFraction(userMoods, spotMoods)
  }

  /** `_calculate_months_boost`: 0.5 when either side is empty, else the fraction of wanted months the spot lists. */
  function MonthsBoost(spotMonths: seq<string>, userMonths: set<string>): (r: real)
    ensures 0.0 <= r <= 1.0
    ensures userMonths != {} && spotMonths != [] ==> (r == 1.0 <==> userMonths <= Elements(spotMonths))
    ensures userMonths == {} || spotMonths == [] ==> r == 0.5
  {
    if userMonths == {} || spotMonths == [] then 0.5 else Min(1.0, SharedFraction(userMonths, spotMonths))
  }

  /** `_calculate_duration_score`: 1.0, 0.9 and 0.7 for a gap of 0, 1 and 2 days, then `1 - gap / 10` down to 0.4, so a gap of 3 also scores 0.7. */
  function DurationScore(spotDuration: int, userDuration: int): (r: real)
    ensures 0.4 <= r <= 1.0
    ensures r == 1.0 <==> spotDuration == userDuration
    ensures Abs(spotDuration - userDuration) == 1 ==> r == 0.9
    ensures 2 <= Abs(spotDuration - userDuration) <= 3 ==> r == 0.7
    ensures Abs(spotDuration - userDuration) == 4 ==> r == 0.6
    ensures Abs(spotDuration - userDuration) == 5 ==> r == 0.5
    ensures r == 0.4 <==> Abs(spotDuration - userDuration) >= 6
  {
    var diff := Abs(spotDuration - userDuration);
    if diff == 0 then 1.0
    else if diff <= 1 then 0.9
    else if diff <= 2 then 0.7
    else Max(0.4, 1.0 - diff as real * 0.1)
  }

  /** The duration score depends only on the size of the gap, not on which side is longer. */
  lemma DurationScoreSymmetric(a: int, b: int)
    ensures DurationScore(a, b) == DurationScore(b, a)
  {
    assert Abs(a - b) == Abs(b - a);
  }

  /** A spot whose duration is closer to the requested one never scores lower. */
  lemma DurationScoreCloserIsBetter(a: int, b: int, user: int)
    requires Abs(a - user) <= Abs(b - user)
    ensures DurationScore(a, user) >= DurationScore(b, user)
  {
  }

  /**
   * `_calculate_distance_score`: within the limit, 1.0 less up to 0.3 in proportion to the distance;
   * beyond it, 1.0 less the excess over the limit, the penalty capped at 0.5. The caller only asks
   * with a non-zero limit, which the division needs.
   */
  function DistanceScore(spotDistance: int, maxDistance: int): (r: real)
    requires maxDistance > 0
    ensures spotDistance <= maxDistance ==> 0.7 <= r <= 1.0
    ensures spotDistance > maxDistance ==> 0.5 <= r < 1.0
  {
    if spotDistance <= maxDistance then
      var proximity := 1.0 - Proportion(spotDistance, maxDistance) * 0.3;
      Min(1.0, proximity)
    else
      var excess := spotDistance - maxDistance;
      var penalty := Min(Proportion(excess, maxDistance), 0.5);
      Max(0.3, 1.0 - penalty)
  }

  /** `part / whole` for a positive whole: at most 1 when the part is, positive when the part is. */
  function Proportion(part: int, whole: int): (r: real)
    requires whole > 0
    ensures part <= whole ==> r <= 1.0
    ensures part > 0 ==> r > 0.0
    ensures part >= 0 ==> r >= 0.0
  {
    part as real / whole as real
  }

  /** Inside the limit, a nearer spot never scores lower. */
  lemma DistanceScoreNearerIsBetter(a: int, b: int, maxDistance: int)
    requires maxDistance > 0 && a <= b <= maxDistance
    ensures DistanceScore(a, maxDistance) >= DistanceScore(b, maxDistance)
  {
    ProportionMonotone(a, b, maxDistance);
  }

  lemma ProportionMonotone(a: int, b: int, whole: int)
    requires whole > 0 && a <= b
    ensures Proportion(a, whole) <= Proportion(b, whole)
  {
    var w := whole as real;
    assert a as real / w * w == a as real;
    assert b as real / w * w == b as real;
  }

  /**
   * The score is not monotone across the limit: a spot exactly at the limit gets 0.7 while one a
   * kilometre beyond a limit of 4 km or more gets at least 0.75.
   */
  lemma DistanceJustBeyondLimitOutscoresLimit(maxDistance: int)
    requires maxDistance >= 4
    ensures DistanceScore(maxDistance, maxDistance) == 0.7
    ensures DistanceScore(maxDistance + 1, maxDistance) > DistanceScore(maxDistance, maxDistance)
  {
    var m := maxDistance as real;
    assert Proportion(maxDistance, maxDistance) == 1.0;
    assert Proportion(1, maxDistance) == 1.0 / m;
    assert 1.0 / m <= 0.25 by {
      assert 1.0 / m * m == 1.0;
    }
  }

  /** The name keywords of the three boost tiers, highest first. */
  const PrimaryTypes: seq<string> := ["beach", "backwater", "spiritual", "devotion"]
  const SecondaryTypes: seq<string> := ["hill", "mountain", "snow", "leh", "ladakh", "yoga"]
  const SpecialtyTypes: seq<string> := ["night", "life", "city", "tour"]

  /**
   * `_calculate_name_boost`: the boost of the first tier with a keyword in the lower-cased name;
   * a name without any keyword gets the neutral 0.5. The constraints are not consulted.
   */
  function NameBoost(spotName: string): (r: real)
    ensures r in {0.9, 0.85, 0.75, 0.5}
    ensures r > 0.5 <==> ContainsAny(Lower(spotName), PrimaryTypes + SecondaryTypes + SpecialtyTypes)
  {
    var name := Lower(spotName);
    ContainsAnyConcat(name, PrimaryTypes, SecondaryTypes);
    ContainsAnyConcat(name, PrimaryTypes + SecondaryTypes, SpecialtyTypes);
    if ContainsAny(name, PrimaryTypes) then 0.9
    else if ContainsAny(name, SecondaryTypes) then 0.85
    else if ContainsAny(name, SpecialtyTypes) then 0.75
    else 0.5
  }

  lemma ContainsAnyConcat(s: string, a: seq<string>, b: seq<string>)
    ensures ContainsAny(s, a + b) <==> ContainsAny(s, a) || ContainsAny(s, b)
  {
    if ContainsAny(s, a + b) {
      var k :| 0 <= k < |a + b| && Contains(s, (a + b)[k]);
      if k >= |a| {
        assert Contains(s, b[k - |a|]);
      }
    }
    if ContainsAny(s, a) {
      var k :| 0 <= k < |a| && Contains(s, a[k]);
      assert (a + b)[k] == a[k];
    }
    if ContainsAny(s, b) {
      var k :| 0 <= k < |b| && Contains(s, b[k]);
      assert (a + b)[|a| + k] == b[k];
    }
  }

  /** A primary keyword wins over any lower-tier keyword in the same name. */
  lemma PrimaryTierWins(spotName: string)
    requires ContainsAny(Lower(spotName), PrimaryTypes)
    ensures NameBoost(spotName) == 0.9
  {
  }

  /** Without a primary keyword, a secondary keyword gives 0.85 whatever specialty keyword is present. */
  lemma SecondaryTierWins(spotName: string)
    requires !ContainsAny(Lower(spotName), PrimaryTypes)
    requires ContainsAny(Lower(spotName), SecondaryTypes)
    ensures NameBoost(spotName) == 0.85
  {
  }

  /** A specialty keyword gives 0.75 only when no higher-tier keyword is present. */
  lemma SpecialtyTierOnlyAlone(spotName: string)
    requires ContainsAny(Lower(spotName), SpecialtyTypes)
    ensures NameBoost(spotName) == 0.75
      <==> !ContainsAny(Lower(spotName), PrimaryTypes) && !ContainsAny(Lower(spotName), SecondaryTypes)
  {
  }

  // ---------------------------------------------------------------------------------------------
  // Description match

  /** The points of one query term: 3 in the name, else 2 in the moods, else 1 in the description. */
  function TermPoints(spot: Destination, term: string): (r: nat)
    ensures r <= 3
    ensures r == 3 <==> Contains(Lower(spot.name), Lower(term))
  {
    var t := Lower(term);
    if Contains(Lower(spot.name), t) then 3
    else if Contains(Lower(Join(spot.moods, " ")), t) then 2
    else if Contains(Lower(spot.description), t) then 1
    else 0
  }

  /** `match_count` after the terms of `terms`, in order. */
  function MatchPoints(spot: Destination, terms: seq<string>): nat
  {
    if terms == [] then 0 else MatchPoints(spot, terms[..|terms| - 1]) + TermPoints(spot, terms[|terms| - 1])
  }

  /** Every term scores at most 3, and all score 3 exactly when every term occurs in the name. */
  lemma {:induction false} MatchPointsBound(spot: Destination, terms: seq<string>)
    ensures MatchPoints(spot, terms) <= 3 * |terms|
    ensures MatchPoints(spot, terms) == 3 * |terms| <==> forall i :: 0 <= i < |terms| ==> Contains(Lower(spot.name), Lower(terms[i]))
  {
    if terms != [] {
      var init := terms[..|terms| - 1];
      MatchPointsBound(spot, init);
      assert forall i :: 0 <= i < |init| ==> init[i] == terms[i];
    }
  }

  /** The points depend only on the name, the moods and the description. */
  lemma {:induction false} MatchPointsOfSameText(a: Destination, b: Destination, terms: seq<string>)
    requires a.name == b.name && a.moods == b.moods && a.description == b.description
    ensures MatchPoints(a, terms) == MatchPoints(b, terms)
  {
    if terms != [] {
      MatchPointsOfSameText(a, b, terms[..|terms| - 1]);
    }
  }

  /**
   * `_calculate_description_match_score`: the points over the best possible points (3 per term),
   * capped at 1; 0.5 for no terms.
   */
  function DescriptionScore(spot: Destination, terms: seq<string>): (r: real)
    ensures 0.0 <= r <= 1.0
    ensures terms != [] ==> (r == 1.0 <==> forall i :: 0 <= i < |terms| ==> Contains(Lower(spot.name), Lower(terms[i])))
  {
    if terms == [] then 0.5
    else
      MatchPointsBound(spot, terms);
      FractionOfWhole(MatchPoints(spot, terms), 3 * |terms|);
      Min(MatchPoints(spot, terms) as real / (3 * |terms|) as real, 1.0)
  }

  // ---------------------------------------------------------------------------------------------
  // Relevance

  const DescriptionWeight: real := 0.30
  const BudgetWeight: real := 0.25
  const MoodWeight: real := 0.20
  const NameWeight: real := 0.15
  const MonthsWeight: real := 0.05
  const DurationWeight: real := 0.03
  const DistanceWeight: real := 0.02

  /** The neutral sub-score used for a constraint the query did not give. */
  const Neutral: real := 0.5

  /** One weighted factor: the sub-score when its constraint is given, the neutral 0.5 otherwise. */
  function Factor(given: bool, subScore: real, weight: real): (r: real)
    requires 0.0 <= subScore <= 1.0 && weight >= 0.0
    ensures 0.0 <= r <= weight
  {
    (if given then subScore else Neutral) * weight
  }

  function DescriptionFactor(spot: Destination, queryTerms: seq<string>): real {
    Factor(queryTerms != [], DescriptionScore(spot, queryTerms), DescriptionWeight)
  }

  function BudgetFactor(spot: Destination, c: Constraints, weight: real): (r: real)
    requires weight >= 0.0
    ensures 0.0 <= r <= weight
    ensures !Given(c.budgetMax) ==> r == Neutral * weight
  {
    Factor(Given(c.budgetMax), if Given(c.budgetMax) then BudgetScore(spot.budgetMin, spot.budgetMax, c.budgetMax.value) else 0.0, weight)
  }

  function MoodFactor(spot: Destination, c: Constraints, weight: real): (r: real)
    requires weight >= 0.0
    ensures 0.0 <= r <= weight
    ensures c.moods == {} ==> r == Neutral * weight
  {
    Factor(c.moods != {}, MoodScore(spot.moods, c.moods), weight)
  }

  function MonthsFactor(spot: Destination, c: Constraints, weight: real): (r: real)
    requires weight >= 0.0
    ensures 0.0 <= r <= weight
    ensures c.bestMonths == {} ==> r == Neutral * weight
  {
    Factor(c.bestMonths != {}, MonthsBoost(spot.bestMonths, c.bestMonths), weight)
  }

  function DurationFactor(spot: Destination, c: Constraints, weight: real): (r: real)
    requires weight >= 0.0
    ensures 0.0 <= r <= weight
    ensures !Given(c.durationDays) ==> r == Neutral * weight
  {
    Factor(Given(c.durationDays), if Given(c.durationDays) then DurationScore(spot.durationDays, c.durationDays.value) else 0.0, weight)
  }

  function DistanceFactor(spot: Destination, c: Constraints, weight: real): (r: real)
    requires weight >= 0.0
    ensures 0.0 <= r <= weight
    ensures !Given(c.distanceKm) ==> r == Neutral * weight
  {
    Factor(Given(c.distanceKm), if Given(c.distanceKm) then DistanceScore(spot.distanceKm, c.distanceKm.value) else 0.0, weight)
  }

  /** `_calculate_relevance_score`, factor by factor in the source's order. */
  function Relevance(spot: Destination, c: Constraints, queryTerms: seq<string>): (r: real)
    ensures 0.0 <= r <= 1.0
  {
    DescriptionFactor(spot, queryTerms)
    + BudgetFactor(spot, c, BudgetWeight)
    + MoodFactor(spot, c, MoodWeight)
    + NameBoost(spot.name) * NameWeight
    + MonthsFactor(spot, c, MonthsWeight)
    + DurationFactor(spot, c, DurationWeight)
    + DistanceFactor(spot, c, DistanceWeight)
  }

  /** The seven relevance weights sum to one. */
  lemma RelevanceWeightsSumToOne()
    ensures DescriptionWeight + BudgetWeight + MoodWeight + NameWeight + MonthsWeight + DurationWeight + DistanceWeight == 1.0
  {
  }

  /** With nothing asked, the only thing that separates spots is the name boost. */
  lemma RelevanceWithoutConstraints(spot: Destination)
    ensures Relevance(spot, NoConstraints, []) == 0.425 + 0.15 * NameBoost(spot.name)
  {
  }

  /**
   * Two spots that differ only in their budget range: the one whose range holds the requested
   * budget has the higher relevance.
   */
  lemma BudgetFitRaisesRelevance(spot: Destination, budgetMin: int, budgetMax: int, c: Constraints, queryTerms: seq<string>)
    requires Given(c.budgetMax)
    requires spot.budgetMin <= c.budgetMax.value <= spot.budgetMax
    requires !(budgetMin <= c.budgetMax.value <= budgetMax)
    ensures Relevance(spot, c, queryTerms) > Relevance(spot.(budgetMin := budgetMin, budgetMax := budgetMax), c, queryTerms)
  {
    var other := spot.(budgetMin := budgetMin, budgetMax := budgetMax);
    MatchPointsOfSameText(spot, other, queryTerms);
    assert BudgetFactor(spot, c, BudgetWeight) > BudgetFactor(other, c, BudgetWeight) by {
      assert BudgetScore(other.budgetMin, other.budgetMax, c.budgetMax.value) < 1.0;
    }
  }

  // ---------------------------------------------------------------------------------------------
  // Explanation

  /** One entry of `explanation['components']`: its key and its (unrounded) weighted score. */
  datatype Component = Component(key: string, score: real)

  const ExplainBudgetWeight: real := 0.25
  const ExplainMoodWeight: real := 0.25
  const ExplainTypeWeight: real := 0.20
  const ExplainMonthsWeight: real := 0.15
  const ExplainDurationWeight: real := 0.10
  const ExplainDistanceWeight: real := 0.05

  /** The component keys, in the order `explain_score` inserts them. */
  const ComponentKeys: seq<string> := ["budget", "mood", "destination_type", "best_months", "duration", "distance"]

  /** The components `explain_score` reports for a spot, with its own weights and no description factor. */
  function Explanation(spot: Destination, c: Constraints): seq<Component> {
    [ Component("budget", BudgetFactor(spot, c, ExplainBudgetWeight)),
      Component("mood", MoodFactor(spot, c, ExplainMoodWeight)),
      Component("destination_type", NameBoost(spot.name) * ExplainTypeWeight),
      Component("best_months", MonthsFactor(spot, c, ExplainMonthsWeight)),
      Component("duration", DurationFactor(spot, c, ExplainDurationWeight)),
      Component("distance", DistanceFactor(spot, c, ExplainDistanceWeight)) ]
  }

  function ComponentTotal(cs: seq<Component>): real {
    if cs == [] then 0.0 else cs[0].score + ComponentTotal(cs[1..])
  }

  /** The total of six components, written out. */
  lemma TotalOfSix(cs: seq<Component>)
    requires |cs| == 6
    ensures ComponentTotal(cs) == cs[0].score + cs[1].score + cs[2].score + cs[3].score + cs[4].score + cs[5].score
  {
    assert cs[0..] == cs;
    TotalStep(cs, 0);
    TotalStep(cs, 1);
    TotalStep(cs, 2);
    TotalStep(cs, 3);
    TotalStep(cs, 4);
    TotalStep(cs, 5);
    assert cs[6..] == [];
  }

  lemma TotalStep(cs: seq<Component>, k: nat)
    requires k < |cs|
    ensures ComponentTotal(cs[k..]) == cs[k].score + ComponentTotal(cs[k + 1..])
  {
    assert cs[k..][1..] == cs[k + 1..];
  }

  /** Every explanation has the same six keys, each score within [0, its weight], summing to at most 1. */
  lemma ExplanationShape(spot: Destination, c: Constraints)
    ensures |Explanation(spot, c)| == |ComponentKeys|
    ensures forall i :: 0 <= i < |ComponentKeys| ==> Explanation(spot, c)[i].key == ComponentKeys[i]
    ensures forall i :: 0 <= i < |ComponentKeys| ==> Explanation(spot, c)[i].score >= 0.0
    ensures 0.0 <= ComponentTotal(Explanation(spot, c)) <= 1.0
  {
    TotalOfSix(Explanation(spot, c));
  }

  /** An absent constraint is explained by half its weight. */
  lemma ExplanationOfAbsentConstraints(spot: Destination)
    ensures Explanation(spot, NoConstraints) == [
      Component("budget", 0.125), Component("mood", 0.125), Component("destination_type", 0.2 * NameBoost(spot.name)),
      Component("best_months", 0.075), Component("duration", 0.05), Component("distance", 0.025)]
  {
  }

  /** Each component whose constraint the query left out is half its weight, whatever the others are. */
  lemma ExplanationOfEachAbsentConstraint(spot: Destination, c: Constraints)
    ensures !Given(c.budgetMax) ==> Explanation(spot, c)[0].score == 0.125
    ensures c.moods == {} ==> Explanation(spot, c)[1].score == 0.125
    ensures c.bestMonths == {} ==> Explanation(spot, c)[3].score == 0.075
    ensures !Given(c.durationDays) ==> Explanation(spot, c)[4].score == 0.05
    ensures !Given(c.distanceKm) ==> Explanation(spot, c)[5].score == 0.025
  {
  }

  /**
   * The explanation uses other weights than the relevance score: with no constraints, the two
   * totals differ exactly for the spots whose names earn a boost.
   */
  lemma ExplanationDisagreesWithRelevance(spot: Destination)
    ensures ComponentTotal(Explanation(spot, NoConstraints)) != Relevance(spot, NoConstraints, [])
      <==> NameBoost(spot.name) > 0.5
  {
    ExplanationOfAbsentConstraints(spot);
    RelevanceWithoutConstraints(spot);
    TotalOfSix(Explanation(spot, NoConstraints));
  }
}
