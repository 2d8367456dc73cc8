/**
 * `TravelSpotRanker` of src/ranker.py: scores every catalogued spot, orders them by (score, rating)
 * with catalog order among full ties, and keeps the first `top_k`. The methods compute step by step
 * what `Ranking`, `Relevance`, `DescriptionScore` and `Explanation` define.
 */
module Ranker {
  import opened Wrappers
  import opened Text
  import opened IndexModel
  import opened QueryProcessing
  import opened Indexer
  import opened Scoring
  import opened Ordering

  /** The `ValueError` that `rank_spots` raises for `top_k < 1`. */
  datatype RankError = TopKBelowOne

  /** One `(spot_id, score, metadata)` tuple of the result. */
  datatype RankedSpot = RankedSpot(id: int, score: real, spot: Destination)

  /** The dictionary returned by `explain_score`, without the reason texts. */
  datatype ScoreExplanation = ScoreExplanation(spotId: int, spotName: string, components: seq<Component>)

  /** Every id of the key order has metadata. */
  predicate Catalogued(info: map<int, Destination>, order: seq<int>) {
    forall i :: 0 <= i < |order| ==> order[i] in info
  }

  /** The items of the `scores` dictionary, in its insertion order: one candidate per catalogued id. */
  function CandidatesOf(info: map<int, Destination>, order: seq<int>, c: Constraints, queryTerms: seq<string>): (r: seq<Candidate>)
    requires Catalogued(info, order)
    ensures |r| == |order|
  {
    seq(|order|, p requires 0 <= p < |order| =>
      Candidate(order[p], Relevance(info[order[p]], c, queryTerms), info[order[p]].rating, p))
  }

  /** A sorted candidate is the candidate of some catalog position. */
  lemma SortedCandidate(info: map<int, Destination>, order: seq<int>, c: Constraints, queryTerms: seq<string>, x: Candidate)
    requires Catalogued(info, order)
    requires x in Sort(CandidatesOf(info, order, c, queryTerms))
    ensures 0 <= x.position < |order| && x == CandidatesOf(info, order, c, queryTerms)[x.position]
    ensures x.id == order[x.position] && x.id in info
  {
    var cands := CandidatesOf(info, order, c, queryTerms);
    assert x in multiset(Sort(cands));
    assert x in multiset(cands);
    var p :| 0 <= p < |cands| && cands[p] == x;
  }

  /** The first `topK` entries of a sorted list, each with its metadata. */
  function TopEntries(info: map<int, Destination>, ranked: seq<Candidate>, topK: nat): (r: seq<RankedSpot>)
    requires forall j :: 0 <= j < |ranked| ==> ranked[j].id in info
  {
    var n := if topK < |ranked| then topK else |ranked|;
    seq(n, i requires 0 <= i < n => RankedSpot(ranked[i].id, ranked[i].score, info[ranked[i].id]))
  }

  /** Every sorted candidate's id has metadata. */
  lemma SortedIdsKnown(info: map<int, Destination>, order: seq<int>, c: Constraints, queryTerms: seq<string>)
    requires Catalogued(info, order)
    ensures forall j :: 0 <= j < |Sort(CandidatesOf(info, order, c, queryTerms))| ==>
      Sort(CandidatesOf(info, order, c, queryTerms))[j].id in info
  {
    var top := Sort(CandidatesOf(info, order, c, queryTerms));
    forall j | 0 <= j < |top| ensures top[j].id in info {
      SortedCandidate(info, order, c, queryTerms, top[j]);
    }
  }

  /** `rank_spots` without its error case: the first `topK` candidates in ranked order, with their metadata. */
  function Ranking(info: map<int, Destination>, order: seq<int>, c: Constraints, queryTerms: seq<string>, topK: nat): seq<RankedSpot>
    requires Catalogued(info, order)
  {
    SortedIdsKnown(info, order, c, queryTerms);
    TopEntries(info, Sort(CandidatesOf(info, order, c, queryTerms)), topK)
  }

  /** The sorted candidates of a catalog with distinct ids are ranked. */
  lemma SortedCandidatesRanked(info: map<int, Destination>, order: seq<int>, c: Constraints, queryTerms: seq<string>)
    requires Catalogued(info, order)
    ensures Ranked(Sort(CandidatesOf(info, order, c, queryTerms)))
  {
    SortRanked(CandidatesOf(info, order, c, queryTerms));
  }

  /**
   * The result has min(topK, number of spots) entries, each an id of the catalog with that id's
   * metadata and relevance.
   */
  lemma RankingEntries(info: map<int, Destination>, order: seq<int>, c: Constraints, queryTerms: seq<string>, topK: nat)
    requires Catalogued(info, order)
    ensures |Ranking(info, order, c, queryTerms, topK)| == if topK < |order| then topK else |order|
    ensures forall i :: 0 <= i < |Ranking(info, order, c, queryTerms, topK)| ==>
      var e := Ranking(info, order, c, queryTerms, topK)[i];
      e.id in order && e.id in info && e.spot == info[e.id] && e.score == Relevance(info[e.id], c, queryTerms)
  {
    var R := Ranking(info, order, c, queryTerms, topK);
    var top := Sort(CandidatesOf(info, order, c, queryTerms));
    forall i | 0 <= i < |R|
      ensures R[i].id in order && R[i].id in info && R[i].spot == info[R[i].id] && R[i].score == Relevance(info[R[i].id], c, queryTerms)
    {
      SortedCandidate(info, order, c, queryTerms, top[i]);
    }
  }

  /** No id appears twice in the result when the key order has no repeated id. */
  lemma RankingDistinctIds(info: map<int, Destination>, order: seq<int>, c: Constraints, queryTerms: seq<string>, topK: nat)
    requires Catalogued(info, order) && Distinct(order)
    ensures forall i, j :: 0 <= i < j < |Ranking(info, order, c, queryTerms, topK)| ==>
      Ranking(info, order, c, queryTerms, topK)[i].id != Ranking(info, order, c, queryTerms, topK)[j].id
  {
    var R := Ranking(info, order, c, queryTerms, topK);
    var top := Sort(CandidatesOf(info, order, c, queryTerms));
    SortedCandidatesRanked(info, order, c, queryTerms);
    forall i, j | 0 <= i < j < |R| ensures R[i].id != R[j].id {
      SortedCandidate(info, order, c, queryTerms, top[i]);
      SortedCandidate(info, order, c, queryTerms, top[j]);
      assert Outranks(top[i], top[j]);
    }
  }

  /**
   * The result is in descending (score, rating) order, and entries with equal score and rating
   * appear in catalog order.
   */
  lemma RankingOrdered(info: map<int, Destination>, order: seq<int>, c: Constraints, queryTerms: seq<string>, topK: nat, i: nat, j: nat)
    requires Catalogued(info, order)
    requires i < j < |Ranking(info, order, c, queryTerms, topK)|
    ensures var R := Ranking(info, order, c, queryTerms, topK);
      || R[i].score > R[j].score
      || (R[i].score == R[j].score && R[i].spot.rating > R[j].spot.rating)
      || (R[i].score == R[j].score && R[i].spot.rating == R[j].spot.rating
          && exists p, q :: 0 <= p < q < |order| && order[p] == R[i].id && order[q] == R[j].id)
  {
    var top := Sort(CandidatesOf(info, order, c, queryTerms));
    SortedCandidatesRanked(info, order, c, queryTerms);
    SortedCandidate(info, order, c, queryTerms, top[i]);
    SortedCandidate(info, order, c, queryTerms, top[j]);
    assert Outranks(top[i], top[j]);
  }

  /**
   * A catalogued spot left out of the result has a (score, rating) key no greater than that of
   * any spot in it.
   */
  lemma RankingDominates(info: map<int, Destination>, order: seq<int>, c: Constraints, queryTerms: seq<string>, topK: nat, p: nat)
    requires Catalogued(info, order) && Distinct(order)
    requires p < |order|
    requires forall i :: 0 <= i < |Ranking(info, order, c, queryTerms, topK)| ==> Ranking(info, order, c, queryTerms, topK)[i].id != order[p]
    ensures forall i :: 0 <= i < |Ranking(info, order, c, queryTerms, topK)| ==>
      var e := Ranking(info, order, c, queryTerms, topK)[i];
      var score := Relevance(info[order[p]], c, queryTerms);
      e.score > score || (e.score == score && e.spot.rating >= info[order[p]].rating)
  {
    var cands := CandidatesOf(info, order, c, queryTerms);
    var top := Sort(cands);
    var R := Ranking(info, order, c, queryTerms, topK);
    var m := PositionBelowCut(info, order, c, queryTerms, topK, p);
    SortedCandidatesRanked(info, order, c, queryTerms);
    forall i | 0 <= i < |R|
      ensures R[i].score > cands[p].score || (R[i].score == cands[p].score && R[i].spot.rating >= cands[p].rating)
    {
      SortedCandidate(info, order, c, queryTerms, top[i]);
      assert Outranks(top[i], top[m]);
    }
  }

  /** The sorted position of a catalogued spot missing from the result lies past the cut. */
  lemma PositionBelowCut(info: map<int, Destination>, order: seq<int>, c: Constraints, queryTerms: seq<string>, topK: nat, p: nat)
    returns (m: nat)
    requires Catalogued(info, order)
    requires p < |order|
    requires forall i :: 0 <= i < |Ranking(info, order, c, queryTerms, topK)| ==> Ranking(info, order, c, queryTerms, topK)[i].id != order[p]
    ensures |Ranking(info, order, c, queryTerms, topK)| <= m < |Sort(CandidatesOf(info, order, c, queryTerms))|
    ensures Sort(CandidatesOf(info, order, c, queryTerms))[m] == CandidatesOf(info, order, c, queryTerms)[p]
  {
    var cands := CandidatesOf(info, order, c, queryTerms);
    var top := Sort(cands);
    var R := Ranking(info, order, c, queryTerms, topK);
    assert cands[p] in multiset(top) by {
      assert cands[p] in multiset(cands);
    }
    m :| 0 <= m < |top| && top[m] == cands[p];
    assert m >= |R| by {
      assert forall i :: 0 <= i < |R| ==> R[i].id == top[i].id;
      assert top[m].id == order[p];
    }
  }

  class TravelSpotRanker {
    const indexer: TravelSpotIndexer

    constructor (indexer: TravelSpotIndexer)
      ensures this.indexer == indexer
    {
      this.indexer := indexer;
    }

    /**
     * `rank_spots`: the `ValueError` for `top_k < 1` before anything is scored; otherwise the
     * ranking of the indexer's catalog (its metadata map, in key order).
     */
    method RankSpots(c: Constraints, queryTerms: seq<string>, topK: int) returns (r: Result<seq<RankedSpot>, RankError>)
      requires indexer.Valid()
      ensures topK < 1 ==> r == Failure(TopKBelowOne)
      ensures topK >= 1 ==> Catalogued(indexer.destinationInfo, indexer.infoOrder)
                            && r == Success(Ranking(indexer.destinationInfo, indexer.infoOrder, c, queryTerms, topK))
    {
      if topK < 1 {
        return Failure(TopKBelowOne);
      }
      OrderSpec(indexer.indexedList);
      var info, order := indexer.destinationInfo, indexer.infoOrder;
      var candidates := ScoreCatalog(info, order, c, queryTerms);
      var ranked := Sort(candidates);
      SortedIdsKnown(info, order, c, queryTerms);
      var results := TakeTop(info, ranked, topK);
      return Success(results);
    }

    /** The scoring loop of `rank_spots`: `scores[spot_id] = score` for every item of the metadata map. */
    method ScoreCatalog(info: map<int, Destination>, order: seq<int>, c: Constraints, queryTerms: seq<string>)
      returns (candidates: seq<Candidate>)
      requires Catalogued(info, order)
      ensures candidates == CandidatesOf(info, order, c, queryTerms)
    {
      candidates := [];
      var p := 0;
      while p < |order|
        invariant 0 <= p <= |order|
        invariant candidates == CandidatesOf(info, order, c, queryTerms)[..p]
      {
        var spotId := order[p];
        var score := CalculateRelevanceScore(spotId, info[spotId], c, queryTerms);
        candidates := candidates + [Candidate(spotId, score, info[spotId].rating, p)];
        p := p + 1;
      }
    }

    /**
     * The result loop of `rank_spots`: for each of the first `topK` sorted entries, its metadata
     * as `get_spot_by_id` looks it up in the metadata map, kept when present (which it always is).
     */
    method TakeTop(info: map<int, Destination>, ranked: seq<Candidate>, topK: nat) returns (results: seq<RankedSpot>)
      requires forall j :: 0 <= j < |ranked| ==> ranked[j].id in info
      ensures |results| == if topK < |ranked| then topK else |ranked|
      ensures forall j :: 0 <= j < |results| ==> results[j].id == ranked[j].id && results[j].score == ranked[j].score
      ensures results == TopEntries(info, ranked, topK)
    {
      var n := if topK < |ranked| then topK else |ranked|;
      results := [];
      var k := 0;
      while k < n
        invariant 0 <= k <= n
        invariant results == TopEntries(info, ranked, topK)[..k]
      {
        var metadata := if ranked[k].id in info then Some(info[ranked[k].id]) else None;
        if metadata.Some? {
          results := results + [RankedSpot(ranked[k].id, ranked[k].score, metadata.value)];
        }
        k := k + 1;
      }
    }

    /** `_calculate_relevance_score`: the seven weighted factors added up one after another. */
    method CalculateRelevanceScore(spotId: int, metadata: Destination, c: Constraints, queryTerms: seq<string>) returns (score: real)
      ensures score == Relevance(metadata, c, queryTerms)
    {
      score := 0.0;
      if queryTerms != [] {
        var descScore := CalculateDescriptionMatchScore(metadata, queryTerms);
        score := score + descScore * DescriptionWeight;
      } else {
        score := score + Neutral * DescriptionWeight;
      }
      ghost var sum := DescriptionFactor(metadata, queryTerms);
      assert score == sum;
      if Given(c.budgetMax) {
        score := score + BudgetScore(metadata.budgetMin, metadata.budgetMax, c.budgetMax.value) * BudgetWeight;
      } else {
        score := score + Neutral * BudgetWeight;
      }
      sum := sum + BudgetFactor(metadata, c, BudgetWeight);
      assert score == sum;
      if c.moods != {} {
        score := score + MoodScore(metadata.moods, c.moods) * MoodWeight;
      } else {
        score := score + Neutral * MoodWeight;
      }
      sum := sum + MoodFactor(metadata, c, MoodWeight);
      assert score == sum;
      score := score + NameBoost(metadata.name) * NameWeight;
      sum := sum + NameBoost(metadata.name) * NameWeight;
      if c.bestMonths != {} {
        score := score + MonthsBoost(metadata.bestMonths, c.bestMonths) * MonthsWeight;
      } else {
        score := score + Neutral * MonthsWeight;
      }
      sum := sum + MonthsFactor(metadata, c, MonthsWeight);
      assert score == sum;
      if Given(c.durationDays) {
        score := score + DurationScore(metadata.durationDays, c.durationDays.value) * DurationWeight;
      } else {
        score := score + Neutral * DurationWeight;
      }
      sum := sum + DurationFactor(metadata, c, DurationWeight);
      assert score == sum;
      if Given(c.distanceKm) {
        score := score + DistanceScore(metadata.distanceKm, c.distanceKm.value) * DistanceWeight;
      } else {
        score := score + Neutral * DistanceWeight;
      }
    }

    /** `_calculate_description_match_score`: `match_count` summed over the terms, then normalised. */
    method CalculateDescriptionMatchScore(metadata: Destination, queryTerms: seq<string>) returns (r: real)
      ensures r == DescriptionScore(metadata, queryTerms)
    {
      if queryTerms == [] {
        return 0.5;
      }
      var nameLower := Lower(metadata.name);
      var descLower := Lower(metadata.description);
      var moodsText := Lower(Join(metadata.moods, " "));
      var matchCount: nat := 0;
      var i := 0;
      while i < |queryTerms|
        invariant 0 <= i <= |queryTerms|
        invariant matchCount == MatchPoints(metadata, queryTerms[..i])
      {
        var termLower := Lower(queryTerms[i]);
        if Contains(nameLower, termLower) {
          matchCount := matchCount + 3;
        } else if Contains(moodsText, termLower) {
          matchCount := matchCount + 2;
        } else if Contains(descLower, termLower) {
          matchCount := matchCount + 1;
        }
        assert queryTerms[..i + 1][..i] == queryTerms[..i];
        i := i + 1;
      }
      assert queryTerms[..i] == queryTerms;
      var maxPossible := 3 * |queryTerms|;
      r := if maxPossible > 0 then Min(matchCount as real / maxPossible as real, 1.0) else 0.5;
    }

    /**
     * `explain_score`: the six components, inserted in the source's order; an absent constraint
     * contributes half its weight.
     */
    method ExplainScore(spotId: int, metadata: Destination, c: Constraints) returns (e: ScoreExplanation)
      ensures e.spotId == spotId && e.spotName == metadata.name
      ensures e.components == Explanation(metadata, c)
    {
      var components: seq<Component> := [];
      var budget := if Given(c.budgetMax) then BudgetScore(metadata.budgetMin, metadata.budgetMax, c.budgetMax.value) else Neutral;
      components := components + [Component("budget", budget * ExplainBudgetWeight)];
      assert budget * ExplainBudgetWeight == BudgetFactor(metadata, c, ExplainBudgetWeight);
      var mood := if c.moods != {} then MoodScore(metadata.moods, c.moods) else Neutral;
      components := components + [Component("mood", mood * ExplainMoodWeight)];
      assert mood * ExplainMoodWeight == MoodFactor(metadata, c, ExplainMoodWeight);
      components := components + [Component("destination_type", NameBoost(metadata.name) * ExplainTypeWeight)];
      var months := if c.bestMonths != {} then MonthsBoost(metadata.bestMonths, c.bestMonths) else Neutral;
      components := components + [Component("best_months", months * ExplainMonthsWeight)];
      assert months * ExplainMonthsWeight == MonthsFactor(metadata, c, ExplainMonthsWeight);
      var duration := if Given(c.durationDays) then DurationScore(metadata.durationDays, c.durationDays.value) else Neutral;
      components := components + [Component("duration", duration * ExplainDurationWeight)];
      assert duration * ExplainDurationWeight == DurationFactor(metadata, c, ExplainDurationWeight);
      var distance := if Given(c.distanceKm) then DistanceScore(metadata.distanceKm, c.distanceKm.value) else Neutral;
      components := components + [Component("distance", distance * ExplainDistanceWeight)];
      assert distance * ExplainDistanceWeight == DistanceFactor(metadata, c, ExplainDistanceWeight);
      e := ScoreExplanation(spotId, metadata.name, components);
    }
  }
}
