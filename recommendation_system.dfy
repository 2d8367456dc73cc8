/**
 * `TravelSpotRecommendationSystem` of src/recommendation_system.py: interprets the query, ranks the
 * catalog by the resulting constraints and numbers the ranked entries from 1.
 */
module Recommendation {
  import opened Wrappers
  import opened Text
  import opened IndexModel
  import opened QueryProcessing
  import opened Indexer
  import opened Scoring
  import opened Ranker

  /** One entry of `recommendations` (the relevance score is not rounded here). */
  datatype RecommendationEntry = RecommendationEntry(
    rank: nat,
    spotId: int,
    name: string,
    relevanceScore: real,
    moods: seq<string>,
    budgetRange: string,
    budgetMin: int,
    budgetMax: int,
    durationDays: int,
    distanceKm: int,
    rating: real,
    bestMonths: seq<string>,
    description: string)

  /** The dictionary returned by `recommend_with_explanation`. */
  datatype Response = Response(recommendations: seq<RecommendationEntry>, totalResults: nat, parsedConstraints: Constraints)

  /** One entry of `get_all_spots`. */
  datatype SpotSummary = SpotSummary(
    id: int,
    name: string,
    moods: seq<string>,
    budget: string,
    budgetMin: int,
    budgetMax: int,
    duration: string,
    durationDays: int,
    distance: string,
    distanceKm: int,
    rating: real,
    bestMonths: seq<string>,
    description: string)

  /** The rupee sign that prefixes every budget range. */
  const Rupee: char := '\U{20B9}'

  /** `f"₹{budget_min}-{budget_max}"` */
  function BudgetRange(spot: Destination): string {
    [Rupee] + IntToString(spot.budgetMin) + "-" + IntToString(spot.budgetMax)
  }

  /** The entry for the ranked spot at 1-based position `position`. */
  function EntryOf(position: nat, r: RankedSpot): RecommendationEntry {
    var d := r.spot;
    RecommendationEntry(position, r.id, d.name, r.score, d.moods, BudgetRange(d), d.budgetMin, d.budgetMax,
                        d.durationDays, d.distanceKm, d.rating, d.bestMonths, d.description)
  }

  /** The entries of a ranked list, numbered from 1 in its order. */
  function Formatted(ranked: seq<RankedSpot>): seq<RecommendationEntry> {
    seq(|ranked|, i requires 0 <= i < |ranked| => EntryOf(i + 1, ranked[i]))
  }

  function SummaryOf(d: Destination): SpotSummary {
    SpotSummary(d.id, d.name, d.moods, BudgetRange(d), d.budgetMin, d.budgetMax,
                IntToString(d.durationDays) + " days", d.durationDays,
                IntToString(d.distanceKm) + " km", d.distanceKm,
                d.rating, d.bestMonths, d.description)
  }

  /** Entry `i` of the formatted list describes ranked spot `i` and carries rank `i + 1`. */
  lemma FormattedEntries(ranked: seq<RankedSpot>)
    ensures |Formatted(ranked)| == |ranked|
    ensures forall i :: 0 <= i < |ranked| ==>
      var e := Formatted(ranked)[i];
      e.rank == i + 1 && e.spotId == ranked[i].id && e.relevanceScore == ranked[i].score && e.name == ranked[i].spot.name
  {
  }

  /**
   * What the pipeline returns for constraints `c`: ranks 1..n with n = min(topK, catalog size),
   * each entry a catalogued spot with its name and a relevance within [0, 1], and no spot twice.
   */
  lemma RecommendationsAreNumbered(info: map<int, Destination>, order: seq<int>, c: Constraints, topK: nat)
    requires Catalogued(info, order) && Distinct(order)
    ensures var recs := Formatted(Ranking(info, order, c, [], topK));
      && |recs| == (if topK < |order| then topK else |order|)
      && (forall i :: 0 <= i < |recs| ==> recs[i].rank == i + 1)
      && (forall i :: 0 <= i < |recs| ==> recs[i].spotId in info && recs[i].name == info[recs[i].spotId].name
                                          && 0.0 <= recs[i].relevanceScore <= 1.0)
      && (forall i, j :: 0 <= i < j < |recs| ==> recs[i].spotId != recs[j].spotId)
  {
    var R := Ranking(info, order, c, [], topK);
    FormattedEntries(R);
    RankingEntries(info, order, c, [], topK);
    RankingDistinctIds(info, order, c, [], topK);
  }

  /** Relevance never increases down the list of recommendations. */
  lemma RecommendationsDescend(info: map<int, Destination>, order: seq<int>, c: Constraints, topK: nat, i: nat, j: nat)
    requires Catalogued(info, order)
    requires i < j < |Ranking(info, order, c, [], topK)|
    ensures var recs := Formatted(Ranking(info, order, c, [], topK));
      recs[i].relevanceScore >= recs[j].relevanceScore
  {
    FormattedEntries(Ranking(info, order, c, [], topK));
    RankingOrdered(info, order, c, [], topK, i, j);
  }

  /** The enumerate loop of `recommend_with_explanation`: numbers the ranked spots from 1. */
  method FormatRanked(ranked: seq<RankedSpot>) returns (formatted: seq<RecommendationEntry>)
    ensures formatted == Formatted(ranked)
  {
    formatted := [];
    var i := 0;
    while i < |ranked|
      invariant 0 <= i <= |ranked|
      invariant |formatted| == i
      invariant forall j :: 0 <= j < i ==> formatted[j] == EntryOf(j + 1, ranked[j])
    {
      var position := i + 1;
      formatted := formatted + [EntryOf(position, ranked[i])];
      i := i + 1;
    }
  }

  /** `get_all_spots` over a catalog: one summary per id, in key order. */
  function Summaries(info: map<int, Destination>, order: seq<int>): seq<SpotSummary>
    requires Catalogued(info, order)
  {
    seq(|order|, i requires 0 <= i < |order| => SummaryOf(info[order[i]]))
  }

  /**
   * `S` summarises the catalog built from `L`: it names every id of `L` and no other, none twice,
   * and describes each by the last record of `L` that carries it.
   */
  ghost predicate SummarizesCatalog(S: seq<SpotSummary>, L: seq<Destination>) {
    && (forall id :: (exists i :: 0 <= i < |S| && S[i].id == id) <==> HasId(L, id))
    && (forall i, j :: 0 <= i < j < |S| ==> S[i].id != S[j].id)
    && (forall i :: 0 <= i < |S| ==> exists k :: LastWithId(L, S[i].id, k) && S[i] == SummaryOf(L[k]))
  }

  /** The catalog built from `L`, summarised in key order, summarises `L`. */
  lemma SummariesOfCatalog(L: seq<Destination>)
    ensures Catalogued(MetadataOf(L), OrderOf(L))
    ensures |Summaries(MetadataOf(L), OrderOf(L))| == |OrderOf(L)|
    ensures forall i :: 0 <= i < |OrderOf(L)| ==> Summaries(MetadataOf(L), OrderOf(L))[i].id == OrderOf(L)[i]
    ensures SummarizesCatalog(Summaries(MetadataOf(L), OrderOf(L)), L)
  {
    var info, order := MetadataOf(L), OrderOf(L);
    OrderSpec(L);
    assert Catalogued(info, order);
    var S := Summaries(info, order);
    forall i | 0 <= i < |order|
      ensures S[i].id == order[i] && exists k :: LastWithId(L, S[i].id, k) && S[i] == SummaryOf(L[k])
    {
      MetadataSpec(L, order[i]);
    }
    forall id ensures (exists i :: 0 <= i < |S| && S[i].id == id) <==> HasId(L, id) {
      MetadataSpec(L, id);
      if id in order {
        var i :| 0 <= i < |order| && order[i] == id;
        assert S[i].id == id;
      }
    }
  }

  class TravelSpotRecommendationSystem {
    const dataIndexer: TravelSpotIndexer
    const queryInterpreter: QueryProcessor
    const scoringEngine: TravelSpotRanker

    ghost predicate Valid()
      reads this, dataIndexer, scoringEngine
    {
      dataIndexer.Valid() && scoringEngine.indexer == dataIndexer
    }

    constructor (indexer: TravelSpotIndexer, interpreter: QueryProcessor, engine: TravelSpotRanker)
      requires indexer.Valid() && engine.indexer == indexer
      ensures dataIndexer == indexer && queryInterpreter == interpreter && scoringEngine == engine
      ensures Valid()
    {
      dataIndexer := indexer;
      queryInterpreter := interpreter;
      scoringEngine := engine;
    }

    /**
     * `__init__` once the dataset is read: load, build (which fails on an empty catalog, and the
     * failure propagates), then attach the ranker to the built indexer.
     */
    static method Create(records: seq<Destination>) returns (r: Result<TravelSpotRecommendationSystem, IndexError>)
      ensures records == [] <==> r.Failure?
      ensures r.Failure? ==> r.error == NotLoaded
      ensures r.Success? ==> fresh(r.value) && r.value.Valid() && r.value.dataIndexer.indexedList == records
    {
      var indexer := new TravelSpotIndexer();
      var interpreter := new QueryProcessor();
      indexer.LoadDataset(records);
      var built := indexer.BuildIndex();
      if built.Fail? {
        return Failure(built.error);
      }
      var engine := new TravelSpotRanker(indexer);
      var system := new TravelSpotRecommendationSystem(indexer, interpreter, engine);
      return Success(system);
    }

    /**
     * `recommend_with_explanation`: the query is interpreted (which updates the processor even when
     * ranking then fails), the catalog ranked by the constraints, and the ranked spots numbered
     * from 1; `total_results` is the number of entries.
     */
    method RecommendWithExplanation(userQuery: string, topK: int) returns (r: Result<Response, RankError>)
      requires Valid()
      modifies queryInterpreter
      ensures Valid()
      ensures queryInterpreter.query == Lower(userQuery) && queryInterpreter.filled
      ensures queryInterpreter.constraints == ParseQuery(userQuery)
      ensures topK < 1 ==> r == Failure(TopKBelowOne)
      ensures topK >= 1 ==> Catalogued(dataIndexer.destinationInfo, dataIndexer.infoOrder) && r.Success?
      ensures r.Success? ==> r.value.parsedConstraints == ParseQuery(userQuery)
                             && r.value.totalResults == |r.value.recommendations|
                             && r.value.recommendations == Formatted(Ranking(dataIndexer.destinationInfo, dataIndexer.infoOrder, ParseQuery(userQuery), [], topK))
    {
      var extractedFilters := queryInterpreter.ProcessQuery(userQuery);
      var scored := scoringEngine.RankSpots(extractedFilters, [], topK);
      if scored.Failure? {
        return Failure(scored.error);
      }
      var formatted := FormatRanked(scored.value);
      return Success(Response(formatted, |formatted|, extractedFilters));
    }

    /** `recommend`: only the list of entries. */
    method Recommend(userQuery: string, topK: int) returns (r: Result<seq<RecommendationEntry>, RankError>)
      requires Valid()
      modifies queryInterpreter
      ensures Valid()
      ensures queryInterpreter.query == Lower(userQuery) && queryInterpreter.filled
      ensures queryInterpreter.constraints == ParseQuery(userQuery)
      ensures topK < 1 ==> r == Failure(TopKBelowOne)
      ensures topK >= 1 ==> Catalogued(dataIndexer.destinationInfo, dataIndexer.infoOrder)
                            && r == Success(Formatted(Ranking(dataIndexer.destinationInfo, dataIndexer.infoOrder, ParseQuery(userQuery), [], topK)))
    {
      var output := RecommendWithExplanation(userQuery, topK);
      if output.Failure? {
        return Failure(output.error);
      }
      return Success(output.value.recommendations);
    }

    /**
     * `get_all_spots`: a summary of every catalogued spot in key order; each id of the loaded list
     * appears once, described by the last record that carries it.
     */
    function GetAllSpots(): (r: seq<SpotSummary>)
      reads this, dataIndexer, scoringEngine
      requires Valid()
      ensures |r| == |dataIndexer.infoOrder|
      ensures forall i :: 0 <= i < |r| ==> r[i].id == dataIndexer.infoOrder[i]
      ensures SummarizesCatalog(r, dataIndexer.indexedList)
    {
      SummariesOfCatalog(dataIndexer.indexedList);
      Summaries(dataIndexer.destinationInfo, dataIndexer.infoOrder)
    }
  }
}
