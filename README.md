# Travel-spot recommendation engine — Dafny model

This project models the core of a small travel-destination recommender. It has four parts:

- **Indexer** (`TravelSpotIndexer`). It keeps the destination records. It builds a reverse word index over name and description, a mood catalog, per-term document counts, an ordered metadata dictionary and a memoized IDF.
- **Query processor** (`QueryProcessor`). It turns a free-text query into constraints: budget ceiling, moods, best months, duration, distance and place name. It uses keyword tables and regular expressions.
- **Ranker** (`TravelSpotRanker`). It gives every spot a weighted relevance in [0, 1] from sub-scores for description, budget, mood, name type, months, duration and distance. It sorts the spots by (relevance, rating) in descending order, keeps the first `top_k` and can explain a score component by component.
- **Recommendation system** (`TravelSpotRecommendationSystem`). It wires the three together: interpret, rank, then number the results from 1. It can also list the whole catalog.

Stateful parts are Dafny classes whose methods update their fields. Each method is proved against a function on values: `Indexer.TravelSpotIndexer.IndexedAs` ties the index structures to `MetadataOf`, `KeyIndexOf` and `CountsOf` of the record list of the last build. `QueryProcessing.ParseQuery` is the value of `process_query`. `Ranker.Ranking` is the value of `rank_spots`. The properties of those functions are proved as lemmas.

Modules, one per file: `Wrappers` (Option/Result/Outcome), `Text` (Python `lower`, `in`, `str(int)`), `Patterns` (the regular expressions and `re.search`), `IndexModel` (the indexing functions), `Indexer`, `QueryProcessing`, `Scoring` (the sub-scores, relevance and explanation), `Ordering` (the sort order of results), `Ranker` and `Recommendation`.

Where the code and its documentation or tests disagree, the model follows the code. These behaviours are kept as written and proved:

- A query that contains `cheap`, `budget` or `afford` gets the ceiling 3500, even when it also states a number (`QueryProcessing.StatedBudgetIsOverridden`). So "Budget 5000, …" yields 3500, not the 5000 that tests/test_recommendation_system.py:83 expects.
- Mood keywords are substring tests: `art` occurs in `party`, so a party query is also cultural (`QueryProcessing.PartyQueryIsAlsoCultural`).
- The second duration pattern can never supply a value that the first pattern did not already supply (`QueryProcessing.DurationIsNumberFirst`). Likewise, a distance is found exactly when a number is followed by `km` (`QueryProcessing.DistanceFoundIffKm`).
- The affordability bonus of `_calculate_budget_score` never takes effect. `min(1.0, 1.0 + bonus)` is 1.0 for any non-negative bonus, so a cheaper range that contains the budget scores no higher than a dearer one, against the intent stated beside it at src/ranker.py:235-236 (`Scoring.AffordabilityBonusIsCapped`).
- Nothing puts `query_terms` into the constraints, so the description factor is always the neutral 0.5 × 0.30 in the pipeline. The ranking is modelled with an explicit list of query terms, and the pipeline passes `[]`.
- `explain_score` weighs its components 0.25/0.25/0.20/0.15/0.10/0.05 and has no description component. These are not the relevance weights 0.30/0.25/0.20/0.15/0.05/0.03/0.02. With no constraints, the two totals differ exactly for the names that earn a type boost (both are 0.5 for any other name) (`Scoring.ExplanationDisagreesWithRelevance`).
- The distance score is not monotone across the limit. A spot exactly at the limit scores 0.7, and one kilometre further scores more whenever the limit is at least 4 (`Scoring.DistanceJustBeyondLimitOutscoresLimit`).
- The budget score is not monotone in the deficit either. Up to 500 over it is 0.85 and up to 1000 over it is 0.75. Beyond that it is `max(0.3, 1 - min(deficit / budget_min, 0.7))`, so against a large minimum a spot 1001 over scores about 0.99. That is above the 0.85 of a spot 500 over, and not the "< 0.50" the docstring at src/ranker.py:231 announces (`Scoring.FarOverBudgetCanOutscoreNear`, `Scoring.FarOverBudgetExample`).

## Model

| member | source | states |
|---|---|---|
| IndexModel.BreakIntoWords | src/indexer.py:143-160 | every word is longer than two characters and consists of ASCII letters and digits taken from the text; a whitespace-separated word of the stripped text is kept iff it is longer than two characters, and no other word appears |
| IndexModel.StripSymbols | src/indexer.py:158 | the result holds exactly the letters, digits and whitespace of the text: each kept character survives and nothing else appears |
| IndexModel.StripConcat | src/indexer.py:158 | stripping acts character by character: the stripped parts of a text, in order, make the stripped text |
| IndexModel.LongWordsConcat | src/indexer.py:159-160 | the length filter acts word by word and keeps the surviving words in their order |
| IndexModel.StripKeepsCleanText | src/indexer.py:158 | removing symbols leaves text made only of letters, digits and whitespace unchanged |
| IndexModel.StripIsIdempotent | src/indexer.py:158 | removing symbols twice is the same as once |
| IndexModel.SplitWordsAreRuns | src/indexer.py:158 | every word `split()` returns occurs in the text with whitespace or an end of the text on both sides, so it is a maximal non-space run |
| IndexModel.SplitWordsLosesOnlySpaces | src/indexer.py:158 | `split()` loses exactly the whitespace: the words glued back together are the text without spaces |
| IndexModel.TokenSetTerms | src/indexer.py:135-139 | every indexed word of a record is lower-case alphanumeric and longer than two characters |
| IndexModel.KeyIndexSpec | src/indexer.py:130-140 | a key is in the reverse map iff some record has it, and an id is filed under it iff a record with that id has it |
| IndexModel.CountsSpec | src/indexer.py:139-141 | a word's occurrence count is the number of records containing it, and a word is counted iff that number is positive |
| IndexModel.DocFreqAtMostRecords | src/indexer.py:139-141 | no word is counted more often than there are records |
| IndexModel.DocFreqPositive | src/indexer.py:139-141 | the document frequency is positive exactly when some record has the word |
| IndexModel.MetadataSpec | src/indexer.py:114-128 | an id has metadata iff some record carries it, and the metadata is the last record carrying it |
| IndexModel.MetadataSnoc | src/indexer.py:114-128 | indexing one more record overwrites its id's metadata and appends the id to the key order only when new |
| IndexModel.OrderSpec | src/indexer.py:118-128 | the metadata's key order lists every id with metadata exactly once |
| IndexModel.OrderIsFirstOccurrence | src/indexer.py:114-128 | the key order is the order of first occurrence: an id listed earlier first appears earlier in the record list |
| Indexer.IdfOfUnindexedTerm | src/indexer.py:205-206 | a term no record contains has IDF 0 |
| Indexer.IdfPositiveForPartialTerm | src/indexer.py:207-208 | a term in some but not all records has a positive IDF, as the IDF test expects of `beach` |
| Indexer.TravelSpotIndexer.constructor | src/indexer.py:37-46 | all structures empty, IDF memo empty, and the (empty) index consistent with no records |
| Indexer.TravelSpotIndexer.LoadDataset | src/indexer.py:48-87 | stores the records and their count; the built structures are untouched |
| Indexer.TravelSpotIndexer.BuildIndex | src/indexer.py:89-141 | fails with nothing changed when no data is loaded; otherwise empties the IDF memo and leaves every structure equal to the index of exactly the loaded records |
| Indexer.TravelSpotIndexer.IndexRecord | src/indexer.py:114-141 | one loop step: the structures become those of the records so far plus this one |
| Indexer.TravelSpotIndexer.IndexMetadata | src/indexer.py:115-128 | the metadata becomes that of the records so far plus this one: its id now maps to it, and the id joins the key order only when new |
| Indexer.TravelSpotIndexer.IndexRecordMoods | src/indexer.py:130-132 | the mood catalog becomes that of the records so far plus this one |
| Indexer.TravelSpotIndexer.IndexRecordWords | src/indexer.py:134-141 | the reverse index and the document counts become those of the records so far plus this one |
| Indexer.TravelSpotIndexer.IndexMoods | src/indexer.py:130-132 | the record's id is added under each of its lower-cased mood tags |
| Indexer.TravelSpotIndexer.IndexWords | src/indexer.py:134-141 | the id is added under each distinct word, and each distinct word's count rises by one |
| Indexer.TravelSpotIndexer.SpotById | src/indexer.py:162-172 | `Some` iff a record of the last build has the id, holding the last such record; `None` otherwise |
| Indexer.TravelSpotIndexer.SpotsByMood | src/indexer.py:174-184 | exactly the ids of records that carry the mood, compared after lower-casing |
| Indexer.TravelSpotIndexer.GetIndexedSpots | src/indexer.py:214-221 | keyed by exactly the ids of the records of the last build, each holding its last record |
| Indexer.TravelSpotIndexer.CalculateIdf | src/indexer.py:186-212 | a memoized term returns its memo unchanged; otherwise the value is computed from the current counts and memoized |
| Patterns.Search | src/query_processor.py:131-135 | `re.search`: a value iff the pattern matches at some position, namely the one of a match |
| Patterns.FirstMatchFrom | src/query_processor.py:131-135 | the leftmost matching position: no earlier position matches |
| Patterns.SearchFindsMatch | src/query_processor.py:131-135 | a match anywhere makes the search succeed |
| QueryProcessing.PlaceFrom | src/query_processor.py:49-52 | a place is found iff some table key occurs in the query, and the place is the value of the first such key |
| QueryProcessing.FirstSearch | src/query_processor.py:131-135 | nothing iff no pattern matches; otherwise the value of some matching pattern, tried in order |
| QueryProcessing.MoodsUpToSpec | src/query_processor.py:153-156 | a mood is found iff one of its keywords occurs in the query |
| QueryProcessing.MoodsOfSpec | src/query_processor.py:137-158 | the moods of a query are exactly those with a keyword occurring in it |
| QueryProcessing.MonthsUpToSpec | src/query_processor.py:75-81 | a month is found iff a key naming it occurs in the query |
| QueryProcessing.MonthsAreMonthNames | src/query_processor.py:54-84 | only the twelve month names are ever produced, seasons included |
| QueryProcessing.BudgetWordsOverrideNumbers | src/query_processor.py:119-122 | a query containing a budget word gets the ceiling 3500, whatever else it contains |
| QueryProcessing.StatedBudgetIsOverridden | src/query_processor.py:116-135 | "budget N …" yields 3500, not N, for every N |
| QueryProcessing.PartyQueryIsAlsoCultural | src/query_processor.py:146-147 | the query "party" selects both the party and the cultural mood |
| QueryProcessing.FirstSearchOfTwo | src/query_processor.py:167-171 | with two patterns, the first one's value if it matches, else the second's |
| QueryProcessing.KeywordFirstImpliesNumberFirst | src/query_processor.py:162-165 | whenever the keyword-led duration form matches, the number-led form matches too |
| QueryProcessing.NumberAtWiderTail | src/query_processor.py:163 | a number followed by one allowed word is still accepted when more words are allowed |
| QueryProcessing.NumberAfterLead | src/query_processor.py:164 | a keyword-led match has a number followed by one of its trailing words |
| QueryProcessing.LeadFromSome | src/query_processor.py:164 | a keyword-led match starts with one of the keywords, followed by an accepted rest |
| QueryProcessing.DurationIsNumberFirst | src/query_processor.py:160-171 | the duration is the value of the first pattern alone; the second never contributes |
| QueryProcessing.DistanceFoundIffKm | src/query_processor.py:173-184 | a distance is found iff some number is followed by `km` |
| QueryProcessing.NumberFirstRoundTrip | src/query_processor.py:163 | a written number followed by a unit word reads back as that number |
| QueryProcessing.DaysRoundTrip | tests/test_recommendation_system.py:67-71 | "N days" parses to the duration N |
| QueryProcessing.NumberAtWritten | src/query_processor.py:127 | a number written at a position, not followed by a digit and then followed by a unit word, reads back there as that number |
| QueryProcessing.DigitRunOfWritten | src/query_processor.py:127 | the `\d+` run starting at a written number ends exactly where the number ends |
| QueryProcessing.NumberFirstAfterPrefix | src/query_processor.py:127-135 | after any digit-free prefix, "N unit" is where the leftmost number-first match is, and it reads N |
| QueryProcessing.NumberWrittenBeforeUnit | src/query_processor.py:127 | "N unit" after a prefix matches the number-first pattern at the end of the prefix |
| QueryProcessing.NoNumberInPrefix | src/query_processor.py:127 | a digit-free prefix holds no number-first match |
| QueryProcessing.HaveRupeesRoundTrip | tests/test_recommendation_system.py:53-57 | "i have N rupees" gives the budget N: no affordability word, no keyword-first match, then the second pattern reads N |
| QueryProcessing.BudgetBySecondPattern | src/query_processor.py:116-135 | with no affordability word and no match of the first pattern, the budget is what the second pattern reads |
| QueryProcessing.HaveRupeesFirstPatternFails | src/query_processor.py:119-126 | "i have N rupees" has no affordability word, and the keyword-first pattern matches nowhere in it |
| QueryProcessing.HaveRupeesSecondPattern | src/query_processor.py:127 | the number-before-currency pattern reads N in "i have N rupees" |
| QueryProcessing.HaveRupeesLetters | src/query_processor.py:119-126 | "i have N rupees" has one `i` (first) and one `r` (of "rupees"), and no `b`, `c` or `f` |
| QueryProcessing.HaveRupeesNoKeywordFirst | src/query_processor.py:126 | the keyword-first budget pattern matches at no position of "i have N rupees" |
| QueryProcessing.HaveRupeesNoLeadAt | src/query_processor.py:126 | it does not match at any one position: "rupees" is followed by nothing, and no other keyword occurs |
| QueryProcessing.HaveRupeesKeywords | src/query_processor.py:126 | "budget", "rs" and "inr" start nowhere in "i have N rupees", and "rupees" only where it ends the query |
| QueryProcessing.RupeesColonRoundTrip | src/query_processor.py:116-135 | "rupees: N" gives the budget N through the first, keyword-first pattern |
| QueryProcessing.RupeesColonAfterWord | src/query_processor.py:126 | after "rupees", the gap ": " leads to the number N |
| QueryProcessing.RupeesColonMatch | src/query_processor.py:126 | "rupees: N" matches the keyword-first budget pattern at its start through its second keyword |
| QueryProcessing.RupeesColonHasNoBudgetWord | src/query_processor.py:119 | "rupees: N" has no affordability word |
| QueryProcessing.WithinRoundTrip | tests/test_recommendation_system.py:72-76 | "within N km" gives the distance N through the keyword-first pattern of src/query_processor.py:176 |
| QueryProcessing.WithinNumber | src/query_processor.py:176 | in "within N km", N is read at position 7 with "km" after it |
| QueryProcessing.WithinKeyword | src/query_processor.py:176 | "within N km" opens with "within" and one space before the number |
| QueryProcessing.DistanceAfterWithin | src/query_processor.py:173-184 | a query that opens with "within", one space and "N km" has the distance N |
| Patterns.SearchIsLeftmost | src/query_processor.py:131-135 | a match with no match to its left is the one `re.search` reports |
| Patterns.LeadingKeywordMatch | src/query_processor.py:131-135 | a keyword-first pattern whose first keyword opens the query, with the rest matching, reads that value |
| QueryProcessing.SearchPatterns | src/query_processor.py:131-135 | the pattern loop stops at the first match and yields the value of the first matching pattern |
| QueryProcessing.QueryProcessor.constructor | src/query_processor.py:26-28 | empty query, and the constraints dictionary is empty (`filled` is false) |
| QueryProcessing.QueryProcessor.ExtractPlaceName | src/query_processor.py:30-52 | sets the place of the first key found; nothing changes when none is found |
| QueryProcessing.QueryProcessor.ExtractBudget | src/query_processor.py:116-135 | sets the budget when one is found; nothing changes otherwise |
| QueryProcessing.QueryProcessor.ExtractMood | src/query_processor.py:137-158 | always writes the set of moods found, possibly empty |
| QueryProcessing.QueryProcessor.ExtractMonths | src/query_processor.py:54-84 | writes the months when some are found; nothing changes otherwise |
| QueryProcessing.QueryProcessor.ExtractDuration | src/query_processor.py:160-171 | sets the duration when a pattern matches; nothing changes otherwise |
| QueryProcessing.QueryProcessor.ExtractDistance | src/query_processor.py:173-184 | sets the distance when a pattern matches; nothing changes otherwise |
| QueryProcessing.QueryProcessor.ProcessQuery | src/query_processor.py:87-114 | stores the lower-cased query and fills the dictionary; the returned and stored constraints are both `ParseQuery` of it |
| QueryProcessing.QueryProcessor.GetConstraints | src/query_processor.py:186-188 | the empty dictionary (`None`) before any query, and afterwards the stored constraints, which `ProcessQuery` leaves equal to `ParseQuery` of the last query |
| Scoring.BudgetScore | src/ranker.py:221-257 | within [0.3, 1]; exactly 1 iff the user budget lies in the spot's range; 0.85 for a deficit up to 500 and 0.75 up to 1000, below 1 beyond that; above the range 0.5 iff the overage exceeds the maximum, and 0.85 otherwise |
| Scoring.FarOverBudgetCanOutscoreNear | src/ranker.py:239-249 | when a deficit over 1000 is under 15% of the minimum, the spot scores above one that is 500 over |
| Scoring.FarOverBudgetExample | src/ranker.py:239-249 | 1001 over a minimum of 101001 scores above 500 over, which scores 0.85 |
| Scoring.AffordabilityBonusIsCapped | src/ranker.py:233-238 | two ranges that both contain the budget score 1.0 alike, however much cheaper one is |
| Scoring.MoodScore | src/ranker.py:259-268 | within [0, 1]; 1 iff every requested mood is offered; for a non-empty request, 0 iff none is |
| Scoring.MonthsBoost | src/ranker.py:207-219 | within [0, 1]; 0.5 when either side is empty; otherwise 1 iff every requested month is a best month |
| Scoring.SharedFraction | src/ranker.py:218-219 | the share of requested items offered lies in [0, 1]: 1 iff all are offered, 0 iff none is |
| Scoring.DurationScore | src/ranker.py:270-284 | within [0.4, 1]; 1 iff the durations are equal; 0.9 at a gap of one day; 0.7 at two, and at three too, where `1 - gap/10` also gives 0.7; 0.6 at four, 0.5 at five, and 0.4 exactly from six on |
| Scoring.DurationScoreSymmetric | src/ranker.py:275 | the score depends only on the size of the difference |
| Scoring.DurationScoreCloserIsBetter | src/ranker.py:270-284 | a duration closer to the user's never scores lower |
| Scoring.DistanceScore | src/ranker.py:286-300 | within [0.7, 1] inside the limit, within [0.5, 1) beyond it |
| Scoring.DistanceScoreNearerIsBetter | src/ranker.py:292-295 | inside the limit, a nearer spot never scores lower |
| Scoring.DistanceJustBeyondLimitOutscoresLimit | src/ranker.py:286-300 | at the limit the score is 0.7, and one km beyond scores higher when the limit is at least 4 |
| Scoring.NameBoost | src/ranker.py:176-205 | one of 0.9, 0.85, 0.75 and 0.5; above 0.5 iff the lower-cased name contains a keyword of some tier |
| Scoring.SecondaryTierWins | src/ranker.py:185-195 | without a first-tier keyword, a second-tier keyword gives 0.85 whatever else the name contains |
| Scoring.SpecialtyTierOnlyAlone | src/ranker.py:185-205 | a specialty keyword gives 0.75 iff no keyword of a higher tier is present |
| Scoring.PrimaryTierWins | src/ranker.py:186-189 | a name with a first-tier keyword gets 0.9 whatever else it contains |
| Scoring.TermPoints | src/ranker.py:157-168 | at most 3 points per term, and 3 iff the term occurs in the name |
| Scoring.MatchPointsBound | src/ranker.py:154-171 | the points are at most 3 per term, and reach it iff every term occurs in the name |
| Scoring.DescriptionScore | src/ranker.py:136-174 | within [0, 1]; for non-empty terms, 1 iff every term occurs in the name |
| Scoring.Relevance | src/ranker.py:59-134 | the weighted relevance lies in [0, 1] |
| Scoring.RelevanceWeightsSumToOne | src/ranker.py:63-70 | the seven weights sum to 1 |
| Scoring.RelevanceWithoutConstraints | src/ranker.py:72-134 | with no constraints and no terms, the relevance is 0.425 + 0.15 × name boost |
| Scoring.BudgetFitRaisesRelevance | src/ranker.py:82-91 | with a budget given, a spot whose range fits it outranks the same spot with a range that does not |
| Scoring.ExplanationShape | src/ranker.py:302-399 | the explanation always has the six keys in order, each non-negative, totalling at most 1 |
| Scoring.ExplanationOfAbsentConstraints | src/ranker.py:302-399 | with no constraints each component is half its weight, and the type component is 0.2 × name boost |
| Scoring.ExplanationOfEachAbsentConstraint | src/ranker.py:315-399 | each component whose constraint is absent is half its weight (0.125, 0.125, 0.075, 0.05, 0.025), whatever the other constraints are |
| Scoring.BudgetFactor | src/ranker.py:82-91 | the weighted budget term lies in [0, weight], and is half the weight when no budget is given |
| Scoring.MoodFactor | src/ranker.py:93-98 | the weighted mood term lies in [0, weight], and is half the weight when no mood is asked |
| Scoring.MonthsFactor | src/ranker.py:104-112 | the weighted months term lies in [0, weight], and is half the weight when no month is asked |
| Scoring.DurationFactor | src/ranker.py:114-122 | the weighted duration term lies in [0, weight], and is half the weight when no duration is given |
| Scoring.DistanceFactor | src/ranker.py:124-132 | the weighted distance term lies in [0, weight], and is half the weight when no distance is given |
| Scoring.ExplanationDisagreesWithRelevance | src/ranker.py:302-399 | with no constraints, the explanation's total differs from the relevance exactly when the name earns a type boost |
| Ordering.Sort | src/ranker.py:46-48 | the sorted list is a permutation of the candidates |
| Ordering.OutranksIsStrictTotal | src/ranker.py:46-48 | any two candidates at different positions are ordered exactly one way |
| Ordering.InsertRanked | src/ranker.py:46-48 | inserting into a ranked list keeps it ranked |
| Ordering.SortRanked | src/ranker.py:46-48 | sorting ranks the candidates: higher score, then higher rating, then earlier catalog position |
| Ordering.RankedIsUnique | src/ranker.py:46-48 | only one arrangement of given candidates is ranked, so the stable sort's result is determined |
| Ordering.TopKDominates | src/ranker.py:51 | each of the first k of a ranked list has a key at least that of any candidate left out |
| Ranker.RankingEntries | src/ranker.py:39-57 | `min(top_k, number of spots)` entries, each a catalogued id with its metadata and its relevance |
| Ranker.RankingDistinctIds | src/ranker.py:39-57 | no spot appears twice |
| Ranker.RankingOrdered | src/ranker.py:46-51 | earlier entries have a higher score, or an equal score and a higher rating, or a full tie and an earlier catalog position |
| Ranker.RankingDominates | src/ranker.py:46-51 | a spot left out never has a higher (score, rating) than any spot returned |
| Ranker.TravelSpotRanker.constructor | src/ranker.py:19-20 | the ranker holds the given indexer |
| Ranker.TravelSpotRanker.RankSpots | src/ranker.py:22-57 | `top_k` below 1 is an error; otherwise the result is `Ranking` of the indexer's catalog |
| Ranker.TravelSpotRanker.ScoreCatalog | src/ranker.py:39-43 | scores every spot of the catalog, in key order |
| Ranker.TravelSpotRanker.TakeTop | src/ranker.py:50-54 | the first `top_k` ranked spots with their scores and metadata |
| Ranker.TravelSpotRanker.CalculateRelevanceScore | src/ranker.py:59-134 | the accumulated score equals `Relevance`, so it lies in [0, 1] |
| Ranker.TravelSpotRanker.CalculateDescriptionMatchScore | src/ranker.py:136-174 | the loop's normalized points equal `DescriptionScore` |
| Ranker.TravelSpotRanker.ExplainScore | src/ranker.py:302-399 | reports the spot's id and name and the six components of `Explanation` |
| Recommendation.RecommendationsAreNumbered | src/recommendation_system.py:82-99 | ranks run 1..n with n = min(top_k, spots), every entry a catalogued spot with its name and a relevance in [0, 1], and no spot twice |
| Recommendation.RecommendationsDescend | src/recommendation_system.py:79-99 | relevance never increases down the recommendations |
| Recommendation.FormatRanked | src/recommendation_system.py:82-99 | the enumerate loop numbers the ranked spots from 1 |
| Recommendation.SummariesOfCatalog | src/recommendation_system.py:131-148 | one summary per id of the given records, in the order the ids first occur, none twice, each built from the last record with that id |
| Recommendation.TravelSpotRecommendationSystem.constructor | src/recommendation_system.py:34-57 | the system holds the three components, and the ranker shares the built indexer |
| Recommendation.TravelSpotRecommendationSystem.Create | src/recommendation_system.py:45-57 | fails with the build error exactly when there are no records; otherwise a fresh system indexing exactly those records |
| Recommendation.TravelSpotRecommendationSystem.RecommendWithExplanation | src/recommendation_system.py:59-111 | the processor holds the lower-cased query and the filled constraints, equal to `ParseQuery` of it, whether or not ranking fails; `top_k` below 1 is an error; otherwise the numbered `Ranking` under the parsed constraints, its length and the constraints |
| Recommendation.TravelSpotRecommendationSystem.Recommend | src/recommendation_system.py:113-119 | the processor is left as `RecommendWithExplanation` leaves it; the same error, or only the list of recommendations |
| Recommendation.TravelSpotRecommendationSystem.GetAllSpots | src/recommendation_system.py:121-153 | one summary per id of the records of the last build, the i-th for the i-th id in catalog (dict insertion) order, none twice, each from the last record with that id |

## Left out

- Reading the JSON file and its errors: a blank path, a missing file, malformed JSON, and a wrong top-level shape. `LoadDataset` receives the record list; `TravelSpotRecommendationSystem.Create` receives it too.
- Logging, and the try/except blocks that only log and re-raise.
- `round(relevance_score, 4)` and the `round(…, 3)` of the explanation scores. Scores are exact reals.
- The `reason` strings of `explain_score`. Only the component keys and scores are modelled.
- `math.log`: the IDF takes the logarithm as a parameter.
- `str.lower()` and `\d` beyond ASCII. Whitespace follows `str.isspace()`.
- The order of the lists built from sets (moods, months). They are modelled as sets.
- `MOOD_KEYWORDS` at src/query_processor.py:15-24: the code never reads it, so it is not modelled.
- `days?` at the end of the first duration pattern is modelled as `day`. With nothing after it in the pattern, both accept the same matches.
- Ranker.TravelSpotRanker.TakeTop: looks metadata up in the metadata map directly, with the same `get` semantics as `get_spot_by_id`, rather than calling `SpotById`.
- Recommendation.TravelSpotRecommendationSystem.RecommendWithExplanation: models the pipeline with the query terms empty, because `process_query` never produces `query_terms`.
- `source_file_path`, which nothing reads.
- Malformed records. A record is a typed `Destination`, so a record without `id`, `name`, `mood` or another field read at src/indexer.py:114-137 cannot arise. In the source such a record raises KeyError inside `build_index`'s loop. By then the five structures and the IDF memo have been cleared (src/indexer.py:106-111), so a partial index of the earlier records is left behind. Neither the error nor the partial index is modelled.
- The default arguments `top_k=5` of `rank_spots` (src/ranker.py:22) and `top_k=10` of `recommend_with_explanation` and `recommend` (src/recommendation_system.py:59, 113). Dafny has no default arguments, so every caller passes `top_k`; the docstring at src/recommendation_system.py:65 says 5.
- Ranker.TravelSpotRanker.RankSpots: reads the indexer's `destination_info`, with its key order. The source reads `indexer.spot_metadata` at src/ranker.py:41, an attribute the indexer never defines, so as written every `rank_spots` call, and every `recommend` and `recommend_with_explanation` call, raises AttributeError. That error is not modelled; the model ranks the metadata the indexer does build.
- server.py, backend.py and tests/calculate_metrics.py are not part of this model.
