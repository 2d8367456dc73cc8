/**
 * `TravelSpotIndexer` of src/indexer.py: a class whose dictionaries are cleared and refilled in place
 * by `BuildIndex`, and whose IDF memo is filled by `CalculateIdf`. `Valid()` ties every derived
 * structure to the folds of index_model.dfy over the list the index was last built from.
 */
module Indexer {
  import opened Wrappers
  import opened Text
  import opened IndexModel

  /** The `ValueError` that `build_index` raises before any data has been loaded. */
  datatype IndexError = NotLoaded

  /**
   * `calculate_idf` without its memo: `log(total / count)`, or 0.0 for an unindexed term or an
   * empty catalog. The natural logarithm `ln` is a parameter.
   */
  function IdfOf(total: nat, counts: map<string, nat>, term: string, ln: real -> real): real
    requires forall w :: w in counts ==> counts[w] > 0
  {
    if term !in counts || total == 0 then 0.0 else ln(total as real / counts[term] as real)
  }

  /** A term that no record contains has IDF 0. */
  lemma IdfOfUnindexedTerm(L: seq<Destination>, term: string, ln: real -> real)
    requires !Occurs(Entries(L, Words), term)
    ensures IdfOf(|L|, CountsOf(Entries(L, Words)), term, ln) == 0.0
  {
    CountsSpec(Entries(L, Words), term);
    DocFreqPositive(Entries(L, Words), term);
  }

  /** A term found in some but not all records has positive IDF (for a logarithm positive above 1). */
  lemma IdfPositiveForPartialTerm(L: seq<Destination>, term: string, ln: real -> real)
    requires forall x: real :: x > 1.0 ==> ln(x) > 0.0
    requires Occurs(Entries(L, Words), term)
    requires DocFreq(Entries(L, Words), term) < |L|
    ensures IdfOf(|L|, CountsOf(Entries(L, Words)), term, ln) > 0.0
  {
    CountsSpec(Entries(L, Words), term);
    DocFreqPositive(Entries(L, Words), term);
    RatioAboveOne(|L| as real, DocFreq(Entries(L, Words), term) as real);
  }

  lemma RatioAboveOne(n: real, d: real)
    requires n > d > 0.0
    ensures n / d > 1.0
  {
  }

  class TravelSpotIndexer {
    var reverseTermMap: KeyIndex
    var destinationInfo: map<int, Destination>
    /** The insertion order of `destinationInfo`'s keys (Python dictionaries are ordered). */
    var infoOrder: seq<int>
    var vibeCatalog: KeyIndex
    var rawDestinationList: seq<Destination>
    var termOccurrenceCounts: map<string, nat>
    var totalDestinationCount: nat
    var idfLookupCache: map<string, real>
    /** The record list the derived structures were last built from. */
    ghost var indexedList: seq<Destination>

    /** The four derived structures (and the key order) are those of indexing `L`. */
    ghost predicate IndexedAs(L: seq<Destination>)
      reads this
    {
      && reverseTermMap == KeyIndexOf(Entries(L, Words))
      && vibeCatalog == KeyIndexOf(Entries(L, Moods))
      && termOccurrenceCounts == CountsOf(Entries(L, Words))
      && destinationInfo == MetadataOf(L)
      && infoOrder == OrderOf(L)
    }

    ghost predicate Valid()
      reads this
    {
      IndexedAs(indexedList)
    }

    constructor ()
      ensures Valid() && indexedList == []
      ensures rawDestinationList == [] && totalDestinationCount == 0 && idfLookupCache == map[]
    {
      reverseTermMap := map[];
      destinationInfo := map[];
      infoOrder := [];
      vibeCatalog := map[];
      rawDestinationList := [];
      termOccurrenceCounts := map[];
      totalDestinationCount := 0;
      idfLookupCache := map[];
      indexedList := [];
    }

    /**
     * The state `load_dataset` leaves once the file is read and its shape checked: the raw list and
     * its length. The derived structures and the IDF memo are untouched until the next build.
     */
    method LoadDataset(records: seq<Destination>)
      requires Valid()
      modifies this`rawDestinationList, this`totalDestinationCount
      ensures Valid()
      ensures rawDestinationList == records && totalDestinationCount == |records|
    {
      rawDestinationList := records;
      totalDestinationCount := |records|;
    }

    /**
     * `build_index`: fails on an empty raw list before touching anything; otherwise clears the four
     * structures and the IDF memo and indexes every record in order.
     */
    method BuildIndex() returns (outcome: Outcome<IndexError>)
      requires Valid()
      modifies this
      ensures Valid()
      ensures rawDestinationList == old(rawDestinationList)
      ensures totalDestinationCount == old(totalDestinationCount)
      ensures old(rawDestinationList) == [] ==> outcome == Fail(NotLoaded) && unchanged(this)
      ensures old(rawDestinationList) != [] ==> outcome == Pass && indexedList == rawDestinationList
      ensures old(rawDestinationList) != [] ==> idfLookupCache == map[]
    {
      if rawDestinationList == [] {
        return Fail(NotLoaded);
      }
      reverseTermMap := map[];
      destinationInfo := map[];
      infoOrder := [];
      vibeCatalog := map[];
      termOccurrenceCounts := map[];
      idfLookupCache := map[];

      var i := 0;
      ghost var done: seq<Destination> := [];
      while i < |rawDestinationList|
        invariant 0 <= i <= |rawDestinationList|
        invariant rawDestinationList == old(rawDestinationList)
        invariant totalDestinationCount == old(totalDestinationCount)
        invariant idfLookupCache == map[]
        invariant done == rawDestinationList[..i]
        invariant IndexedAs(done)
      {
        var record := rawDestinationList[i];
        PrefixSnoc(rawDestinationList, i);
        IndexRecord(record, done);
        done := done + [record];
        i := i + 1;
      }
      assert done == rawDestinationList;
      indexedList := rawDestinationList;
      outcome := Pass;
    }

    /** The body of `build_index`'s loop for one record: its metadata, its mood tags, its words. */
    method IndexRecord(record: Destination, ghost done: seq<Destination>)
      requires IndexedAs(done)
      modifies this`destinationInfo, this`infoOrder, this`vibeCatalog, this`reverseTermMap, this`termOccurrenceCounts
      ensures IndexedAs(done + [record])
    {
      IndexMetadata(record, done);
      IndexRecordMoods(record, done);
      IndexRecordWords(record, done);
    }

    /** `destination_info[id] = record`, with the id appended to the key order when it is new. */
    method IndexMetadata(record: Destination, ghost done: seq<Destination>)
      requires destinationInfo == MetadataOf(done) && infoOrder == OrderOf(done)
      modifies this`destinationInfo, this`infoOrder
      ensures destinationInfo == MetadataOf(done + [record]) && infoOrder == OrderOf(done + [record])
    {
      assert (record.id in destinationInfo) == (record.id in infoOrder) by {
        OrderSpec(done);
      }
      if record.id !in destinationInfo {
        infoOrder := infoOrder + [record.id];
      }
      destinationInfo := destinationInfo[record.id := record];
      MetadataSnoc(done, record);
    }

    /** The record's id filed under each of its lower-cased mood tags. */
    method IndexRecordMoods(record: Destination, ghost done: seq<Destination>)
      requires vibeCatalog == KeyIndexOf(Entries(done, Moods))
      modifies this`vibeCatalog
      ensures vibeCatalog == KeyIndexOf(Entries(done + [record], Moods))
    {
      IndexMoods(record.moods, record.id);
      EntriesSnoc(done, record, Moods);
      KeyIndexSnoc(Entries(done, Moods), Entry(record.id, MoodKeys(record)));
    }

    /** `set(self._break_into_words((name + ' ' + description).lower()))`, each word indexed once. */
    method IndexRecordWords(record: Destination, ghost done: seq<Destination>)
      requires reverseTermMap == KeyIndexOf(Entries(done, Words)) && termOccurrenceCounts == CountsOf(Entries(done, Words))
      modifies this`reverseTermMap, this`termOccurrenceCounts
      ensures reverseTermMap == KeyIndexOf(Entries(done + [record], Words))
      ensures termOccurrenceCounts == CountsOf(Entries(done + [record], Words))
    {
      var uniqueWords := TokenSet(record);
      IndexWords(uniqueWords, record.id);
      EntriesSnoc(done, record, Words);
      KeyIndexSnoc(Entries(done, Words), Entry(record.id, uniqueWords));
      CountsSnoc(Entries(done, Words), Entry(record.id, uniqueWords));
    }

    /** The mood-tag loop of `build_index`: the record's id is added under each lower-cased tag. */
    method IndexMoods(moods: seq<string>, id: int)
      modifies this`vibeCatalog
      ensures vibeCatalog == AddAll(old(vibeCatalog), LowerSet(moods), id)
    {
      AddAllNothing(vibeCatalog, id);
      var k := 0;
      ghost var seen: set<string> := {};
      while k < |moods|
        invariant 0 <= k <= |moods|
        invariant seen == LowerSet(moods[..k])
        invariant vibeCatalog == AddAll(old(vibeCatalog), seen, id)
      {
        var tag := Lower(moods[k]);
        LowerSetSnoc(moods, k);
        AddAllStep(old(vibeCatalog), seen, tag, id);
        vibeCatalog := AddOne(vibeCatalog, tag, id);
        seen := seen + {tag};
        k := k + 1;
      }
      assert moods[..k] == moods;
    }

    /**
     * The word loop of `build_index` over `set(word_tokens)`: every distinct word gets the record's
     * id and one more document count. Set iteration order is left open.
     */
    method IndexWords(uniqueWords: set<string>, id: int)
      modifies this`reverseTermMap, this`termOccurrenceCounts
      ensures reverseTermMap == AddAll(old(reverseTermMap), uniqueWords, id)
      ensures termOccurrenceCounts == AddCounts(old(termOccurrenceCounts), uniqueWords)
    {
      AddAllNothing(reverseTermMap, id);
      AddCountsNothing(termOccurrenceCounts);
      var remaining := uniqueWords;
      ghost var seen: set<string> := {};
      while remaining != {}
        invariant seen + remaining == uniqueWords && seen !! remaining
        invariant reverseTermMap == AddAll(old(reverseTermMap), seen, id)
        invariant termOccurrenceCounts == AddCounts(old(termOccurrenceCounts), seen)
        decreases remaining
      {
        var w :| w in remaining;
        AddAllStep(old(reverseTermMap), seen, w, id);
        AddCountsStep(old(termOccurrenceCounts), seen, w);
        reverseTermMap := AddOne(reverseTermMap, w, id);
        termOccurrenceCounts := Incr(termOccurrenceCounts, w);
        remaining := remaining - {w};
        seen := seen + {w};
      }
      assert seen == uniqueWords;
    }

    /** `get_spot_by_id`: the metadata of the last record with this id, or None when no record has it. */
    function SpotById(spotId: int): (r: Option<Destination>)
      reads this
      requires Valid()
      ensures r.Some? <==> HasId(indexedList, spotId)
      ensures r.Some? ==> exists j :: LastWithId(indexedList, spotId, j) && indexedList[j] == r.value
    {
      MetadataSpec(indexedList, spotId);
      if spotId in destinationInfo then Some(destinationInfo[spotId]) else None
    }

    /**
     * `get_spots_by_mood`: the ids of the records that carry the mood, compared after lower-casing
     * both sides; the empty set for an unknown mood. Nothing is inserted.
     */
    function SpotsByMood(mood: string): (r: set<int>)
      reads this
      requires Valid()
      ensures forall id :: id in r <==> Indexed(Entries(indexedList, Moods), Lower(mood), id)
    {
      var key := Lower(mood);
      forall id ensures id in (if key in vibeCatalog then vibeCatalog[key] else {}) <==> Indexed(Entries(indexedList, Moods), key, id) {
        KeyIndexSpec(Entries(indexedList, Moods), key, id);
      }
      if key in vibeCatalog then vibeCatalog[key] else {}
    }

    /**
     * `get_indexed_spots`: a copy of the metadata dictionary, keyed by exactly the ids of the loaded
     * records, each id holding its last record.
     */
    function GetIndexedSpots(): (r: map<int, Destination>)
      reads this
      requires Valid()
      ensures forall id :: id in r <==> HasId(indexedList, id)
      ensures forall id :: id in r ==> exists j :: LastWithId(indexedList, id, j) && indexedList[j] == r[id]
    {
      forall id ensures (id in destinationInfo <==> HasId(indexedList, id))
        && (id in destinationInfo ==> exists j :: LastWithId(indexedList, id, j) && indexedList[j] == destinationInfo[id])
      {
        MetadataSpec(indexedList, id);
      }
      destinationInfo
    }

    /**
     * `calculate_idf`: a term already in the memo gets its memoized value and the memo is unchanged;
     * otherwise the value is computed from the current counts and total and memoized.
     */
    method CalculateIdf(term: string, ln: real -> real) returns (value: real)
      requires Valid()
      modifies this`idfLookupCache
      ensures Valid()
      ensures term in old(idfLookupCache) ==> value == old(idfLookupCache)[term] && idfLookupCache == old(idfLookupCache)
      ensures term !in old(idfLookupCache) ==>
        && value == IdfOf(totalDestinationCount, termOccurrenceCounts, term, ln)
        && idfLookupCache == old(idfLookupCache)[term := value]
    {
      if term in idfLookupCache {
        return idfLookupCache[term];
      }
      if term !in termOccurrenceCounts || totalDestinationCount == 0 {
        value := 0.0;
      } else {
        value := ln(totalDestinationCount as real / termOccurrenceCounts[term] as real);
      }
      idfLookupCache := idfLookupCache[term := value];
    }
  }
}
