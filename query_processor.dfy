/**
 * `QueryProcessor` of src/query_processor.py: turns a free-text travel query into constraints.
 * The query is lower-cased once; each extractor then reads it and writes one field of the
 * constraints. Every extractor is a method proved against a specification function of the
 * lower-cased query, and `ParseQuery` assembles those functions.
 */
module QueryProcessing {
  import opened Wrappers
  import opened Text
  import opened Patterns

  /**
   * The constraints dictionary. Mood and month lists come out of a set in the source, so their
   * order is arbitrary; they are sets here.
   */
  datatype Constraints = Constraints(
    budgetMax: Option<nat>,
    moods: set<string>,
    durationDays: Option<nat>,
    distanceKm: Option<nat>,
    placeName: Option<string>,
    bestMonths: set<string>)

  /** The defaults `process_query` starts from: no budget, no mood, no duration, ... */
  const NoConstraints := Constraints(None, {}, None, None, None, {})

  // ---------------------------------------------------------------------------------------------
  // The tables, in the source's insertion order

  const PlaceTable: seq<(string, string)> := [
    ("manali", "Manali Hill Station"),
    ("goa", "Goa Beach"),
    ("kerala", "Kerala Backwaters"),
    ("kochi", "Kerala Backwaters"),
    ("backwaters", "Kerala Backwaters"),
    ("leh", "Leh Ladakh Mountain"),
    ("ladakh", "Leh Ladakh Mountain"),
    ("ooty", "Ooty Hill Station"),
    ("shimla", "Shimla Snow Mountain"),
    ("jaipur", "Jaipur City Tour"),
    ("varanasi", "Varanasi Spiritual"),
    ("mumbai", "Mumbai Night Life"),
    ("rishikesh", "Rishikesh Yoga")
  ]

  /** The words that set the affordable budget before any number is looked for. */
  const BudgetWords: seq<string> := ["cheap", "budget", "afford"]

  const AffordableBudget: nat := 3500

  /** `enhanced_keywords`: each mood with the words that select it. */
  const MoodTable: seq<(string, seq<string>)> := [
    ("adventure", ["adventure", "trekking", "hiking", "extreme", "thrill", "trek", "climb"]),
    ("nature", ["nature", "wildlife", "forest", "scenic", "landscape", "hill", "mountain", "snow"]),
    ("relaxing", ["relax", "chill", "peaceful", "calm", "quiet", "rest", "beach", "backwater"]),
    ("party", ["party", "nightlife", "disco", "club", "fun", "dance", "night"]),
    ("cultural", ["culture", "cultural", "heritage", "art", "museum", "city", "tour"]),
    ("history", ["history", "historical", "ancient", "monument", "temple"]),
    ("spiritual", ["spiritual", "meditation", "yoga", "zen", "peace"]),
    ("romantic", ["romantic", "couple", "honeymoon", "love"])
  ]

  const MonthNames: set<string> := {
    "january", "february", "march", "april", "may", "june",
    "july", "august", "september", "october", "november", "december"
  }

  /** The months table: a month name maps to itself, a season to its months. */
  const MonthTable: seq<(string, seq<string>)> := [
    ("january", ["january"]),
    ("february", ["february"]),
    ("march", ["march"]),
    ("april", ["april"]),
    ("may", ["may"]),
    ("june", ["june"]),
    ("july", ["july"]),
    ("august", ["august"]),
    ("september", ["september"]),
    ("october", ["october"]),
    ("november", ["november"]),
    ("december", ["december"]),
    ("winter", ["december", "january", "february"]),
    ("summer", ["march", "april", "may", "june"]),
    ("monsoon", ["june", "july", "august", "september"]),
    ("autumn", ["september", "october", "november"])
  ]

  // ---------------------------------------------------------------------------------------------
  // The regular expressions

  /** `(?:budget|rupees|rs|inr)[\s:]+(\d+)` */
  const BudgetAfterWord := KeywordFirst(["budget", "rupees", "rs", "inr"], SpaceOrColon, 1, [], SpaceOrColon, [])
  /** `(\d+)\s*(?:rupees|rs|inr)` */
  const BudgetBeforeCurrency := NumberFirst(["rupees", "rs", "inr"])
  /** `(?:upto|up to|within|max|maximum)\s+(?:rupees|rs)?[\s:]*(\d+)` */
  const BudgetCeiling := KeywordFirst(["upto", "up to", "within", "max", "maximum"], Space, 1, ["rupees", "rs"], SpaceOrColon, [])
  const BudgetPatterns: seq<Pattern> := [BudgetAfterWord, BudgetBeforeCurrency, BudgetCeiling]

  /** `(\d+)\s*(?:days?|d)`; with nothing after it, `days?` accepts exactly when `day` does. */
  const DaysAfterNumber := NumberFirst(["day", "d"])
  /** `(?:for|duration)[\s:]*(\d+)\s*days?` */
  const DaysAfterWord := KeywordFirst(["for", "duration"], SpaceOrColon, 0, [], SpaceOrColon, ["day"])
  const DurationPatterns: seq<Pattern> := [DaysAfterNumber, DaysAfterWord]

  /** `(?:within|upto|up to|max|maximum|km)[\s:]*(\d+)\s*km` */
  const KmAfterWord := KeywordFirst(["within", "upto", "up to", "max", "maximum", "km"], SpaceOrColon, 0, [], SpaceOrColon, ["km"])
  /** `(\d+)\s*km` */
  const KmAfterNumber := NumberFirst(["km"])
  const DistancePatterns: seq<Pattern> := [KmAfterWord, KmAfterNumber]

  // ---------------------------------------------------------------------------------------------
  // Specification functions of the lower-cased query

  /** The place of the first table key, from `k` on, that occurs in `q`. */
  function PlaceFrom(q: string, k: nat): (r: Option<string>)
    requires k <= |PlaceTable|
    ensures r.Some? <==> exists j :: k <= j < |PlaceTable| && Contains(q, PlaceTable[j].0)
    ensures r.Some? ==> exists j :: k <= j < |PlaceTable| && Contains(q, PlaceTable[j].0) && r.value == PlaceTable[j].1
                                    && forall i :: k <= i < j ==> !Contains(q, PlaceTable[i].0)
    decreases |PlaceTable| - k
  {
    if k == |PlaceTable| then None
    else if Contains(q, PlaceTable[k].0) then Some(PlaceTable[k].1)
    else PlaceFrom(q, k + 1)
  }

  /** One step of the place search: the key of row `k` either decides the place or passes to row `k + 1`. */
  lemma PlaceStep(q: string, k: nat)
    requires k < |PlaceTable|
    ensures Contains(q, PlaceTable[k].0) ==> PlaceFrom(q, k) == Some(PlaceTable[k].1)
    ensures !Contains(q, PlaceTable[k].0) ==> PlaceFrom(q, k) == PlaceFrom(q, k + 1)
  {
  }

  function PlaceNameOf(q: string): Option<string> {
    PlaceFrom(q, 0)
  }

  /** The group-1 value of the first pattern, from `k` on, that `re.search` finds in `q`. */
  function FirstSearch(patterns: seq<Pattern>, q: string, k: nat): (r: Option<nat>)
    requires k <= |patterns|
    ensures r.None? <==> forall j :: k <= j < |patterns| ==> Search(patterns[j], q).None?
    ensures r.Some? ==> exists j :: k <= j < |patterns| && Search(patterns[j], q) == r
                                    && forall i :: k <= i < j ==> Search(patterns[i], q).None?
    decreases |patterns| - k
  {
    if k == |patterns| then None
    else if Search(patterns[k], q).Some? then Search(patterns[k], q)
    else FirstSearch(patterns, q, k + 1)
  }

  function BudgetOf(q: string): Option<nat> {
    if ContainsAny(q, BudgetWords) then Some(AffordableBudget) else FirstSearch(BudgetPatterns, q, 0)
  }

  /** The moods of the first `k` rows of the mood table that have a keyword in `q`. */
  function MoodsUpTo(q: string, k: nat): set<string>
    requires k <= |MoodTable|
  {
    if k == 0 then {}
    else MoodsUpTo(q, k - 1) + (if ContainsAny(q, MoodTable[k - 1].1) then {MoodTable[k - 1].0} else {})
  }

  function MoodsOf(q: string): set<string> {
    MoodsUpTo(q, |MoodTable|)
  }

  /** The months named by the first `k` rows of the months table whose key occurs in `q`. */
  function MonthsUpTo(q: string, k: nat): set<string>
    requires k <= |MonthTable|
  {
    if k == 0 then {}
    else MonthsUpTo(q, k - 1) + (if Contains(q, MonthTable[k - 1].0) then Elements(MonthTable[k - 1].1) else {})
  }

  function MonthsOf(q: string): set<string> {
    MonthsUpTo(q, |MonthTable|)
  }

  function DurationOf(q: string): Option<nat> {
    FirstSearch(DurationPatterns, q, 0)
  }

  function DistanceOf(q: string): Option<nat> {
    FirstSearch(DistancePatterns, q, 0)
  }

  /** `process_query(query)` as a value. */
  function ParseQuery(query: string): Constraints {
    var q := Lower(query);
    Constraints(BudgetOf(q), MoodsOf(q), DurationOf(q), DistanceOf(q), PlaceNameOf(q), MonthsOf(q))
  }

  // ---------------------------------------------------------------------------------------------
  // What the extractors promise

  /** A mood is found iff one of its keywords occurs in the query. */
  lemma {:induction false} MoodsUpToSpec(q: string, k: nat, mood: string)
    requires k <= |MoodTable|
    ensures mood in MoodsUpTo(q, k) <==> exists j :: 0 <= j < k && MoodTable[j].0 == mood && ContainsAny(q, MoodTable[j].1)
  {
    if k > 0 {
      MoodsUpToSpec(q, k - 1, mood);
    }
  }

  lemma MoodsOfSpec(q: string, mood: string)
    ensures mood in MoodsOf(q) <==> exists j :: 0 <= j < |MoodTable| && MoodTable[j].0 == mood && ContainsAny(q, MoodTable[j].1)
  {
    MoodsUpToSpec(q, |MoodTable|, mood);
  }

  /** A month is found iff a key that names it occurs in the query. */
  lemma {:induction false} MonthsUpToSpec(q: string, k: nat, month: string)
    requires k <= |MonthTable|
    ensures month in MonthsUpTo(q, k) <==> exists j :: 0 <= j < k && Contains(q, MonthTable[j].0) && month in MonthTable[j].1
  {
    if k > 0 {
      MonthsUpToSpec(q, k - 1, month);
    }
  }

  /** Whatever the query, the months found are month names. */
  lemma MonthsAreMonthNames(q: string)
    ensures MonthsOf(q) <= MonthNames
  {
    forall month | month in MonthsOf(q) ensures month in MonthNames {
      MonthsUpToSpec(q, |MonthTable|, month);
      var j :| 0 <= j < |MonthTable| && Contains(q, MonthTable[j].0) && month in MonthTable[j].1;
    }
  }

  /** A cheap, budget or afford query gets the affordable ceiling, whatever numbers it also holds. */
  lemma BudgetWordsOverrideNumbers(q: string)
    requires ContainsAny(q, BudgetWords)
    ensures BudgetOf(q) == Some(AffordableBudget)
  {
  }

  /** A query that states its budget as `budget N` gets the affordable ceiling, not N. */
  lemma StatedBudgetIsOverridden(n: nat, rest: string)
    ensures BudgetOf("budget " + NatToString(n) + rest) == Some(AffordableBudget)
  {
    var q := "budget " + NatToString(n) + rest;
    assert q[0..6] == BudgetWords[1];
    assert StartsAt(q, 0, BudgetWords[1]);
    assert Contains(q, BudgetWords[1]);
  }

  /** `art` occurs inside `party`, so a party query is also a cultural one. */
  lemma PartyQueryIsAlsoCultural()
    ensures ParseQuery("party").moods >= {"party", "cultural"}
  {
    var q := "party";
    LowerOfLowerCase(q);
    assert StartsAt(q, 0, MoodTable[3].1[0]);
    assert StartsAt(q, 1, MoodTable[4].1[3]);
    MoodsOfSpec(q, "party");
    MoodsOfSpec(q, "cultural");
  }

  /** Two patterns in order: the first one's value if it matches, else the second one's. */
  lemma FirstSearchOfTwo(a: Pattern, b: Pattern, q: string)
    ensures FirstSearch([a, b], q, 0) == if Search(a, q).Some? then Search(a, q) else Search(b, q)
  {
    assert [a, b][0] == a && [a, b][1] == b;
  }

  /**
   * A keyword-first pattern without an optional word, whose trailing words are all trailing words
   * of a number-first pattern, can only match where the number-first pattern also matches.
   */
  lemma KeywordFirstImpliesNumberFirst(p: Pattern, tail: seq<string>, q: string)
    requires p.KeywordFirst? && p.unit == [] && p.tail != []
    requires forall w :: w in p.tail ==> w in tail
    requires Search(p, q).Some?
    ensures Search(NumberFirst(tail), q).Some?
  {
    var i :| 0 <= i <= |q| && MatchAt(p, q, i).Some?;
    var g := NumberAfterLead(p, q, i);
    NumberAtWiderTail(q, g, p.tail, tail);
    SearchFindsMatch(NumberFirst(tail), q, g);
  }

  /** A number that some trailing word follows is still followed by one when more words are allowed. */
  lemma NumberAtWiderTail(s: string, g: nat, tail: seq<string>, wider: seq<string>)
    requires g <= |s| && tail != [] && NumberAt(s, g, tail).Some?
    requires forall w :: w in tail ==> w in wider
    ensures NumberAt(s, g, wider).Some?
  {
    var t := RunEnd(s, RunEnd(s, g, Digit), Space);
    assert StartsWithAny(s, t, tail);
    var k :| 0 <= k < |tail| && StartsAt(s, t, tail[k]);
    assert tail[k] in tail;
    var m :| 0 <= m < |wider| && wider[m] == tail[k];
  }

  /** For a keyword-first pattern without an optional word: where its number starts. */
  lemma NumberAfterLead(p: Pattern, s: string, i: nat) returns (g: nat)
    requires p.KeywordFirst? && p.unit == [] && i <= |s| && MatchAt(p, s, i).Some?
    ensures g <= |s| && NumberAt(s, g, p.tail).Some?
  {
    LeadFromSome(p, s, i, 0);
    var k :| 0 <= k < |p.lead| && StartsAt(s, i, p.lead[k]) && AfterLead(p, s, i + |p.lead[k]|).Some?;
    g := RunEnd(s, i + |p.lead[k]|, p.gap);
  }

  /** A leading alternative that the rest of the pattern accepts is how `LeadFrom` succeeds. */
  lemma {:induction false} LeadFromSome(p: Pattern, s: string, i: nat, k: nat)
    requires p.KeywordFirst? && i <= |s| && k <= |p.lead|
    requires LeadFrom(p, s, i, k).Some?
    ensures exists j :: k <= j < |p.lead| && StartsAt(s, i, p.lead[j]) && AfterLead(p, s, i + |p.lead[j]|).Some?
    decreases |p.lead| - k
  {
    if !(StartsAt(s, i, p.lead[k]) && AfterLead(p, s, i + |p.lead[k]|).Some?) {
      LeadFromSome(p, s, i, k + 1);
    }
  }

  /**
   * The keyword-first duration pattern never decides: where it matches, the number-first one
   * matches too, so the duration is exactly what the number-first pattern finds.
   */
  lemma DurationIsNumberFirst(q: string)
    ensures DurationOf(q) == Search(DaysAfterNumber, q)
  {
    FirstSearchOfTwo(DaysAfterNumber, DaysAfterWord, q);
    if Search(DaysAfterWord, q).Some? {
      KeywordFirstImpliesNumberFirst(DaysAfterWord, DaysAfterNumber.tail, q);
    }
  }

  /** A distance is found iff some number is followed by `km`. */
  lemma DistanceFoundIffKm(q: string)
    ensures DistanceOf(q).Some? <==> Search(KmAfterNumber, q).Some?
  {
    FirstSearchOfTwo(KmAfterWord, KmAfterNumber, q);
    if Search(KmAfterWord, q).Some? {
      KeywordFirstImpliesNumberFirst(KmAfterWord, KmAfterNumber.tail, q);
    }
  }

  /** A number written out and followed by one of the pattern's words reads back as that number. */
  lemma NumberFirstRoundTrip(tail: seq<string>, n: nat, k: nat, rest: string)
    requires 0 <= k < |tail| && tail[k] != [] && !IsDigit(tail[k][0]) && !IsSpace(tail[k][0])
    ensures Search(NumberFirst(tail), NatToString(n) + " " + tail[k] + rest) == Some(n)
  {
    var digits := NatToString(n);
    var s := digits + " " + tail[k] + rest;
    var e := RunEnd(s, 0, Digit);
    assert e == |digits| by {
      assert forall m :: 0 <= m < |digits| ==> s[m] == digits[m];
      assert s[|digits|] == ' ';
    }
    assert s[0..e] == digits;
    var t := RunEnd(s, e, Space);
    assert t == |digits| + 1 by {
      assert s[|digits| + 1] == tail[k][0];
    }
    assert s[t..t + |tail[k]|] == tail[k];
    assert StartsAt(s, t, tail[k]);
    DigitsRoundTrip(n);
    assert MatchAt(NumberFirst(tail), s, 0) == Some(n);
  }

  /** "N days" parses to a duration of N. */
  lemma DaysRoundTrip(n: nat)
    ensures DurationOf(NatToString(n) + " days") == Some(n)
  {
    var s := NatToString(n) + " days";
    assert s == NatToString(n) + " " + DaysAfterNumber.tail[0] + "s";
    NumberFirstRoundTrip(DaysAfterNumber.tail, n, 0, "s");
    DurationIsNumberFirst(s);
  }

  /** A number written at `i` and not followed by another digit reads back there as that number. */
  lemma NumberAtWritten(s: string, i: nat, n: nat, tail: seq<string>)
    requires i + |NatToString(n)| <= |s| && s[i..i + |NatToString(n)|] == NatToString(n)
    requires i + |NatToString(n)| == |s| || !IsDigit(s[i + |NatToString(n)|])
    requires tail != [] ==> StartsWithAny(s, RunEnd(s, i + |NatToString(n)|, Space), tail)
    ensures NumberAt(s, i, tail) == Some(n)
  {
    var digits := NatToString(n);
    DigitRunOfWritten(s, i, digits);
    assert s[i] == digits[0] by {
      assert s[i..i + |digits|][0] == s[i];
    }
    DigitsRoundTrip(n);
  }

  /** The digit run starting at `i` ends where a written, undelimited run of digits ends. */
  lemma DigitRunOfWritten(s: string, i: nat, digits: string)
    requires AllDigits(digits) && i + |digits| <= |s| && s[i..i + |digits|] == digits
    requires i + |digits| == |s| || !IsDigit(s[i + |digits|])
    ensures RunEnd(s, i, Digit) == i + |digits|
  {
    forall m | i <= m < i + |digits| ensures IsDigit(s[m]) {
      assert s[m] == s[i..i + |digits|][m - i];
    }
  }

  /** A number after a digit-free prefix is where the leftmost number-first match starts. */
  lemma NumberFirstAfterPrefix(tail: seq<string>, prefix: string, n: nat, k: nat, rest: string)
    requires 0 <= k < |tail| && tail[k] != [] && !IsDigit(tail[k][0]) && !IsSpace(tail[k][0])
    requires forall c :: c in prefix ==> !IsDigit(c)
    ensures Search(NumberFirst(tail), prefix + NatToString(n) + " " + tail[k] + rest) == Some(n)
  {
    var s := prefix + NatToString(n) + " " + tail[k] + rest;
    NumberWrittenBeforeUnit(s, prefix, n, tail, k, rest);
    NoNumberInPrefix(s, prefix, tail);
    SearchIsLeftmost(NumberFirst(tail), s, |prefix|);
  }

  /** After the prefix, the number, one space and a unit word make a number-first match. */
  lemma NumberWrittenBeforeUnit(s: string, prefix: string, n: nat, tail: seq<string>, k: nat, rest: string)
    requires 0 <= k < |tail| && tail[k] != [] && !IsDigit(tail[k][0]) && !IsSpace(tail[k][0])
    requires s == prefix + NatToString(n) + " " + tail[k] + rest
    ensures |prefix| <= |s| && MatchAt(NumberFirst(tail), s, |prefix|) == Some(n)
  {
    var digits := NatToString(n);
    var i := |prefix|;
    var e := i + |digits|;
    assert s[i..e] == digits;
    assert s[e] == ' ';
    assert RunEnd(s, e, Space) == e + 1 by {
      assert s[e + 1] == tail[k][0];
    }
    assert StartsAt(s, e + 1, tail[k]) by {
      assert s[e + 1..e + 1 + |tail[k]|] == tail[k];
    }
    NumberAtWritten(s, i, n, tail);
  }

  /** A prefix without digits holds no number-first match. */
  lemma NoNumberInPrefix(s: string, prefix: string, tail: seq<string>)
    requires forall c :: c in prefix ==> !IsDigit(c)
    requires |prefix| <= |s| && s[..|prefix|] == prefix
    ensures forall j :: 0 <= j < |prefix| ==> MatchAt(NumberFirst(tail), s, j).None?
  {
    forall j | 0 <= j < |prefix| ensures MatchAt(NumberFirst(tail), s, j).None? {
      assert s[j] == s[..|prefix|][j];
    }
  }

  /** "within N km" gives a distance of N through the keyword-first pattern, as a test expects. */
  lemma WithinRoundTrip(n: nat)
    ensures DistanceOf("within " + NatToString(n) + " km") == Some(n)
  {
    var s := "within " + NatToString(n) + " km";
    WithinNumber(n, s);
    WithinKeyword(n, s);
    DistanceAfterWithin(s, n);
  }

  /** In "within N km", N is read at position 7, with "km" after it. */
  lemma WithinNumber(n: nat, s: string)
    requires s == "within " + NatToString(n) + " km"
    ensures |s| >= 7 && NumberAt(s, 7, KmAfterWord.tail) == Some(n)
  {
    var digits := NatToString(n);
    var e := 7 + |digits|;
    assert s[7..e] == digits && s[e] == ' ';
    assert RunEnd(s, e, Space) == e + 1 by {
      assert s[e + 1] == 'k';
    }
    assert s[e + 1..e + 3] == KmAfterWord.tail[0];
    assert StartsAt(s, e + 1, KmAfterWord.tail[0]);
    NumberAtWritten(s, 7, n, KmAfterWord.tail);
  }

  /** "within N km" opens with "within", then one space before the number. */
  lemma WithinKeyword(n: nat, s: string)
    requires s == "within " + NatToString(n) + " km"
    ensures |s| >= 7 && StartsAt(s, 0, KmAfterWord.lead[0]) && RunEnd(s, 6, SpaceOrColon) == 7
  {
    var digits := NatToString(n);
    assert s[6] == ' ' && s[7] == digits[0];
    assert s[0..6] == KmAfterWord.lead[0];
  }

  /** A query that opens with "within", one space and a number followed by "km" reads that distance. */
  lemma DistanceAfterWithin(s: string, n: nat)
    requires |s| >= 7 && StartsAt(s, 0, KmAfterWord.lead[0]) && RunEnd(s, 6, SpaceOrColon) == 7
    requires NumberAt(s, 7, KmAfterWord.tail) == Some(n)
    ensures DistanceOf(s) == Some(n)
  {
    LeadingKeywordMatch(KmAfterWord, s, 7, n);
    FirstSearchOfTwo(KmAfterWord, KmAfterNumber, s);
  }

  /** "rupees: N" gives a budget of N through the first, keyword-first budget pattern. */
  lemma RupeesColonRoundTrip(n: nat)
    ensures BudgetOf("rupees: " + NatToString(n)) == Some(n)
  {
    var s := "rupees: " + NatToString(n);
    RupeesColonAfterWord(n, s);
    RupeesColonMatch(n, s);
    SearchIsLeftmost(BudgetAfterWord, s, 0);
    RupeesColonHasNoBudgetWord(n, s);
    assert BudgetPatterns[0] == BudgetAfterWord;
  }

  /** After "rupees" in "rupees: N", the gap ": " leads to the number N. */
  lemma RupeesColonAfterWord(n: nat, s: string)
    requires s == "rupees: " + NatToString(n)
    ensures |s| >= 6 && AfterLead(BudgetAfterWord, s, 6) == Some(n)
  {
    var digits := NatToString(n);
    assert NumberAt(s, 8, []) == Some(n) by {
      assert s[8..8 + |digits|] == digits;
      NumberAtWritten(s, 8, n, []);
    }
    assert RunEnd(s, 6, SpaceOrColon) == 8 by {
      assert s[6] == ':' && s[7] == ' ' && s[8] == digits[0];
    }
  }

  /** "rupees: N" matches the first budget pattern at its start, by its second keyword. */
  lemma RupeesColonMatch(n: nat, s: string)
    requires s == "rupees: " + NatToString(n)
    requires |s| >= 6 && AfterLead(BudgetAfterWord, s, 6) == Some(n)
    ensures MatchAt(BudgetAfterWord, s, 0) == Some(n)
  {
    assert StartsAt(s, 0, BudgetAfterWord.lead[1]) by {
      assert s[0..6] == BudgetAfterWord.lead[1];
    }
    assert !StartsAt(s, 0, BudgetAfterWord.lead[0]) by {
      assert s[0] != 'b';
    }
  }

  /** "rupees: N" has none of the words that stand for an affordable budget. */
  lemma RupeesColonHasNoBudgetWord(n: nat, s: string)
    requires s == "rupees: " + NatToString(n)
    ensures !ContainsAny(s, BudgetWords)
  {
    var digits := NatToString(n);
    forall c | c in s ensures c != 'c' && c != 'b' && c != 'a' {
      var m :| 0 <= m < |s| && s[m] == c;
      if m >= 8 {
        assert s[m] == digits[m - 8];
      }
    }
    NotContainedByChar(s, BudgetWords[0], 'c');
    NotContainedByChar(s, BudgetWords[1], 'b');
    NotContainedByChar(s, BudgetWords[2], 'a');
  }

  /** "i have N rupees" gives a budget of N: no keyword-first match, then the number before "rupees". */
  lemma HaveRupeesRoundTrip(n: nat)
    ensures BudgetOf("i have " + NatToString(n) + " rupees") == Some(n)
  {
    var s := "i have " + NatToString(n) + " rupees";
    HaveRupeesFirstPatternFails(n, s);
    HaveRupeesSecondPattern(n, s);
    BudgetBySecondPattern(s, n);
  }

  /** No affordability word and no keyword-first match: the budget is what the second pattern reads. */
  lemma BudgetBySecondPattern(q: string, v: nat)
    requires !ContainsAny(q, BudgetWords) && Search(BudgetAfterWord, q).None?
    requires Search(BudgetBeforeCurrency, q) == Some(v)
    ensures BudgetOf(q) == Some(v)
  {
    assert BudgetPatterns[0] == BudgetAfterWord && BudgetPatterns[1] == BudgetBeforeCurrency;
  }

  /** "i have N rupees" has no affordability word, and the keyword-first budget pattern finds nothing. */
  lemma HaveRupeesFirstPatternFails(n: nat, s: string)
    requires s == "i have " + NatToString(n) + " rupees"
    ensures !ContainsAny(s, BudgetWords) && Search(BudgetAfterWord, s).None?
  {
    HaveRupeesLetters(n, s);
    NotContainedByChar(s, BudgetWords[0], 'c');
    NotContainedByChar(s, BudgetWords[1], 'b');
    NotContainedByChar(s, BudgetWords[2], 'f');
    HaveRupeesNoKeywordFirst(n, s);
  }

  /** In "i have N rupees" the number-before-currency pattern reads N. */
  lemma HaveRupeesSecondPattern(n: nat, s: string)
    requires s == "i have " + NatToString(n) + " rupees"
    ensures Search(BudgetBeforeCurrency, s) == Some(n)
  {
    assert s == "i have " + NatToString(n) + " " + BudgetBeforeCurrency.tail[0] + "";
    NumberFirstAfterPrefix(BudgetBeforeCurrency.tail, "i have ", n, 0, "");
  }

  /** Where the letters of "i have N rupees" are: one `i` and one `r`, and no `b`, `c` or `f`. */
  lemma HaveRupeesLetters(n: nat, s: string)
    requires s == "i have " + NatToString(n) + " rupees"
    ensures |s| == 14 + |NatToString(n)| && s[1] == ' ' && s[9 + |NatToString(n)|] == 'u'
    ensures 'b' !in s && 'c' !in s && 'f' !in s
    ensures forall m :: 0 <= m < |s| && s[m] == 'i' ==> m == 0
    ensures forall m :: 0 <= m < |s| && s[m] == 'r' ==> m == 8 + |NatToString(n)|
  {
    var digits := NatToString(n);
    forall m | 0 <= m < |s|
      ensures s[m] != 'b' && s[m] != 'c' && s[m] != 'f'
      ensures s[m] == 'i' ==> m == 0
      ensures s[m] == 'r' ==> m == 8 + |digits|
    {
      if 7 <= m < 7 + |digits| {
        assert s[m] == digits[m - 7] && IsDigit(digits[m - 7]);
      } else if m >= 7 + |digits| {
        assert s[m] == " rupees"[m - 7 - |digits|];
      }
    }
  }

  /** The keyword-first budget pattern matches nowhere in "i have N rupees": "rupees" ends the query. */
  lemma HaveRupeesNoKeywordFirst(n: nat, s: string)
    requires |s| == 14 + |NatToString(n)| && s[1] == ' ' && s[9 + |NatToString(n)|] == 'u'
    requires 'b' !in s
    requires forall m :: 0 <= m < |s| && s[m] == 'i' ==> m == 0
    requires forall m :: 0 <= m < |s| && s[m] == 'r' ==> m == 8 + |NatToString(n)|
    ensures Search(BudgetAfterWord, s).None?
  {
    forall j | 0 <= j <= |s| ensures MatchAt(BudgetAfterWord, s, j).None? {
      HaveRupeesNoLeadAt(n, s, j);
    }
  }

  lemma HaveRupeesNoLeadAt(n: nat, s: string, j: nat)
    requires j <= |s|
    requires |s| == 14 + |NatToString(n)| && s[1] == ' ' && s[9 + |NatToString(n)|] == 'u'
    requires 'b' !in s
    requires forall m :: 0 <= m < |s| && s[m] == 'i' ==> m == 0
    requires forall m :: 0 <= m < |s| && s[m] == 'r' ==> m == 8 + |NatToString(n)|
    ensures MatchAt(BudgetAfterWord, s, j).None?
  {
    HaveRupeesKeywords(n, s, j);
  }

  /** Which budget keywords can start at `j` of "i have N rupees": only "rupees", and it ends the query. */
  lemma HaveRupeesKeywords(n: nat, s: string, j: nat)
    requires j <= |s|
    requires |s| == 14 + |NatToString(n)| && s[1] == ' ' && s[9 + |NatToString(n)|] == 'u'
    requires 'b' !in s
    requires forall m :: 0 <= m < |s| && s[m] == 'i' ==> m == 0
    requires forall m :: 0 <= m < |s| && s[m] == 'r' ==> m == 8 + |NatToString(n)|
    ensures !StartsAt(s, j, BudgetAfterWord.lead[0]) && !StartsAt(s, j, BudgetAfterWord.lead[2])
    ensures !StartsAt(s, j, BudgetAfterWord.lead[3])
    ensures StartsAt(s, j, BudgetAfterWord.lead[1]) ==> j + 6 == |s|
  {
    StartsAtChars(s, j, BudgetAfterWord.lead[0]);
    StartsAtChars(s, j, BudgetAfterWord.lead[1]);
    StartsAtChars(s, j, BudgetAfterWord.lead[2]);
    StartsAtChars(s, j, BudgetAfterWord.lead[3]);
  }

  // ---------------------------------------------------------------------------------------------
  // The processor

  /** `re.search` over the patterns in order, stopping at the first that matches. */
  method SearchPatterns(patterns: seq<Pattern>, q: string) returns (r: Option<nat>)
    ensures r == FirstSearch(patterns, q, 0)
  {
    var k := 0;
    while k < |patterns|
      invariant 0 <= k <= |patterns|
      invariant FirstSearch(patterns, q, k) == FirstSearch(patterns, q, 0)
    {
      var found := Search(patterns[k], q);
      if found.Some? {
        return found;
      }
      k := k + 1;
    }
    return None;
  }

  class QueryProcessor {
    /** The last query, lower-cased. */
    var query: string
    var constraints: Constraints
    /** Whether the constraints dictionary holds any keys: it is `{}` until the first `process_query`. */
    var filled: bool

    constructor ()
      ensures query == "" && !filled
    {
      query := "";
      constraints := NoConstraints;
      filled := false;
    }

    /** `_extract_place_name`: the place of the first key found; nothing changes when none is. */
    method ExtractPlaceName()
      modifies this`constraints
      ensures PlaceNameOf(query).Some? ==> constraints == old(constraints).(placeName := PlaceNameOf(query))
      ensures PlaceNameOf(query).None? ==> constraints == old(constraints)
    {
      var k := 0;
      while k < |PlaceTable|
        invariant 0 <= k <= |PlaceTable|
        invariant PlaceFrom(query, k) == PlaceNameOf(query)
        invariant constraints == old(constraints)
      {
        PlaceStep(query, k);
        if Contains(query, PlaceTable[k].0) {
          constraints := constraints.(placeName := Some(PlaceTable[k].1));
          return;
        }
        k := k + 1;
      }
    }

    /**
     * `_extract_budget`: the affordable ceiling for a cheap/budget/afford query, otherwise the
     * number of the first pattern that matches; nothing changes when none does.
     */
    method ExtractBudget()
      modifies this`constraints
      ensures BudgetOf(query).Some? ==> constraints == old(constraints).(budgetMax := BudgetOf(query))
      ensures BudgetOf(query).None? ==> constraints == old(constraints)
    {
      if ContainsAny(query, BudgetWords) {
        constraints := constraints.(budgetMax := Some(AffordableBudget));
        return;
      }
      var found := SearchPatterns(BudgetPatterns, query);
      if found.Some? {
        constraints := constraints.(budgetMax := found);
      }
    }

    /** `_extract_mood`: every mood with a keyword in the query (always written, possibly empty). */
    method ExtractMood()
      modifies this`constraints
      ensures constraints == old(constraints).(moods := MoodsOf(query))
    {
      var moodsFound: set<string> := {};
      var k := 0;
      while k < |MoodTable|
        invariant 0 <= k <= |MoodTable|
        invariant moodsFound == MoodsUpTo(query, k)
      {
        var (mood, keywords) := MoodTable[k];
        var i := 0;
        while i < |keywords|
          invariant 0 <= i <= |keywords|
          invariant moodsFound == MoodsUpTo(query, k) + (if ContainsAny(query, keywords[..i]) then {mood} else {})
        {
          assert ContainsAny(query, keywords[..i + 1]) <==> ContainsAny(query, keywords[..i]) || Contains(query, keywords[i]) by {
            assert forall j :: 0 <= j < i ==> keywords[..i + 1][j] == keywords[..i][j];
            assert keywords[..i + 1][i] == keywords[i];
          }
          if Contains(query, keywords[i]) {
            moodsFound := moodsFound + {mood};
          }
          i := i + 1;
        }
        assert keywords[..i] == keywords;
        k := k + 1;
      }
      constraints := constraints.(moods := moodsFound);
    }

    /** `_extract_months`: the months named by every key found; nothing changes when none is. */
    method ExtractMonths()
      modifies this`constraints
      ensures MonthsOf(query) != {} ==> constraints == old(constraints).(bestMonths := MonthsOf(query))
      ensures MonthsOf(query) == {} ==> constraints == old(constraints)
    {
      var monthsFound: seq<string> := [];
      var k := 0;
      while k < |MonthTable|
        invariant 0 <= k <= |MonthTable|
        invariant Elements(monthsFound) == MonthsUpTo(query, k)
      {
        var (key, value) := MonthTable[k];
        if Contains(query, key) {
          monthsFound := monthsFound + value;
        }
        k := k + 1;
      }
      if monthsFound != [] {
        assert monthsFound[0] in MonthsOf(query);
        constraints := constraints.(bestMonths := Elements(monthsFound));
      }
    }

    /** `_extract_duration`: the number of the first duration pattern that matches, if any. */
    method ExtractDuration()
      modifies this`constraints
      ensures DurationOf(query).Some? ==> constraints == old(constraints).(durationDays := DurationOf(query))
      ensures DurationOf(query).None? ==> constraints == old(constraints)
    {
      var found := SearchPatterns(DurationPatterns, query);
      if found.Some? {
        constraints := constraints.(durationDays := found);
      }
    }

    /** `_extract_distance`: the number of the first distance pattern that matches, if any. */
    method ExtractDistance()
      modifies this`constraints
      ensures DistanceOf(query).Some? ==> constraints == old(constraints).(distanceKm := DistanceOf(query))
      ensures DistanceOf(query).None? ==> constraints == old(constraints)
    {
      var found := SearchPatterns(DistancePatterns, query);
      if found.Some? {
        constraints := constraints.(distanceKm := found);
      }
    }

    /** `process_query`: lower-case, reset to the defaults, run the six extractors. */
    method ProcessQuery(q: string) returns (result: Constraints)
      modifies this
      ensures query == Lower(q) && filled
      ensures result == constraints == ParseQuery(q)
    {
      query := Lower(q);
      constraints := NoConstraints;
      filled := true;
      ExtractPlaceName();
      ExtractBudget();
      ExtractMood();
      ExtractMonths();
      ExtractDuration();
      ExtractDistance();
      result := constraints;
    }

    /** `get_constraints`: `None` stands for the empty dictionary of a processor that has seen no query. */
    function GetConstraints(): (r: Option<Constraints>)
      reads this
      ensures r.None? <==> !filled
      ensures r.Some? ==> r.value == constraints
    {
      if filled then Some(constraints) else None
    }
  }
}
