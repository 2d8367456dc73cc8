/**
 * What the indexer of src/indexer.py computes, as functions of the destination list:
 * the word splitter `_break_into_words`, and the four structures that `build_index` fills
 * (term -> ids, mood -> ids, term -> document count, id -> metadata with its key order).
 * The class in indexer.dfy fills the same structures in place and is proved to end in these values.
 */
module IndexModel {
  import opened Text

  /** One catalog record; an absent `best_months` is the empty list. */
  datatype Destination = Destination(
    id: int,
    name: string,
    moods: seq<string>,
    budgetMin: int,
    budgetMax: int,
    durationDays: int,
    distanceKm: int,
    rating: real,
    bestMonths: seq<string>,
    description: string)

  /** `SHORTEST_WORD_LEN`: indexed words are strictly longer than this. */
  const ShortestWordLen: nat := 2

  // ---------------------------------------------------------------------------------------------
  // _break_into_words

  /** Characters that `[^a-zA-Z0-9\s]` does not remove. */
  predicate Kept(c: char) { IsAsciiAlnum(c) || IsSpace(c) }

  /** `re.sub(r'[^a-zA-Z0-9\s]', '', s)`. */
  function StripSymbols(s: string): (r: string)
    ensures forall c :: c in r ==> Kept(c) && c in s
    ensures forall c :: c in s && Kept(c) ==> c in r
  {
    if s == [] then []
    else StripSymbols(s[..|s| - 1]) + (if Kept(s[|s| - 1]) then [s[|s| - 1]] else [])
  }

  /** A string made only of kept characters comes through `StripSymbols` unchanged. */
  lemma {:induction false} StripKeepsCleanText(s: string)
    requires forall c :: c in s ==> Kept(c)
    ensures StripSymbols(s) == s
  {
    if s != [] {
      var init, last := s[..|s| - 1], s[|s| - 1];
      assert s == init + [last];
      StripKeepsCleanText(init);
      assert Kept(last);
    }
  }

  /** Stripping works character by character: it keeps the kept characters of each part, in order. */
  lemma {:induction false} StripConcat(a: string, b: string)
    ensures StripSymbols(a + b) == StripSymbols(a) + StripSymbols(b)
    decreases |b|
  {
    if b != [] {
      var init, last := b[..|b| - 1], b[|b| - 1];
      assert a + b == (a + init) + [last];
      assert (a + b)[..|a + b| - 1] == a + init;
      StripConcat(a, init);
    } else {
      assert a + b == a;
    }
  }

  lemma StripIsIdempotent(s: string)
    ensures StripSymbols(StripSymbols(s)) == StripSymbols(s)
  {
    StripKeepsCleanText(StripSymbols(s));
  }

  /** The end of the run of non-space characters that starts at `i`. */
  function WordEnd(s: string, i: nat): (j: nat)
    requires i <= |s|
    ensures i <= j <= |s|
    ensures forall m :: i <= m < j ==> !IsSpace(s[m])
    ensures j == |s| || IsSpace(s[j])
    decreases |s| - i
  {
    if i < |s| && !IsSpace(s[i]) then WordEnd(s, i + 1) else i
  }

  /** `s.split()`: the maximal runs of non-space characters, in order. */
  function SplitWords(s: string): (ws: seq<string>)
    ensures forall k :: 0 <= k < |ws| ==> ws[k] != []
    ensures forall k, m :: 0 <= k < |ws| && 0 <= m < |ws[k]| ==> !IsSpace(ws[k][m]) && ws[k][m] in s
    decreases |s|
  {
    if s == [] then []
    else if IsSpace(s[0]) then SplitWords(s[1..])
    else
      var n := WordEnd(s, 0);
      [s[..n]] + SplitWords(s[n..])
  }

  /** `w` occurs at `p` in `s` with whitespace or an end of `s` on both sides: a maximal run. */
  predicate RunAt(s: string, p: nat, w: string) {
    StartsAt(s, p, w) && (p == 0 || IsSpace(s[p - 1])) && (p + |w| == |s| || IsSpace(s[p + |w|]))
  }

  /** A run of a suffix is a run of the whole text when it does not start the suffix after a non-space. */
  lemma RunInSuffix(s: string, d: nat, p: nat, w: string)
    requires d <= |s| && RunAt(s[d..], p, w)
    requires p > 0 || d == 0 || IsSpace(s[d - 1])
    ensures RunAt(s, d + p, w)
  {
    assert s[d + p..d + p + |w|] == s[d..][p..p + |w|];
  }

  /** Every word `split()` returns is a maximal run of non-space characters of the text. */
  lemma {:induction false} SplitWordsAreRuns(s: string, w: string)
    requires w in SplitWords(s)
    ensures exists p: nat :: RunAt(s, p, w)
    decreases |s|
  {
    if IsSpace(s[0]) {
      SplitWordsAreRuns(s[1..], w);
      var p: nat :| RunAt(s[1..], p, w);
      RunInSuffix(s, 1, p, w);
    } else {
      var n := WordEnd(s, 0);
      if w == s[..n] {
        assert RunAt(s, 0, w);
      } else {
        var rest := SplitWords(s[n..]);
        assert w in rest;
        SplitWordsAreRuns(s[n..], w);
        var p: nat :| RunAt(s[n..], p, w);
        var k :| 0 <= k < |rest| && rest[k] == w;
        assert !IsSpace(w[0]);
        RunInSuffix(s, n, p, w);
      }
    }
  }

  function RemoveSpaces(s: string): string
  {
    if s == [] then [] else (if IsSpace(s[0]) then [] else [s[0]]) + RemoveSpaces(s[1..])
  }

  function Concat(ws: seq<string>): string
  {
    if ws == [] then [] else ws[0] + Concat(ws[1..])
  }

  lemma {:induction false} RemoveSpacesAfterWord(s: string, n: nat)
    requires n <= |s|
    requires forall m :: 0 <= m < n ==> !IsSpace(s[m])
    ensures RemoveSpaces(s) == s[..n] + RemoveSpaces(s[n..])
  {
    if n > 0 {
      RemoveSpacesAfterWord(s[1..], n - 1);
      assert s[1..][n - 1..] == s[n..];
      assert s[..n] == [s[0]] + s[1..][..n - 1];
    }
  }

  /** Splitting loses exactly the whitespace: gluing the words back gives the text without spaces. */
  lemma {:induction false} SplitWordsLosesOnlySpaces(s: string)
    ensures Concat(SplitWords(s)) == RemoveSpaces(s)
    decreases |s|
  {
    if s == [] {
    } else if IsSpace(s[0]) {
      SplitWordsLosesOnlySpaces(s[1..]);
    } else {
      var n := WordEnd(s, 0);
      var ws := SplitWords(s);
      assert ws == [s[..n]] + SplitWords(s[n..]);
      assert ws[1..] == SplitWords(s[n..]);
      SplitWordsLosesOnlySpaces(s[n..]);
      RemoveSpacesAfterWord(s, n);
    }
  }

  /** The words longer than `ShortestWordLen`, in order. */
  function LongWords(ws: seq<string>): (r: seq<string>)
    ensures forall k :: 0 <= k < |r| ==> |r[k]| > ShortestWordLen && r[k] in ws
    ensures forall w :: w in ws && |w| > ShortestWordLen ==> w in r
  {
    if ws == [] then []
    else (if |ws[0]| > ShortestWordLen then [ws[0]] else []) + LongWords(ws[1..])
  }

  /** Filtering works word by word: the long words of each part, in order. */
  lemma {:induction false} LongWordsConcat(a: seq<string>, b: seq<string>)
    ensures LongWords(a + b) == LongWords(a) + LongWords(b)
  {
    if a == [] {
      assert a + b == b;
    } else {
      var ab := a + b;
      assert ab[0] == a[0] && ab[1..] == a[1..] + b;
      LongWordsConcat(a[1..], b);
    }
  }

  /** `_break_into_words(text)`: strip symbols, split on whitespace, drop words of length <= 2. */
  function BreakIntoWords(text: string): (ws: seq<string>)
    ensures forall k :: 0 <= k < |ws| ==> |ws[k]| > ShortestWordLen
    ensures forall k, m :: 0 <= k < |ws| && 0 <= m < |ws[k]| ==> IsAsciiAlnum(ws[k][m]) && ws[k][m] in text
    ensures forall w :: w in SplitWords(StripSymbols(text)) ==> (w in ws <==> |w| > ShortestWordLen)
    ensures forall w :: w in ws ==> w in SplitWords(StripSymbols(text))
  {
    var stripped := StripSymbols(text);
    var split := SplitWords(stripped);
    var ws := LongWords(split);
    forall k, m | 0 <= k < |ws| && 0 <= m < |ws[k]|
      ensures IsAsciiAlnum(ws[k][m]) && ws[k][m] in text
    {
      var j :| 0 <= j < |split| && split[j] == ws[k];
      var c := split[j][m];
      assert c in stripped;
    }
    ws
  }

  /** An indexed term: longer than two characters, only `[a-z0-9]`. */
  predicate IsIndexTerm(w: string) {
    |w| > ShortestWordLen && forall m :: 0 <= m < |w| ==> IsLowerAlnum(w[m])
  }

  /** The text `build_index` tokenizes: `(name + ' ' + description).lower()`. */
  function IndexText(d: Destination): string {
    Lower(d.name + " " + d.description)
  }

  /** The distinct words of one record, `set(word_tokens)`. */
  function TokenSet(d: Destination): set<string> {
    set w | w in BreakIntoWords(IndexText(d))
  }

  /** Every indexed word is a well-formed index term. */
  lemma TokenSetTerms(d: Destination)
    ensures forall w :: w in TokenSet(d) ==> IsIndexTerm(w)
  {
    var raw := d.name + " " + d.description;
    var text := IndexText(d);
    var ws := BreakIntoWords(text);
    forall k, m | 0 <= k < |ws| && 0 <= m < |ws[k]| ensures IsLowerAlnum(ws[k][m]) {
      var i :| 0 <= i < |text| && text[i] == ws[k][m];
      assert text[i] == LowerChar(raw[i]);
    }
    forall w | w in TokenSet(d) ensures IsIndexTerm(w) {
      var k :| 0 <= k < |ws| && ws[k] == w;
    }
  }

  /** The mood keys of one record: its tags, lower-cased. */
  function LowerSet(tags: seq<string>): set<string> {
    set t | t in tags :: Lower(t)
  }

  /** One more tag adds its lower-cased form. */
  lemma LowerSetSnoc(tags: seq<string>, k: nat)
    requires k < |tags|
    ensures LowerSet(tags[..k + 1]) == LowerSet(tags[..k]) + {Lower(tags[k])}
  {
    assert tags[..k + 1] == tags[..k] + [tags[k]];
  }

  function MoodKeys(d: Destination): set<string> {
    LowerSet(d.moods)
  }

  // ---------------------------------------------------------------------------------------------
  // The structures build_index fills, as folds over the record list

  /** Which keys of a record a structure is keyed by: its words or its mood tags. */
  datatype KeyKind = Words | Moods

  function KeysOf(kind: KeyKind, d: Destination): set<string> {
    match kind
    case Words => TokenSet(d)
    case Moods => MoodKeys(d)
  }

  /** A record as one of the reverse maps sees it: its id and its keys. */
  datatype Entry = Entry(id: int, keys: set<string>)

  function Entries(L: seq<Destination>, kind: KeyKind): (E: seq<Entry>)
    ensures |E| == |L|
  {
    seq(|L|, j requires 0 <= j < |L| => Entry(L[j].id, KeysOf(kind, L[j])))
  }

  lemma EntriesSnoc(L: seq<Destination>, d: Destination, kind: KeyKind)
    ensures Entries(L + [d], kind) == Entries(L, kind) + [Entry(d.id, KeysOf(kind, d))]
  {
  }

  type KeyIndex = map<string, set<int>>

  /** `m[w].add(id)` on a `defaultdict(set)`. */
  function AddOne(m: KeyIndex, w: string, id: int): KeyIndex {
    m[w := (if w in m then m[w] else {}) + {id}]
  }

  /** `m[w].add(id)` for every `w` in `keys`. */
  function AddAll(m: KeyIndex, keys: set<string>, id: int): KeyIndex {
    map w | w in m.Keys + keys :: (if w in m then m[w] else {}) + (if w in keys then {id} else {})
  }

  lemma AddAllNothing(m: KeyIndex, id: int)
    ensures AddAll(m, {}, id) == m
  {
    var a := AddAll(m, {}, id);
    assert a.Keys == m.Keys;
    forall x | x in a.Keys ensures a[x] == m[x] {
    }
  }

  lemma AddAllStep(m: KeyIndex, keys: set<string>, w: string, id: int)
    ensures AddAll(m, keys + {w}, id) == AddOne(AddAll(m, keys, id), w, id)
  {
    var a, b := AddAll(m, keys + {w}, id), AddOne(AddAll(m, keys, id), w, id);
    assert a.Keys == b.Keys;
    forall x | x in a.Keys ensures a[x] == b[x] {
    }
  }

  /** The reverse map from keys to ids: `reverse_term_map` over word entries, `vibe_catalog` over mood entries. */
  function KeyIndexOf(E: seq<Entry>): KeyIndex
  {
    if E == [] then map[] else AddAll(KeyIndexOf(E[..|E| - 1]), E[|E| - 1].keys, E[|E| - 1].id)
  }

  /** Some entry with this id has `w` among its keys. */
  predicate Indexed(E: seq<Entry>, w: string, id: int) {
    exists j :: 0 <= j < |E| && E[j].id == id && w in E[j].keys
  }

  /** Some entry has `w` among its keys. */
  predicate Occurs(E: seq<Entry>, w: string) {
    exists j :: 0 <= j < |E| && w in E[j].keys
  }

  /** `w` is a key iff some entry has it, and `id` is under `w` iff an entry with that id has it. */
  lemma {:induction false} KeyIndexSpec(E: seq<Entry>, w: string, id: int)
    ensures w in KeyIndexOf(E) <==> Occurs(E, w)
    ensures (w in KeyIndexOf(E) && id in KeyIndexOf(E)[w]) <==> Indexed(E, w, id)
  {
    if E != [] {
      var init, last := E[..|E| - 1], E[|E| - 1];
      KeyIndexSpec(init, w, id);
      if Occurs(E, w) && w !in last.keys {
        var j :| 0 <= j < |E| && w in E[j].keys;
        assert init[j] == E[j];
      }
      if Indexed(E, w, id) && !(w in last.keys && last.id == id) {
        var j :| 0 <= j < |E| && E[j].id == id && w in E[j].keys;
        assert init[j] == E[j];
      }
      if Indexed(init, w, id) {
        var j :| 0 <= j < |init| && init[j].id == id && w in init[j].keys;
        assert E[j] == init[j];
      }
      if Occurs(init, w) {
        var j :| 0 <= j < |init| && w in init[j].keys;
        assert E[j] == init[j];
      }
    }
  }

  /** `term_occurrence_counts[w] += 1` on a `defaultdict(int)`. */
  function Incr(c: map<string, nat>, w: string): map<string, nat> {
    c[w := (if w in c then c[w] else 0) + 1]
  }

  /** `counts[w] += 1` for every `w` in `keys`. */
  function AddCounts(c: map<string, nat>, keys: set<string>): map<string, nat> {
    map w | w in c.Keys + keys :: (if w in c then c[w] else 0) + (if w in keys then 1 else 0)
  }

  lemma AddCountsNothing(c: map<string, nat>)
    ensures AddCounts(c, {}) == c
  {
    assert AddCounts(c, {}).Keys == c.Keys;
  }

  lemma AddCountsStep(c: map<string, nat>, keys: set<string>, w: string)
    requires w !in keys
    ensures AddCounts(c, keys + {w}) == Incr(AddCounts(c, keys), w)
  {
    var a, b := AddCounts(c, keys + {w}), Incr(AddCounts(c, keys), w);
    assert a.Keys == b.Keys;
    forall x | x in a.Keys ensures a[x] == b[x] {
    }
  }

  /** `term_occurrence_counts` after indexing: one count per entry that has the key. */
  function CountsOf(E: seq<Entry>): (c: map<string, nat>)
    ensures forall w :: w in c ==> c[w] > 0
  {
    if E == [] then map[] else AddCounts(CountsOf(E[..|E| - 1]), E[|E| - 1].keys)
  }

  /** Reference count: how many entries (by position) have `w` among their keys. */
  function DocFreq(E: seq<Entry>, w: string): nat
  {
    if E == [] then 0 else DocFreq(E[..|E| - 1], w) + (if w in E[|E| - 1].keys then 1 else 0)
  }

  lemma {:induction false} DocFreqAtMostRecords(E: seq<Entry>, w: string)
    ensures DocFreq(E, w) <= |E|
  {
    if E != [] {
      DocFreqAtMostRecords(E[..|E| - 1], w);
    }
  }

  /** The document frequency is positive exactly when some entry has the key. */
  lemma {:induction false} DocFreqPositive(E: seq<Entry>, w: string)
    ensures DocFreq(E, w) > 0 <==> Occurs(E, w)
  {
    if E != [] {
      var init, last := E[..|E| - 1], E[|E| - 1];
      DocFreqPositive(init, w);
      if Occurs(E, w) && w !in last.keys {
        var j :| 0 <= j < |E| && w in E[j].keys;
        assert init[j] == E[j];
      }
      if Occurs(init, w) {
        var j :| 0 <= j < |init| && w in init[j].keys;
        assert E[j] == init[j];
      }
    }
  }

  /**
   * The counts table holds exactly the keys of some entry, each with its document frequency:
   * a record adds one for a key however often the key repeats in it.
   */
  lemma {:induction false} CountsSpec(E: seq<Entry>, w: string)
    ensures w in CountsOf(E) <==> DocFreq(E, w) > 0
    ensures w in CountsOf(E) ==> CountsOf(E)[w] == DocFreq(E, w)
  {
    if E != [] {
      CountsSpec(E[..|E| - 1], w);
    }
  }

  /** `destination_info` after indexing `L`: each id holds the last record with that id. */
  function MetadataOf(L: seq<Destination>): map<int, Destination>
  {
    if L == [] then map[] else MetadataOf(L[..|L| - 1])[L[|L| - 1].id := L[|L| - 1]]
  }

  /** The key order of `destination_info`: an id keeps the position of its first insertion. */
  function OrderOf(L: seq<Destination>): seq<int>
  {
    if L == [] then []
    else
      var o := OrderOf(L[..|L| - 1]);
      if L[|L| - 1].id in o then o else o + [L[|L| - 1].id]
  }

  /** The prefix of length `i + 1` is the prefix of length `i` and one more record. */
  lemma PrefixSnoc(L: seq<Destination>, i: nat)
    requires i < |L|
    ensures L[..i + 1] == L[..i] + [L[i]]
  {
  }

  /** One more entry: the reverse map takes one step. */
  lemma KeyIndexSnoc(E: seq<Entry>, e: Entry)
    ensures KeyIndexOf(E + [e]) == AddAll(KeyIndexOf(E), e.keys, e.id)
  {
    assert (E + [e])[..|E|] == E;
  }

  /** One more entry: the counts take one step. */
  lemma CountsSnoc(E: seq<Entry>, e: Entry)
    ensures CountsOf(E + [e]) == AddCounts(CountsOf(E), e.keys)
  {
    assert (E + [e])[..|E|] == E;
  }

  /** Indexing one more record: the metadata and its key order take one step. */
  lemma MetadataSnoc(L: seq<Destination>, d: Destination)
    ensures MetadataOf(L + [d]) == MetadataOf(L)[d.id := d]
    ensures OrderOf(L + [d]) == if d.id in OrderOf(L) then OrderOf(L) else OrderOf(L) + [d.id]
  {
    assert (L + [d])[..|L|] == L;
  }

  predicate Distinct(s: seq<int>) {
    forall i, j :: 0 <= i < j < |s| ==> s[i] != s[j]
  }

  predicate HasId(L: seq<Destination>, id: int) {
    exists j :: 0 <= j < |L| && L[j].id == id
  }

  /** Position `j` holds the last record of `L` with this id. */
  predicate LastWithId(L: seq<Destination>, id: int, j: int) {
    0 <= j < |L| && L[j].id == id && forall k :: j < k < |L| ==> L[k].id != id
  }

  /** An id has metadata iff some record carries it, and the metadata is the last such record. */
  lemma {:induction false} MetadataSpec(L: seq<Destination>, id: int)
    ensures id in MetadataOf(L) <==> HasId(L, id)
    ensures id in MetadataOf(L) ==> exists j :: LastWithId(L, id, j) && L[j] == MetadataOf(L)[id]
  {
    if L != [] {
      var init := L[..|L| - 1];
      MetadataSpec(init, id);
      if L[|L| - 1].id == id {
        assert LastWithId(L, id, |L| - 1);
      } else {
        HasIdInPrefix(L, id);
        if id in MetadataOf(init) {
          var j :| LastWithId(init, id, j) && init[j] == MetadataOf(init)[id];
          forall k | j < k < |L| ensures L[k].id != id {
            if k < |init| {
              assert L[k] == init[k];
            }
          }
          assert L[j] == init[j];
        }
      }
    }
  }

  /** When the last record has another id, the id occurs in `L` iff it occurs before the last record. */
  lemma HasIdInPrefix(L: seq<Destination>, id: int)
    requires L != [] && L[|L| - 1].id != id
    ensures HasId(L, id) <==> HasId(L[..|L| - 1], id)
  {
    var init := L[..|L| - 1];
    if HasId(L, id) {
      var j :| 0 <= j < |L| && L[j].id == id;
      assert init[j] == L[j];
    }
    if HasId(init, id) {
      var j :| 0 <= j < |init| && init[j].id == id;
      assert L[j] == init[j];
    }
  }

  /** The key order lists every id with metadata exactly once. */
  lemma {:induction false} OrderSpec(L: seq<Destination>)
    ensures Distinct(OrderOf(L))
    ensures forall id :: id in OrderOf(L) <==> id in MetadataOf(L)
  {
    if L != [] {
      OrderSpec(L[..|L| - 1]);
    }
  }

  /** Position `j` holds the first record of `L` with this id. */
  predicate FirstWithId(L: seq<Destination>, id: int, j: int) {
    0 <= j < |L| && L[j].id == id && forall k :: 0 <= k < j ==> L[k].id != id
  }

  /** The first record with an id lies in any prefix that has the id. */
  lemma FirstInPrefix(L: seq<Destination>, id: int, j: int)
    requires L != [] && HasId(L[..|L| - 1], id) && FirstWithId(L, id, j)
    ensures FirstWithId(L[..|L| - 1], id, j)
  {
    var k :| 0 <= k < |L| - 1 && L[..|L| - 1][k].id == id;
    assert L[k].id == id;
  }

  /**
   * The key order of `destination_info` is the order of first occurrence: of two ids, the one
   * listed earlier first appears earlier in the record list.
   */
  lemma {:induction false} OrderIsFirstOccurrence(L: seq<Destination>, a: nat, b: nat, ja: nat, jb: nat)
    requires a < b < |OrderOf(L)|
    requires FirstWithId(L, OrderOf(L)[a], ja) && FirstWithId(L, OrderOf(L)[b], jb)
    ensures ja < jb
  {
    var init := L[..|L| - 1];
    var o := OrderOf(init);
    var ida, idb := OrderOf(L)[a], OrderOf(L)[b];
    assert ida == o[a] && HasId(init, ida) by {
      OrderSpec(init);
      MetadataSpec(init, o[a]);
    }
    FirstInPrefix(L, ida, ja);
    if b < |o| {
      assert idb == o[b] && HasId(init, idb) by {
        OrderSpec(init);
        MetadataSpec(init, o[b]);
      }
      FirstInPrefix(L, idb, jb);
      OrderIsFirstOccurrence(init, a, b, ja, jb);
    } else {
      assert !HasId(init, idb) by {
        OrderSpec(init);
        MetadataSpec(init, idb);
      }
      assert jb == |L| - 1;
    }
  }
}
