/**
 * The regular expressions of the query processor, as a small datatype with a matcher.
 *
 * Every pattern in src/query_processor.py has one of two shapes:
 *   keyword first:  (?:k1|k2|...) GAP (?:u1|u2)? UNITGAP* (\d+) \s* (?:t1|t2|...)
 *   number first:   (\d+) \s* (?:t1|t2|...)
 * where GAP is `\s` or `[\s:]` repeated at least `gapMin` times and the trailing keywords may be absent.
 * `re.search` returns the leftmost position where the pattern matches; at that position the
 * alternatives are tried in order. Each repetition is matched greedily, to the end of its run:
 * backing off a run never helps, because what follows a run never starts with a character of that
 * run's own class (digits are followed by spaces or letters, spaces by letters, colons or digits).
 * So a match is decided by maximal runs, which is what `RunEnd` computes.
 */
module Patterns {
  import opened Text
  import opened Wrappers

  datatype CharClass = Digit | Space | SpaceOrColon

  predicate InClass(c: char, k: CharClass) {
    match k
    case Digit => IsDigit(c)
    case Space => IsSpace(c)
    case SpaceOrColon => IsSpace(c) || c == ':'
  }

  /** The end of the longest run of characters of class `k` that starts at `i`. */
  function RunEnd(s: string, i: nat, k: CharClass): (j: nat)
    requires i <= |s|
    ensures i <= j <= |s|
    ensures forall m :: i <= m < j ==> InClass(s[m], k)
    ensures j == |s| || !InClass(s[j], k)
    decreases |s| - i
  {
    if i < |s| && InClass(s[i], k) then RunEnd(s, i + 1, k) else i
  }

  datatype Pattern =
    | NumberFirst(tail: seq<string>)
    | KeywordFirst(lead: seq<string>, gap: CharClass, gapMin: nat,
                   unit: seq<string>, unitGap: CharClass, tail: seq<string>)

  /** One of the alternatives `alts` occurs at position `i`. */
  predicate StartsWithAny(s: string, i: nat, alts: seq<string>) {
    exists k :: 0 <= k < |alts| && StartsAt(s, i, alts[k])
  }

  /**
   * `(\d+)` at position `i`, then (when `tail` is not empty) `\s*` and one of `tail`:
   * the value of the digit run.
   */
  function NumberAt(s: string, i: nat, tail: seq<string>): (r: Option<nat>)
    requires i <= |s|
    ensures r.Some? ==> i < |s| && IsDigit(s[i])
  {
    if i < |s| && IsDigit(s[i]) then
      var e := RunEnd(s, i, Digit);
      if tail == [] || StartsWithAny(s, RunEnd(s, e, Space), tail) then Some(DigitsValue(s[i..e])) else None
    else None
  }

  /** The optional word `(?:u1|u2)?` present at `g`, tried in order from alternative `k`. */
  function UnitThenNumber(p: Pattern, s: string, g: nat, k: nat): Option<nat>
    requires p.KeywordFirst? && g <= |s| && k <= |p.unit|
    decreases |p.unit| - k
  {
    if k == |p.unit| then None
    else if StartsAt(s, g, p.unit[k]) && NumberAt(s, RunEnd(s, g + |p.unit[k]|, p.unitGap), p.tail).Some? then
      NumberAt(s, RunEnd(s, g + |p.unit[k]|, p.unitGap), p.tail)
    else UnitThenNumber(p, s, g, k + 1)
  }

  /** Everything after the leading keyword, which ends at `j`. */
  function AfterLead(p: Pattern, s: string, j: nat): Option<nat>
    requires p.KeywordFirst? && j <= |s|
  {
    var g := RunEnd(s, j, p.gap);
    if g - j < p.gapMin then None
    else if p.unit == [] then NumberAt(s, g, p.tail)
    else
      match UnitThenNumber(p, s, g, 0)
      case Some(v) => Some(v)
      case None => NumberAt(s, RunEnd(s, g, p.unitGap), p.tail)
  }

  /** The leading alternatives, tried in order from `k`: the first one the rest of the pattern accepts. */
  function LeadFrom(p: Pattern, s: string, i: nat, k: nat): Option<nat>
    requires p.KeywordFirst? && i <= |s| && k <= |p.lead|
    decreases |p.lead| - k
  {
    if k == |p.lead| then None
    else if StartsAt(s, i, p.lead[k]) && AfterLead(p, s, i + |p.lead[k]|).Some? then
      AfterLead(p, s, i + |p.lead[k]|)
    else LeadFrom(p, s, i, k + 1)
  }

  /** The value of group 1 when the pattern matches starting exactly at `i`. */
  function MatchAt(p: Pattern, s: string, i: nat): Option<nat>
    requires i <= |s|
  {
    match p
    case NumberFirst(tail) => NumberAt(s, i, tail)
    case KeywordFirst(_, _, _, _, _, _) => LeadFrom(p, s, i, 0)
  }

  /** The leftmost position at or after `i` where `p` matches. */
  function FirstMatchFrom(p: Pattern, s: string, i: nat): (r: Option<nat>)
    requires i <= |s|
    ensures r.Some? ==> i <= r.value <= |s| && MatchAt(p, s, r.value).Some?
    ensures forall j :: i <= j <= |s| && (r.None? || j < r.value) ==> MatchAt(p, s, j).None?
    decreases |s| - i
  {
    if MatchAt(p, s, i).Some? then Some(i)
    else if i == |s| then None
    else FirstMatchFrom(p, s, i + 1)
  }

  /** `re.search(p, s)`: the value of group 1 of the leftmost match, if any. */
  function Search(p: Pattern, s: string): (r: Option<nat>)
    ensures r.Some? <==> exists i :: 0 <= i <= |s| && MatchAt(p, s, i).Some?
    ensures r.Some? ==> exists i :: 0 <= i <= |s| && MatchAt(p, s, i) == r
                                    && forall j :: 0 <= j < i ==> MatchAt(p, s, j).None?
  {
    match FirstMatchFrom(p, s, 0)
    case Some(i) => MatchAt(p, s, i)
    case None => None
  }

  /** A match anywhere makes `Search` succeed. */
  lemma SearchFindsMatch(p: Pattern, s: string, i: nat)
    requires i <= |s| && MatchAt(p, s, i).Some?
    ensures Search(p, s).Some?
  {
  }

  /** A match with no match before it is the one `re.search` reports. */
  lemma SearchIsLeftmost(p: Pattern, s: string, i: nat)
    requires i <= |s| && MatchAt(p, s, i).Some?
    requires forall j :: 0 <= j < i ==> MatchAt(p, s, j).None?
    ensures Search(p, s) == MatchAt(p, s, i)
  {
    var r := FirstMatchFrom(p, s, 0);
    assert r.Some?;
    assert r.value == i;
  }

  /** A keyword-first pattern whose first keyword opens `s` and whose rest then matches reads that value. */
  lemma LeadingKeywordMatch(p: Pattern, s: string, g: nat, v: nat)
    requires p.KeywordFirst? && p.unit == [] && p.lead != [] && StartsAt(s, 0, p.lead[0])
    requires g == RunEnd(s, |p.lead[0]|, p.gap) && g - |p.lead[0]| >= p.gapMin
    requires NumberAt(s, g, p.tail) == Some(v)
    ensures Search(p, s) == Some(v)
  {
    assert AfterLead(p, s, |p.lead[0]|) == Some(v);
    assert MatchAt(p, s, 0) == Some(v);
    SearchIsLeftmost(p, s, 0);
  }
}
