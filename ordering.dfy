/**
 * The order of `rank_spots`' result (src/ranker.py): `sorted(..., key=(score, rating),
 * reverse=True)`. Python's sort is stable, also in reverse, so spots with equal score and rating
 * keep their catalog order. Giving each candidate its catalog position makes that a strict total
 * order, `Outranks`; `Sort` is an insertion sort by it, and `RankedIsUnique` shows that it is the
 * only arrangement of the candidates in that order.
 */
module Ordering {

  /** One entry of the `scores` dictionary, with the rating it is sorted by and its catalog position. */
  datatype Candidate = Candidate(id: int, score: real, rating: real, position: nat)

  /** `a` comes before `b`: higher score, then higher rating, then earlier in the catalog. */
  predicate Outranks(a: Candidate, b: Candidate) {
    || a.score > b.score
    || (a.score == b.score && a.rating > b.rating)
    || (a.score == b.score && a.rating == b.rating && a.position < b.position)
  }

  /** `(score, rating)` of `a` is at least that of `b`, compared as Python compares tuples. */
  predicate KeyAtLeast(a: Candidate, b: Candidate) {
    a.score > b.score || (a.score == b.score && a.rating >= b.rating)
  }

  /** Every candidate outranks every later one. */
  predicate Ranked(s: seq<Candidate>) {
    forall i, j :: 0 <= i < j < |s| ==> Outranks(s[i], s[j])
  }

  predicate DistinctPositions(s: seq<Candidate>) {
    forall i, j :: 0 <= i < j < |s| ==> s[i].position != s[j].position
  }

  /** `x` placed before the first element it outranks. */
  function Insert(x: Candidate, s: seq<Candidate>): (r: seq<Candidate>)
    ensures multiset(r) == multiset(s) + multiset{x}
  {
    if s == [] then [x]
    else if Outranks(x, s[0]) then [x] + s
    else
      assert s == [s[0]] + s[1..];
      [s[0]] + Insert(x, s[1..])
  }

  /** The candidates in descending order of `Outranks`. */
  function Sort(s: seq<Candidate>): (r: seq<Candidate>)
    ensures multiset(r) == multiset(s)
    ensures |r| == |s|
  {
    if s == [] then []
    else
      assert s == [s[0]] + s[1..];
      Insert(s[0], Sort(s[1..]))
  }

  /** Two candidates at different positions are ordered one way or the other, never both. */
  lemma OutranksIsStrictTotal(a: Candidate, b: Candidate)
    requires a.position != b.position
    ensures Outranks(a, b) != Outranks(b, a)
  {
  }

  /** Inserting a candidate whose position is new into a ranked list keeps it ranked. */
  lemma {:induction false} InsertRanked(x: Candidate, s: seq<Candidate>)
    requires Ranked(s)
    requires forall y :: y in s ==> y.position != x.position
    ensures Ranked(Insert(x, s))
  {
    if s != [] && !Outranks(x, s[0]) {
      var rest := s[1..];
      assert Ranked(rest) by {
        forall i, j | 0 <= i < j < |rest| ensures Outranks(rest[i], rest[j]) {
          assert rest[i] == s[i + 1] && rest[j] == s[j + 1];
        }
      }
      forall y | y in rest ensures y.position != x.position {
        assert y in s;
      }
      InsertRanked(x, rest);
      var r := Insert(x, s);
      var tail := Insert(x, rest);
      assert r == [s[0]] + tail;
      OutranksIsStrictTotal(x, s[0]);
      forall j | 0 < j < |r| ensures Outranks(s[0], r[j]) {
        assert r[j] == tail[j - 1];
        assert r[j] in multiset(tail);
        if r[j] != x {
          assert r[j] in multiset(rest);
          var k :| 0 <= k < |rest| && rest[k] == r[j];
          assert s[k + 1] == r[j];
        }
      }
    }
  }

  /** Sorting candidates at distinct positions ranks them. */
  lemma {:induction false} SortRanked(s: seq<Candidate>)
    requires DistinctPositions(s)
    ensures Ranked(Sort(s))
  {
    if s != [] {
      var rest := s[1..];
      assert DistinctPositions(rest) by {
        forall i, j | 0 <= i < j < |rest| ensures rest[i].position != rest[j].position {
          assert rest[i] == s[i + 1] && rest[j] == s[j + 1];
        }
      }
      SortRanked(rest);
      forall y | y in Sort(rest) ensures y.position != s[0].position {
        assert y in multiset(Sort(rest));
        assert y in multiset(rest);
        var k :| 0 <= k < |rest| && rest[k] == y;
        assert s[k + 1] == y;
      }
      InsertRanked(s[0], Sort(rest));
    }
  }

  lemma RankedTail(a: seq<Candidate>)
    requires Ranked(a) && a != []
    ensures Ranked(a[1..])
  {
    forall p, q | 0 <= p < q < |a[1..]| ensures Outranks(a[1..][p], a[1..][q]) {
      assert a[1..][p] == a[p + 1] && a[1..][q] == a[q + 1];
    }
  }

  /** The head of a ranked list outranks every other element, so it is the top of its multiset. */
  lemma RankedHeadIsTop(a: seq<Candidate>, b: seq<Candidate>)
    requires Ranked(a) && Ranked(b) && multiset(a) == multiset(b) && a != [] && b != []
    ensures a[0] == b[0]
  {
    assert a[0] in multiset(b);
    assert b[0] in multiset(a);
    var i :| 0 <= i < |b| && b[i] == a[0];
    var j :| 0 <= j < |a| && a[j] == b[0];
    if i != 0 {
      assert false;
    }
  }

  /** Two ranked arrangements of the same candidates are the same list. */
  lemma {:induction false} RankedIsUnique(a: seq<Candidate>, b: seq<Candidate>)
    requires Ranked(a) && Ranked(b) && multiset(a) == multiset(b)
    ensures a == b
  {
    if a != [] {
      assert |b| == |a| by {
        assert |multiset(a)| == |a| && |multiset(b)| == |b|;
      }
      RankedHeadIsTop(a, b);
      assert a == [a[0]] + a[1..] && b == [b[0]] + b[1..];
      assert multiset(a[1..]) == multiset(a) - multiset{a[0]};
      assert multiset(b[1..]) == multiset(b) - multiset{b[0]};
      RankedTail(a);
      RankedTail(b);
      RankedIsUnique(a[1..], b[1..]);
    }
  }

  /** The first `k` of a ranked list have keys at least those of every candidate left out. */
  lemma TopKDominates(s: seq<Candidate>, k: nat, x: Candidate)
    requires Ranked(s) && k <= |s|
    requires x in s[k..]
    ensures forall i :: 0 <= i < k ==> KeyAtLeast(s[i], x)
  {
    var m :| 0 <= m < |s[k..]| && s[k..][m] == x;
    assert s[k + m] == x;
  }
}
