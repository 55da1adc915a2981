/**
 * The read-only analytics queries (`get_stats` and `get_ranking` in
 * routers/analytics.py) over the `reviews` table, which is modelled as the
 * sequence of its rows in storage order.
 */
module Analytics {
  import opened Classifier
  import opened BatchImport

  /** A row of the `reviews` table. */
  datatype Review = Review(id: int, content: string, sentiment: string, confidence: real, createdAt: int)

  /** The `StatsResponse` body. */
  datatype Stats = Stats(
    totalCount: nat,
    positiveCount: nat,
    negativeCount: nat,
    positiveRatio: real,
    averageConfidence: real)

  /** The `RankingResponse` body. */
  datatype Ranking = Ranking(bestReviews: seq<Review>, worstReviews: seq<Review>)

  /** The `limit(3)` of each ranking query. */
  const RankingSize: nat := 3

  /** `filter(Review.sentiment == key)`: the rows with that sentiment, in storage order. */
  function WithSentiment(table: seq<Review>, key: string): (r: seq<Review>)
    ensures |r| <= |table|
    ensures forall x :: x in r ==> x in table && x.sentiment == key
    ensures forall x :: x in table && x.sentiment == key ==> x in r
    ensures forall x :: multiset(r)[x] == if x.sentiment == key then multiset(table)[x] else 0
  {
    if table == [] then []
    else
      assert table == [table[0]] + table[1..];
      (if table[0].sentiment == key then [table[0]] else []) + WithSentiment(table[1..], key)
  }

  /** The sum of the confidences of all rows. */
  function TotalConfidence(table: seq<Review>): (r: real)
    ensures (forall x :: x in table ==> x.confidence >= 0.0) ==> r >= 0.0
  {
    if table == [] then 0.0
    else
      assert forall x :: x in table[1..] ==> x in table;
      table[0].confidence + TotalConfidence(table[1..])
  }

  /** `func.avg(Review.confidence)`: SQL's AVG, NULL over an empty table. */
  function AverageConfidence(table: seq<Review>): (r: Option<real>)
    ensures r.None? <==> table == []
    ensures r.Some? ==> r.value == TotalConfidence(table) / |table| as real
  {
    if table == [] then None else Some(TotalConfidence(table) / |table| as real)
  }

  /** `get_stats`: row counts, the share of positive rows in percent and the mean confidence. */
  function GetStats(table: seq<Review>): (r: Stats)
    ensures table == [] ==> r == Stats(0, 0, 0, 0.0, 0.0)
    ensures r.totalCount == |table|
    ensures r.positiveCount == |WithSentiment(table, PositiveLabel)|
    ensures r.negativeCount == |WithSentiment(table, NegativeLabel)|
    ensures r.positiveCount <= r.totalCount && r.negativeCount <= r.totalCount
    ensures table != [] ==>
      r.positiveRatio == (r.positiveCount as real / r.totalCount as real) * 100.0
    ensures table != [] ==> r.averageConfidence == TotalConfidence(table) / |table| as real
  {
    var total := |table|;
    if total == 0 then Stats(0, 0, 0, 0.0, 0.0)
    else
      var pos := |WithSentiment(table, PositiveLabel)|;
      var neg := |WithSentiment(table, NegativeLabel)|;
      var average := match AverageConfidence(table)
        case None => 0.0
        case Some(a) => if a != 0.0 then a else 0.0;
      Stats(total, pos, neg, (pos as real / total as real) * 100.0, average)
  }

  /** A part over a positive whole lies in [0, 1]. */
  lemma Fraction(part: real, whole: real)
    requires 0.0 <= part <= whole && 0.0 < whole
    ensures 0.0 <= part / whole <= 1.0
  {
    assert part / whole * whole == part;
  }

  /** The positive ratio is a percentage. */
  lemma RatioInRange(table: seq<Review>)
    ensures 0.0 <= GetStats(table).positiveRatio <= 100.0
  {
    var r := GetStats(table);
    if table != [] {
      Fraction(r.positiveCount as real, r.totalCount as real);
    }
  }

  /**
   * When every stored sentiment is one of the two sentiment strings, the
   * positive and negative counts add up to the total.
   */
  lemma {:induction false} CountsPartition(table: seq<Review>)
    requires forall x :: x in table ==> x.sentiment == PositiveLabel || x.sentiment == NegativeLabel
    ensures GetStats(table).positiveCount + GetStats(table).negativeCount == GetStats(table).totalCount
  {
    SplitCount(table);
  }

  lemma {:induction false} SplitCount(table: seq<Review>)
    requires forall x :: x in table ==> x.sentiment == PositiveLabel || x.sentiment == NegativeLabel
    ensures |WithSentiment(table, PositiveLabel)| + |WithSentiment(table, NegativeLabel)| == |table|
  {
    LabelInjective(Positive, Negative);
    if table != [] {
      assert forall x :: x in table[1..] ==> x in table;
      SplitCount(table[1..]);
    }
  }

  /** The total of confidences that each lie in [0, 1] lies in [0, |table|]. */
  lemma {:induction false} TotalConfidenceBounds(table: seq<Review>)
    requires forall x :: x in table ==> 0.0 <= x.confidence <= 1.0
    ensures 0.0 <= TotalConfidence(table) <= |table| as real
  {
    if table != [] {
      assert forall x :: x in table[1..] ==> x in table;
      TotalConfidenceBounds(table[1..]);
    }
  }

  /** With confidences in [0, 1], the reported mean confidence lies in [0, 1]. */
  lemma AverageInUnitRange(table: seq<Review>)
    requires forall x :: x in table ==> 0.0 <= x.confidence <= 1.0
    ensures 0.0 <= GetStats(table).averageConfidence <= 1.0
  {
    if table != [] {
      TotalConfidenceBounds(table);
      Fraction(TotalConfidence(table), |table| as real);
    }
  }

  /**
   * A row of the table is a committed record once the store has assigned it
   * an `id` and a `created_at`; the other columns are the record's.
   */
  predicate StoredAs(x: Review, record: NewReview)
  {
    x.content == record.content && x.sentiment == record.sentiment && x.confidence == record.confidence
  }

  /**
   * A table filled by the importer (its rows are the imported records, in
   * order, as stored) has positive and negative counts that add up to the total.
   */
  lemma ImportedTableCounts(classifier: Pipeline, rows: seq<string>, table: seq<Review>)
    requires |table| == |Imported(classifier, rows)|
    requires forall k :: 0 <= k < |table| ==> StoredAs(table[k], Imported(classifier, rows)[k])
    ensures GetStats(table).positiveCount + GetStats(table).negativeCount == GetStats(table).totalCount
  {
    var records := Imported(classifier, rows);
    ImportedSentiments(classifier, rows);
    forall x | x in table
      ensures x.sentiment == PositiveLabel || x.sentiment == NegativeLabel
    {
      var k :| 0 <= k < |table| && table[k] == x;
      assert records[k] in records;
    }
    CountsPartition(table);
  }

  /** The position of a most confident row. */
  function MaxIndex(s: seq<Review>): (m: nat)
    requires s != []
    ensures m < |s|
    ensures forall x :: x in s ==> x.confidence <= s[m].confidence
  {
    if |s| == 1 then 0
    else
      var m := MaxIndex(s[1..]);
      assert forall x :: x in s ==> x == s[0] || x in s[1..];
      if s[0].confidence >= s[1..][m].confidence then 0 else m + 1
  }

  /** Non-increasing in confidence. */
  ghost predicate Sorted(r: seq<Review>)
  {
    forall i, j :: 0 <= i < j < |r| ==> r[i].confidence >= r[j].confidence
  }

  /** No row of `pool` left out of `r` is more confident than a row of `r`. */
  ghost predicate Dominates(pool: seq<Review>, r: seq<Review>)
  {
    forall x, i :: x in multiset(pool) - multiset(r) && 0 <= i < |r| ==> x.confidence <= r[i].confidence
  }

  /**
   * `r` is a valid answer of `order_by(desc(confidence)).limit(n)` over `pool`:
   * min(n, |pool|) rows of the pool, non-increasing in confidence, and no row
   * left out is more confident than a row returned. The order among equally
   * confident rows is left open.
   */
  ghost predicate IsTop(pool: seq<Review>, n: nat, r: seq<Review>): (b: bool)
    ensures b ==> |r| <= n && forall x :: x in r ==> x in pool
  {
    TopMembers(pool, r);
    && |r| == (if n < |pool| then n else |pool|)
    && multiset(r) <= multiset(pool)
    && Sorted(r)
    && Dominates(pool, r)
  }

  /** Every row of a sub-multiset of `pool` is a row of `pool`. */
  lemma TopMembers(pool: seq<Review>, r: seq<Review>)
    ensures multiset(r) <= multiset(pool) ==> forall x :: x in r ==> x in pool
  {
    if multiset(r) <= multiset(pool) {
      forall x | x in r
        ensures x in pool
      {
        assert x in multiset(r);
      }
    }
  }

  /** A row at least as confident as every row of a sorted list may go first. */
  lemma SortedCons(y: Review, tail: seq<Review>)
    requires Sorted(tail)
    requires forall i :: 0 <= i < |tail| ==> tail[i].confidence <= y.confidence
    ensures Sorted([y] + tail)
  {
    var r := [y] + tail;
    forall i, j | 0 <= i < j < |r|
      ensures r[i].confidence >= r[j].confidence
    {
      assert r[j] == tail[j - 1];
      if i > 0 {
        assert r[i] == tail[i - 1];
      }
    }
  }

  /**
   * Putting a most confident row `y` of `full` in front of a list that
   * dominates the other rows gives a list that dominates all of `full`.
   */
  lemma DominatesCons(full: seq<Review>, y: Review, rest: seq<Review>, tail: seq<Review>)
    requires multiset(full) == multiset(rest) + multiset{y}
    requires forall x :: x in multiset(full) ==> x.confidence <= y.confidence
    requires Dominates(rest, tail)
    ensures Dominates(full, [y] + tail)
  {
    var r := [y] + tail;
    assert multiset(r) == multiset{y} + multiset(tail);
    forall x, i | x in multiset(full) - multiset(r) && 0 <= i < |r|
      ensures x.confidence <= r[i].confidence
    {
      assert (multiset(full) - multiset(r))[x] == (multiset(rest) - multiset(tail))[x];
      if i > 0 {
        assert r[i] == tail[i - 1];
      }
    }
  }

  /** Every row of a sub-multiset of the rows other than `s[m]` is a row of `s`. */
  lemma OthersBounded(s: seq<Review>, m: nat, tail: seq<Review>)
    requires m < |s|
    requires forall x :: x in s ==> x.confidence <= s[m].confidence
    requires multiset(tail) <= multiset(s[..m] + s[m + 1..])
    ensures forall i :: 0 <= i < |tail| ==> tail[i].confidence <= s[m].confidence
  {
    var rest := s[..m] + s[m + 1..];
    forall i | 0 <= i < |tail|
      ensures tail[i].confidence <= s[m].confidence
    {
      assert tail[i] in multiset(tail);
      assert tail[i] in multiset(rest);
      assert tail[i] in rest;
      assert tail[i] in s[..m] || tail[i] in s[m + 1..];
    }
  }

  /**
   * Taking a most confident row first, then a valid top k - 1 of the others,
   * gives a valid top k.
   */
  lemma TopStep(s: seq<Review>, k: nat, m: nat, tail: seq<Review>)
    requires 0 < k && m < |s|
    requires forall x :: x in s ==> x.confidence <= s[m].confidence
    requires IsTop(s[..m] + s[m + 1..], k - 1, tail)
    ensures IsTop(s, k, [s[m]] + tail)
  {
    var rest := s[..m] + s[m + 1..];
    var r := [s[m]] + tail;
    RemoveOne(s, m);
    OthersBounded(s, m, tail);
    SortedCons(s[m], tail);
    DominatesCons(s, s[m], rest, tail);
    assert multiset(r) == multiset{s[m]} + multiset(tail);
    assert multiset(r) <= multiset(s);
    assert |r| == (if k < |s| then k else |s|);
  }

  /** Taking out the row at `m` leaves the other rows. */
  lemma RemoveOne(s: seq<Review>, m: nat)
    requires m < |s|
    ensures multiset(s) == multiset(s[..m] + s[m + 1..]) + multiset{s[m]}
  {
    assert s == s[..m] + [s[m]] + s[m + 1..];
  }

  /**
   * The `k` most confident rows of `s`, most confident first; among equally
   * confident rows the one stored first is taken first.
   */
  function TopK(s: seq<Review>, k: nat): (r: seq<Review>)
    ensures IsTop(s, k, r)
    decreases k
  {
    if k == 0 || s == [] then []
    else
      var m := MaxIndex(s);
      var tail := TopK(s[..m] + s[m + 1..], k - 1);
      TopStep(s, k, m, tail);
      [s[m]] + tail
  }

  /**
   * `get_ranking`: the three most confident positive rows and the three most
   * confident negative rows.
   */
  function GetRanking(table: seq<Review>): (r: Ranking)
    ensures IsTop(WithSentiment(table, PositiveLabel), RankingSize, r.bestReviews)
    ensures IsTop(WithSentiment(table, NegativeLabel), RankingSize, r.worstReviews)
    ensures forall x :: x in r.bestReviews ==> x in table && x.sentiment == PositiveLabel
    ensures forall x :: x in r.worstReviews ==> x in table && x.sentiment == NegativeLabel
  {
    var best := TopK(WithSentiment(table, PositiveLabel), RankingSize);
    var worst := TopK(WithSentiment(table, NegativeLabel), RankingSize);
    Ranking(best, worst)
  }
}
