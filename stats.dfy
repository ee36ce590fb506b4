/** The statistics aggregation of the `/stats` endpoint
    (api/v1/endpoints/identity.py): the assessments of the last `days` days,
    optionally of one user, summarised by risk-level distribution, average,
    lowest and highest confidence score and most common action. The clock is
    the parameter `now`, in seconds. */
module AssessmentStats {
  import opened Wrappers
  import opened Counting
  import opened Assessments
  import opened Store
  import History

  /** The reported period: `timedelta(days=days)` before `now`, up to `now`. */
  datatype Period = Period(startDate: int, endDate: int, days: int)

  function PeriodOf(days: int, now: int): (p: Period)
    ensures p.endDate - p.startDate == days * 86400 && p.endDate == now && p.days == days
  {
    Period(now - days * 86400, now, days)
  }

  /** The response dict: the empty-period form, or the summary of at least
      one assessment. The average is exact here (see README). */
  datatype Stats =
    | NoAssessments(period: Period, userId: Option<string>, distribution: map<string, nat>, average: real)
    | Summary(period: Period, userId: Option<string>, total: nat, distribution: map<string, nat>,
        average: real, minScore: int, maxScore: int, mostCommonAction: string)

  /** The distribution reported when nothing matched. */
  const ZeroDistribution: map<string, nat> := map["ALLOW" := 0, "REVIEW" := 0, "DENY" := 0]

  /** One row passes the query's filters: a creation time inside the closed
      window, and the user when one is given. A row without a creation time
      compares as NULL and is never selected. */
  predicate InWindow(a: RiskAssessment, userId: Option<string>, p: Period) {
    a.createdAt.Some? && p.startDate <= a.createdAt.value <= p.endDate &&
    (History.Given(userId) ==> a.userId == userId.value)
  }

  /** `query.all()`, in stored order. */
  function Selected(rows: seq<RiskAssessment>, userId: Option<string>, p: Period): (r: seq<RiskAssessment>)
    ensures |r| <= |rows|
    ensures forall a :: a in r <==> a in rows && InWindow(a, userId, p)
    decreases |rows|
  {
    if rows == [] then []
    else
      var init := Selected(rows[..|rows| - 1], userId, p);
      var last := rows[|rows| - 1];
      assert forall a :: a in rows <==> a in rows[..|rows| - 1] || a == last;
      if InWindow(last, userId, p) then init + [last] else init
  }

  function Levels(rows: seq<RiskAssessment>): (r: seq<string>)
    ensures |r| == |rows| && forall i :: 0 <= i < |rows| ==> r[i] == rows[i].riskLevel
  {
    seq(|rows|, i requires 0 <= i < |rows| => rows[i].riskLevel)
  }

  function Scores(rows: seq<RiskAssessment>): (r: seq<int>)
    ensures |r| == |rows| && forall i :: 0 <= i < |rows| ==> r[i] == rows[i].confidenceScore
  {
    seq(|rows|, i requires 0 <= i < |rows| => rows[i].confidenceScore)
  }

  function Actions(rows: seq<RiskAssessment>): (r: seq<string>)
    ensures |r| == |rows| && forall i :: 0 <= i < |rows| ==> r[i] == rows[i].actionType
  {
    seq(|rows|, i requires 0 <= i < |rows| => rows[i].actionType)
  }

  /** `sum(...)` */
  function Sum(s: seq<int>): int
    decreases |s|
  {
    if s == [] then 0 else Sum(s[..|s| - 1]) + s[|s| - 1]
  }

  /** `min(...)` of a non-empty list. */
  function Min(s: seq<int>): (r: int)
    requires |s| > 0
    ensures r in s && forall x :: x in s ==> r <= x
    decreases |s|
  {
    if |s| == 1 then s[0]
    else
      var m := Min(s[..|s| - 1]);
      assert forall x :: x in s <==> x in s[..|s| - 1] || x == s[|s| - 1];
      if s[|s| - 1] < m then s[|s| - 1] else m
  }

  /** `max(...)` of a non-empty list. */
  function Max(s: seq<int>): (r: int)
    requires |s| > 0
    ensures r in s && forall x :: x in s ==> x <= r
    decreases |s|
  {
    if |s| == 1 then s[0]
    else
      var m := Max(s[..|s| - 1]);
      assert forall x :: x in s <==> x in s[..|s| - 1] || x == s[|s| - 1];
      if s[|s| - 1] > m then s[|s| - 1] else m
  }

  /** A key of `keys` with the most occurrences in `s`; the earliest such key
      wins a tie. */
  function MostCommon(keys: seq<string>, s: seq<string>): (r: string)
    requires |keys| > 0
    ensures r in keys && forall k :: k in keys ==> Occurrences(s, k) <= Occurrences(s, r)
    decreases |keys|
  {
    if |keys| == 1 then keys[0]
    else
      var best := MostCommon(keys[..|keys| - 1], s);
      var last := keys[|keys| - 1];
      assert forall k :: k in keys <==> k in keys[..|keys| - 1] || k == last;
      if Occurrences(s, last) > Occurrences(s, best) then last else best
  }

  /** `max(set(actions), key=actions.count)` */
  function MostCommonAction(actions: seq<string>): (r: string)
    requires |actions| > 0
    ensures r in actions && forall k :: k in actions ==> Occurrences(actions, k) <= Occurrences(actions, r)
  {
    assert actions[0] in Distinct(actions);
    MostCommon(Distinct(actions), actions)
  }

  /** `avg_confidence` */
  function Average(scores: seq<int>): real
    requires |scores| > 0
  {
    Sum(scores) as real / |scores| as real
  }

  /** One more row adds one entry to each column. */
  lemma ColumnsSnoc(rows: seq<RiskAssessment>, a: RiskAssessment)
    ensures Levels(rows + [a]) == Levels(rows) + [a.riskLevel]
    ensures Scores(rows + [a]) == Scores(rows) + [a.confidenceScore]
  {
    assert Levels(rows + [a]) == Levels(rows) + [a.riskLevel];
    assert Scores(rows + [a]) == Scores(rows) + [a.confidenceScore];
  }

  /** The loop over the selected rows: the counting dict of the risk levels
      and the list of the confidence scores. */
  method Accumulate(rows: seq<RiskAssessment>) returns (distribution: map<string, nat>, scores: seq<int>)
    ensures distribution == Tally(Levels(rows))
    ensures scores == Scores(rows)
  {
    distribution := map[];
    scores := [];
    for i := 0 to |rows|
      invariant distribution == Tally(Levels(rows[..i]))
      invariant scores == Scores(rows[..i])
    {
      assert rows[..i + 1] == rows[..i] + [rows[i]];
      ColumnsSnoc(rows[..i], rows[i]);
      TallySnoc(Levels(rows[..i]), rows[i].riskLevel);
      distribution := distribution[rows[i].riskLevel := (if rows[i].riskLevel in distribution then distribution[rows[i].riskLevel] else 0) + 1];
      scores := scores + [rows[i].confidenceScore];
    }
    assert rows[..|rows|] == rows;
  }

  /** `get_assessment_stats` over the stored assessments at time `now`. */
  method GetAssessmentStats(db: Database, userId: Option<string>, days: int, now: int) returns (r: Stats)
    ensures var rows := Selected(db.assessments, userId, PeriodOf(days, now));
      (r.NoAssessments? <==> rows == []) &&
      r.period == PeriodOf(days, now) && r.userId == userId &&
      (r.NoAssessments? ==> r.distribution == ZeroDistribution && r.average == 0.0) &&
      (r.Summary? ==>
        r.total == |rows| &&
        r.distribution == Tally(Levels(rows)) &&
        r.average == Average(Scores(rows)) &&
        r.minScore == Min(Scores(rows)) && r.maxScore == Max(Scores(rows)) &&
        r.mostCommonAction == MostCommonAction(Actions(rows)))
  {
    var period := PeriodOf(days, now);
    var assessments := Selected(db.assessments, userId, period);
    if |assessments| == 0 {
      return NoAssessments(period, userId, ZeroDistribution, 0.0);
    }
    var distribution, scores := Accumulate(assessments);
    var average := Sum(scores) as real / |scores| as real;
    r := Summary(period, userId, |assessments|, distribution, average, Min(scores), Max(scores),
      MostCommonAction(Actions(assessments)));
  }

  /** The rows counted are exactly the stored rows created inside the
      window, of the given user when there is one. */
  lemma SelectedRows(rows: seq<RiskAssessment>, userId: Option<string>, days: int, now: int, a: RiskAssessment)
    ensures a in Selected(rows, userId, PeriodOf(days, now)) <==>
      a in rows && a.createdAt.Some? && now - days * 86400 <= a.createdAt.value <= now &&
      (userId.Some? && userId.value != "" ==> a.userId == userId.value)
  {
  }

  /** The distribution holds exactly the levels seen, each with its number
      of rows, and its counts add up to the total. */
  lemma {:induction false} DistributionIsExact(rows: seq<RiskAssessment>)
    ensures forall k :: k in Tally(Levels(rows)) <==> exists i :: 0 <= i < |rows| && rows[i].riskLevel == k
    ensures forall k :: k in Tally(Levels(rows)) ==> Tally(Levels(rows))[k] == Occurrences(Levels(rows), k)
    ensures SumCounts(Distinct(Levels(rows)), Tally(Levels(rows))) == |rows|
  {
    var levels := Levels(rows);
    TallyCounts(levels);
    TallySum(levels);
    forall k ensures k in levels <==> exists i :: 0 <= i < |rows| && rows[i].riskLevel == k {
      if k in levels {
        var i :| 0 <= i < |levels| && levels[i] == k;
        assert rows[i].riskLevel == k;
      }
      if exists i :: 0 <= i < |rows| && rows[i].riskLevel == k {
        var i :| 0 <= i < |rows| && rows[i].riskLevel == k;
        assert levels[i] == k;
      }
    }
  }

  /** `n + 1` copies of `a` are `n` copies and one more. */
  lemma MulSucc(a: int, n: nat)
    ensures a * (n + 1) == a * n + a
  {
  }

  /** A list whose every element is at least `lo` sums to at least `n * lo`. */
  lemma {:induction false} SumAtLeast(s: seq<int>, lo: int)
    requires forall i :: 0 <= i < |s| ==> lo <= s[i]
    ensures lo * |s| <= Sum(s)
    decreases |s|
  {
    if s != [] {
      var init := s[..|s| - 1];
      SumAtLeast(init, lo);
      MulSucc(lo, |init|);
    }
  }

  /** A list whose every element is at most `hi` sums to at most `n * hi`. */
  lemma {:induction false} SumAtMost(s: seq<int>, hi: int)
    requires forall i :: 0 <= i < |s| ==> s[i] <= hi
    ensures Sum(s) <= hi * |s|
    decreases |s|
  {
    if s != [] {
      var init := s[..|s| - 1];
      SumAtMost(init, hi);
      MulSucc(hi, |init|);
    }
  }

  lemma ProductAsReal(a: int, n: int)
    ensures (a * n) as real == a as real * n as real
  {
  }

  /** Dividing both sides of `lo * n <= x <= hi * n` by `n > 0`. */
  lemma DivideBounds(lo: real, x: real, hi: real, n: real)
    requires n > 0.0 && lo * n <= x <= hi * n
    ensures lo <= x / n <= hi
  {
    assert x / n * n == x;
  }

  /** `lo * n <= sum <= hi * n` puts the mean `sum / n` between `lo` and
      `hi`. */
  lemma MeanBounds(lo: int, sum: int, hi: int, n: nat)
    requires n > 0 && lo * n <= sum <= hi * n
    ensures lo as real <= sum as real / n as real <= hi as real
  {
    ProductAsReal(lo, n);
    ProductAsReal(hi, n);
    DivideBounds(lo as real, sum as real, hi as real, n as real);
  }

  /** The lowest score, the average and the highest score are in order. */
  lemma AverageInRange(scores: seq<int>)
    requires |scores| > 0
    ensures Min(scores) as real <= Average(scores) <= Max(scores) as real
  {
    var lo, hi := Min(scores), Max(scores);
    forall i | 0 <= i < |scores| ensures lo <= scores[i] <= hi {
      assert scores[i] in scores;
    }
    SumAtLeast(scores, lo);
    SumAtMost(scores, hi);
    MeanBounds(lo, Sum(scores), hi, |scores|);
  }

  /** The reported statistics: nothing matched gives the zero distribution
      and average 0; otherwise the counts add up to the total, only levels
      seen appear, the average lies between the lowest and the highest
      score, and the most common action occurs at least as often as every
      action seen. */
  lemma StatsProperties(rows: seq<RiskAssessment>)
    requires |rows| > 0
    ensures SumCounts(Distinct(Levels(rows)), Tally(Levels(rows))) == |rows|
    ensures forall k :: k in Tally(Levels(rows)) ==> exists i :: 0 <= i < |rows| && rows[i].riskLevel == k
    ensures Min(Scores(rows)) as real <= Average(Scores(rows)) <= Max(Scores(rows)) as real
    ensures forall i :: 0 <= i < |rows| ==>
      Occurrences(Actions(rows), rows[i].actionType) <= Occurrences(Actions(rows), MostCommonAction(Actions(rows)))
  {
    DistributionIsExact(rows);
    AverageInRange(Scores(rows));
    var actions := Actions(rows);
    forall i | 0 <= i < |rows|
      ensures Occurrences(actions, rows[i].actionType) <= Occurrences(actions, MostCommonAction(actions))
    {
      assert actions[i] in actions;
    }
  }
}
