/** The insights tab: the filtered set is split by employment, by income
    against the median, by credit tier and by age group, and the mean score of
    a group is shown only when the group has rows (scripts/app.py). */
module TenantInsights {
  import opened Wrappers
  import opened Sequences
  import opened TenantScoring

  // ---------------------------------------------------------------------------
  // Mean score of a group

  function ScoreSum(rows: seq<ScoredTenant>): real {
    if rows == [] then 0.0 else rows[0].score + ScoreSum(rows[1..])
  }

  /** The arithmetic mean of the scores; None for an empty group, which is
      then left out rather than shown as zero. */
  function MeanScore(rows: seq<ScoredTenant>): (m: Option<real>)
    ensures m.Some? <==> rows != []
  {
    if rows == [] then None else Some(ScoreSum(rows) / (|rows| as real))
  }

  /** The lowest score in a non-empty group. */
  function LowestScore(rows: seq<ScoredTenant>): (lo: real)
    requires rows != []
    ensures forall i :: 0 <= i < |rows| ==> lo <= rows[i].score
    ensures exists i :: 0 <= i < |rows| && lo == rows[i].score
  {
    if |rows| == 1 then rows[0].score
    else
      var rest := LowestScore(rows[1..]);
      assert forall i :: 1 <= i < |rows| ==> rows[i].score == rows[1..][i - 1].score;
      if rows[0].score <= rest then rows[0].score else rest
  }

  lemma {:induction false} ScoreSumBounds(rows: seq<ScoredTenant>, lo: real, hi: real)
    requires forall i :: 0 <= i < |rows| ==> lo <= rows[i].score <= hi
    ensures lo * (|rows| as real) <= ScoreSum(rows) <= hi * (|rows| as real)
  {
    if rows != [] {
      ScoreSumBounds(rows[1..], lo, hi);
      assert lo * (|rows| as real) == lo + lo * (|rows[1..]| as real);
      assert hi * (|rows| as real) == hi + hi * (|rows[1..]| as real);
    }
  }

  /** Dividing a total that lies between `lo * n` and `hi * n` by `n > 0`
      gives a value between `lo` and `hi`. */
  lemma DivideBounds(total: real, n: real, lo: real, hi: real)
    requires n > 0.0 && lo * n <= total <= hi * n
    ensures lo <= total / n <= hi
  {
    var m := total / n;
    assert m - lo == (total - lo * n) / n;
    assert hi - m == (hi * n - total) / n;
  }

  /** The mean of a group lies between the lowest and highest score anyone in
      the group may have. */
  lemma MeanWithinBounds(rows: seq<ScoredTenant>, lo: real, hi: real)
    requires rows != []
    requires forall i :: 0 <= i < |rows| ==> lo <= rows[i].score <= hi
    ensures lo <= MeanScore(rows).value <= hi
  {
    ScoreSumBounds(rows, lo, hi);
    DivideBounds(ScoreSum(rows), |rows| as real, lo, hi);
  }

  /** Every group of loaded rows has a mean score of at most 92, and at least 0
      when no reference score is negative. */
  lemma MeanOfLoadedRows(rows: seq<ScoredTenant>)
    requires rows != []
    requires forall i :: 0 <= i < |rows| ==> WellFormed(rows[i])
    ensures MeanScore(rows).value <= 92.0
    ensures (forall i :: 0 <= i < |rows| ==> rows[i].tenant.referenceScore >= 0.0) ==> 0.0 <= MeanScore(rows).value
  {
    var lo := LowestScore(rows);
    forall i | 0 <= i < |rows| ensures lo <= rows[i].score <= 92.0 {
      ScoreBounds(rows[i].tenant);
    }
    MeanWithinBounds(rows, lo, 92.0);
    if forall i :: 0 <= i < |rows| ==> rows[i].tenant.referenceScore >= 0.0 {
      forall i | 0 <= i < |rows| ensures 0.0 <= rows[i].score {
        ScoreBounds(rows[i].tenant);
      }
      MeanWithinBounds(rows, 0.0, 92.0);
    }
  }

  // ---------------------------------------------------------------------------
  // Employed against unemployed

  predicate IsUnemployed(r: ScoredTenant) { r.tenant.employmentStatus == "Unemployed" }
  predicate IsEmployed(r: ScoredTenant) { r.tenant.employmentStatus != "Unemployed" }

  function Employed(rows: seq<ScoredTenant>): seq<ScoredTenant> { Filter(rows, IsEmployed) }
  function Unemployed(rows: seq<ScoredTenant>): seq<ScoredTenant> { Filter(rows, IsUnemployed) }

  /** Every row is either employed or unemployed, once. */
  lemma EmploymentSplit(rows: seq<ScoredTenant>)
    ensures multiset(Employed(rows)) + multiset(Unemployed(rows)) == multiset(rows)
    ensures |Employed(rows)| + |Unemployed(rows)| == |rows|
    ensures forall x :: x in Employed(rows) <==> x in rows && IsEmployed(x)
    ensures forall x :: x in Unemployed(rows) <==> x in rows && IsUnemployed(x)
  {
    FilterSplit(rows, IsEmployed, IsUnemployed);
    forall x ensures (x in Employed(rows) <==> x in rows && IsEmployed(x))
      && (x in Unemployed(rows) <==> x in rows && IsUnemployed(x))
    {
      FilterMembership(rows, IsEmployed, x);
      FilterMembership(rows, IsUnemployed, x);
    }
  }

  /** The employment comparison: both means, shown only when both groups
      have rows. */
  function EmploymentInsight(rows: seq<ScoredTenant>): Option<(real, real)> {
    var employed, unemployed := Employed(rows), Unemployed(rows);
    if |employed| > 0 && |unemployed| > 0
    then Some((MeanScore(employed).value, MeanScore(unemployed).value))
    else None
  }

  /** The comparison is shown exactly when the set holds an employed and an
      unemployed row. */
  lemma EmploymentInsightShown(rows: seq<ScoredTenant>)
    ensures EmploymentInsight(rows).Some? <==>
      (exists i :: 0 <= i < |rows| && IsEmployed(rows[i]))
      && (exists j :: 0 <= j < |rows| && IsUnemployed(rows[j]))
  {
    EmploymentSplit(rows);
    var employed, unemployed := Employed(rows), Unemployed(rows);
    if exists i :: 0 <= i < |rows| && IsEmployed(rows[i]) {
      var i :| 0 <= i < |rows| && IsEmployed(rows[i]);
      assert rows[i] in employed;
    }
    if exists j :: 0 <= j < |rows| && IsUnemployed(rows[j]) {
      var j :| 0 <= j < |rows| && IsUnemployed(rows[j]);
      assert rows[j] in unemployed;
    }
    if |employed| > 0 {
      assert employed[0] in employed;
    }
    if |unemployed| > 0 {
      assert unemployed[0] in unemployed;
    }
  }

  // ---------------------------------------------------------------------------
  // Income against the median

  function HighIncome(rows: seq<ScoredTenant>, median: real): seq<ScoredTenant> {
    Filter(rows, (r: ScoredTenant) => r.tenant.annualIncome >= median)
  }

  function LowIncome(rows: seq<ScoredTenant>, median: real): seq<ScoredTenant> {
    Filter(rows, (r: ScoredTenant) => r.tenant.annualIncome < median)
  }

  /** Every row is at or above the median income, or below it, once; the
      median itself belongs to the upper group. */
  lemma IncomeSplit(rows: seq<ScoredTenant>, median: real)
    ensures multiset(HighIncome(rows, median)) + multiset(LowIncome(rows, median)) == multiset(rows)
    ensures |HighIncome(rows, median)| + |LowIncome(rows, median)| == |rows|
    ensures forall x :: x in HighIncome(rows, median) <==> x in rows && x.tenant.annualIncome >= median
    ensures forall x :: x in LowIncome(rows, median) <==> x in rows && x.tenant.annualIncome < median
  {
    var high := (r: ScoredTenant) => r.tenant.annualIncome >= median;
    var low := (r: ScoredTenant) => r.tenant.annualIncome < median;
    assert HighIncome(rows, median) == Filter(rows, high);
    assert LowIncome(rows, median) == Filter(rows, low);
    FilterSplit(rows, high, low);
    forall x ensures (x in Filter(rows, high) <==> x in rows && high(x))
      && (x in Filter(rows, low) <==> x in rows && low(x))
    {
      FilterMembership(rows, high, x);
      FilterMembership(rows, low, x);
    }
  }

  /** The income comparison: both means, shown only when both groups have rows. */
  function IncomeInsight(rows: seq<ScoredTenant>, median: real): Option<(real, real)> {
    var high, low := HighIncome(rows, median), LowIncome(rows, median);
    if |high| > 0 && |low| > 0
    then Some((MeanScore(high).value, MeanScore(low).value))
    else None
  }

  /** The income comparison is shown exactly when the set holds a row at or
      above the median and a row below it. */
  lemma IncomeInsightShown(rows: seq<ScoredTenant>, median: real)
    ensures IncomeInsight(rows, median).Some? <==>
      (exists i :: 0 <= i < |rows| && rows[i].tenant.annualIncome >= median)
      && (exists j :: 0 <= j < |rows| && rows[j].tenant.annualIncome < median)
  {
    NonEmptyIffSomeMatch(rows, (r: ScoredTenant) => r.tenant.annualIncome >= median);
    NonEmptyIffSomeMatch(rows, (r: ScoredTenant) => r.tenant.annualIncome < median);
    assert HighIncome(rows, median) == Filter(rows, (r: ScoredTenant) => r.tenant.annualIncome >= median);
    assert LowIncome(rows, median) == Filter(rows, (r: ScoredTenant) => r.tenant.annualIncome < median);
  }

  /** A set of one row has that row's income as its median: the row goes to
      the upper group, the lower group is empty and no comparison is shown. */
  lemma SingleRowIncomeSplit(row: ScoredTenant)
    ensures HighIncome([row], row.tenant.annualIncome) == [row]
    ensures LowIncome([row], row.tenant.annualIncome) == []
    ensures IncomeInsight([row], row.tenant.annualIncome) == None
  {
    var m := row.tenant.annualIncome;
    assert [row][1..] == [];
    assert HighIncome([row], m) == [row] + Filter([], (r: ScoredTenant) => r.tenant.annualIncome >= m);
  }

  // ---------------------------------------------------------------------------
  // Credit tiers

  predicate ExcellentCredit(r: ScoredTenant) { r.tenant.creditScore >= 750 }
  predicate GoodCredit(r: ScoredTenant) { r.tenant.creditScore >= 650 && r.tenant.creditScore < 750 }
  predicate PoorCredit(r: ScoredTenant) { r.tenant.creditScore < 650 }
  predicate AtLeast650(r: ScoredTenant) { r.tenant.creditScore >= 650 }
  predicate Below750(r: ScoredTenant) { r.tenant.creditScore < 750 }

  /** The three tiers 750+, 650-749 and below 650 take every row once. */
  lemma CreditTiersSplit(rows: seq<ScoredTenant>)
    ensures multiset(Filter(rows, ExcellentCredit)) + multiset(Filter(rows, GoodCredit))
      + multiset(Filter(rows, PoorCredit)) == multiset(rows)
    ensures |Filter(rows, ExcellentCredit)| + |Filter(rows, GoodCredit)| + |Filter(rows, PoorCredit)| == |rows|
  {
    var upper := Filter(rows, AtLeast650);
    FilterSplit(rows, AtLeast650, PoorCredit);
    FilterSplit(upper, ExcellentCredit, Below750);
    FilterCompose(rows, AtLeast650, ExcellentCredit, ExcellentCredit);
    FilterCompose(rows, AtLeast650, Below750, GoodCredit);
  }

  /** The credit comparison: one mean per tier, each shown only when its tier
      has rows. */
  datatype CreditImpact = CreditImpact(excellent: Option<real>, good: Option<real>, poor: Option<real>)

  function CreditInsight(rows: seq<ScoredTenant>): CreditImpact {
    CreditImpact(
      MeanScore(Filter(rows, ExcellentCredit)),
      MeanScore(Filter(rows, GoodCredit)),
      MeanScore(Filter(rows, PoorCredit)))
  }

  /** A tier's mean is shown exactly when some row falls in that tier. */
  lemma CreditInsightShown(rows: seq<ScoredTenant>)
    ensures CreditInsight(rows).excellent.Some? <==> exists i :: 0 <= i < |rows| && ExcellentCredit(rows[i])
    ensures CreditInsight(rows).good.Some? <==> exists i :: 0 <= i < |rows| && GoodCredit(rows[i])
    ensures CreditInsight(rows).poor.Some? <==> exists i :: 0 <= i < |rows| && PoorCredit(rows[i])
  {
    NonEmptyIffSomeMatch(rows, ExcellentCredit);
    NonEmptyIffSomeMatch(rows, GoodCredit);
    NonEmptyIffSomeMatch(rows, PoorCredit);
  }

  /** A filtered group has rows exactly when some row passes its mask. */
  lemma NonEmptyIffSomeMatch(rows: seq<ScoredTenant>, p: ScoredTenant -> bool)
    ensures Filter(rows, p) != [] <==> exists i :: 0 <= i < |rows| && p(rows[i])
  {
    var g := Filter(rows, p);
    if exists i :: 0 <= i < |rows| && p(rows[i]) {
      var i :| 0 <= i < |rows| && p(rows[i]);
      FilterMembership(rows, p, rows[i]);
    }
    if g != [] {
      FilterMembership(rows, p, g[0]);
    }
  }

  // ---------------------------------------------------------------------------
  // Age groups

  function AgeGroupRows(rows: seq<ScoredTenant>, g: Option<AgeGroup>): seq<ScoredTenant> {
    Filter(rows, (r: ScoredTenant) => r.ageGroup == g)
  }

  /** The mean score of one age group, None when the group is empty. */
  function AgeGroupMean(rows: seq<ScoredTenant>, g: AgeGroup): Option<real> {
    MeanScore(AgeGroupRows(rows, Some(g)))
  }

  /** The four age groups and the rows with no group take every row once. */
  lemma {:induction false} AgeGroupsSplit(rows: seq<ScoredTenant>)
    ensures multiset(AgeGroupRows(rows, Some(Age18To25))) + multiset(AgeGroupRows(rows, Some(Age26To35)))
      + multiset(AgeGroupRows(rows, Some(Age36To45))) + multiset(AgeGroupRows(rows, Some(Age45Plus)))
      + multiset(AgeGroupRows(rows, None)) == multiset(rows)
  {
    if rows != [] {
      var tail := rows[1..];
      AgeGroupsSplit(tail);
      assert multiset(rows) == multiset{rows[0]} + multiset(tail) by {
        assert rows == [rows[0]] + tail;
      }
      AgeGroupRowsCons(rows, Some(Age18To25));
      AgeGroupRowsCons(rows, Some(Age26To35));
      AgeGroupRowsCons(rows, Some(Age36To45));
      AgeGroupRowsCons(rows, Some(Age45Plus));
      AgeGroupRowsCons(rows, None);
      match rows[0].ageGroup
      case None =>
      case Some(Age18To25) =>
      case Some(Age26To35) =>
      case Some(Age36To45) =>
      case Some(Age45Plus) =>
    }
  }

  /** The first row joins the group of its own age bin and no other. */
  lemma AgeGroupRowsCons(rows: seq<ScoredTenant>, g: Option<AgeGroup>)
    requires rows != []
    ensures multiset(AgeGroupRows(rows, g))
      == (if rows[0].ageGroup == g then multiset{rows[0]} else multiset{}) + multiset(AgeGroupRows(rows[1..], g))
  {
    if rows[0].ageGroup == g {
      assert AgeGroupRows(rows, g) == [rows[0]] + AgeGroupRows(rows[1..], g);
    } else {
      assert AgeGroupRows(rows, g) == AgeGroupRows(rows[1..], g);
    }
  }

  /** A loaded row falls in the group of its age bin; only ages outside
      (0,100] are in no group. */
  lemma LoadedRowAgeGroup(rows: seq<ScoredTenant>, i: int, g: AgeGroup)
    requires 0 <= i < |rows| && WellFormed(rows[i])
    ensures rows[i] in AgeGroupRows(rows, Some(g)) <==>
      AgeGroupFloor(g) < rows[i].tenant.age <= AgeGroupCeiling(g)
    ensures rows[i] in AgeGroupRows(rows, None) <==> rows[i].tenant.age <= 0 || rows[i].tenant.age > 100
  {
    FilterMembership(rows, (r: ScoredTenant) => r.ageGroup == Some(g), rows[i]);
    FilterMembership(rows, (r: ScoredTenant) => r.ageGroup == None, rows[i]);
    AgeGroupMatchesBins(rows[i].tenant.age, g);
  }
}
