/** Row selection on the scored table: the sidebar filters, the name search of
    the search tab and the top-N leaderboard (scripts/app.py). */
module TenantSelection {
  import opened Sequences
  import opened TenantScoring

  // ---------------------------------------------------------------------------
  // Sidebar filters

  /** The three choices of the payment reliability select box. */
  datatype PaymentFilter = AllPayers | PaysOnTimeOnly | HasLatePayments

  /** The sidebar settings: score floor, chosen categories, chosen employment
      statuses and payment mode. */
  datatype FilterSettings = FilterSettings(
    minScore: int,
    categories: set<Category>,
    employment: set<string>,
    payment: PaymentFilter)

  /** The first boolean mask: score floor, category and employment status. */
  predicate PassesMask(f: FilterSettings, r: ScoredTenant) {
    && r.score >= f.minScore as real
    && r.category in f.categories
    && r.tenant.employmentStatus in f.employment
  }

  /** The second mask, applied only when a payment mode other than "All" is
      chosen; "Has Late Payments" tests the on-time column, not the late count. */
  predicate PassesPayment(mode: PaymentFilter, r: ScoredTenant) {
    match mode
    case AllPayers => true
    case PaysOnTimeOnly => r.tenant.rentPaidOnTime == "Yes"
    case HasLatePayments => r.tenant.rentPaidOnTime == "No"
  }

  /** Everything the sidebar asks of a row. */
  predicate Matches(f: FilterSettings, r: ScoredTenant) {
    PassesMask(f, r) && PassesPayment(f.payment, r)
  }

  function MaskOf(f: FilterSettings): ScoredTenant -> bool { (r: ScoredTenant) => PassesMask(f, r) }
  function PaymentMaskOf(mode: PaymentFilter): ScoredTenant -> bool { (r: ScoredTenant) => PassesPayment(mode, r) }
  function MatchesOf(f: FilterSettings): ScoredTenant -> bool { (r: ScoredTenant) => Matches(f, r) }

  /** filtered_df: the first mask, then the payment mask unless "All" is chosen. */
  function ApplyFilters(rows: seq<ScoredTenant>, f: FilterSettings): seq<ScoredTenant> {
    var masked := Filter(rows, MaskOf(f));
    if f.payment == AllPayers then masked else Filter(masked, PaymentMaskOf(f.payment))
  }

  /** The two-stage selection is the one-stage selection of the rows that
      match every setting. */
  lemma ApplyFiltersIsOneFilter(rows: seq<ScoredTenant>, f: FilterSettings)
    ensures ApplyFilters(rows, f) == Filter(rows, MatchesOf(f))
  {
    if f.payment == AllPayers {
      FilterCongruent(rows, MaskOf(f), MatchesOf(f));
    } else {
      FilterCompose(rows, MaskOf(f), PaymentMaskOf(f.payment), MatchesOf(f));
    }
  }

  /** The filtered set is the input read at the increasing list of positions
      whose rows match every setting. */
  lemma ApplyFiltersKeepsPositions(rows: seq<ScoredTenant>, f: FilterSettings)
    ensures OrderEmbedding(ApplyFilters(rows, f), rows, KeptPositions(rows, MatchesOf(f), 0))
    ensures forall i :: 0 <= i < |rows| ==> (Matches(f, rows[i]) <==> i in KeptPositions(rows, MatchesOf(f), 0))
  {
    ApplyFiltersIsOneFilter(rows, f);
    FilterKeepsPositions(rows, MatchesOf(f));
  }

  /** The filtered set holds exactly the rows that match every setting, in
      their original order. */
  lemma ApplyFiltersKeepsExactly(rows: seq<ScoredTenant>, f: FilterSettings)
    ensures IsSubsequence(ApplyFilters(rows, f), rows)
    ensures forall x :: x in ApplyFilters(rows, f) <==> x in rows && Matches(f, x)
  {
    ApplyFiltersIsOneFilter(rows, f);
    FilterIsSubsequence(rows, MatchesOf(f));
    forall x ensures x in ApplyFilters(rows, f) <==> x in rows && Matches(f, x) {
      FilterMembership(rows, MatchesOf(f), x);
    }
  }

  /** Filtering the filtered set again with the same settings changes nothing. */
  lemma ApplyFiltersIdempotent(rows: seq<ScoredTenant>, f: FilterSettings)
    ensures ApplyFilters(ApplyFilters(rows, f), f) == ApplyFilters(rows, f)
  {
    var once := ApplyFilters(rows, f);
    ApplyFiltersIsOneFilter(rows, f);
    ApplyFiltersIsOneFilter(once, f);
    FilterIdempotent(rows, MatchesOf(f));
  }

  /** With the settings the sidebar starts from (floor 0, every category and
      employment status present, "All"), a table of non-negative scores is
      kept whole. */
  lemma DefaultFiltersKeepAll(rows: seq<ScoredTenant>, f: FilterSettings)
    requires f.minScore <= 0 && f.payment == AllPayers
    requires forall i :: 0 <= i < |rows| ==> rows[i].score >= 0.0
    requires forall i :: 0 <= i < |rows| ==> rows[i].category in f.categories
    requires forall i :: 0 <= i < |rows| ==> rows[i].tenant.employmentStatus in f.employment
    ensures ApplyFilters(rows, f) == rows
  {
    FilterAllPass(rows, MaskOf(f));
  }

  /** "Pays On Time Only" and "Has Late Payments" pick disjoint rows; when the
      on-time column holds only Yes and No they split the "All" result. */
  lemma PaymentModesSplit(rows: seq<ScoredTenant>, f: FilterSettings)
    ensures var onTime := ApplyFilters(rows, f.(payment := PaysOnTimeOnly));
      var late := ApplyFilters(rows, f.(payment := HasLatePayments));
      forall x :: !(x in onTime && x in late)
    ensures (forall i :: 0 <= i < |rows| ==> rows[i].tenant.rentPaidOnTime in {"Yes", "No"}) ==>
      multiset(ApplyFilters(rows, f.(payment := PaysOnTimeOnly)))
      + multiset(ApplyFilters(rows, f.(payment := HasLatePayments)))
      == multiset(ApplyFilters(rows, f.(payment := AllPayers)))
  {
    var fo, fl, fa := f.(payment := PaysOnTimeOnly), f.(payment := HasLatePayments), f.(payment := AllPayers);
    ApplyFiltersKeepsExactly(rows, fo);
    ApplyFiltersKeepsExactly(rows, fl);
    var masked := Filter(rows, MaskOf(f));
    FilterCongruent(rows, MaskOf(fo), MaskOf(f));
    FilterCongruent(rows, MaskOf(fl), MaskOf(f));
    FilterCongruent(rows, MaskOf(fa), MaskOf(f));
    if forall i :: 0 <= i < |rows| ==> rows[i].tenant.rentPaidOnTime in {"Yes", "No"} {
      forall i | 0 <= i < |masked|
        ensures PaymentMaskOf(HasLatePayments)(masked[i]) == !PaymentMaskOf(PaysOnTimeOnly)(masked[i])
      {
        FilterMembership(rows, MaskOf(f), masked[i]);
      }
      FilterSplit(masked, PaymentMaskOf(PaysOnTimeOnly), PaymentMaskOf(HasLatePayments));
    }
  }

  // ---------------------------------------------------------------------------
  // Name search

  /** ASCII case folding to lower case. */
  function LowerChar(c: char): char {
    if 'A' <= c <= 'Z' then (c as int + 32) as char else c
  }

  function LowerCase(s: string): string {
    seq(|s|, i requires 0 <= i < |s| => LowerChar(s[i]))
  }

  /** `needle` occurs in `hay` starting at position `i`. */
  predicate OccursAt(hay: string, needle: string, i: int) {
    0 <= i <= |hay| - |needle| && hay[i..i + |needle|] == needle
  }

  /** `needle` occurs as a contiguous piece of `hay`. */
  predicate Contains(hay: string, needle: string) {
    exists i :: 0 <= i <= |hay| - |needle| && OccursAt(hay, needle, i)
  }

  /** The name contains the search term, ignoring case. */
  predicate NameMatches(name: string, term: string) {
    Contains(LowerCase(name), LowerCase(term))
  }

  function SearchMaskOf(term: string): ScoredTenant -> bool { (r: ScoredTenant) => NameMatches(r.tenant.name, term) }

  /** search_results: the rows whose name contains the term, or every row when
      the term is empty. */
  function Search(rows: seq<ScoredTenant>, term: string): seq<ScoredTenant> {
    if term != "" then Filter(rows, SearchMaskOf(term)) else rows
  }

  /** The search keeps exactly the rows whose name contains the term, in their
      order and at their positions (so a repeated row is kept as often as it
      occurs), and an empty term keeps every row. */
  lemma SearchKeepsMatches(rows: seq<ScoredTenant>, term: string)
    ensures forall x :: x in Search(rows, term) <==> x in rows && (term == "" || NameMatches(x.tenant.name, term))
    ensures IsSubsequence(Search(rows, term), rows)
    ensures term != "" ==> OrderEmbedding(Search(rows, term), rows, KeptPositions(rows, SearchMaskOf(term), 0))
    ensures term != "" ==> forall i :: 0 <= i < |rows| ==>
              (NameMatches(rows[i].tenant.name, term) <==> i in KeptPositions(rows, SearchMaskOf(term), 0))
    ensures term == "" ==> Search(rows, term) == rows
  {
    if term != "" {
      SearchKeepsPositions(rows, term);
    }
    forall x ensures x in Search(rows, term) <==> x in rows && (term == "" || NameMatches(x.tenant.name, term)) {
      FilterMembership(rows, SearchMaskOf(term), x);
    }
    if term == "" {
      assert OrderEmbedding(rows, rows, seq(|rows|, i => i));
    } else {
      FilterIsSubsequence(rows, SearchMaskOf(term));
    }
  }

  /** A non-empty term keeps the rows at exactly the positions whose name
      contains it, in increasing order. */
  lemma SearchKeepsPositions(rows: seq<ScoredTenant>, term: string)
    requires term != ""
    ensures OrderEmbedding(Search(rows, term), rows, KeptPositions(rows, SearchMaskOf(term), 0))
    ensures forall i :: 0 <= i < |rows| ==>
              (NameMatches(rows[i].tenant.name, term) <==> i in KeptPositions(rows, SearchMaskOf(term), 0))
  {
    FilterKeepsPositions(rows, SearchMaskOf(term));
  }

  lemma LowerCaseIdempotent(s: string)
    ensures LowerCase(LowerCase(s)) == LowerCase(s)
  {
  }

  /** Two search terms that differ only in letter case find the same rows. */
  lemma SearchIgnoresCase(rows: seq<ScoredTenant>, t1: string, t2: string)
    requires LowerCase(t1) == LowerCase(t2)
    ensures Search(rows, t1) == Search(rows, t2)
  {
    assert |t1| == |LowerCase(t1)| == |t2|;
    FilterCongruent(rows, SearchMaskOf(t1), SearchMaskOf(t2));
  }

  /** Searching for the lower-cased term finds the same rows as the term itself. */
  lemma SearchLowerCasedTerm(rows: seq<ScoredTenant>, term: string)
    ensures Search(rows, LowerCase(term)) == Search(rows, term)
  {
    LowerCaseIdempotent(term);
    SearchIgnoresCase(rows, LowerCase(term), term);
  }

  /** Every name contains the empty term, so skipping the search for an empty
      term gives what the search itself would give. */
  lemma EmptyTermMatchesEveryName(rows: seq<ScoredTenant>)
    ensures Filter(rows, SearchMaskOf("")) == rows
  {
    forall i | 0 <= i < |rows| ensures SearchMaskOf("")(rows[i]) {
      assert OccursAt(LowerCase(rows[i].tenant.name), LowerCase(""), 0);
    }
    FilterAllPass(rows, SearchMaskOf(""));
  }

  // ---------------------------------------------------------------------------
  // Top N by score

  predicate NonIncreasing(s: seq<ScoredTenant>) {
    forall i, j :: 0 <= i < j < |s| ==> s[i].score >= s[j].score
  }

  /** Places `x` before the first row whose score is not above its own. */
  function InsertByScore(x: ScoredTenant, s: seq<ScoredTenant>): seq<ScoredTenant> {
    if s == [] || s[0].score <= x.score then [x] + s
    else [s[0]] + InsertByScore(x, s[1..])
  }

  /** The rows by descending score. */
  function SortByScore(s: seq<ScoredTenant>): seq<ScoredTenant> {
    if s == [] then [] else InsertByScore(s[0], SortByScore(s[1..]))
  }

  /** Inserting adds `x` and nothing else. */
  lemma {:induction false} InsertByScorePerm(x: ScoredTenant, s: seq<ScoredTenant>)
    ensures multiset(InsertByScore(x, s)) == multiset(s) + multiset{x}
    ensures |InsertByScore(x, s)| == |s| + 1
  {
    if s != [] && s[0].score > x.score {
      InsertByScorePerm(x, s[1..]);
      assert s == [s[0]] + s[1..];
    }
  }

  /** Inserting into a non-increasing sequence keeps it non-increasing. */
  lemma {:induction false} InsertByScoreSorted(x: ScoredTenant, s: seq<ScoredTenant>)
    requires NonIncreasing(s)
    ensures NonIncreasing(InsertByScore(x, s))
  {
    if s != [] && s[0].score > x.score {
      var tail := s[1..];
      assert NonIncreasing(tail);
      InsertByScoreSorted(x, tail);
      InsertByScorePerm(x, tail);
      var r := InsertByScore(x, tail);
      forall j | 0 <= j < |r| ensures s[0].score >= r[j].score {
        assert r[j] in multiset(r);
        if r[j] != x {
          assert r[j] in multiset(tail);
          var m :| 0 <= m < |tail| && tail[m] == r[j];
          assert s[m + 1] == r[j];
        }
      }
      assert InsertByScore(x, s) == [s[0]] + r;
    }
  }

  /** Sorting orders by non-increasing score and keeps every row. */
  lemma {:induction false} SortByScoreCorrect(s: seq<ScoredTenant>)
    ensures NonIncreasing(SortByScore(s))
    ensures multiset(SortByScore(s)) == multiset(s)
    ensures |SortByScore(s)| == |s|
  {
    if s != [] {
      var tail := s[1..];
      var sortedTail := SortByScore(tail);
      SortByScoreCorrect(tail);
      InsertByScorePerm(s[0], sortedTail);
      InsertByScoreSorted(s[0], sortedTail);
      assert SortByScore(s) == InsertByScore(s[0], sortedTail);
      assert s == [s[0]] + tail;
      assert multiset(s) == multiset(tail) + multiset{s[0]};
    }
  }

  function MinNat(a: nat, b: nat): nat { if a <= b then a else b }

  /** nlargest(n, score): the n best-scored rows, best first. */
  function TopN(rows: seq<ScoredTenant>, n: nat): seq<ScoredTenant> {
    SortByScoreLength(rows);
    SortByScore(rows)[..MinNat(n, |rows|)]
  }

  lemma SortByScoreLength(s: seq<ScoredTenant>)
    ensures |SortByScore(s)| == |s|
  {
    SortByScoreCorrect(s);
  }

  /** Top-N returns min(N, |rows|) rows in non-increasing score order, all
      taken from the input, and no row left out scores above a row taken. */
  lemma TopNCorrect(rows: seq<ScoredTenant>, n: nat)
    ensures |TopN(rows, n)| == MinNat(n, |rows|)
    ensures NonIncreasing(TopN(rows, n))
    ensures multiset(TopN(rows, n)) <= multiset(rows)
    ensures forall x, y :: x in multiset(rows) - multiset(TopN(rows, n)) && y in TopN(rows, n) ==>
      x.score <= y.score
  {
    var s := SortByScore(rows);
    SortByScoreCorrect(rows);
    var k := MinNat(n, |rows|);
    SortedPrefixDominates(s, k);
    PrefixSplitsMultiset(s, k);
  }

  /** A prefix of a non-increasing sequence is non-increasing, and none of
      its rows scores below a row after it. */
  lemma SortedPrefixDominates(s: seq<ScoredTenant>, k: nat)
    requires NonIncreasing(s) && k <= |s|
    ensures NonIncreasing(s[..k])
    ensures forall x, y :: x in multiset(s[k..]) && y in s[..k] ==> x.score <= y.score
  {
    forall x: ScoredTenant, y: ScoredTenant | x in multiset(s[k..]) && y in s[..k]
      ensures x.score <= y.score
    {
      var j :| 0 <= j < |s[k..]| && s[k..][j] == x;
      var i :| 0 <= i < k && s[..k][i] == y;
      assert s[i] == y && s[k + j] == x;
    }
  }

  /** The rows of `s` not in its prefix are the rows of its suffix. */
  lemma PrefixSplitsMultiset<T>(s: seq<T>, k: nat)
    requires k <= |s|
    ensures multiset(s) - multiset(s[..k]) == multiset(s[k..])
    ensures multiset(s[..k]) <= multiset(s)
  {
    assert s == s[..k] + s[k..];
  }

  /** Every leaderboard row comes from the filtered set, so it matches the
      sidebar settings. */
  lemma TopOfFilteredMatches(rows: seq<ScoredTenant>, f: FilterSettings, n: nat)
    ensures forall y :: y in TopN(ApplyFilters(rows, f), n) ==> y in rows && Matches(f, y)
  {
    var filtered := ApplyFilters(rows, f);
    TopNCorrect(filtered, n);
    ApplyFiltersKeepsExactly(rows, f);
    forall y | y in TopN(filtered, n) ensures y in filtered {
      assert y in multiset(TopN(filtered, n));
    }
  }
}
