# HMO tenant scoring and selection, modelled in Dafny

The HMO Tenant Analysis Dashboard loads a table of rental tenants and gives each
tenant a quality score. The score starts at 0, gains points from a fixed list of
threshold rules, and is capped at 100. Each score maps to one of five quality
categories, and each age falls into an age bucket. The dashboard then filters the
scored table with its sidebar settings, searches it by name, shows the top N tenants
by score, and splits the filtered set into groups whose mean scores it reports.
This project models that logic and proves what it guarantees.

Files:

- `wrappers.dfy`: `Option`, for an empty cell or a mean that is not reported.
- `sequences.dfy`: `Filter`, the boolean-mask row selection `df[mask]`. It comes with lemmas
  on which rows it keeps, their order, idempotence and complementary splits.
- `scoring.dfy`: the `Tenant` record and one function per rule. `TenantScore` is the
  specification. `CalculateTenantScore` is the accumulator method proved equal to it.
  The file also holds `Categorize`, `AgeGroupOf`, `FillMissingDamage` and `Enrich` (the
  derived columns added at load time). `TableWholePoints` restates the integer rules as the
  independent bands below, each added whenever its condition holds.
- `selection.dfy`: the sidebar filters, the case-insensitive name search and top-N by score.
- `insights.dfy`: the employment, median-income, credit-tier and age-group splits, and
  the mean score that is reported only for non-empty groups.

The bands this project reads the scoring rules as (scripts/app.py:80-129). Within one rule,
the bands do not overlap:

| rule | condition | points |
|---|---|---|
| payment | rent paid on time is "Yes" | 25 |
| payment | late payments = 0 | 5 |
| payment | late payments 1-2 | 2 |
| property care | damage is "No" | 15 |
| property care | noise complaints = 0 | 5 |
| property care | noise complaints = 1 | 2 |
| cleanliness | Excellent / Good / Average / Poor | 5 / 3 / 1 / 0 (any other label 0) |
| stability | tenancy 12 months or more | 10 |
| stability | tenancy 6-11 months | 5 |
| stability | employment 2 years or more | 5 |
| stability | employment at least 1 and under 2 years | 3 |
| stability | eviction notice is "No" | 5 |
| financial | credit 750 or more | 8 |
| financial | credit at least 650 and under 750 | 5 |
| financial | credit at least 550 and under 650 | 2 |
| reference | half the reference score, at most 5 | up to 5 |
| lifestyle | smoking status is "Non-smoker" | 2 |
| lifestyle | pet owner is "No" | 2 |

What the code does beyond these bands, and where it differs from its own text:

- The docstring promises a score of 0-100 (scripts/app.py:77). The code only caps the score
  at 100 (scripts/app.py:131) and does not clamp it at 0. So a negative reference score
  can give a negative score (`NegativeReferenceGoesBelowZero`).
- The late-payment and noise rules test `== 0`, then `<= 2` (or `<= 1`)
  (scripts/app.py:83-94). A negative count therefore earns +2, which the 1-2 and
  exactly-1 bands do not give it (`NegativeLatePaymentsEarnMiddleBand`,
  `NegativeNoiseEarnsMiddleBand`). For counts of zero or more, the chains agree with the
  bands (`ChainsMatchRuleTable`).
- The option "Has Late Payments" (scripts/app.py:211) keeps rows whose on-time column is
  `No` (scripts/app.py:224-225). It does not look at the late-payment count.
- The employment comparison is shown only when both groups are non-empty
  (scripts/app.py:448), and so is the income comparison (scripts/app.py:459). Each credit
  tier is shown on its own when it has rows (scripts/app.py:475-480).
- The group comments give property care 25 points (scripts/app.py:88) and financial
  stability 15 (scripts/app.py:114), and the landing text repeats this allocation
  (scripts/app.py:569-573). The rules give at most 20 and 8 (`GroupMaxima`). The full
  score reaches at most 92 (`ScoreBounds`, `BestRecordScores92`), so the cap at 100
  never applies.

## Model

| member | source | states |
|---|---|---|
| `TenantScoring.CalculateTenantScore` | scripts/app.py:76-131 | the step-by-step accumulator returns the sum of every rule's points capped at 100 (`TenantScore`), never more than 100 |
| `TenantScoring.ChainsMatchRuleTable` | scripts/app.py:80-129 | for non-negative counts, the if/elif chains award the same points as the bands listed above with each band added on its own, so no rule's bands are awarded twice |
| `TenantScoring.TieredChainsMatchTable` | scripts/app.py:80-129 | group by group (payment, property care, stability, credit, lifestyle), each chain's points equal its bands when counts are non-negative |
| `TenantScoring.NegativeLatePaymentsEarnMiddleBand` | scripts/app.py:83-86 | a negative late-payment count gets +2, which the 1-2 band does not give it |
| `TenantScoring.NegativeNoiseEarnsMiddleBand` | scripts/app.py:91-94 | a negative noise-complaint count gets +2, which the exactly-1 band does not give it |
| `TenantScoring.TieredRulesAwardOneBand` | scripts/app.py:83-120 | late payments, noise, tenancy, employment and credit each award exactly one of their bands or nothing, with each band's exact condition (both directions) |
| `TenantScoring.CleanlinessLookup` | scripts/app.py:96-98 | Excellent, Good, Average and Poor get 5, 3, 1 and 0; any other label gets 0 without error; always within 0..5 |
| `TenantScoring.CleanlinessAsBands` | scripts/app.py:97-98 | the label lookup with default 0 equals the four cleanliness bands |
| `TenantScoring.ReferencePointsBoundedMonotone` | scripts/app.py:122-123 | the reference term is at most 5, is half the reference score up to 10 and exactly 5 from 10 on, and never decreases as the reference score rises |
| `TenantScoring.GroupMaxima` | scripts/app.py:80-129 | payment gives at most 30, property care 20, cleanliness 5, stability 20, credit 8, reference 5 and lifestyle 4; each group reaches its maximum on the matching record |
| `TenantScoring.WholePointsBounds` | scripts/app.py:80-129 | the integer rules together give between 0 and 87 points |
| `TenantScoring.ScoreBounds` | scripts/app.py:78-131 | the rule sum is at most 92, so the cap at 100 never changes the score; the score is at least 0 whenever the reference score is |
| `TenantScoring.NegativeReferenceGoesBelowZero` | scripts/app.py:122-131 | the worst record with reference score -2 scores -1: nothing clamps at 0 |
| `TenantScoring.BestRecordScores92` | scripts/app.py:78-144 | the record that earns every top band scores 92, which is the maximum over all records, and is categorised "Excellent (Premium)" |
| `TenantScoring.ScoreMonotone` | scripts/app.py:83-123 | fewer late payments or noise complaints (from 0 up), longer tenancy or employment, higher credit or reference score never lower the score |
| `TenantScoring.CategorizeMatchesBands` | scripts/app.py:133-144 | a score gets a category exactly when it lies in that category's band [floor, ceiling) (80+, 70-80, 60-70, 50-60, below 50); every score is in exactly one band |
| `TenantScoring.CategorizeMonotone` | scripts/app.py:133-144 | a higher score never gets a worse category |
| `TenantScoring.LabelsDistinct` | scripts/app.py:135-144 | the five category texts are pairwise distinct |
| `TenantScoring.AgeGroupMatchesBins` | scripts/app.py:177 | an age gets a bucket exactly when floor < age <= ceiling for (0,25], (25,35], (35,45], (45,100]; ages outside (0,100] get none |
| `TenantScoring.FillMissingDamage` | scripts/app.py:170 | an empty damage cell becomes "Not Available"; a present value and every other field are left as they are |
| `TenantScoring.MissingDamageScoresAsDamaged` | scripts/app.py:89-90 | only "No" earns the damage points, so a filled-in missing value scores 0 for damage, like a reported damage, and filling leaves the score unchanged |
| `TenantScoring.EnrichWellFormed` | scripts/app.py:170-177 | a loaded row has its damage cell filled, and its score, category and age group agree with its own fields; the score is at most 92, non-negative when the reference score is, and lies in its category's band |
| `TenantScoring.EnrichAll` | scripts/app.py:170-177 | loading gives one scored row per input row |
| `TenantScoring.LoadedTableWellFormed` | scripts/app.py:170-177 | every row of the loaded table is its input row enriched, in place, and well formed |
| `TenantSelection.ApplyFiltersIsOneFilter` | scripts/app.py:216-225 | the base mask followed by the optional payment mask selects the same rows, in the same order, as one mask requiring every setting |
| `TenantSelection.ApplyFiltersKeepsPositions` | scripts/app.py:216-225 | the filtered set is the input read at the increasing list of exactly those positions whose rows have score >= floor, a chosen category, a chosen employment status and the payment mode's on-time value |
| `TenantSelection.ApplyFiltersKeepsExactly` | scripts/app.py:216-225 | the filtered set keeps the original order of its rows and holds exactly the input rows that match every setting |
| `TenantSelection.ApplyFiltersIdempotent` | scripts/app.py:216-225 | filtering the filtered set again with the same settings changes nothing |
| `TenantSelection.DefaultFiltersKeepAll` | scripts/app.py:185-225 | with the initial settings (floor 0, every present category and status, "All") a table of non-negative scores is kept whole |
| `TenantSelection.PaymentModesSplit` | scripts/app.py:222-225 | "Pays On Time Only" and "Has Late Payments" keep no common row, and when the on-time column holds only Yes and No they split the "All" result exactly |
| `TenantSelection.SearchKeepsMatches` | scripts/app.py:379-384 | the search keeps exactly the filtered rows whose name contains the term ignoring case, in their order and at exactly the matching positions, so a repeated row is kept as often as it matches; an empty term returns the filtered set unchanged |
| `TenantSelection.SearchKeepsPositions` | scripts/app.py:380-382 | for a non-empty term, the result is the filtered set read at exactly the positions whose name contains the term, in increasing order |
| `TenantSelection.SearchIgnoresCase` | scripts/app.py:380-382 | two terms equal up to letter case find the same rows |
| `TenantSelection.SearchLowerCasedTerm` | scripts/app.py:380-382 | searching for the lower-cased term finds the same rows as the term itself |
| `TenantSelection.EmptyTermMatchesEveryName` | scripts/app.py:379-384 | every name contains the empty term, so skipping the search for it gives what the search would give |
| `TenantSelection.SortByScoreCorrect` | scripts/app.py:276 | the descending order used for top-N is non-increasing in score and a permutation of its input |
| `TenantSelection.TopNCorrect` | scripts/app.py:276 | top-N returns min(N, size) rows in non-increasing score order, all taken from the input, and no row left out scores above a returned row |
| `TenantSelection.TopOfFilteredMatches` | scripts/app.py:507-508 | every row of the top-N of the filtered set is an input row matching every sidebar setting |
| `TenantInsights.MeanScore` | scripts/app.py:475-480 | a mean exists exactly when its group is non-empty |
| `TenantInsights.MeanWithinBounds` | scripts/app.py:449-461 | a group's mean lies between any lower and upper bound on its members' scores |
| `TenantInsights.MeanOfLoadedRows` | scripts/app.py:465 | the mean score of any non-empty group of loaded rows is at most 92, and at least 0 when no reference score in the group is negative |
| `TenantInsights.EmploymentSplit` | scripts/app.py:445-446 | every row is in exactly one of employed (status other than "Unemployed") and unemployed, and each group holds exactly its rows |
| `TenantInsights.EmploymentInsightShown` | scripts/app.py:448-450 | the employment comparison is shown exactly when the set holds both an employed and an unemployed row |
| `TenantInsights.IncomeSplit` | scripts/app.py:454-456 | every row is in exactly one of income >= median and income < median, and each group holds exactly its rows |
| `TenantInsights.IncomeInsightShown` | scripts/app.py:459-461 | the income comparison is shown exactly when the set holds a row at or above the median and a row below it |
| `TenantInsights.SingleRowIncomeSplit` | scripts/app.py:454-461 | a single row whose income is the median goes to the upper group, the lower group is empty and no comparison is shown |
| `TenantInsights.CreditTiersSplit` | scripts/app.py:471-473 | the tiers 750+, 650-749 and below 650 together hold every row exactly once |
| `TenantInsights.CreditInsightShown` | scripts/app.py:475-480 | each credit tier's mean is shown exactly when some row falls in that tier |
| `TenantInsights.AgeGroupsSplit` | scripts/app.py:465 | the four age groups and the rows without a group together hold every row exactly once |
| `TenantInsights.LoadedRowAgeGroup` | scripts/app.py:177 | a loaded row is in an age group exactly when its age is in that group's bin, and in no group exactly when its age is outside (0,100] |

## Left out

- Page setup, CSS, headers, sidebar widgets, tabs, expanders, metric cards, tenant cards and recommendation texts (scripts/app.py:17-72, 158-163, 182-213, 228-268, 278-308, 399-435, 483-498, 560-600): these are display only. The widget values are parameters (`FilterSettings`, the search term, N).
- The counts and percentages on metric cards and recommendations (scripts/app.py:228-259, 485-491), and the "Difference" line (scripts/app.py:451): these are display arithmetic on the groups that the model does describe.
- Charts and `value_counts` (scripts/app.py:318-371): these are library calls used only for plotting.
- Reading the CSV, the catch-all error message, CSV export and dated file names (scripts/app.py:168, 507-535, 555-557): these are I/O. Parsing is not modelled, so the model starts from typed records.
- The `st.cache_data` memoisation (scripts/app.py:75): it does not change results.
- `get_category_color` and the card style lookup (scripts/app.py:146-155, 279-285): these are display lookups.
- The column sort of the search tab and the full-table sort (scripts/app.py:386-396, 550): these reorder rows for display only, and the tie order of the library sort is unspecified.
- The median algorithm (scripts/app.py:454): the median is a parameter, and only the split it induces is modelled.
- Empty groups in the age breakdown (scripts/app.py:465-468): grouping on a categorical column may list an empty bucket with a NaN mean, depending on the dataframe library's `observed` default. The model gives each bucket an `Option` mean. The ordering of buckets by mean is display only.
- Missing numeric cells (NaN): the model's numbers are always present, and only the damage cell's emptiness is modelled. In the source, a missing count, duration or credit cell fails every comparison, so it earns 0 for its rule. A missing reference score makes `min(nan * 0.5, 5)` NaN (scripts/app.py:123), and so the whole score is NaN (scripts/app.py:131). Such a row is categorised "Poor (High Risk)" (scripts/app.py:143-144) and fails `score >= min_score` (scripts/app.py:217), so every view drops it. A missing income fails both income splits.
- Missing names: the search drops them (scripts/app.py:381).
- Floating-point rounding: scores, incomes, employment years and reference scores are exact reals. The score type is `real` (`TenantScore`) and not a float.
- `TenantSelection.Search`: the search term is matched as a literal substring with ASCII case folding. The library treats the term as a regular expression with Unicode case folding, so special characters and non-ASCII letters are not modelled.
- `TenantSelection.TopNCorrect`: it does not claim which of several equally scored rows are returned or in what order (the library keeps the first ones).
- The top-N size is any natural number, not only the offered 5, 10, 15 and 20 (scripts/app.py:274).
