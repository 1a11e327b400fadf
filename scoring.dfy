/** Scoring of one tenant record: the per-rule points, the 0-100 quality
    score, the five quality categories, the age buckets and the enrichment of a
    row with those derived columns (scripts/app.py, calculate_tenant_score,
    categorize_tenant and the data loading step). */
module TenantScoring {
  import opened Wrappers

  /** One row of the uploaded tenant table. Yes/No columns stay text, as in the
      file; `damage` is None where the cell is empty. */
  datatype Tenant = Tenant(
    name: string,
    age: int,
    employmentStatus: string,
    employmentYears: real,
    annualIncome: real,
    monthlySalary: real,
    creditScore: int,
    rentPaidOnTime: string,
    latePayments: int,
    damage: Option<string>,
    noiseComplaints: int,
    tenancyMonths: int,
    evictionNotice: string,
    cleanliness: string,
    referenceScore: real,
    smokingStatus: string,
    petOwner: string)

  datatype Category = ExcellentPremium | VeryGood | Good | Average | PoorHighRisk

  /** The bins (0,25], (25,35], (35,45], (45,100] of the age column. */
  datatype AgeGroup = Age18To25 | Age26To35 | Age36To45 | Age45Plus

  /** A row with the three derived columns appended after loading. */
  datatype ScoredTenant = ScoredTenant(
    tenant: Tenant,
    score: real,
    category: Category,
    ageGroup: Option<AgeGroup>)

  function RealMin(a: real, b: real): real { if a <= b then a else b }

  // ---------------------------------------------------------------------------
  // The rules, one function per if/elif group of calculate_tenant_score

  function OnTimePoints(rentPaidOnTime: string): int { if rentPaidOnTime == "Yes" then 25 else 0 }

  function LatePaymentPoints(latePayments: int): int {
    if latePayments == 0 then 5 else if latePayments <= 2 then 2 else 0
  }

  function DamagePoints(damage: Option<string>): int { if damage == Some("No") then 15 else 0 }

  function NoisePoints(noiseComplaints: int): int {
    if noiseComplaints == 0 then 5 else if noiseComplaints <= 1 then 2 else 0
  }

  /** The label-to-points lookup for room cleanliness. */
  const CleanlinessScores: map<string, int> :=
    map["Excellent" := 5, "Good" := 3, "Average" := 1, "Poor" := 0]

  /** A lookup with a default, like `dict.get(key, 0)`. */
  function Lookup(m: map<string, int>, key: string, default: int): int {
    if key in m then m[key] else default
  }

  function CleanlinessPoints(rating: string): int { Lookup(CleanlinessScores, rating, 0) }

  function TenancyPoints(months: int): int {
    if months >= 12 then 10 else if months >= 6 then 5 else 0
  }

  function EmploymentPoints(years: real): int {
    if years >= 2.0 then 5 else if years >= 1.0 then 3 else 0
  }

  function EvictionPoints(evictionNotice: string): int { if evictionNotice == "No" then 5 else 0 }

  function CreditPoints(credit: int): int {
    if credit >= 750 then 8 else if credit >= 650 then 5 else if credit >= 550 then 2 else 0
  }

  function ReferencePoints(reference: real): real { RealMin(reference * 0.5, 5.0) }

  function SmokingPoints(smokingStatus: string): int { if smokingStatus == "Non-smoker" then 2 else 0 }

  function PetPoints(petOwner: string): int { if petOwner == "No" then 2 else 0 }

  /** The rule groups, as the scoring code arranges them. */
  function PaymentPoints(t: Tenant): int { OnTimePoints(t.rentPaidOnTime) + LatePaymentPoints(t.latePayments) }
  function PropertyCarePoints(t: Tenant): int { DamagePoints(t.damage) + NoisePoints(t.noiseComplaints) }
  function StabilityPoints(t: Tenant): int {
    TenancyPoints(t.tenancyMonths) + EmploymentPoints(t.employmentYears) + EvictionPoints(t.evictionNotice)
  }
  function LifestylePoints(t: Tenant): int { SmokingPoints(t.smokingStatus) + PetPoints(t.petOwner) }

  /** The points of the integer-valued rules. */
  function WholePoints(t: Tenant): int {
    PaymentPoints(t) + PropertyCarePoints(t) + CleanlinessPoints(t.cleanliness)
    + StabilityPoints(t) + CreditPoints(t.creditScore) + LifestylePoints(t)
  }

  /** The sum of every rule's points, before the cap. */
  function RawScore(t: Tenant): real { WholePoints(t) as real + ReferencePoints(t.referenceScore) }

  /** The quality score: the rule sum capped at 100. */
  function TenantScore(t: Tenant): real { RealMin(RawScore(t), 100.0) }

  /** calculate_tenant_score: an accumulator that starts at 0 and is raised rule by rule. */
  method CalculateTenantScore(row: Tenant) returns (score: real)
    ensures score == TenantScore(row)
    ensures score <= 100.0
  {
    score := 0.0;

    // payment reliability
    if row.rentPaidOnTime == "Yes" {
      score := score + 25.0;
    }
    if row.latePayments == 0 {
      score := score + 5.0;
    } else if row.latePayments <= 2 {
      score := score + 2.0;
    }
    assert score == PaymentPoints(row) as real;
    ghost var payment := score;

    // property care
    if row.damage == Some("No") {
      score := score + 15.0;
    }
    if row.noiseComplaints == 0 {
      score := score + 5.0;
    } else if row.noiseComplaints <= 1 {
      score := score + 2.0;
    }
    assert score == payment + PropertyCarePoints(row) as real;
    ghost var care := score;

    // cleanliness
    score := score + Lookup(CleanlinessScores, row.cleanliness, 0) as real;
    ghost var clean := score;

    // stability
    if row.tenancyMonths >= 12 {
      score := score + 10.0;
    } else if row.tenancyMonths >= 6 {
      score := score + 5.0;
    }
    if row.employmentYears >= 2.0 {
      score := score + 5.0;
    } else if row.employmentYears >= 1.0 {
      score := score + 3.0;
    }
    if row.evictionNotice == "No" {
      score := score + 5.0;
    }
    assert score == clean + StabilityPoints(row) as real;
    ghost var stability := score;

    // financial stability
    if row.creditScore >= 750 {
      score := score + 8.0;
    } else if row.creditScore >= 650 {
      score := score + 5.0;
    } else if row.creditScore >= 550 {
      score := score + 2.0;
    }
    assert score == stability + CreditPoints(row.creditScore) as real;
    ghost var financial := score;

    // reference
    score := score + RealMin(row.referenceScore * 0.5, 5.0);

    // lifestyle
    if row.smokingStatus == "Non-smoker" {
      score := score + 2.0;
    }
    if row.petOwner == "No" {
      score := score + 2.0;
    }
    assert score == financial + ReferencePoints(row.referenceScore) + LifestylePoints(row) as real;
    assert score == RawScore(row);

    score := RealMin(score, 100.0);
  }

  // ---------------------------------------------------------------------------
  // The intended bands, each a separate condition: late payments 0 or 1-2,
  // noise 0 or exactly 1, tenancy 12+ or 6-11 months, employment 2+ or [1,2)
  // years, credit 750+, [650,750) or [550,650). Every band's points are added
  // whenever its condition holds, with no if/elif between them.

  function Band(holds: bool, points: int): int { if holds then points else 0 }

  /** The integer rules as independent bands, each added whenever its
      condition holds. */
  function TableWholePoints(t: Tenant): int {
    TablePayment(t) + TablePropertyCare(t) + TableCleanliness(t.cleanliness)
    + TableStability(t) + TableFinancial(t) + TableLifestyle(t)
  }

  function TablePayment(t: Tenant): int {
    Band(t.rentPaidOnTime == "Yes", 25)
    + Band(t.latePayments == 0, 5) + Band(1 <= t.latePayments <= 2, 2)
  }

  function TablePropertyCare(t: Tenant): int {
    Band(t.damage == Some("No"), 15)
    + Band(t.noiseComplaints == 0, 5) + Band(t.noiseComplaints == 1, 2)
  }

  function TableCleanliness(rating: string): int {
    Band(rating == "Excellent", 5) + Band(rating == "Good", 3)
    + Band(rating == "Average", 1) + Band(rating == "Poor", 0)
  }

  function TableStability(t: Tenant): int {
    Band(t.tenancyMonths >= 12, 10) + Band(6 <= t.tenancyMonths <= 11, 5)
    + Band(t.employmentYears >= 2.0, 5) + Band(1.0 <= t.employmentYears < 2.0, 3)
    + Band(t.evictionNotice == "No", 5)
  }

  function TableFinancial(t: Tenant): int {
    Band(t.creditScore >= 750, 8) + Band(650 <= t.creditScore < 750, 5)
    + Band(550 <= t.creditScore < 650, 2)
  }

  function TableLifestyle(t: Tenant): int {
    Band(t.smokingStatus == "Non-smoker", 2) + Band(t.petOwner == "No", 2)
  }

  /** Late-payment and noise counts of zero or more. */
  predicate CountsNonNegative(t: Tenant) {
    t.latePayments >= 0 && t.noiseComplaints >= 0
  }

  /** The if/elif chains award the same points as the independent bands: on non-negative counts no two bands of one rule
      ever both apply, so no rule is counted twice. */
  lemma ChainsMatchRuleTable(t: Tenant)
    requires CountsNonNegative(t)
    ensures WholePoints(t) == TableWholePoints(t)
    ensures RawScore(t) == TableWholePoints(t) as real + ReferencePoints(t.referenceScore)
  {
    CleanlinessAsBands(t.cleanliness);
    TieredChainsMatchTable(t);
  }

  /** Group by group, each if/elif chain equals its independent bands on
      non-negative counts. */
  lemma TieredChainsMatchTable(t: Tenant)
    requires CountsNonNegative(t)
    ensures PaymentPoints(t) == TablePayment(t)
    ensures PropertyCarePoints(t) == TablePropertyCare(t)
    ensures StabilityPoints(t) == TableStability(t)
    ensures CreditPoints(t.creditScore) == TableFinancial(t)
    ensures LifestylePoints(t) == TableLifestyle(t)
  {
  }

  /** The cleanliness lookup is the four cleanliness bands. */
  lemma CleanlinessAsBands(rating: string)
    ensures CleanlinessPoints(rating) == TableCleanliness(rating)
  {
    assert "Excellent" != "Good" && "Excellent" != "Average" && "Good" != "Average";
  }

  /** The late-payment rule tests only `<= 2` after the zero case, so a
      negative count earns +2, which the 1-2 band does not give it. */
  lemma NegativeLatePaymentsEarnMiddleBand(t: Tenant)
    requires t.latePayments < 0
    ensures LatePaymentPoints(t.latePayments) == 2
    ensures PaymentPoints(t) == TablePayment(t) + 2
  {
  }

  /** The noise rule tests only `<= 1` after the zero case, so a negative
      count earns +2, which the exactly-1 band does not give it. */
  lemma NegativeNoiseEarnsMiddleBand(t: Tenant)
    requires t.noiseComplaints < 0
    ensures NoisePoints(t.noiseComplaints) == 2
    ensures PropertyCarePoints(t) == TablePropertyCare(t) + 2
  {
  }

  // ---------------------------------------------------------------------------
  // Properties of the single rules

  /** Each tiered rule awards exactly one of its bands, or nothing. */
  lemma TieredRulesAwardOneBand(t: Tenant)
    ensures LatePaymentPoints(t.latePayments) in {0, 2, 5}
    ensures LatePaymentPoints(t.latePayments) == 5 <==> t.latePayments == 0
    ensures LatePaymentPoints(t.latePayments) == 2 <==> t.latePayments != 0 && t.latePayments <= 2
    ensures NoisePoints(t.noiseComplaints) in {0, 2, 5}
    ensures NoisePoints(t.noiseComplaints) == 5 <==> t.noiseComplaints == 0
    ensures NoisePoints(t.noiseComplaints) == 2 <==> t.noiseComplaints != 0 && t.noiseComplaints <= 1
    ensures TenancyPoints(t.tenancyMonths) in {0, 5, 10}
    ensures TenancyPoints(t.tenancyMonths) == 10 <==> t.tenancyMonths >= 12
    ensures TenancyPoints(t.tenancyMonths) == 5 <==> 6 <= t.tenancyMonths < 12
    ensures EmploymentPoints(t.employmentYears) in {0, 3, 5}
    ensures EmploymentPoints(t.employmentYears) == 5 <==> t.employmentYears >= 2.0
    ensures EmploymentPoints(t.employmentYears) == 3 <==> 1.0 <= t.employmentYears < 2.0
    ensures CreditPoints(t.creditScore) in {0, 2, 5, 8}
    ensures CreditPoints(t.creditScore) == 8 <==> t.creditScore >= 750
    ensures CreditPoints(t.creditScore) == 5 <==> 650 <= t.creditScore < 750
    ensures CreditPoints(t.creditScore) == 2 <==> 550 <= t.creditScore < 650
  {
  }

  /** The four known cleanliness labels get 5, 3, 1 and 0 points; any other
      label gets 0 and the lookup never fails. */
  lemma CleanlinessLookup(rating: string)
    ensures rating == "Excellent" ==> CleanlinessPoints(rating) == 5
    ensures rating == "Good" ==> CleanlinessPoints(rating) == 3
    ensures rating == "Average" ==> CleanlinessPoints(rating) == 1
    ensures rating !in {"Excellent", "Good", "Average"} ==> CleanlinessPoints(rating) == 0
    ensures 0 <= CleanlinessPoints(rating) <= 5
  {
  }

  /** The reference term is at most 5, half the reference score below 10,
      and never falls as the reference score rises. */
  lemma ReferencePointsBoundedMonotone(r1: real, r2: real)
    requires r1 <= r2
    ensures ReferencePoints(r1) <= ReferencePoints(r2) <= 5.0
    ensures r2 <= 10.0 ==> ReferencePoints(r2) == r2 / 2.0
    ensures r2 >= 10.0 ==> ReferencePoints(r2) == 5.0
  {
  }

  /** The most each rule group can give: payment 30, property care 20,
      cleanliness 5, stability 20, credit 8, reference 5, lifestyle 4; each
      maximum is reached by some record. */
  lemma GroupMaxima(t: Tenant)
    ensures 0 <= PaymentPoints(t) <= 30
    ensures 0 <= PropertyCarePoints(t) <= 20
    ensures 0 <= CleanlinessPoints(t.cleanliness) <= 5
    ensures 0 <= StabilityPoints(t) <= 20
    ensures 0 <= CreditPoints(t.creditScore) <= 8
    ensures ReferencePoints(t.referenceScore) <= 5.0
    ensures 0 <= LifestylePoints(t) <= 4
    ensures t.rentPaidOnTime == "Yes" && t.latePayments == 0 ==> PaymentPoints(t) == 30
    ensures t.damage == Some("No") && t.noiseComplaints == 0 ==> PropertyCarePoints(t) == 20
    ensures t.cleanliness == "Excellent" ==> CleanlinessPoints(t.cleanliness) == 5
    ensures t.tenancyMonths >= 12 && t.employmentYears >= 2.0 && t.evictionNotice == "No" ==>
      StabilityPoints(t) == 20
    ensures t.creditScore >= 750 ==> CreditPoints(t.creditScore) == 8
    ensures t.referenceScore >= 10.0 ==> ReferencePoints(t.referenceScore) == 5.0
    ensures t.smokingStatus == "Non-smoker" && t.petOwner == "No" ==> LifestylePoints(t) == 4
  {
    CleanlinessLookup(t.cleanliness);
  }

  /** The integer rules add up to between 0 and 87. */
  lemma WholePointsBounds(t: Tenant)
    ensures 0 <= WholePoints(t) <= 87
  {
    GroupMaxima(t);
  }

  /** The rule sum never exceeds 92, so the cap at 100 never applies; it is
      non-negative whenever the reference score is. */
  lemma ScoreBounds(t: Tenant)
    ensures RawScore(t) <= 92.0
    ensures TenantScore(t) == RawScore(t) <= 100.0
    ensures t.referenceScore >= 0.0 ==> 0.0 <= TenantScore(t)
  {
    WholePointsBounds(t);
  }

  /** The cap at 100 is the only clamp: a negative reference score can push
      the score below zero. */
  lemma NegativeReferenceGoesBelowZero(t: Tenant)
    requires t.rentPaidOnTime == "No" && t.latePayments == 5 && t.damage == Some("Yes")
    requires t.noiseComplaints == 3 && t.cleanliness == "Poor" && t.tenancyMonths == 2
    requires t.employmentYears == 0.0 && t.evictionNotice == "Yes" && t.creditScore == 500
    requires t.smokingStatus == "Smoker" && t.petOwner == "Yes"
    requires t.referenceScore == -2.0
    ensures TenantScore(t) == -1.0
  {
  }

  /** A record that earns every top band scores 92, the largest score there is. */
  lemma BestRecordScores92(t: Tenant)
    requires t.rentPaidOnTime == "Yes" && t.latePayments == 0 && t.damage == Some("No")
    requires t.noiseComplaints == 0 && t.cleanliness == "Excellent" && t.tenancyMonths == 18
    requires t.employmentYears == 3.0 && t.evictionNotice == "No" && t.creditScore == 780
    requires t.referenceScore == 10.0 && t.smokingStatus == "Non-smoker" && t.petOwner == "No"
    ensures TenantScore(t) == 92.0
    ensures Categorize(TenantScore(t)) == ExcellentPremium
    ensures forall u: Tenant :: TenantScore(u) <= TenantScore(t)
  {
    forall u: Tenant ensures TenantScore(u) <= TenantScore(t) {
      ScoreBounds(u);
    }
  }

  /** `u` is at least as good as `t` on every graded count and duration, and
      the same on everything else. */
  predicate NoWorse(t: Tenant, u: Tenant) {
    && 0 <= u.latePayments <= t.latePayments
    && 0 <= u.noiseComplaints <= t.noiseComplaints
    && u.tenancyMonths >= t.tenancyMonths
    && u.employmentYears >= t.employmentYears
    && u.creditScore >= t.creditScore
    && u.referenceScore >= t.referenceScore
    && u == t.(latePayments := u.latePayments, noiseComplaints := u.noiseComplaints,
               tenancyMonths := u.tenancyMonths, employmentYears := u.employmentYears,
               creditScore := u.creditScore, referenceScore := u.referenceScore)
  }

  /** Fewer late payments or noise complaints, a longer tenancy or employment,
      a higher credit or reference score never lower the score. */
  lemma ScoreMonotone(t: Tenant, u: Tenant)
    requires NoWorse(t, u)
    ensures TenantScore(t) <= TenantScore(u)
  {
    ScoreBounds(t);
    ScoreBounds(u);
    ReferencePointsBoundedMonotone(t.referenceScore, u.referenceScore);
    assert LatePaymentPoints(t.latePayments) <= LatePaymentPoints(u.latePayments);
    assert NoisePoints(t.noiseComplaints) <= NoisePoints(u.noiseComplaints);
    assert TenancyPoints(t.tenancyMonths) <= TenancyPoints(u.tenancyMonths);
    assert EmploymentPoints(t.employmentYears) <= EmploymentPoints(u.employmentYears);
    assert CreditPoints(t.creditScore) <= CreditPoints(u.creditScore);
  }

  // ---------------------------------------------------------------------------
  // categorize_tenant

  function Categorize(score: real): Category {
    if score >= 80.0 then ExcellentPremium
    else if score >= 70.0 then VeryGood
    else if score >= 60.0 then Good
    else if score >= 50.0 then Average
    else PoorHighRisk
  }

  /** The text the dashboard shows for each category. */
  function Label(c: Category): string {
    match c
    case ExcellentPremium => "Excellent (Premium)"
    case VeryGood => "Very Good"
    case Good => "Good"
    case Average => "Average"
    case PoorHighRisk => "Poor (High Risk)"
  }

  /** Categories ordered from worst (0) to best (4). */
  function Rank(c: Category): int {
    match c
    case PoorHighRisk => 0
    case Average => 1
    case Good => 2
    case VeryGood => 3
    case ExcellentPremium => 4
  }

  /** The inclusive lower bound of a category's band; None for the open bottom band. */
  function BandFloor(c: Category): Option<real> {
    match c
    case ExcellentPremium => Some(80.0)
    case VeryGood => Some(70.0)
    case Good => Some(60.0)
    case Average => Some(50.0)
    case PoorHighRisk => None
  }

  /** The exclusive upper bound of a category's band; None for the open top band. */
  function BandCeiling(c: Category): Option<real> {
    match c
    case ExcellentPremium => None
    case VeryGood => Some(80.0)
    case Good => Some(70.0)
    case Average => Some(60.0)
    case PoorHighRisk => Some(50.0)
  }

  predicate InBand(score: real, c: Category) {
    (BandFloor(c).None? || BandFloor(c).value <= score)
    && (BandCeiling(c).None? || score < BandCeiling(c).value)
  }

  /** A score gets a category exactly when it lies in that category's band
      [floor, ceiling); every score lies in exactly one band. */
  lemma CategorizeMatchesBands(score: real, c: Category)
    ensures Categorize(score) == c <==> InBand(score, c)
    ensures InBand(score, Categorize(score))
    ensures forall d :: InBand(score, d) ==> d == Categorize(score)
  {
  }

  /** A higher score never gets a worse category. */
  lemma CategorizeMonotone(s1: real, s2: real)
    requires s1 <= s2
    ensures Rank(Categorize(s1)) <= Rank(Categorize(s2))
  {
  }

  /** The five labels are distinct, so comparing labels is comparing categories. */
  lemma LabelsDistinct(c: Category, d: Category)
    ensures Label(c) == Label(d) <==> c == d
  {
  }

  // ---------------------------------------------------------------------------
  // Loading: damage fill, age bins, derived columns

  /** The age bin: right-closed intervals (0,25], (25,35], (35,45], (45,100];
      an age outside (0,100] gets no bin. */
  function AgeGroupOf(age: int): Option<AgeGroup> {
    if 0 < age <= 25 then Some(Age18To25)
    else if 25 < age <= 35 then Some(Age26To35)
    else if 35 < age <= 45 then Some(Age36To45)
    else if 45 < age <= 100 then Some(Age45Plus)
    else None
  }

  function AgeGroupFloor(g: AgeGroup): int {
    match g
    case Age18To25 => 0
    case Age26To35 => 25
    case Age36To45 => 35
    case Age45Plus => 45
  }

  function AgeGroupCeiling(g: AgeGroup): int {
    match g
    case Age18To25 => 25
    case Age26To35 => 35
    case Age36To45 => 45
    case Age45Plus => 100
  }

  /** An age lands in a bin exactly when floor < age <= ceiling, and in none
      exactly when it is outside (0,100]. */
  lemma AgeGroupMatchesBins(age: int, g: AgeGroup)
    ensures AgeGroupOf(age) == Some(g) <==> AgeGroupFloor(g) < age <= AgeGroupCeiling(g)
    ensures AgeGroupOf(age) == None <==> age <= 0 || age > 100
  {
  }

  /** An empty damage cell becomes "Not Available"; nothing else changes. */
  function FillMissingDamage(t: Tenant): (r: Tenant)
    ensures r.damage.Some?
    ensures t.damage.Some? ==> r == t
    ensures t.damage.None? ==> r == t.(damage := Some("Not Available"))
  {
    t.(damage := Some(t.damage.GetOr("Not Available")))
  }

  /** Only the text "No" earns the damage points, so a missing value, once
      filled, scores the same as a reported damage, and filling never changes
      the score. */
  lemma MissingDamageScoresAsDamaged(t: Tenant)
    requires t.damage.None?
    ensures TenantScore(FillMissingDamage(t)) == TenantScore(t)
    ensures TenantScore(FillMissingDamage(t)) == TenantScore(t.(damage := Some("Yes")))
    ensures DamagePoints(FillMissingDamage(t).damage) == 0
  {
  }

  /** The loading step for one row: fill the damage cell, then append score,
      category and age group. */
  function Enrich(t: Tenant): ScoredTenant {
    var filled := FillMissingDamage(t);
    var score := TenantScore(filled);
    ScoredTenant(filled, score, Categorize(score), AgeGroupOf(t.age))
  }

  /** What every loaded row satisfies: its derived columns agree with its own
      fields, its score is at most 92 (at least 0 for a non-negative reference
      score), and its category's band contains it. */
  predicate WellFormed(r: ScoredTenant) {
    && r.tenant.damage.Some?
    && r.score == TenantScore(r.tenant)
    && r.category == Categorize(r.score)
    && r.ageGroup == AgeGroupOf(r.tenant.age)
  }

  lemma EnrichWellFormed(t: Tenant)
    ensures WellFormed(Enrich(t))
    ensures Enrich(t).score <= 92.0
    ensures t.referenceScore >= 0.0 ==> Enrich(t).score >= 0.0
    ensures InBand(Enrich(t).score, Enrich(t).category)
    ensures Enrich(t).tenant == FillMissingDamage(t)
  {
    ScoreBounds(FillMissingDamage(t));
    CategorizeMatchesBands(Enrich(t).score, Enrich(t).category);
  }

  /** The loading step for the whole table, row order kept. */
  function EnrichAll(rows: seq<Tenant>): (r: seq<ScoredTenant>)
    ensures |r| == |rows|
  {
    seq(|rows|, i requires 0 <= i < |rows| => Enrich(rows[i]))
  }

  /** Every loaded row is well formed, keeps its position, and carries a
      score of at most 92 in its category's band. */
  lemma LoadedTableWellFormed(rows: seq<Tenant>)
    ensures forall i :: 0 <= i < |rows| ==>
      && EnrichAll(rows)[i].tenant == FillMissingDamage(rows[i])
      && WellFormed(EnrichAll(rows)[i])
      && EnrichAll(rows)[i].score <= 92.0
      && InBand(EnrichAll(rows)[i].score, EnrichAll(rows)[i].category)
  {
    forall i | 0 <= i < |rows|
      ensures && EnrichAll(rows)[i].tenant == FillMissingDamage(rows[i])
              && WellFormed(EnrichAll(rows)[i])
              && EnrichAll(rows)[i].score <= 92.0
              && InBand(EnrichAll(rows)[i].score, EnrichAll(rows)[i].category)
    {
      EnrichWellFormed(rows[i]);
    }
  }
}
