/**
 * The risk scoring panel (`RiskScoringEngine`): figures computed from a fixed
 * list of contract risk profiles — the colour band of a score, the rounded
 * average score of a risk category, the portfolio average, level and trend
 * counts, and the profile picked in the detail view.
 */
module RiskScoring {
  import opened Options
  import opened Lists
  import opened Numeric
  import Registry

  type Level = Registry.RiskLevel
  type Category = Registry.Category
  type Trend = Registry.Trend

  datatype Likelihood = Low | Medium | High

  datatype RiskFactor = RiskFactor(
    id: string,
    name: string,
    category: Category,
    score: nat,
    impact: Level,
    likelihood: Likelihood)

  datatype ContractRisk = ContractRisk(
    contractId: string,
    contractName: string,
    overallScore: nat,
    riskLevel: Level,
    factors: seq<RiskFactor>,
    lastAssessed: string,
    trend: Trend)

  // ---------------------------------------------------------------------------
  // Score bands

  /** The four colours a score is shown in, from most to least severe. */
  datatype ScoreColor = Red | Orange | Yellow | Green

  /** `getRiskScoreColor`. */
  function RiskScoreColor(score: int): (c: ScoreColor)
    ensures c == Red <==> score >= 75
    ensures c == Orange <==> 50 <= score < 75
    ensures c == Yellow <==> 25 <= score < 50
    ensures c == Green <==> score < 25
  {
    if score >= 75 then Red
    else if score >= 50 then Orange
    else if score >= 25 then Yellow
    else Green
  }

  /** The progress-bar colour under each category average, written as a separate ternary chain. */
  function BarColor(avgScore: int): ScoreColor {
    if avgScore >= 75 then Red
    else if avgScore >= 50 then Orange
    else if avgScore >= 25 then Yellow
    else Green
  }

  /** The colour the service's `getRiskLevel` band would be shown in. */
  function LevelColor(level: Level): ScoreColor {
    match level
    case Critical => Red
    case High => Orange
    case Medium => Yellow
    case Low => Green
  }

  /**
   * The bar and the number are coloured alike, and both follow the bands of
   * the service's `getRiskLevel`.
   */
  lemma BandsAgree(score: int)
    ensures BarColor(score) == RiskScoreColor(score)
    ensures RiskScoreColor(score) == LevelColor(Registry.GetRiskLevel(score))
  {
  }

  // ---------------------------------------------------------------------------
  // Category averages

  /**
   * `contractRisks.flatMap(contract => contract.factors)`: one profile gives
   * its own factors, and `AllFactorsAppend` fixes the order and the copies of
   * a longer list.
   */
  function AllFactors(risks: seq<ContractRisk>): (fs: seq<RiskFactor>)
    ensures |risks| == 1 ==> fs == risks[0].factors
    ensures forall i, f :: 0 <= i < |risks| && f in risks[i].factors ==> f in fs
    ensures forall f :: f in fs ==> exists i :: 0 <= i < |risks| && f in risks[i].factors
  {
    if risks == [] then []
    else
      var rest := AllFactors(risks[1..]);
      assert forall i :: 1 <= i < |risks| ==> risks[i] == risks[1..][i - 1];
      assert |risks| == 1 ==> rest == [];
      risks[0].factors + rest
  }

  /** The factors of `a + b` are those of `a`, in order, followed by those of `b`. */
  lemma {:induction false} AllFactorsAppend(a: seq<ContractRisk>, b: seq<ContractRisk>)
    ensures AllFactors(a + b) == AllFactors(a) + AllFactors(b)
  {
    if a == [] {
      assert a + b == b;
    } else {
      assert (a + b)[1..] == a[1..] + b;
      AllFactorsAppend(a[1..], b);
    }
  }

  function InCategory(category: Category): RiskFactor -> bool {
    (f: RiskFactor) => f.category == category
  }

  function FactorScore(f: RiskFactor): nat {
    f.score
  }

  function CategoryFactors(risks: seq<ContractRisk>, category: Category): seq<RiskFactor> {
    Filter(AllFactors(risks), InCategory(category))
  }

  /**
   * `getCategoryAverageScore`: 0 when no factor has the category, otherwise
   * `Math.round` of the mean score, which lies between the category's lowest
   * and highest factor score.
   */
  function CategoryAverageScore(risks: seq<ContractRisk>, category: Category): (avg: nat)
    ensures CategoryFactors(risks, category) == [] ==> avg == 0
    ensures CategoryFactors(risks, category) != [] ==>
      && avg == RoundedMean(CategoryFactors(risks, category), FactorScore)
      && MinOf(CategoryFactors(risks, category), FactorScore) <= avg <= MaxOf(CategoryFactors(risks, category), FactorScore)
  {
    var fs := CategoryFactors(risks, category);
    if fs == [] then 0 else RoundedMean(fs, FactorScore)
  }

  // ---------------------------------------------------------------------------
  // Portfolio figures

  function OverallScore(c: ContractRisk): nat {
    c.overallScore
  }

  /**
   * The "Avg Portfolio Risk" figure: `Math.round` of the mean overall score.
   * The source divides by the list length without a guard, so an empty list
   * gives `NaN`, modelled as `None`.
   */
  function PortfolioAverage(risks: seq<ContractRisk>): (avg: Option<nat>)
    ensures avg.None? <==> risks == []
    ensures avg.Some? ==>
      && MinOf(risks, OverallScore) <= avg.value <= MaxOf(risks, OverallScore)
      && 2 * |risks| * avg.value <= 2 * Sum(risks, OverallScore) + |risks| < 2 * |risks| * (avg.value + 1)
  {
    if risks == [] then None
    else
      Some(RoundedMean(risks, OverallScore))
  }

  function IsHighRisk(c: ContractRisk): bool {
    c.riskLevel == Registry.High || c.riskLevel == Registry.Critical
  }

  /**
   * "High Risk Contracts": the number of positions holding a profile whose
   * stored level is `high` or `critical`.
   */
  function HighRiskCount(risks: seq<ContractRisk>): (n: nat)
    ensures n == |Positions(risks, IsHighRisk)|
    ensures n <= |risks|
    ensures n == 0 <==> forall c :: c in risks ==> c.riskLevel != Registry.High && c.riskLevel != Registry.Critical
  {
    var high := Filter(risks, IsHighRisk);
    assert high != [] ==> high[0] in high;
    FilterCountsPositions(risks, IsHighRisk);
    |high|
  }

  function HasTrend(trend: Trend): ContractRisk -> bool {
    (c: ContractRisk) => c.trend == trend
  }

  /** `contractRisks.filter(c => c.trend === trend).length`: the number of positions with that trend. */
  function TrendCount(risks: seq<ContractRisk>, trend: Trend): (n: nat)
    ensures n == |Positions(risks, HasTrend(trend))|
    ensures n <= |risks|
    ensures n == 0 <==> forall c :: c in risks ==> c.trend != trend
  {
    var matching := Filter(risks, HasTrend(trend));
    assert matching != [] ==> matching[0] in matching;
    FilterCountsPositions(risks, HasTrend(trend));
    |matching|
  }

  /** The three trend counts of the trends view add up to the number of profiles. */
  lemma TrendCountsCoverAll(risks: seq<ContractRisk>)
    ensures TrendCount(risks, Registry.Improving) + TrendCount(risks, Registry.Stable)
          + TrendCount(risks, Registry.Deteriorating) == |risks|
  {
    var notImproving := (c: ContractRisk) => c.trend != Registry.Improving;
    var any := (c: ContractRisk) => true;
    FilterCountDisjoint(risks, HasTrend(Registry.Stable), HasTrend(Registry.Deteriorating), notImproving);
    FilterCountDisjoint(risks, HasTrend(Registry.Improving), notImproving, any);
    FilterKeepsAll(risks, any);
  }

  /** `contractRisks.find(c => c.contractId === selectedContract)`. */
  function SelectedContractData(risks: seq<ContractRisk>, selected: string): (r: Option<ContractRisk>)
    ensures r.None? <==> forall c :: c in risks ==> c.contractId != selected
    ensures r.Some? ==> r.value.contractId == selected
    ensures r.Some? ==>
      exists i :: 0 <= i < |risks| && risks[i] == r.value && (forall j :: 0 <= j < i ==> risks[j].contractId != selected)
  {
    if risks == [] then None
    else if risks[0].contractId == selected then Some(risks[0])
    else
      var rest := SelectedContractData(risks[1..], selected);
      assert forall j :: 1 <= j < |risks| ==> risks[j] == risks[1..][j - 1];
      rest
  }

  // ---------------------------------------------------------------------------
  // The profiles the panel shows

  const ContractRisks: seq<ContractRisk> := [
    ContractRisk("1", "Metro Rail Project Agreement - Phase 1", 72, Registry.High, [
      RiskFactor("1-1", "Payment Default Risk", Registry.Financial, 65, Registry.Critical, Medium),
      RiskFactor("1-2", "Force Majeure Exposure", Registry.External, 80, Registry.High, High),
      RiskFactor("1-3", "Regulatory Compliance Gap", Registry.Regulatory, 55, Registry.Medium, Medium),
      RiskFactor("1-4", "Performance Penalty Exposure", Registry.Operational, 70, Registry.High, Medium)],
      "2024-10-01", Registry.Deteriorating),
    ContractRisk("2", "Solar Energy Plant Construction Contract", 45, Registry.Medium, [
      RiskFactor("2-1", "Technology Risk", Registry.Operational, 40, Registry.Medium, Low),
      RiskFactor("2-2", "Weather Dependency", Registry.External, 50, Registry.Medium, Medium),
      RiskFactor("2-3", "Grid Connection Risk", Registry.Regulatory, 45, Registry.High, Low)],
      "2024-09-28", Registry.Improving),
    ContractRisk("3", "Highway Development BOT Agreement", 58, Registry.Medium, [
      RiskFactor("3-1", "Traffic Volume Risk", Registry.Financial, 60, Registry.Critical, Medium),
      RiskFactor("3-2", "Land Acquisition Delays", Registry.Regulatory, 55, Registry.High, Medium)],
      "2024-09-25", Registry.Stable)
  ]

  /**
   * On the shipped profiles no factor is `legal`, so that category shows 0;
   * nothing is selected initially (`''`), so the detail view is empty.
   */
  lemma PanelInitialFigures()
    ensures CategoryAverageScore(ContractRisks, Registry.Legal) == 0
    ensures SelectedContractData(ContractRisks, "").None?
  {
    forall i, f | 0 <= i < |ContractRisks| && f in ContractRisks[i].factors
      ensures f.category != Registry.Legal
    {
      var factors := ContractRisks[i].factors;
      assert forall k :: 0 <= k < |factors| ==> factors[k].category != Registry.Legal;
    }
    CategoryWithoutFactors(ContractRisks, Registry.Legal);
  }

  /** A category no factor has averages 0. */
  lemma CategoryWithoutFactors(risks: seq<ContractRisk>, category: Category)
    requires forall i, f :: 0 <= i < |risks| && f in risks[i].factors ==> f.category != category
    ensures CategoryAverageScore(risks, category) == 0
  {
    FilterDropsAll(AllFactors(risks), InCategory(category));
  }

  /**
   * The stored level of a profile is not derived from its score: the highway
   * profile scores 58, which the service's `getRiskLevel` puts in `high`, but
   * it is labelled `medium`, so it is not counted as high risk.
   */
  lemma StoredLevelNotDerived()
    ensures ContractRisks[2].overallScore == 58
    ensures Registry.GetRiskLevel(ContractRisks[2].overallScore) == Registry.High
    ensures !IsHighRisk(ContractRisks[2])
  {
  }
}
