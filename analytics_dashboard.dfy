/**
 * The analytics dashboard (src/components/AnalyticsDashboard.tsx): the fixed
 * figures `getAnalyticsData` returns for the five subdomains and the totals,
 * the trend series, the pie and comparison chart data derived from them, and
 * the set of expanded subdomain panels.
 */
module AnalyticsDashboard {
  import Decimal
  import UiState

  datatype SeverityCounts = SeverityCounts(error: nat, warn: nat, info: nat)

  datatype Subdomain = Subdomain(
    name: string,
    displayName: string,
    rulesExtracted: nat,
    rulesPassed: nat,
    rulesFailed: nat,
    rulesWarnings: nat,
    passRate: string,
    totalRowsAffected: nat,
    severityCounts: SeverityCounts)

  datatype Totals = Totals(
    extracted: nat,
    passed: nat,
    failed: nat,
    warnings: nat,
    created: nat,
    createdPassed: nat,
    createdFailed: nat,
    overallPassRate: string)

  datatype Domain = Domain(name: string, description: string, subdomains: seq<Subdomain>)

  datatype AnalyticsData = AnalyticsData(domain: Domain, totals: Totals)

  /** The subdomain figures as the source records them. */
  const SubdomainsAsWritten: seq<Subdomain> := [
    Subdomain("client_master", "Client Master", 342, 324, 12, 6, "94.7", 8420000, SeverityCounts(12, 6, 324)),
    Subdomain("portfolio_holdings", "Portfolio Holdings", 478, 451, 18, 9, "94.4", 12800000, SeverityCounts(18, 9, 451)),
    Subdomain("transaction_ledger", "Transaction Ledger", 523, 498, 15, 10, "95.2", 15200000, SeverityCounts(15, 10, 498)),
    Subdomain("market_data", "Market Data", 412, 389, 14, 9, "94.4", 6100000, SeverityCounts(14, 9, 389)),
    Subdomain("compliance_reporting", "Compliance & Reporting", 356, 338, 11, 7, "95.0", 5780000, SeverityCounts(11, 7, 338))
  ]

  /**
   * The subdomain figures with the compliance_reporting pass rate rendered
   * from its own counts (338 of 356 is 94.94 %, so "94.9" rather than "95.0").
   */
  const Subdomains: seq<Subdomain> := SubdomainsAsWritten[4 := SubdomainsAsWritten[4].(passRate := "94.9")]

  const TotalFigures: Totals := Totals(2847, 2696, 102, 49, 736, 698, 38, "94.7")


  /** A percentage of passed over extracted rules as `toFixed(1)` renders it. */
  function RatePercent(passed: nat, extracted: nat): string
    requires extracted > 0
  {
    Decimal.ToFixed1(100 * passed, extracted)
  }

  /**
   * The figures of a subdomain agree with each other: the three outcomes
   * split the extracted rules, the severity counts are the failed, warned
   * and passed rules, and the pass rate is rendered from the counts.
   */
  predicate Consistent(sd: Subdomain) {
    sd.rulesPassed + sd.rulesFailed + sd.rulesWarnings == sd.rulesExtracted &&
    sd.severityCounts == SeverityCounts(sd.rulesFailed, sd.rulesWarnings, sd.rulesPassed) &&
    sd.rulesExtracted > 0 && sd.passRate == RatePercent(sd.rulesPassed, sd.rulesExtracted)
  }

  /** The count part of Consistent, which holds for every recorded subdomain. */
  predicate CountsConsistent(sd: Subdomain) {
    sd.rulesPassed + sd.rulesFailed + sd.rulesWarnings == sd.rulesExtracted &&
    sd.severityCounts == SeverityCounts(sd.rulesFailed, sd.rulesWarnings, sd.rulesPassed)
  }

  lemma SubdomainCounts()
    ensures |SubdomainsAsWritten| == 5
    ensures forall i :: 0 <= i < 5 ==> CountsConsistent(SubdomainsAsWritten[i])
  {
  }

  lemma ClientMasterRate()
    ensures RatePercent(324, 342) == "94.7"
  {
    assert Decimal.RoundHalfUp(10 * (100 * 324), 342) == 947;
    assert Decimal.NatToString(94) == "94";
  }

  lemma PortfolioHoldingsRate()
    ensures RatePercent(451, 478) == "94.4"
  {
    assert Decimal.RoundHalfUp(10 * (100 * 451), 478) == 944;
    assert Decimal.NatToString(94) == "94";
  }

  lemma TransactionLedgerRate()
    ensures RatePercent(498, 523) == "95.2"
  {
    assert Decimal.RoundHalfUp(10 * (100 * 498), 523) == 952;
    assert Decimal.NatToString(95) == "95";
  }

  lemma MarketDataRate()
    ensures RatePercent(389, 412) == "94.4"
  {
    assert Decimal.RoundHalfUp(10 * (100 * 389), 412) == 944;
    assert Decimal.NatToString(94) == "94";
  }

  lemma ComplianceReportingRate()
    ensures RatePercent(338, 356) == "94.9"
  {
    assert Decimal.RoundHalfUp(10 * (100 * 338), 356) == 949;
    assert Decimal.NatToString(94) == "94";
  }

  /** As written, compliance_reporting shows 95.0 %, which its own counts do not give. */
  lemma ComplianceRateAsWritten()
    ensures SubdomainsAsWritten[4].name == "compliance_reporting"
    ensures SubdomainsAsWritten[4].passRate == "95.0"
    ensures !Consistent(SubdomainsAsWritten[4])
    ensures forall i :: 0 <= i < 4 ==> Consistent(SubdomainsAsWritten[i])
  {
    ComplianceReportingRate();
    ClientMasterRate();
    PortfolioHoldingsRate();
    TransactionLedgerRate();
    MarketDataRate();
    assert "94.9"[3] != "95.0"[3];
  }

  /** With the corrected rate every subdomain is consistent. */
  lemma SubdomainsConsistent()
    ensures |Subdomains| == 5
    ensures forall i :: 0 <= i < |Subdomains| ==> Consistent(Subdomains[i])
    ensures forall i :: 0 <= i < |Subdomains| ==> Subdomains[i] == SubdomainsAsWritten[i].(passRate := Subdomains[i].passRate)
  {
    ComplianceReportingRate();
    ComplianceRateAsWritten();
  }

  /** The totals add up and their overall pass rate is rendered from them. */
  lemma TotalsConsistent()
    ensures var t := TotalFigures;
      t.passed + t.failed + t.warnings == t.extracted &&
      t.createdPassed + t.createdFailed == t.created &&
      t.overallPassRate == RatePercent(t.passed, t.extracted)
  {
    assert Decimal.RoundHalfUp(10 * (100 * 2696), 2847) == 947;
    assert Decimal.NatToString(94) == "94";
  }

  /**
   * `getAnalyticsData()`: five subdomains whose counts all agree, four of
   * them with the pass rate their counts give and compliance_reporting with
   * "95.0", and totals that add up and give their own overall rate.
   */
  function GetAnalyticsData(): (a: AnalyticsData)
    ensures |a.domain.subdomains| == 5
    ensures forall i :: 0 <= i < 5 ==> CountsConsistent(a.domain.subdomains[i])
    ensures forall i :: 0 <= i < 4 ==> Consistent(a.domain.subdomains[i])
    ensures a.domain.subdomains[4].passRate == "95.0" && !Consistent(a.domain.subdomains[4])
    ensures var t := a.totals;
      t.passed + t.failed + t.warnings == t.extracted &&
      t.createdPassed + t.createdFailed == t.created &&
      t.extracted > 0 && t.overallPassRate == RatePercent(t.passed, t.extracted)
  {
    SubdomainCounts();
    ComplianceRateAsWritten();
    TotalsConsistent();
    AnalyticsData(
      Domain("Global Wealth Management Platform", "Enterprise Data Quality for Asset & Wealth Management", SubdomainsAsWritten),
      TotalFigures)
  }

  function Sum(xs: seq<nat>): nat {
    if |xs| == 0 then 0 else xs[0] + Sum(xs[1..])
  }

  function ExtractedCounts(sds: seq<Subdomain>): (r: seq<nat>)
    ensures |r| == |sds|
    ensures forall i :: 0 <= i < |sds| ==> r[i] == sds[i].rulesExtracted
  {
    seq(|sds|, i requires 0 <= i < |sds| => sds[i].rulesExtracted)
  }

  function PassedCounts(sds: seq<Subdomain>): (r: seq<nat>)
    ensures |r| == |sds|
    ensures forall i :: 0 <= i < |sds| ==> r[i] == sds[i].rulesPassed
  {
    seq(|sds|, i requires 0 <= i < |sds| => sds[i].rulesPassed)
  }

  /**
   * The subdomains do not add up to the totals: they hold 2111 of the 2847
   * extracted rules and 2000 of the 2696 passed ones.
   */
  lemma SubdomainsBelowTotals()
    ensures Sum(ExtractedCounts(Subdomains)) == 2111 < TotalFigures.extracted
    ensures Sum(PassedCounts(Subdomains)) == 2000 < TotalFigures.passed
  {
    var e := [342, 478, 523, 412, 356];
    assert e[4..] == [356];
    assert Sum(e[4..]) == 356;
    assert e[3..] == [412, 356];
    assert Sum(e[3..]) == 768;
    assert e[2..] == [523, 412, 356];
    assert Sum(e[2..]) == 1291;
    assert e[1..] == [478, 523, 412, 356];
    assert Sum(e[1..]) == 1769;
    assert e[0..] == [342, 478, 523, 412, 356];
    assert Sum(e[0..]) == 2111;
    assert e[0..] == e;
    var p := [324, 451, 498, 389, 338];
    assert p[4..] == [338];
    assert Sum(p[4..]) == 338;
    assert p[3..] == [389, 338];
    assert Sum(p[3..]) == 727;
    assert p[2..] == [498, 389, 338];
    assert Sum(p[2..]) == 1225;
    assert p[1..] == [451, 498, 389, 338];
    assert Sum(p[1..]) == 1676;
    assert p[0..] == [324, 451, 498, 389, 338];
    assert Sum(p[0..]) == 2000;
    assert p[0..] == p;
    assert ExtractedCounts(Subdomains) == e;
    assert PassedCounts(Subdomains) == p;
  }

  datatype TrendPoint = TrendPoint(date: string, extracted: nat, passed: nat, failed: nat)

  /** `trendData` */
  const TrendData: seq<TrendPoint> := [
    TrendPoint("Jan 20", 2780, 2612, 168),
    TrendPoint("Jan 21", 2795, 2638, 157),
    TrendPoint("Jan 22", 2810, 2651, 159),
    TrendPoint("Jan 23", 2823, 2668, 155),
    TrendPoint("Jan 24", 2835, 2681, 154),
    TrendPoint("Jan 25", 2841, 2689, 152),
    TrendPoint("Jan 26", 2847, 2696, 151)
  ]

  /**
   * Every point splits its extracted rules into passed and failed, the
   * extracted count never drops from one day to a later one, and the last
   * day matches the totals, its failed count being the failed and warned rules.
   */
  lemma TrendConsistent()
    ensures |TrendData| == 7
    ensures forall i :: 0 <= i < |TrendData| ==> TrendData[i].extracted == TrendData[i].passed + TrendData[i].failed
    ensures forall i, j :: 0 <= i <= j < |TrendData| ==> TrendData[i].extracted <= TrendData[j].extracted
    ensures TrendData[6].extracted == TotalFigures.extracted && TrendData[6].passed == TotalFigures.passed
    ensures TrendData[6].failed == TotalFigures.failed + TotalFigures.warnings
  {
  }

  datatype PieSlice = PieSlice(name: string, value: nat, fill: string)

  /** `pieData`: the passed, failed and warned totals as slices. */
  function PieData(t: Totals): (r: seq<PieSlice>)
    ensures |r| == 3
    ensures r[0].value == t.passed && r[1].value == t.failed && r[2].value == t.warnings
  {
    [PieSlice("Passed", t.passed, "hsl(142, 76%, 36%)"),
     PieSlice("Failed", t.failed, "hsl(0, 84%, 60%)"),
     PieSlice("Warnings", t.warnings, "hsl(45, 93%, 47%)")]
  }

  /**
   * The dashboard's pie shows every extracted rule, and its failed and
   * warned slices together are the last trend point's failed count.
   */
  lemma PieMatchesTotals()
    ensures var pie := PieData(GetAnalyticsData().totals);
      pie[0].value + pie[1].value + pie[2].value == GetAnalyticsData().totals.extracted &&
      pie[1].value + pie[2].value == TrendData[6].failed
  {
    TrendConsistent();
  }

  datatype ComparisonRow = ComparisonRow(name: string, extracted: nat, passed: nat, failed: nat, warnings: nat)

  /** `subdomainComparisonData`: one row per subdomain, in order, with its display name and counts. */
  function Comparison(sds: seq<Subdomain>): (r: seq<ComparisonRow>)
    ensures |r| == |sds|
    ensures forall i :: 0 <= i < |sds| ==>
      r[i] == ComparisonRow(sds[i].displayName, sds[i].rulesExtracted, sds[i].rulesPassed, sds[i].rulesFailed, sds[i].rulesWarnings)
  {
    seq(|sds|, i requires 0 <= i < |sds| =>
      ComparisonRow(sds[i].displayName, sds[i].rulesExtracted, sds[i].rulesPassed, sds[i].rulesFailed, sds[i].rulesWarnings))
  }

  /**
   * The dashboard's comparison chart has one bar group per subdomain, each
   * stacking up to that subdomain's extracted count, and together they hold
   * 2111 of the 2847 extracted rules.
   */
  lemma DashboardComparison()
    ensures var rows := Comparison(GetAnalyticsData().domain.subdomains);
      |rows| == 5 &&
      (forall i :: 0 <= i < 5 ==> rows[i].passed + rows[i].failed + rows[i].warnings == rows[i].extracted) &&
      Sum(ExtractedCounts(GetAnalyticsData().domain.subdomains)) == 2111 < GetAnalyticsData().totals.extracted
  {
    SubdomainsBelowTotals();
    assert ExtractedCounts(SubdomainsAsWritten) == ExtractedCounts(Subdomains);
  }

  /** The panel state: which subdomains are expanded. */
  class Dashboard {
    var expandedSubdomains: set<string>

    constructor()
      ensures expandedSubdomains == {"client_master", "portfolio_holdings"}
    {
      expandedSubdomains := {"client_master", "portfolio_holdings"};
    }

    predicate IsExpanded(name: string)
      reads this
    {
      name in expandedSubdomains
    }

    /** `toggleSubdomain`: flips the panel of one subdomain and leaves the others alone. */
    method ToggleSubdomain(name: string)
      modifies this
      ensures expandedSubdomains == UiState.Toggle(old(expandedSubdomains), name)
      ensures IsExpanded(name) <==> !old(IsExpanded(name))
      ensures forall other :: other != name ==> (IsExpanded(other) <==> old(IsExpanded(other)))
    {
      expandedSubdomains := UiState.Toggle(expandedSubdomains, name);
    }
  }
}
