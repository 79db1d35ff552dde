/**
 * The rules proposed by the simulated AI generator for the lease table, with
 * the result each one carries before it is tested, and their summary
 * statistics (src/data/aiGeneratedRules.ts).
 */
module AIRules {
  import opened Common
  import opened Counting
  import Decimal

  /** A rule result; unlike an extracted rule's, it may still be pending. */
  datatype AIRuleResult = AIRuleResult(status: Status, rowsAffected: int, message: string)

  /**
   * A generated rule, with the fields the rule-creation tab reads. The
   * Python snippet each record also carries is display text and is not part
   * of this model.
   */
  datatype AIGeneratedRule = AIGeneratedRule(
    id: string,
    tableName: string,
    ruleId: string,
    ruleDescription: string,
    severity: Severity,
    actionTaken: string,
    result: AIRuleResult)

  /** `AI_GENERATED_RULES` */
  const AIGeneratedRules: seq<AIGeneratedRule> := [
    AIGeneratedRule("AI_L1", "lease_master", "AI_L1_LEASE_ID_NOT_NULL",
      "lease_id must be present (non-null, non-empty) - Detected empty values in sample data",
      Error, "Drop failing rows",
      AIRuleResult(Fail, 1, "1 row failed validation (row 3 has empty lease_id)")),
    AIGeneratedRule("AI_L2", "lease_master", "AI_L2_PROPERTY_ID_NOT_NULL",
      "property_id must be present - NULL value detected in sample data row 4",
      Error, "Drop failing rows",
      AIRuleResult(Fail, 1, "1 row failed validation (row 4 has NULL property_id)")),
    AIGeneratedRule("AI_L3", "lease_master", "AI_L3_TENANT_ID_NOT_EMPTY",
      "tenant_id should not be empty - Empty string detected in sample data row 5",
      Warn, "Flag only",
      AIRuleResult(Warning, 1, "1 row flagged (row 5 has empty tenant_id)")),
    AIGeneratedRule("AI_L4", "lease_master", "AI_L4_RENT_POSITIVE",
      "monthly_rent must be positive - Negative value (-500) found in sample data",
      Error, "Drop failing rows",
      AIRuleResult(Fail, 1, "1 row failed validation (row 3 has -500 rent)")),
    AIGeneratedRule("AI_L5", "lease_master", "AI_L5_DATE_RANGE_VALID",
      "end_date must be on or after start_date - Found inverted date range in row 3",
      Error, "Drop failing rows",
      AIRuleResult(Fail, 1, "1 row failed validation (row 3 has end < start)")),
    AIGeneratedRule("AI_L6", "lease_master", "AI_L6_START_DATE_NOT_NULL",
      "start_date must be present and valid - NULL value detected in row 7",
      Error, "Drop failing rows",
      AIRuleResult(Fail, 1, "1 row failed validation (row 7 has NULL start_date)")),
    AIGeneratedRule("AI_L7", "lease_master", "AI_L7_STATUS_ALLOWED",
      "status must be one of Active/Pending/Expired/Terminated/Renewed - Invalid status found",
      Warn, "Set to 'Unknown'",
      AIRuleResult(Warning, 1, "1 row set to 'Unknown' (row 8 had 'InvalidStatus')")),
    AIGeneratedRule("AI_L8", "lease_master", "AI_L8_PROPERTY_ID_FORMAT",
      "property_id should match pattern ^PRP\\d{6}$ based on detected format",
      Warn, "Flag only",
      AIRuleResult(Pass, 0, "All property_id values match expected format")),
    AIGeneratedRule("AI_L9", "lease_master", "AI_L9_LEASE_ID_FORMAT",
      "lease_id should match pattern ^LSE\\d{3}$ based on detected format",
      Info, "Log only",
      AIRuleResult(Pass, 0, "All lease_id values match expected format")),
    AIGeneratedRule("AI_L10", "lease_master", "AI_L10_RENT_RANGE",
      "monthly_rent expected range 1000-50000 based on statistical analysis",
      Info, "Flag for review",
      AIRuleResult(Pass, 0, "All rent values within expected range"))
  ]

  /** The result status of every generated rule (`AIGeneratedRule`), in order. */
  function Statuses(rules: seq<AIGeneratedRule>): (r: seq<Status>)
    ensures |r| == |rules|
    ensures forall i :: 0 <= i < |rules| ==> r[i] == rules[i].result.status
  {
    seq(|rules|, i requires 0 <= i < |rules| => rules[i].result.status)
  }

  /** The severity of every generated rule (`AIGeneratedRule`), in order. */
  function Severities(rules: seq<AIGeneratedRule>): (r: seq<Severity>)
    ensures |r| == |rules|
    ensures forall i :: 0 <= i < |rules| ==> r[i] == rules[i].severity
  {
    seq(|rules|, i requires 0 <= i < |rules| => rules[i].severity)
  }

  /**
   * `getAIRuleSummary` over any list of rules. Pending rules fall in none of
   * the three counts. With no rules the rate is JavaScript's "NaN".
   */
  function Summarize(rules: seq<AIGeneratedRule>): (s: RuleSummary)
    ensures s.total == |rules|
    ensures s.passed == Count(Statuses(rules), Pass)
    ensures s.failed == Count(Statuses(rules), Fail)
    ensures s.warnings == Count(Statuses(rules), Warning)
    ensures s.passed + s.failed + s.warnings + Count(Statuses(rules), Pending) == s.total
    ensures s.passed + s.failed + s.warnings <= s.total
    ensures s.total == 0 ==> s.passRate == "NaN"
    ensures s.total > 0 ==> s.passRate == Decimal.ToFixed1(100 * s.passed, s.total)
  {
    var statuses := Statuses(rules);
    StatusPartition(statuses);
    var passed := Count(statuses, Pass);
    RuleSummary(
      |rules|,
      passed,
      Count(statuses, Fail),
      Count(statuses, Warning),
      if |rules| == 0 then "NaN" else Decimal.ToFixed1(100 * passed, |rules|))
  }

  lemma GeneratedStatuses()
    ensures Statuses(AIGeneratedRules) == [Fail, Fail, Warning, Fail, Fail, Fail, Warning, Pass, Pass, Pass]
  {
  }

  lemma GeneratedSeverities()
    ensures Severities(AIGeneratedRules) == [Error, Error, Warn, Error, Error, Error, Warn, Warn, Info, Info]
  {
  }

  /** The status counts, position by position from the last rule back. */
  lemma GeneratedStatusCounts(v: Status)
    ensures Count([Fail, Fail, Warning, Fail, Fail, Fail, Warning, Pass, Pass, Pass], v) == (match v case Pass => 3 case Fail => 5 case Warning => 2 case Pending => 0)
  {
    var p := [Fail, Fail, Warning, Fail, Fail, Fail, Warning, Pass, Pass, Pass];
    match v
    case Pass =>
      assert CountFrom(p, Pass, 9) == 1;
      assert CountFrom(p, Pass, 8) == 2;
      assert CountFrom(p, Pass, 7) == 3;
      assert CountFrom(p, Pass, 6) == 3;
      assert CountFrom(p, Pass, 5) == 3;
      assert CountFrom(p, Pass, 4) == 3;
      assert CountFrom(p, Pass, 3) == 3;
      assert CountFrom(p, Pass, 2) == 3;
      assert CountFrom(p, Pass, 1) == 3;
      assert CountFrom(p, Pass, 0) == 3;
    case Fail =>
      assert CountFrom(p, Fail, 9) == 0;
      assert CountFrom(p, Fail, 8) == 0;
      assert CountFrom(p, Fail, 7) == 0;
      assert CountFrom(p, Fail, 6) == 0;
      assert CountFrom(p, Fail, 5) == 1;
      assert CountFrom(p, Fail, 4) == 2;
      assert CountFrom(p, Fail, 3) == 3;
      assert CountFrom(p, Fail, 2) == 3;
      assert CountFrom(p, Fail, 1) == 4;
      assert CountFrom(p, Fail, 0) == 5;
    case Warning =>
      assert CountFrom(p, Warning, 9) == 0;
      assert CountFrom(p, Warning, 8) == 0;
      assert CountFrom(p, Warning, 7) == 0;
      assert CountFrom(p, Warning, 6) == 1;
      assert CountFrom(p, Warning, 5) == 1;
      assert CountFrom(p, Warning, 4) == 1;
      assert CountFrom(p, Warning, 3) == 1;
      assert CountFrom(p, Warning, 2) == 2;
      assert CountFrom(p, Warning, 1) == 2;
      assert CountFrom(p, Warning, 0) == 2;
    case Pending =>
      CountAbsent(p, Pending);
  }

  /** The severity counts, position by position from the last rule back. */
  lemma GeneratedSeverityCounts(v: Severity)
    ensures Count([Error, Error, Warn, Error, Error, Error, Warn, Warn, Info, Info], v) == (match v case Error => 5 case Warn => 3 case Info => 2)
  {
    var p := [Error, Error, Warn, Error, Error, Error, Warn, Warn, Info, Info];
    match v
    case Error =>
      assert CountFrom(p, Error, 9) == 0;
      assert CountFrom(p, Error, 8) == 0;
      assert CountFrom(p, Error, 7) == 0;
      assert CountFrom(p, Error, 6) == 0;
      assert CountFrom(p, Error, 5) == 1;
      assert CountFrom(p, Error, 4) == 2;
      assert CountFrom(p, Error, 3) == 3;
      assert CountFrom(p, Error, 2) == 3;
      assert CountFrom(p, Error, 1) == 4;
      assert CountFrom(p, Error, 0) == 5;
    case Warn =>
      assert CountFrom(p, Warn, 9) == 0;
      assert CountFrom(p, Warn, 8) == 0;
      assert CountFrom(p, Warn, 7) == 1;
      assert CountFrom(p, Warn, 6) == 2;
      assert CountFrom(p, Warn, 5) == 2;
      assert CountFrom(p, Warn, 4) == 2;
      assert CountFrom(p, Warn, 3) == 2;
      assert CountFrom(p, Warn, 2) == 3;
      assert CountFrom(p, Warn, 1) == 3;
      assert CountFrom(p, Warn, 0) == 3;
    case Info =>
      assert CountFrom(p, Info, 9) == 1;
      assert CountFrom(p, Info, 8) == 2;
      assert CountFrom(p, Info, 7) == 2;
      assert CountFrom(p, Info, 6) == 2;
      assert CountFrom(p, Info, 5) == 2;
      assert CountFrom(p, Info, 4) == 2;
      assert CountFrom(p, Info, 3) == 2;
      assert CountFrom(p, Info, 2) == 2;
      assert CountFrom(p, Info, 1) == 2;
      assert CountFrom(p, Info, 0) == 2;
  }

  /** Without a pending rule the three counts cover every rule. */
  lemma SummaryCoversAll(rules: seq<AIGeneratedRule>)
    requires forall i :: 0 <= i < |rules| ==> rules[i].result.status != Pending
    ensures var s := Summarize(rules); s.passed + s.failed + s.warnings == s.total
  {
    CountAbsent(Statuses(rules), Pending);
  }

  /** `getAIRuleSummary()`: the summary the tab shows for the generated rules before they are tested. */
  function GetAIRuleSummary(): (s: RuleSummary)
    ensures s == RuleSummary(10, 3, 5, 2, "30.0")
  {
    SummaryCounts();
    Summarize(AIGeneratedRules)
  }

  /** The counts of the generated rules' summary, position by position, and the rate they give. */
  lemma SummaryCounts()
    ensures var s := Summarize(AIGeneratedRules);
      s.total == 10 && s.passed == 3 && s.failed == 5 && s.warnings == 2 && s.passRate == "30.0"
  {
    GeneratedStatuses();
    GeneratedStatusCounts(Pass); GeneratedStatusCounts(Fail); GeneratedStatusCounts(Warning);
    ThreeOfTenRate();
  }

  lemma ThreeOfTenRate()
    ensures Decimal.ToFixed1(100 * 3, 10) == "30.0"
  {
    assert Decimal.RoundHalfUp(10 * 300, 10) == 300;
    assert Decimal.NatToString(30) == "30";
  }

  /** Every generated rule is a rule of `lease_master`. */
  lemma AllLeaseMaster()
    ensures forall i :: 0 <= i < |AIGeneratedRules| ==> AIGeneratedRules[i].tableName == "lease_master"
  {
  }

  /**
   * In the fixed data a failure occurs only on an ERROR rule and a warning
   * only on a WARN rule; a passing rule affected no row and any other one
   * affected exactly one.
   */
  lemma ResultsMatchSeverity()
    ensures forall i :: 0 <= i < |AIGeneratedRules| ==>
      var r := AIGeneratedRules[i];
      (r.result.status == Fail ==> r.severity == Error) &&
      (r.result.status == Warning ==> r.severity == Warn) &&
      (r.result.status == Pass ==> r.result.rowsAffected == 0) &&
      (r.result.status != Pass ==> r.result.rowsAffected == 1)
  {
  }
}
