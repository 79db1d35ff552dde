/**
 * The rules extracted from the silver-to-gold pipeline of the property and
 * tenant tables, each carrying the result of its last run, and the summary
 * statistics computed over them (src/data/extractedRules.ts).
 */
module ExtractedRules {
  import opened Common
  import opened Counting
  import Decimal

  /** The outcome of one run of a rule. */
  datatype RuleResult = RuleResult(status: ResultStatus, rowsAffected: int, message: string)

  /**
   * One rule as found in the pipeline code. The Python snippet the record
   * also carries is display text and is not part of this model.
   */
  datatype ExtractedRule = ExtractedRule(
    id: string,
    tableName: string,
    ruleId: string,
    ruleDescription: string,
    severity: Severity,
    actionTaken: string,
    result: RuleResult)

  const PropertyRules: seq<ExtractedRule> := [
    ExtractedRule("P1", "property_master", "P1_ID_NOT_NULL",
      "property_id must be present (non-null, non-empty)",
      Error, "Drop failing rows",
      RuleResult(Fail, 1, "1 row failed validation and was dropped")),
    ExtractedRule("P2", "property_master", "P2_ID_FORMAT",
      "property_id must match ^PRP\\d{6}$ after normalization",
      Error, "Drop failing rows",
      RuleResult(Pass, 0, "All rows passed validation")),
    ExtractedRule("P3", "property_master", "P3_YEAR_BUILT_RANGE",
      "year_built must be between 1800 and current year",
      Warn, "Set invalid values to NULL",
      RuleResult(Warning, 1, "1 row had invalid year_built, set to NULL")),
    ExtractedRule("P4", "property_master", "P4_GROSS_AREA_POSITIVE",
      "gross_area_sqft must be > 0",
      Error, "Drop failing rows",
      RuleResult(Fail, 1, "1 row failed validation and was dropped")),
    ExtractedRule("P5", "property_master", "P5_OCCUPANCY_CLAMP",
      "occupancy_rate_pct must be within 0..100",
      Warn, "Clamp to 0..100",
      RuleResult(Warning, 5, "5 rows had values clamped to 0-100 range")),
    ExtractedRule("P6", "property_master", "P6_PROPERTY_TYPE_MAP",
      "property_type must map to controlled vocabulary",
      Warn, "Map; else set to 'Unknown'",
      RuleResult(Pass, 0, "All property types mapped successfully")),
    ExtractedRule("P7", "property_master", "P7_COUNTRY_STANDARDIZE",
      "country must be Canada or United States",
      Warn, "Standardize; else set 'Unknown'",
      RuleResult(Pass, 0, "All countries standardized successfully")),
    ExtractedRule("P8", "property_master", "P8_STATE_STANDARDIZE",
      "state_province should be a 2-letter code",
      Warn, "Map known; else set 'UN'",
      RuleResult(Pass, 0, "All states standardized successfully")),
    ExtractedRule("P9", "property_master", "P9_UPDATED_AT_PARSE",
      "updated_at must parse as date",
      Warn, "Fallback to created_at or epoch",
      RuleResult(Pass, 0, "All timestamps parsed successfully")),
    ExtractedRule("P10", "property_master", "P10_DEDUPE_SURVIVORSHIP",
      "property_id must be unique in gold",
      Info, "Keep latest by updated_at",
      RuleResult(Pass, 1, "1 duplicate row removed, kept latest record"))
  ]

  const TenantRules: seq<ExtractedRule> := [
    ExtractedRule("T1", "tenant_master", "T1_ID_NOT_NULL",
      "tenant_id must be present (non-null, non-empty)",
      Error, "Drop failing rows",
      RuleResult(Fail, 1, "1 row failed validation and was dropped")),
    ExtractedRule("T2", "tenant_master", "T2_ID_FORMAT",
      "tenant_id must match ^TNT\\d{6}$ after normalization",
      Error, "Drop failing rows",
      RuleResult(Pass, 0, "All rows passed validation")),
    ExtractedRule("T3", "tenant_master", "T3_LEGAL_NAME_NOT_NULL",
      "tenant_legal_name must be present",
      Error, "Drop failing rows",
      RuleResult(Pass, 0, "All rows passed validation")),
    ExtractedRule("T4", "tenant_master", "T4_INDUSTRY_MAP",
      "industry must map to controlled taxonomy",
      Warn, "Map; else set to 'Unknown'",
      RuleResult(Pass, 0, "All industries mapped successfully")),
    ExtractedRule("T5", "tenant_master", "T5_CREDIT_RATING_ALLOWED",
      "credit_rating_internal must be one of A/BBB/BB/B/NR",
      Warn, "Normalize; invalid -> NR",
      RuleResult(Warning, 9, "9 rows had invalid credit ratings, set to NR")),
    ExtractedRule("T6", "tenant_master", "T6_UPDATED_AT_PARSE",
      "updated_at must parse as date",
      Warn, "Fallback to created_at or epoch",
      RuleResult(Pass, 0, "All timestamps parsed successfully")),
    ExtractedRule("T7", "tenant_master", "T7_DEDUPE_SURVIVORSHIP",
      "tenant_id must be unique in gold",
      Info, "Keep latest by updated_at",
      RuleResult(Pass, 1, "1 duplicate row removed, kept latest record"))
  ]

  /** `[...extractedPropertyRules, ...extractedTenantRules]` */
  const AllExtractedRules: seq<ExtractedRule> := PropertyRules + TenantRules

  /** The result status of every extracted rule (`ExtractedRule`), in order. */
  function Statuses(rules: seq<ExtractedRule>): (r: seq<Status>)
    ensures |r| == |rules|
    ensures forall i :: 0 <= i < |rules| ==> r[i] == rules[i].result.status
  {
    seq(|rules|, i requires 0 <= i < |rules| => rules[i].result.status)
  }

  lemma StatusesAppend(a: seq<ExtractedRule>, b: seq<ExtractedRule>)
    ensures Statuses(a + b) == Statuses(a) + Statuses(b)
  {
  }

  /**
   * `getRuleSummary` over any list of rules. With no rules, 0 / 0 is NaN in
   * JavaScript and `NaN.toFixed(1)` is "NaN".
   */
  function Summarize(rules: seq<ExtractedRule>): (s: RuleSummary)
    ensures s.total == |rules|
    ensures s.passed == Count(Statuses(rules), Pass)
    ensures s.failed == Count(Statuses(rules), Fail)
    ensures s.warnings == Count(Statuses(rules), Warning)
    ensures s.passed + s.failed + s.warnings == s.total
    ensures s.total == 0 ==> s.passRate == "NaN"
    ensures s.total > 0 ==> s.passRate == Decimal.ToFixed1(100 * s.passed, s.total)
  {
    var statuses := Statuses(rules);
    StatusPartition(statuses);
    CountAbsent(statuses, Pending);
    var passed := Count(statuses, Pass);
    RuleSummary(
      |rules|,
      passed,
      Count(statuses, Fail),
      Count(statuses, Warning),
      if |rules| == 0 then "NaN" else Decimal.ToFixed1(100 * passed, |rules|))
  }


  /** All rules are the ten property rules followed by the seven tenant rules, in order. */
  lemma AllExtractedRulesLayout()
    ensures |PropertyRules| == 10 && |TenantRules| == 7 && |AllExtractedRules| == 17
    ensures AllExtractedRules[..10] == PropertyRules && AllExtractedRules[10..] == TenantRules
  {
  }

  lemma PropertyStatuses()
    ensures Statuses(PropertyRules) == [Fail, Pass, Warning, Fail, Warning, Pass, Pass, Pass, Pass, Pass]
  {
  }

  lemma TenantStatuses()
    ensures Statuses(TenantRules) == [Fail, Pass, Pass, Pass, Warning, Pass, Pass]
  {
  }

  /** Counting the property statuses position by position, from the last one back. */
  lemma PropertyStatusCounts(v: Status)
    ensures Count([Fail, Pass, Warning, Fail, Warning, Pass, Pass, Pass, Pass, Pass], v) == (match v case Pass => 6 case Fail => 2 case Warning => 2 case Pending => 0)
  {
    var p := [Fail, Pass, Warning, Fail, Warning, Pass, Pass, Pass, Pass, Pass];
    match v
    case Pass =>
      assert CountFrom(p, Pass, 9) == 1;
      assert CountFrom(p, Pass, 8) == 2;
      assert CountFrom(p, Pass, 7) == 3;
      assert CountFrom(p, Pass, 6) == 4;
      assert CountFrom(p, Pass, 5) == 5;
      assert CountFrom(p, Pass, 4) == 5;
      assert CountFrom(p, Pass, 3) == 5;
      assert CountFrom(p, Pass, 2) == 5;
      assert CountFrom(p, Pass, 1) == 6;
      assert CountFrom(p, Pass, 0) == 6;
    case Fail =>
      assert CountFrom(p, Fail, 9) == 0;
      assert CountFrom(p, Fail, 8) == 0;
      assert CountFrom(p, Fail, 7) == 0;
      assert CountFrom(p, Fail, 6) == 0;
      assert CountFrom(p, Fail, 5) == 0;
      assert CountFrom(p, Fail, 4) == 0;
      assert CountFrom(p, Fail, 3) == 1;
      assert CountFrom(p, Fail, 2) == 1;
      assert CountFrom(p, Fail, 1) == 1;
      assert CountFrom(p, Fail, 0) == 2;
    case Warning =>
      assert CountFrom(p, Warning, 9) == 0;
      assert CountFrom(p, Warning, 8) == 0;
      assert CountFrom(p, Warning, 7) == 0;
      assert CountFrom(p, Warning, 6) == 0;
      assert CountFrom(p, Warning, 5) == 0;
      assert CountFrom(p, Warning, 4) == 1;
      assert CountFrom(p, Warning, 3) == 1;
      assert CountFrom(p, Warning, 2) == 2;
      assert CountFrom(p, Warning, 1) == 2;
      assert CountFrom(p, Warning, 0) == 2;
    case Pending =>
      CountAbsent(p, Pending);
  }

  /** Counting the tenant statuses position by position, from the last one back. */
  lemma TenantStatusCounts(v: Status)
    ensures Count([Fail, Pass, Pass, Pass, Warning, Pass, Pass], v) == (match v case Pass => 5 case Fail => 1 case Warning => 1 case Pending => 0)
  {
    var p := [Fail, Pass, Pass, Pass, Warning, Pass, Pass];
    match v
    case Pass =>
      assert CountFrom(p, Pass, 6) == 1;
      assert CountFrom(p, Pass, 5) == 2;
      assert CountFrom(p, Pass, 4) == 2;
      assert CountFrom(p, Pass, 3) == 3;
      assert CountFrom(p, Pass, 2) == 4;
      assert CountFrom(p, Pass, 1) == 5;
      assert CountFrom(p, Pass, 0) == 5;
    case Fail =>
      assert CountFrom(p, Fail, 6) == 0;
      assert CountFrom(p, Fail, 5) == 0;
      assert CountFrom(p, Fail, 4) == 0;
      assert CountFrom(p, Fail, 3) == 0;
      assert CountFrom(p, Fail, 2) == 0;
      assert CountFrom(p, Fail, 1) == 0;
      assert CountFrom(p, Fail, 0) == 1;
    case Warning =>
      assert CountFrom(p, Warning, 6) == 0;
      assert CountFrom(p, Warning, 5) == 0;
      assert CountFrom(p, Warning, 4) == 1;
      assert CountFrom(p, Warning, 3) == 1;
      assert CountFrom(p, Warning, 2) == 1;
      assert CountFrom(p, Warning, 1) == 1;
      assert CountFrom(p, Warning, 0) == 1;
    case Pending =>
      CountAbsent(p, Pending);
  }

  lemma AllStatusCounts()
    ensures Count(Statuses(AllExtractedRules), Pass) == 11
    ensures Count(Statuses(AllExtractedRules), Fail) == 3
    ensures Count(Statuses(AllExtractedRules), Warning) == 3
  {
    StatusesAppend(PropertyRules, TenantRules);
    var p, t := Statuses(PropertyRules), Statuses(TenantRules);
    PropertyStatuses();
    TenantStatuses();
    PropertyStatusCounts(Pass); PropertyStatusCounts(Fail); PropertyStatusCounts(Warning);
    TenantStatusCounts(Pass); TenantStatusCounts(Fail); TenantStatusCounts(Warning);
    CountAppend(p, t, Pass);
    CountAppend(p, t, Fail);
    CountAppend(p, t, Warning);
  }

  /** `getRuleSummary()`: the statistics over all extracted rules, as the dashboard shows them. */
  function GetRuleSummary(): (s: RuleSummary)
    ensures s == RuleSummary(17, 11, 3, 3, "64.7")
  {
    AllStatusCounts();
    assert Decimal.RoundHalfUp(10 * 1100, 17) == 647;
    assert Decimal.NatToString(64) == "64";
    Summarize(AllExtractedRules)
  }

  /**
   * The rendered pass rate, read back as tenths of a percent, is
   * passed * 100 / total rounded to the nearest tenth (halves up).
   */
  lemma PassRateIsRoundedPercentage(rules: seq<ExtractedRule>)
    requires |rules| > 0
    ensures var s := Summarize(rules);
      var str := s.passRate;
      Decimal.AllDigits(str[..|str| - 2]) && Decimal.IsDigit(str[|str| - 1]) &&
      var tenths := Decimal.ParseFixed1(str);
      2 * tenths * s.total <= 2000 * s.passed + s.total < 2 * (tenths + 1) * s.total
  {
    var s := Summarize(rules);
    Decimal.Fixed1RoundTrip(Decimal.RoundHalfUp(10 * (100 * s.passed), s.total));
  }

  /** In the fixed data a failure only occurs on an ERROR rule and a warning only on a WARN rule. */
  lemma FailuresMatchSeverity()
    ensures forall i :: 0 <= i < |AllExtractedRules| ==>
      var r := AllExtractedRules[i];
      (r.result.status == Fail ==> r.severity == Error) &&
      (r.result.status == Warning ==> r.severity == Warn)
  {
  }

  /** In the fixed data every rule that did not pass affected at least one row. */
  lemma NonPassAffectsRows()
    ensures forall i :: 0 <= i < |AllExtractedRules| ==>
      AllExtractedRules[i].result.status != Pass ==> AllExtractedRules[i].result.rowsAffected > 0
  {
  }

  /** The converse fails: the two INFO dedupe rules passed and still removed a row each. */
  lemma PassWithRowsAffected()
    ensures PropertyRules[9].ruleId == "P10_DEDUPE_SURVIVORSHIP" && PropertyRules[9].severity == Info
    ensures PropertyRules[9].result.status == Pass && PropertyRules[9].result.rowsAffected == 1
    ensures TenantRules[6].ruleId == "T7_DEDUPE_SURVIVORSHIP" && TenantRules[6].severity == Info
    ensures TenantRules[6].result.status == Pass && TenantRules[6].result.rowsAffected == 1
  {
  }

  /** Each list holds only rules of the table whose section it is rendered under. */
  lemma TableNamesMatchSections()
    ensures forall i :: 0 <= i < |PropertyRules| ==> PropertyRules[i].tableName == "property_master"
    ensures forall i :: 0 <= i < |TenantRules| ==> TenantRules[i].tableName == "tenant_master"
  {
  }
}
