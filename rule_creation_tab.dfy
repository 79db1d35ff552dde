/**
 * The rule-creation tab (src/components/RuleCreationTab.tsx): generating the
 * AI rules once a sample file is chosen, the simulated test run that gives
 * every rule a fresh result, and the summary panel over the current rules.
 */
module RuleCreationTab {
  import opened Common
  import opened Counting
  import Decimal
  import Text
  import opened AIRules

  /** The status of a rule that did not pass: fail on an ERROR rule, warning on any other. */
  function FailureStatus(severity: Severity): (s: Status)
    ensures s == Fail <==> severity == Error
    ensures s == Warning <==> severity != Error
  {
    if severity == Error then Fail else Warning
  }

  /** The first test of a run, chosen by the rule id: a presence check. */
  predicate IsPresenceCheck(ruleId: string) {
    Text.Contains(ruleId, "NOT_NULL") || Text.Contains(ruleId, "ID")
  }

  /** The second test of a run, chosen by the rule id: a value check. */
  predicate IsValueCheck(ruleId: string) {
    Text.Contains(ruleId, "POSITIVE") || Text.Contains(ruleId, "RANGE")
  }

  /**
   * The new version of one rule after a test run, given the random draw
   * the run makes for it. Only the result changes. A presence check draws
   * 0, 1 or 2 affected rows and passes exactly when it draws 0; a value
   * check draws 1 or 2 rows and never passes; any other rule passes and
   * keeps its earlier row count and message.
   */
  function TestVerdict(rule: AIGeneratedRule, draw: Draw): (r: AIGeneratedRule)
    ensures r == rule.(result := r.result)
    ensures r.result.status != Pending
    ensures r.result.status != Pass ==> r.result.status == FailureStatus(rule.severity)
    ensures IsPresenceCheck(rule.ruleId) ==>
      0 <= r.result.rowsAffected <= 2 && (r.result.status == Pass <==> r.result.rowsAffected == 0)
    ensures IsPresenceCheck(rule.ruleId) && r.result.rowsAffected > 0 ==>
      r.result.message == Decimal.NatToString(r.result.rowsAffected) + " row(s) failed validation"
    ensures IsPresenceCheck(rule.ruleId) && r.result.rowsAffected == 0 ==>
      r.result.message == rule.result.message
    ensures !IsPresenceCheck(rule.ruleId) && IsValueCheck(rule.ruleId) ==>
      1 <= r.result.rowsAffected <= 2 && r.result.status != Pass &&
      r.result.message == Decimal.NatToString(r.result.rowsAffected) + " row(s) had invalid values"
    ensures !IsPresenceCheck(rule.ruleId) && !IsValueCheck(rule.ruleId) ==>
      r.result == rule.result.(status := Pass)
  {
    if IsPresenceCheck(rule.ruleId) then
      var rows := (draw * 3.0).Floor;
      if rows > 0 then
        rule.(result := AIRuleResult(FailureStatus(rule.severity), rows,
          Decimal.NatToString(rows) + " row(s) failed validation"))
      else
        rule.(result := AIRuleResult(Pass, rows, rule.result.message))
    else if IsValueCheck(rule.ruleId) then
      var rows := (draw * 2.0).Floor + 1;
      rule.(result := AIRuleResult(FailureStatus(rule.severity), rows,
        Decimal.NatToString(rows) + " row(s) had invalid values"))
    else
      rule.(result := AIRuleResult(Pass, rule.result.rowsAffected, rule.result.message))
  }

  /**
   * The callback of the test run's `map`, step by step: start from a pass
   * with the earlier row count and message, then let the first matching
   * check overwrite them.
   */
  method TestRule(rule: AIGeneratedRule, draw: Draw) returns (r: AIGeneratedRule)
    ensures r == TestVerdict(rule, draw)
  {
    var status := Pass;
    var rowsAffected := rule.result.rowsAffected;
    var message := rule.result.message;
    if IsPresenceCheck(rule.ruleId) {
      rowsAffected := (draw * 3.0).Floor;
      if rowsAffected > 0 {
        status := FailureStatus(rule.severity);
        message := Decimal.NatToString(rowsAffected) + " row(s) failed validation";
      }
    } else if IsValueCheck(rule.ruleId) {
      rowsAffected := (draw * 2.0).Floor + 1;
      status := FailureStatus(rule.severity);
      message := Decimal.NatToString(rowsAffected) + " row(s) had invalid values";
    }
    r := rule.(result := AIRuleResult(status, rowsAffected, message));
  }

  /** Every row count a presence check allows is drawn by some value of the generator. */
  lemma PresenceRowsReachable(rule: AIGeneratedRule, rows: int)
    requires IsPresenceCheck(rule.ruleId)
    requires 0 <= rows <= 2
    ensures TestVerdict(rule, rows as real / 3.0).result.rowsAffected == rows
  {
    assert (rows as real / 3.0) * 3.0 == rows as real;
  }

  /** Every row count a value check allows is drawn by some value of the generator. */
  lemma ValueRowsReachable(rule: AIGeneratedRule, rows: int)
    requires !IsPresenceCheck(rule.ruleId) && IsValueCheck(rule.ruleId)
    requires 1 <= rows <= 2
    ensures TestVerdict(rule, (rows - 1) as real / 2.0).result.rowsAffected == rows
  {
    assert ((rows - 1) as real / 2.0) * 2.0 == (rows - 1) as real;
  }

  /**
   * A rule that is neither a presence nor a value check ends the same
   * however often it is tested. A rule that is one of them ends with the
   * outcome of the last draw alone.
   */
  lemma RetestDependsOnLastDraw(rule: AIGeneratedRule, first: Draw, second: Draw)
    ensures IsPresenceCheck(rule.ruleId) || IsValueCheck(rule.ruleId) ==>
      TestVerdict(TestVerdict(rule, first), second).result.status == TestVerdict(rule, second).result.status &&
      TestVerdict(TestVerdict(rule, first), second).result.rowsAffected == TestVerdict(rule, second).result.rowsAffected
    ensures !IsPresenceCheck(rule.ruleId) && !IsValueCheck(rule.ruleId) ==>
      TestVerdict(TestVerdict(rule, first), second) == TestVerdict(rule, first)
  {
  }

  /**
   * A presence check that fails and is then tested again with no failing
   * row passes but keeps the failure message of the earlier run.
   */
  lemma PassKeepsEarlierMessage(rule: AIGeneratedRule)
    requires IsPresenceCheck(rule.ruleId)
    ensures var second := TestVerdict(TestVerdict(rule, 0.5), 0.0);
      second.result.status == Pass && second.result.rowsAffected == 0 &&
      second.result.message == "1 row(s) failed validation"
  {
    assert (0.5 * 3.0).Floor == 1;
    assert Decimal.NatToString(1) == "1";
  }

  /** The rules after a test run, given one draw per rule. */
  function TestedRules(rules: seq<AIGeneratedRule>, draws: seq<Draw>): (r: seq<AIGeneratedRule>)
    requires |draws| == |rules|
    ensures |r| == |rules|
    ensures forall i :: 0 <= i < |rules| ==> r[i] == TestVerdict(rules[i], draws[i])
  {
    seq(|rules|, i requires 0 <= i < |rules| => TestVerdict(rules[i], draws[i]))
  }

  /** A test run keeps the length, the order and every field but the result, and leaves nothing pending. */
  lemma TestRunPreservesRules(rules: seq<AIGeneratedRule>, draws: seq<Draw>)
    requires |draws| == |rules|
    ensures var tested := TestedRules(rules, draws);
      |tested| == |rules| &&
      (forall i :: 0 <= i < |rules| ==> tested[i] == rules[i].(result := tested[i].result)) &&
      Count(Statuses(tested), Pending) == 0
  {
    CountAbsent(Statuses(TestedRules(rules, draws)), Pending);
  }

  /** The sum of the affected rows of rules[i..]. */
  function RowsFrom(rules: seq<AIGeneratedRule>, i: nat): int
    requires i <= |rules|
    decreases |rules| - i
  {
    if i == |rules| then 0 else rules[i].result.rowsAffected + RowsFrom(rules, i + 1)
  }

  /** `reduce((sum, r) => sum + r.result.rowsAffected, 0)` */
  function SumRows(rules: seq<AIGeneratedRule>): (n: int)
    ensures (forall i :: 0 <= i < |rules| ==> rules[i].result.rowsAffected >= 0) ==> n >= 0
  {
    RowsFromBounds(rules, 0);
    RowsFrom(rules, 0)
  }

  lemma {:induction false} RowsFromBounds(rules: seq<AIGeneratedRule>, i: nat)
    requires i <= |rules|
    ensures (forall k :: i <= k < |rules| ==> rules[k].result.rowsAffected >= 0) ==> RowsFrom(rules, i) >= 0
    decreases |rules| - i
  {
    if i < |rules| {
      RowsFromBounds(rules, i + 1);
    }
  }

  /** The sum over a list of tested rules lies between 0 and twice the number of rules tested. */
  lemma {:induction false} TestedRowsBound(rules: seq<AIGeneratedRule>, draws: seq<Draw>, i: nat)
    requires |draws| == |rules| && i <= |rules|
    requires forall k :: 0 <= k < |rules| ==> 0 <= rules[k].result.rowsAffected <= 2
    ensures 0 <= RowsFrom(TestedRules(rules, draws), i) <= 2 * (|rules| - i)
    decreases |rules| - i
  {
    if i < |rules| {
      TestedRowsBound(rules, draws, i + 1);
    }
  }

  /** The table name of every generated rule (`AIGeneratedRule`), in order. */
  function TableColumn(rules: seq<AIGeneratedRule>): (names: seq<string>)
    ensures |names| == |rules|
    ensures forall i :: 0 <= i < |rules| ==> names[i] == rules[i].tableName
  {
    seq(|rules|, i requires 0 <= i < |rules| => rules[i].tableName)
  }

  /** `new Set(rules.map(r => r.tableName))`: the distinct table names of the rules. */
  function TableNames(rules: seq<AIGeneratedRule>): (names: set<string>)
    ensures forall t :: t in names <==> t in TableColumn(rules)
  {
    set t | t in TableColumn(rules)
  }

  /** A list has no more distinct elements than entries, and at least one when it is not empty. */
  lemma {:induction false} DistinctBound(s: seq<string>)
    ensures |set t | t in s| <= |s|
    ensures |s| > 0 ==> |set t | t in s| >= 1
    decreases |s|
  {
    if |s| > 0 {
      var init := s[..|s| - 1];
      DistinctBound(init);
      assert s == init + [s[|s| - 1]];
      assert (set t | t in s) == (set t | t in init) + {s[|s| - 1]};
    }
  }

  lemma TableNamesBound(rules: seq<AIGeneratedRule>)
    ensures |TableNames(rules)| <= |rules|
    ensures |rules| > 0 ==> |TableNames(rules)| >= 1
  {
    DistinctBound(TableColumn(rules));
  }

  /** The figures of the summary panel. */
  datatype AISummary = AISummary(
    total: nat,
    passed: nat,
    failed: nat,
    warnings: nat,
    pending: nat,
    errorRules: nat,
    warnRules: nat,
    infoRules: nat,
    totalRowsAffected: int,
    passRate: string,
    tables: nat)

  /**
   * `aiSummary` over the given rules: the status counts and the severity
   * counts each cover every rule, and the rate is '0' for an empty list.
   */
  function SummaryOf(rules: seq<AIGeneratedRule>): (s: AISummary)
    ensures s.total == |rules|
    ensures s.passed == Count(Statuses(rules), Pass) && s.failed == Count(Statuses(rules), Fail)
    ensures s.warnings == Count(Statuses(rules), Warning) && s.pending == Count(Statuses(rules), Pending)
    ensures s.errorRules == Count(Severities(rules), Error) && s.warnRules == Count(Severities(rules), Warn)
    ensures s.infoRules == Count(Severities(rules), Info)
    ensures s.passed + s.failed + s.warnings + s.pending == s.total
    ensures s.errorRules + s.warnRules + s.infoRules == s.total
    ensures s.totalRowsAffected == SumRows(rules)
    ensures s.tables == |TableNames(rules)| && s.tables <= s.total
    ensures s.total > 0 ==> s.tables >= 1
    ensures s.total == 0 ==> s.passRate == "0"
    ensures s.total > 0 ==> s.passRate == Decimal.ToFixed1(100 * s.passed, s.total)
  {
    var statuses, severities := Statuses(rules), Severities(rules);
    StatusPartition(statuses);
    SeverityPartition(severities);
    TableNamesBound(rules);
    var passed := Count(statuses, Pass);
    AISummary(
      |rules|,
      passed,
      Count(statuses, Fail),
      Count(statuses, Warning),
      Count(statuses, Pending),
      Count(severities, Error),
      Count(severities, Warn),
      Count(severities, Info),
      SumRows(rules),
      if |rules| > 0 then Decimal.ToFixed1(100 * passed, |rules|) else "0",
      |TableNames(rules)|)
  }

  /** The generated rules affect seven rows in all. */
  lemma GeneratedRows()
    ensures SumRows(AIGeneratedRules) == 7
  {
    var p := AIGeneratedRules;
    assert RowsFrom(p, 10) == 0;
    assert RowsFrom(p, 9) == 0;
    assert RowsFrom(p, 8) == 0;
    assert RowsFrom(p, 7) == 0;
    assert RowsFrom(p, 6) == 1;
    assert RowsFrom(p, 5) == 2;
    assert RowsFrom(p, 4) == 3;
    assert RowsFrom(p, 3) == 4;
    assert RowsFrom(p, 2) == 5;
    assert RowsFrom(p, 1) == 6;
    assert RowsFrom(p, 0) == 7;
  }

  /** The generated rules span the single table `lease_master`. */
  lemma GeneratedTables()
    ensures TableNames(AIGeneratedRules) == {"lease_master"}
  {
    AllLeaseMaster();
    assert TableColumn(AIGeneratedRules)[0] == "lease_master";
  }

  /** The panel right after generation, before any test run. */
  lemma GeneratedSummary()
    ensures SummaryOf(AIGeneratedRules) == AISummary(10, 3, 5, 2, 0, 5, 3, 2, 7, "30.0", 1)
  {
    GeneratedStatuses();
    GeneratedSeverities();
    GeneratedStatusCounts(Pass); GeneratedStatusCounts(Fail);
    GeneratedStatusCounts(Warning); GeneratedStatusCounts(Pending);
    GeneratedSeverityCounts(Error); GeneratedSeverityCounts(Warn); GeneratedSeverityCounts(Info);
    GeneratedRows();
    GeneratedTables();
    assert Decimal.ToFixed1(300, 10) == "30.0" by {
      assert Decimal.RoundHalfUp(10 * 300, 10) == 300;
      assert Decimal.NatToString(30) == "30";
    }
  }

  /** The presence check recognises the ids of the generated rules on lease and property ids. */
  lemma PresenceCheckKeyIds()
    ensures IsPresenceCheck("AI_L1_LEASE_ID_NOT_NULL") && IsPresenceCheck("AI_L2_PROPERTY_ID_NOT_NULL")
    ensures IsPresenceCheck("AI_L8_PROPERTY_ID_FORMAT") && IsPresenceCheck("AI_L9_LEASE_ID_FORMAT")
  {
    Text.ContainsAt("AI_L1_LEASE_ID_NOT_NULL", "ID", 12);
    Text.ContainsAt("AI_L2_PROPERTY_ID_NOT_NULL", "ID", 15);
    Text.ContainsAt("AI_L8_PROPERTY_ID_FORMAT", "ID", 15);
    Text.ContainsAt("AI_L9_LEASE_ID_FORMAT", "ID", 12);
  }

  /** The presence check recognises the ids of three more generated rules. */
  lemma PresenceCheckOtherIds()
    ensures IsPresenceCheck("AI_L3_TENANT_ID_NOT_EMPTY") && IsPresenceCheck("AI_L5_DATE_RANGE_VALID")
    ensures IsPresenceCheck("AI_L6_START_DATE_NOT_NULL")
  {
    Text.ContainsAt("AI_L3_TENANT_ID_NOT_EMPTY", "ID", 13);
    Text.ContainsAt("AI_L5_DATE_RANGE_VALID", "ID", 20);
    Text.ContainsAt("AI_L6_START_DATE_NOT_NULL", "NOT_NULL", 17);
  }

  /**
   * AI_L5_DATE_RANGE_VALID also matches the value check, but "VALID"
   * contains "ID", so the presence check, tested first, decides it.
   */
  lemma DateRangeMatchesBoth()
    ensures IsPresenceCheck("AI_L5_DATE_RANGE_VALID") && IsValueCheck("AI_L5_DATE_RANGE_VALID")
  {
    Text.ContainsAt("AI_L5_DATE_RANGE_VALID", "ID", 20);
    Text.ContainsAt("AI_L5_DATE_RANGE_VALID", "RANGE", 11);
  }

  /** Two generated rules are value checks only. */
  lemma ValueCheckIds()
    ensures !IsPresenceCheck("AI_L4_RENT_POSITIVE") && IsValueCheck("AI_L4_RENT_POSITIVE")
    ensures !IsPresenceCheck("AI_L10_RENT_RANGE") && IsValueCheck("AI_L10_RENT_RANGE")
  {
    Text.ContainsAt("AI_L4_RENT_POSITIVE", "POSITIVE", 11);
    Text.ContainsAt("AI_L10_RENT_RANGE", "RANGE", 12);
    Text.AbsentPair("AI_L4_RENT_POSITIVE", "NOT_NULL");
    Text.AbsentPair("AI_L4_RENT_POSITIVE", "ID");
    Text.AbsentPair("AI_L10_RENT_RANGE", "NOT_NULL");
    Text.AbsentPair("AI_L10_RENT_RANGE", "ID");
  }

  /** AI_L7_STATUS_ALLOWED matches neither check. */
  lemma StatusAllowedMatchesNeither()
    ensures !IsPresenceCheck("AI_L7_STATUS_ALLOWED") && !IsValueCheck("AI_L7_STATUS_ALLOWED")
  {
    Text.AbsentPair("AI_L7_STATUS_ALLOWED", "NOT_NULL");
    Text.AbsentPair("AI_L7_STATUS_ALLOWED", "ID");
    Text.AbsentPair("AI_L7_STATUS_ALLOWED", "POSITIVE");
    Text.AbsentPair("AI_L7_STATUS_ALLOWED", "RANGE");
  }

  /**
   * On the generated rules, whatever the draws: AI_L5 passes when it draws
   * no row, AI_L7 always passes and keeps its single affected row, AI_L4
   * always fails and the INFO rule AI_L10 always ends as a warning.
   */
  lemma GeneratedRuleVerdicts(draw: Draw)
    ensures TestVerdict(AIGeneratedRules[4], 0.0).result.status == Pass
    ensures TestVerdict(AIGeneratedRules[6], draw).result ==
      AIRuleResult(Pass, 1, "1 row set to 'Unknown' (row 8 had 'InvalidStatus')")
    ensures TestVerdict(AIGeneratedRules[3], draw).result.status == Fail
    ensures TestVerdict(AIGeneratedRules[9], draw).result.status == Warning
  {
    DateRangeMatchesBoth();
    ValueCheckIds();
    StatusAllowedMatchesNeither();
    var p := AIGeneratedRules;
    assert p[4].ruleId == "AI_L5_DATE_RANGE_VALID" && p[6].ruleId == "AI_L7_STATUS_ALLOWED";
    assert p[3].ruleId == "AI_L4_RENT_POSITIVE" && p[9].ruleId == "AI_L10_RENT_RANGE";
  }

  /** After any test run of the generated rules, at least one rule passes, one fails and one warns. */
  lemma TestRunOutcomes(draws: seq<Draw>)
    requires |draws| == |AIGeneratedRules|
    ensures var s := SummaryOf(TestedRules(AIGeneratedRules, draws));
      s.passed >= 1 && s.failed >= 1 && s.warnings >= 1 && s.pending == 0
  {
    var tested := TestedRules(AIGeneratedRules, draws);
    GeneratedRuleVerdicts(draws[6]);
    GeneratedRuleVerdicts(draws[3]);
    GeneratedRuleVerdicts(draws[9]);
    var statuses := Statuses(tested);
    assert statuses[6] == Pass && statuses[3] == Fail && statuses[9] == Warning;
    CountPositive(statuses, Pass);
    CountPositive(statuses, Fail);
    CountPositive(statuses, Warning);
    TestRunPreservesRules(AIGeneratedRules, draws);
  }

  /** The state of the tab. */
  class Tab {
    var sampleDataFile: Option<string>
    var isGenerating: bool
    var generationComplete: bool
    var aiGeneratedRules: seq<AIGeneratedRule>
    var isTesting: bool
    var testingComplete: bool

    constructor()
      ensures sampleDataFile == None && !isGenerating && !generationComplete
      ensures aiGeneratedRules == [] && !isTesting && !testingComplete
    {
      sampleDataFile := None;
      isGenerating := false;
      generationComplete := false;
      aiGeneratedRules := [];
      isTesting := false;
      testingComplete := false;
    }

    /** The upload widget reports the chosen file (or none). */
    method SelectFile(file: Option<string>)
      modifies this
      ensures sampleDataFile == file
      ensures isGenerating == old(isGenerating) && generationComplete == old(generationComplete)
      ensures aiGeneratedRules == old(aiGeneratedRules)
      ensures isTesting == old(isTesting) && testingComplete == old(testingComplete)
    {
      sampleDataFile := file;
    }

    /** The generate button is enabled: a file is chosen and no generation is running. */
    predicate CanGenerate()
      reads this
    {
      sampleDataFile.Some? && !isGenerating
    }

    /**
     * `handleGenerateRules`, the wait included: nothing happens without a
     * file; otherwise the rules become the generated ones, marked untested.
     */
    method GenerateRules()
      modifies this
      ensures old(sampleDataFile).None? ==> unchanged(this)
      ensures old(CanGenerate()) ==> generationComplete && !isGenerating && aiGeneratedRules == AIGeneratedRules
      ensures old(sampleDataFile).Some? ==>
        aiGeneratedRules == AIGeneratedRules && !isGenerating && generationComplete &&
        !testingComplete && sampleDataFile == old(sampleDataFile) && isTesting == old(isTesting)
    {
      if sampleDataFile.None? {
        return;
      }
      isGenerating := true;
      testingComplete := false;
      aiGeneratedRules := AIGeneratedRules;
      isGenerating := false;
      generationComplete := true;
    }

    /** `handleTestAllRules`, the wait included, with one draw per rule: each rule in turn gets its verdict. */
    method TestAllRules(draws: seq<Draw>)
      requires |draws| == |aiGeneratedRules|
      modifies this
      ensures aiGeneratedRules == TestedRules(old(aiGeneratedRules), draws)
      ensures !isTesting && testingComplete
      ensures sampleDataFile == old(sampleDataFile) && isGenerating == old(isGenerating)
      ensures generationComplete == old(generationComplete)
    {
      isTesting := true;
      var rules, tested := aiGeneratedRules, [];
      var i := 0;
      while i < |rules|
        modifies {}
        invariant 0 <= i <= |rules| && |tested| == i
        invariant forall k :: 0 <= k < i ==> tested[k] == TestVerdict(rules[k], draws[k])
      {
        var rule := TestRule(rules[i], draws[i]);
        tested := tested + [rule];
        i := i + 1;
      }
      aiGeneratedRules := tested;
      isTesting := false;
      testingComplete := true;
    }

    /** `aiSummary`: shown only once rules have been generated. */
    function Summary(): (s: Option<AISummary>)
      reads this
      ensures s.Some? <==> generationComplete
      ensures s.Some? ==> s.value == SummaryOf(aiGeneratedRules)
    {
      if generationComplete then Some(SummaryOf(aiGeneratedRules)) else None
    }
  }

  /** Choosing a file and generating shows the summary of the generated rules. */
  method GenerateScenario() returns (s: Option<AISummary>)
    ensures s == Some(AISummary(10, 3, 5, 2, 0, 5, 3, 2, 7, "30.0", 1))
  {
    var tab := new Tab();
    tab.SelectFile(Some("lease_sample.csv"));
    tab.GenerateRules();
    GeneratedSummary();
    s := tab.Summary();
  }
}
