/**
 * The catalog of rules created so far (src/components/CreatedRulesCatalog.tsx):
 * the rule record, the five rules it starts with, the sections grouped by
 * table, the header and summary counts and the pass rate.
 */
module CreatedRulesCatalog {
  import opened Common
  import opened Counting
  import Decimal
  import UiState

  /** The result of the last test of a created rule. */
  datatype TestResult = TestResult(status: Status, rowsAffected: int, message: string)

  /**
   * A created rule. `testResult` is optional: a rule never tested has none.
   * The Python snippet each record also carries is display text and is not
   * part of this model.
   */
  datatype CreatedRule = CreatedRule(
    id: string,
    tableName: string,
    ruleId: string,
    ruleDescription: string,
    severity: Severity,
    actionTaken: string,
    createdAt: string,
    createdBy: string,
    version: string,
    isActive: bool,
    testResult: Option<TestResult>)

  /** `INITIAL_CREATED_RULES` */
  const InitialCreatedRules: seq<CreatedRule> := [
    CreatedRule("CR1", "lease_master", "L1_LEASE_ID_NOT_NULL",
      "lease_id must be present (non-null, non-empty)",
      Error, "drop_rows", "2024-01-25T10:30:00Z", "Data Engineering Team", "1.0.0",
      true,
      Some(TestResult(Fail, 1, "1 row failed validation"))),
    CreatedRule("CR2", "lease_master", "L2_RENT_POSITIVE",
      "monthly_rent must be a positive value",
      Error, "drop_rows", "2024-01-25T11:15:00Z", "Data Engineering Team", "1.0.0",
      true,
      Some(TestResult(Fail, 1, "1 row had negative rent"))),
    CreatedRule("CR3", "lease_master", "L3_DATE_RANGE_VALID",
      "end_date must be on or after start_date",
      Error, "drop_rows", "2024-01-25T14:00:00Z", "Data Engineering Team", "1.0.0",
      true,
      Some(TestResult(Fail, 1, "1 row has end_date before start_date"))),
    CreatedRule("CR4", "lease_master", "L4_STATUS_ALLOWED",
      "status must be one of Active/Pending/Expired/Terminated",
      Warn, "set_default", "2024-01-26T09:30:00Z", "Data Quality Analyst", "1.0.0",
      true,
      Some(TestResult(Warning, 1, "1 row had invalid status"))),
    CreatedRule("CR5", "lease_master", "L5_PROPERTY_FK_REF",
      "property_id must reference valid property_master record",
      Warn, "flag_only", "2024-01-26T10:45:00Z", "Data Quality Analyst", "1.0.0",
      true,
      Some(TestResult(Pass, 0, "All references valid")))
  ]

  /** `rule.testResult?.status`: nothing for a rule never tested. */
  function ResultStatus(rule: CreatedRule): Option<Status> {
    match rule.testResult
    case None => None
    case Some(result) => Some(result.status)
  }

  /** `rule.testResult?.status || 'pending'`: the status shown on the rule's card. */
  function DisplayStatus(rule: CreatedRule): (s: Status)
    ensures rule.testResult.None? ==> s == Pending
    ensures rule.testResult.Some? ==> s == rule.testResult.value.status
    ensures s != Pending ==> ResultStatus(rule) == Some(s)
  {
    match rule.testResult
    case None => Pending
    case Some(result) => result.status
  }

  function ResultStatuses(rules: seq<CreatedRule>): (r: seq<Option<Status>>)
    ensures |r| == |rules|
    ensures forall i :: 0 <= i < |rules| ==> r[i] == ResultStatus(rules[i])
  {
    seq(|rules|, i requires 0 <= i < |rules| => ResultStatus(rules[i]))
  }

  function DisplayStatuses(rules: seq<CreatedRule>): (r: seq<Status>)
    ensures |r| == |rules|
    ensures forall i :: 0 <= i < |rules| ==> r[i] == DisplayStatus(rules[i])
  {
    seq(|rules|, i requires 0 <= i < |rules| => DisplayStatus(rules[i]))
  }

  /** The severity of every created rule (`CreatedRule`), in order. */
  function Severities(rules: seq<CreatedRule>): (r: seq<Severity>)
    ensures |r| == |rules|
    ensures forall i :: 0 <= i < |rules| ==> r[i] == rules[i].severity
  {
    seq(|rules|, i requires 0 <= i < |rules| => rules[i].severity)
  }

  function ActiveFlags(rules: seq<CreatedRule>): (r: seq<bool>)
    ensures |r| == |rules|
    ensures forall i :: 0 <= i < |rules| ==> r[i] == rules[i].isActive
  {
    seq(|rules|, i requires 0 <= i < |rules| => rules[i].isActive)
  }

  /** For a real status, counting results and counting displayed statuses agree. */
  lemma {:induction false} ResultCountsFrom(rules: seq<CreatedRule>, v: Status, i: nat)
    requires v != Pending && i <= |rules|
    ensures CountFrom(ResultStatuses(rules), Some(v), i) == CountFrom(DisplayStatuses(rules), v, i)
    decreases |rules| - i
  {
    if i < |rules| {
      ResultCountsFrom(rules, v, i + 1);
    }
  }

  /** The three status badges of the header. */
  datatype StatusBadges = StatusBadges(pass: nat, fail: nat, warn: nat)

  /**
   * The header badges, counted with optional chaining: a rule without a
   * test result is in none of them, nor is a pending one, so together
   * they count at most every rule.
   */
  function Badges(rules: seq<CreatedRule>): (b: StatusBadges)
    ensures b.pass == Count(ResultStatuses(rules), Some(Pass))
    ensures b.fail == Count(ResultStatuses(rules), Some(Fail))
    ensures b.warn == Count(ResultStatuses(rules), Some(Warning))
    ensures b.pass + b.fail + b.warn + Count(DisplayStatuses(rules), Pending) == |rules|
    ensures b.pass + b.fail + b.warn <= |rules|
  {
    var results := ResultStatuses(rules);
    ResultCountsFrom(rules, Pass, 0);
    ResultCountsFrom(rules, Fail, 0);
    ResultCountsFrom(rules, Warning, 0);
    StatusPartition(DisplayStatuses(rules));
    StatusBadges(Count(results, Some(Pass)), Count(results, Some(Fail)), Count(results, Some(Warning)))
  }

  /** `rules.filter(r => r.isActive).length`: at most every rule, and every rule exactly when all are active. */
  function ActiveCount(rules: seq<CreatedRule>): (n: nat)
    ensures n <= |rules|
    ensures n == |rules| <==> forall i :: 0 <= i < |rules| ==> rules[i].isActive
  {
    CountAll(ActiveFlags(rules), true);
    Count(ActiveFlags(rules), true)
  }

  /** The ERROR-level and WARN-level counts of the summary; they leave out INFO rules. */
  function SeverityLevels(rules: seq<CreatedRule>): (r: (nat, nat))
    ensures r.0 == Count(Severities(rules), Error) && r.1 == Count(Severities(rules), Warn)
    ensures r.0 + r.1 + Count(Severities(rules), Info) == |rules|
  {
    SeverityPartition(Severities(rules));
    (Count(Severities(rules), Error), Count(Severities(rules), Warn))
  }

  /**
   * The pass-rate figure: 0 for an empty list, otherwise the passing share
   * in percent rounded to a whole number (halves up).
   */
  function PassRate(rules: seq<CreatedRule>): (s: string)
    ensures |rules| == 0 ==> s == "0"
    ensures |rules| > 0 ==> s == Decimal.ToFixed0(100 * Badges(rules).pass, |rules|)
  {
    if |rules| > 0 then Decimal.ToFixed0(100 * Badges(rules).pass, |rules|) else "0"
  }

  /** The pass rate reads back as a whole percentage between 0 and 100, rounded from the exact share. */
  lemma PassRateBounds(rules: seq<CreatedRule>)
    ensures Decimal.AllDigits(PassRate(rules))
    ensures var rate := Decimal.ParseNat(PassRate(rules));
      rate <= 100 &&
      (|rules| > 0 ==> 2 * rate * |rules| <= 200 * Badges(rules).pass + |rules| < 2 * (rate + 1) * |rules|)
  {
    if |rules| > 0 {
      var pass := Badges(rules).pass;
      var r := Decimal.RoundHalfUp(100 * pass, |rules|);
      Decimal.ParseNatToString(r);
      Decimal.RoundHalfUpMonotone(100 * pass, 100 * |rules|, |rules|);
      Decimal.RoundHalfUpExact(100, |rules|);
    } else {
      assert Decimal.NatToString(0) == "0";
      Decimal.ParseNatToString(0);
    }
  }

  const NoteSuffix: string := " rows"

  /** The affected-rows note of a card: shown only for a tested rule that affected some rows. */
  function RowsNote(rule: CreatedRule): (note: Option<string>)
    ensures note.Some? <==> rule.testResult.Some? && rule.testResult.value.rowsAffected > 0
    ensures note.Some? ==> |note.value| > |NoteSuffix| && note.value[|note.value| - |NoteSuffix|..] == NoteSuffix
  {
    match rule.testResult
    case Some(result) =>
      if result.rowsAffected > 0 then
        var digits := Decimal.NatToString(result.rowsAffected);
        assert (digits + NoteSuffix)[|digits|..] == NoteSuffix;
        Some(digits + NoteSuffix)
      else None
    case None => None
  }

  /** The digits in front of the note's suffix read back as the number of rows the test affected. */
  lemma RowsNoteRoundTrip(rule: CreatedRule)
    requires RowsNote(rule).Some?
    ensures var text := RowsNote(rule).value;
      var digits := text[..|text| - |NoteSuffix|];
      Decimal.AllDigits(digits) && Decimal.ParseNat(digits) == rule.testResult.value.rowsAffected
  {
    var n := rule.testResult.value.rowsAffected;
    var text := RowsNote(rule).value;
    assert text[..|text| - |NoteSuffix|] == Decimal.NatToString(n);
    Decimal.ParseNatToString(n);
  }

  /** The table of every created rule (`CreatedRule`), in input order. */
  function TableNames(rules: seq<CreatedRule>): (r: seq<string>)
    ensures |r| == |rules|
    ensures forall i :: 0 <= i < |rules| ==> r[i] == rules[i].tableName
  {
    seq(|rules|, i requires 0 <= i < |rules| => rules[i].tableName)
  }

  /** The distinct table names of the rules, in order of first occurrence. */
  function TableKeys(rules: seq<CreatedRule>): (keys: seq<string>)
    decreases |rules|
  {
    if |rules| == 0 then []
    else
      var keys := TableKeys(rules[..|rules| - 1]);
      var t := rules[|rules| - 1].tableName;
      if t in keys then keys else keys + [t]
  }

  /** The rules of table t, in input order. */
  function WithTable(rules: seq<CreatedRule>, t: string): (r: seq<CreatedRule>)
    ensures |r| <= |rules|
    ensures forall i :: 0 <= i < |r| ==> r[i].tableName == t
    decreases |rules|
  {
    if |rules| == 0 then []
    else
      var last := rules[|rules| - 1];
      WithTable(rules[..|rules| - 1], t) + (if last.tableName == t then [last] else [])
  }

  /** One section of the catalog: a table and its rules. */
  datatype Group = Group(tableName: string, rules: seq<CreatedRule>)

  /** `Object.entries(groupedRules)`: one section per table, in order of first occurrence. */
  function Grouped(rules: seq<CreatedRule>): (groups: seq<Group>)
    ensures |groups| == |TableKeys(rules)|
    ensures forall i :: 0 <= i < |groups| ==>
      groups[i].tableName == TableKeys(rules)[i] && groups[i].rules == WithTable(rules, TableKeys(rules)[i])
  {
    var keys := TableKeys(rules);
    seq(|keys|, i requires 0 <= i < |keys| => Group(keys[i], WithTable(rules, keys[i])))
  }

  /** A table occurs among the keys exactly when some rule belongs to it. */
  lemma {:induction false} TableKeysMembership(rules: seq<CreatedRule>)
    ensures forall t :: t in TableKeys(rules) <==> t in TableNames(rules)
    decreases |rules|
  {
    if |rules| > 0 {
      var init := rules[..|rules| - 1];
      TableKeysMembership(init);
      assert TableNames(rules) == TableNames(init) + [rules[|rules| - 1].tableName];
    }
  }

  /** No table is listed twice. */
  lemma {:induction false} TableKeysDistinct(rules: seq<CreatedRule>)
    ensures forall i, j :: 0 <= i < j < |TableKeys(rules)| ==> TableKeys(rules)[i] != TableKeys(rules)[j]
    decreases |rules|
  {
    if |rules| > 0 {
      TableKeysDistinct(rules[..|rules| - 1]);
    }
  }

  /** A table that no rule names has an empty section. */
  lemma {:induction false} WithTableAbsent(rules: seq<CreatedRule>, t: string)
    requires t !in TableKeys(rules)
    ensures WithTable(rules, t) == []
    decreases |rules|
  {
    if |rules| > 0 {
      var init := rules[..|rules| - 1];
      TableKeysMembership(rules);
      TableKeysMembership(init);
      assert TableNames(rules) == TableNames(init) + [rules[|rules| - 1].tableName];
      WithTableAbsent(init, t);
    }
  }

  /** A section holds exactly the rules of its table. */
  lemma {:induction false} WithTableContents(rules: seq<CreatedRule>, t: string)
    ensures forall r :: r in WithTable(rules, t) <==> r in rules && r.tableName == t
    decreases |rules|
  {
    if |rules| > 0 {
      var init := rules[..|rules| - 1];
      WithTableContents(init, t);
      assert rules == init + [rules[|rules| - 1]];
    }
  }

  /**
   * Sections appear in order of first occurrence: before any rule of a
   * later section there is a rule of every earlier section.
   */
  lemma {:induction false} TableKeysFirstOccurrence(rules: seq<CreatedRule>, i: nat, j: nat, k: nat)
    requires i < j < |TableKeys(rules)|
    requires k < |rules| && rules[k].tableName == TableKeys(rules)[j]
    ensures exists m :: 0 <= m < k && rules[m].tableName == TableKeys(rules)[i]
    decreases |rules|
  {
    var init := rules[..|rules| - 1];
    var keys, initKeys := TableKeys(rules), TableKeys(init);
    var last := rules[|rules| - 1].tableName;
    TableKeysMembership(init);
    if j < |initKeys| {
      assert keys[j] == initKeys[j] && keys[i] == initKeys[i];
      assert initKeys[j] in TableNames(init);
      var k' :| 0 <= k' < |init| && TableNames(init)[k'] == initKeys[j];
      if k < |init| {
        k' := k;
      }
      TableKeysFirstOccurrence(init, i, j, k');
      var m :| 0 <= m < k' && init[m].tableName == initKeys[i];
      assert rules[m] == init[m];
    } else {
      assert keys == initKeys + [last] && keys[j] == last;
      assert k == |init|;
      assert initKeys[i] in TableNames(init);
      var m :| 0 <= m < |init| && TableNames(init)[m] == initKeys[i];
      assert rules[m] == init[m];
    }
  }

  /** The number of rules over all sections. */
  function TotalSize(groups: seq<Group>): nat {
    if |groups| == 0 then 0 else |groups[0].rules| + TotalSize(groups[1..])
  }

  lemma {:induction false} TotalSizeAppend(a: seq<Group>, b: seq<Group>)
    ensures TotalSize(a + b) == TotalSize(a) + TotalSize(b)
    decreases |a|
  {
    if |a| > 0 {
      assert (a + b)[1..] == a[1..] + b;
      TotalSizeAppend(a[1..], b);
    } else {
      assert a + b == b;
    }
  }

  lemma {:induction false} TotalSizeUpdate(groups: seq<Group>, j: nat, g: Group)
    requires j < |groups|
    ensures TotalSize(groups[j := g]) + |groups[j].rules| == TotalSize(groups) + |g.rules|
    decreases |groups|
  {
    if j > 0 {
      assert groups[j := g][1..] == groups[1..][j - 1 := g];
      TotalSizeUpdate(groups[1..], j - 1, g);
    } else {
      assert groups[j := g][1..] == groups[1..];
    }
  }

  /** Adding a rule of a table not seen yet opens a new last section holding just that rule. */
  lemma GroupedSnocNew(rules: seq<CreatedRule>, rule: CreatedRule)
    requires rule.tableName !in TableKeys(rules)
    ensures TableKeys(rules + [rule]) == TableKeys(rules) + [rule.tableName]
    ensures Grouped(rules + [rule]) == Grouped(rules) + [Group(rule.tableName, [rule])]
  {
    var all := rules + [rule];
    assert all[..|all| - 1] == rules;
    WithTableAbsent(rules, rule.tableName);
    var keys := TableKeys(rules);
    assert TableKeys(all) == keys + [rule.tableName];
    var expected := Grouped(rules) + [Group(rule.tableName, [rule])];
    assert |Grouped(all)| == |expected|;
    forall i | 0 <= i < |Grouped(all)| ensures Grouped(all)[i] == expected[i] {
      if i < |keys| {
        assert keys[i] != rule.tableName;
        assert WithTable(all, keys[i]) == WithTable(rules, keys[i]);
      } else {
        assert WithTable(all, rule.tableName) == [rule];
      }
    }
  }

  /** Adding a rule of a table seen already appends it to that table's section. */
  lemma GroupedSnocOld(rules: seq<CreatedRule>, rule: CreatedRule, j: nat)
    requires j < |TableKeys(rules)| && TableKeys(rules)[j] == rule.tableName
    ensures TableKeys(rules + [rule]) == TableKeys(rules)
    ensures Grouped(rules + [rule]) == Grouped(rules)[j := Group(rule.tableName, WithTable(rules, rule.tableName) + [rule])]
  {
    var all := rules + [rule];
    assert all[..|all| - 1] == rules;
    TableKeysDistinct(rules);
    var keys := TableKeys(rules);
    assert rule.tableName in keys;
    forall i | 0 <= i < |keys| && i != j ensures WithTable(all, keys[i]) == WithTable(rules, keys[i]) {
      assert keys[i] != rule.tableName;
    }
  }

  /** Every rule lands in exactly one section, so the sections hold as many rules as the list. */
  lemma {:induction false} GroupSizes(rules: seq<CreatedRule>)
    ensures TotalSize(Grouped(rules)) == |rules|
    decreases |rules|
  {
    if |rules| > 0 {
      var init := rules[..|rules| - 1];
      var rule := rules[|rules| - 1];
      var t := rule.tableName;
      assert rules == init + [rule];
      GroupSizes(init);
      var keys := TableKeys(init);
      if t in keys {
        var j :| 0 <= j < |keys| && keys[j] == t;
        GroupedSnocOld(init, rule, j);
        TotalSizeUpdate(Grouped(init), j, Group(t, WithTable(init, t) + [rule]));
      } else {
        GroupedSnocNew(init, rule);
        TotalSizeAppend(Grouped(init), [Group(t, [rule])]);
      }
    }
  }

  /** A list of rules of one table forms one section holding the whole list. */
  lemma {:induction false} SingleTable(rules: seq<CreatedRule>, t: string)
    requires |rules| > 0
    requires forall i :: 0 <= i < |rules| ==> rules[i].tableName == t
    ensures TableKeys(rules) == [t] && WithTable(rules, t) == rules
    ensures Grouped(rules) == [Group(t, rules)]
    decreases |rules|
  {
    var init := rules[..|rules| - 1];
    if |init| > 0 {
      SingleTable(init, t);
    }
    assert rules == init + [rules[|rules| - 1]];
  }

  /** The entries of a grouping accumulator, in the order its keys were added. */
  function Entries(order: seq<string>, acc: map<string, seq<CreatedRule>>): (groups: seq<Group>)
    requires forall t :: t in order ==> t in acc
    ensures |groups| == |order|
    ensures forall i :: 0 <= i < |order| ==> groups[i] == Group(order[i], acc[order[i]])
  {
    seq(|order|, i requires 0 <= i < |order| => Group(order[i], acc[order[i]]))
  }

  /** One step of the grouping: the keys and sections after one more rule. */
  lemma GroupStep(rules: seq<CreatedRule>, i: nat)
    requires i < |rules|
    ensures TableKeys(rules[..i + 1]) ==
      if rules[i].tableName in TableKeys(rules[..i]) then TableKeys(rules[..i]) else TableKeys(rules[..i]) + [rules[i].tableName]
    ensures forall t :: (WithTable(rules[..i + 1], t) ==
      WithTable(rules[..i], t) + (if rules[i].tableName == t then [rules[i]] else []))
  {
    assert rules[..i + 1][..i] == rules[..i];
  }

  /** The grouping accumulator after the first i rules: keys in first-occurrence order, each with its rules. */
  ghost predicate GroupedSoFar(rules: seq<CreatedRule>, i: nat, order: seq<string>, acc: map<string, seq<CreatedRule>>)
    requires i <= |rules|
  {
    order == TableKeys(rules[..i]) &&
    (forall t :: t in acc <==> t in order) &&
    (forall t :: t in acc ==> acc[t] == WithTable(rules[..i], t))
  }

  /** Creating the rule's list when it is missing and then pushing the rule keeps the accumulator right. */
  lemma GroupedSoFarStep(rules: seq<CreatedRule>, i: nat, order: seq<string>, acc: map<string, seq<CreatedRule>>)
    requires i < |rules| && GroupedSoFar(rules, i, order, acc)
    ensures var t := rules[i].tableName;
      var created := if t in acc then acc else acc[t := []];
      GroupedSoFar(rules, i + 1, if t in acc then order else order + [t], created[t := created[t] + [rules[i]]])
  {
    var t := rules[i].tableName;
    GroupStep(rules, i);
    if t !in acc {
      WithTableAbsent(rules[..i], t);
    }
  }

  /**
   * `groupedRules`: the reduce that creates a table's list on first sight
   * and pushes each rule onto it; `order` is the insertion order of the
   * object's keys, which `Object.entries` follows.
   */
  method GroupRules(rules: seq<CreatedRule>) returns (order: seq<string>, acc: map<string, seq<CreatedRule>>)
    ensures order == TableKeys(rules)
    ensures forall t :: t in acc <==> t in order
    ensures forall t :: t in acc ==> acc[t] == WithTable(rules, t)
    ensures Entries(order, acc) == Grouped(rules)
  {
    order, acc := [], map[];
    var i := 0;
    while i < |rules|
      invariant 0 <= i <= |rules|
      invariant GroupedSoFar(rules, i, order, acc)
    {
      var rule := rules[i];
      GroupedSoFarStep(rules, i, order, acc);
      if rule.tableName !in acc {
        acc := acc[rule.tableName := []];
        order := order + [rule.tableName];
      }
      acc := acc[rule.tableName := acc[rule.tableName] + [rule]];
      i := i + 1;
    }
    assert rules[..|rules|] == rules;
  }

  /** The figures on the initial catalog. */
  lemma InitialResultStatuses()
    ensures ResultStatuses(InitialCreatedRules) == [Some(Fail), Some(Fail), Some(Fail), Some(Warning), Some(Pass)]
    ensures Severities(InitialCreatedRules) == [Error, Error, Error, Warn, Warn]
    ensures ActiveFlags(InitialCreatedRules) == [true, true, true, true, true]
  {
  }

  /** Five rules, all active, one section `lease_master`, badges 1 / 3 / 1 and a pass rate of 20. */
  lemma InitialCatalog()
    ensures |InitialCreatedRules| == 5 && ActiveCount(InitialCreatedRules) == 5
    ensures Grouped(InitialCreatedRules) == [Group("lease_master", InitialCreatedRules)]
    ensures Badges(InitialCreatedRules) == StatusBadges(1, 3, 1)
    ensures SeverityLevels(InitialCreatedRules) == (3, 2)
    ensures PassRate(InitialCreatedRules) == "20"
  {
    var rules := InitialCreatedRules;
    SingleTable(rules, "lease_master");
    InitialResultStatuses();
    var p := [Some(Fail), Some(Fail), Some(Fail), Some(Warning), Some(Pass)];
    assert CountFrom(p, Some(Pass), 4) == 1;
    assert CountFrom(p, Some(Pass), 3) == 1;
    assert CountFrom(p, Some(Pass), 2) == 1;
    assert CountFrom(p, Some(Pass), 1) == 1;
    assert CountFrom(p, Some(Pass), 0) == 1;
    assert CountFrom(p, Some(Fail), 4) == 0;
    assert CountFrom(p, Some(Fail), 3) == 0;
    assert CountFrom(p, Some(Fail), 2) == 1;
    assert CountFrom(p, Some(Fail), 1) == 2;
    assert CountFrom(p, Some(Fail), 0) == 3;
    assert CountFrom(p, Some(Warning), 4) == 0;
    assert CountFrom(p, Some(Warning), 3) == 1;
    assert CountFrom(p, Some(Warning), 2) == 1;
    assert CountFrom(p, Some(Warning), 1) == 1;
    assert CountFrom(p, Some(Warning), 0) == 1;
    var v := [Error, Error, Error, Warn, Warn];
    assert CountFrom(v, Error, 4) == 0;
    assert CountFrom(v, Error, 3) == 0;
    assert CountFrom(v, Error, 2) == 1;
    assert CountFrom(v, Error, 1) == 2;
    assert CountFrom(v, Error, 0) == 3;
    assert CountFrom(v, Warn, 4) == 1;
    assert CountFrom(v, Warn, 3) == 2;
    assert CountFrom(v, Warn, 2) == 2;
    assert CountFrom(v, Warn, 1) == 2;
    assert CountFrom(v, Warn, 0) == 2;
    assert Decimal.RoundHalfUp(100, 5) == 20;
    assert Decimal.NatToString(20) == "20";
  }

  /** The state of the catalog: which table sections are open. */
  class Catalog {
    var expandedSections: set<string>

    constructor()
      ensures expandedSections == {"lease_master"}
    {
      expandedSections := {"lease_master"};
    }

    predicate IsOpen(tableName: string)
      reads this
    {
      tableName in expandedSections
    }

    /** `toggleSection`: opens a closed section or closes an open one, and touches no other. */
    method ToggleSection(tableName: string)
      modifies this
      ensures expandedSections == UiState.Toggle(old(expandedSections), tableName)
      ensures IsOpen(tableName) <==> !old(IsOpen(tableName))
    {
      expandedSections := UiState.Toggle(expandedSections, tableName);
    }
  }

  /** Toggling a section twice leaves the catalog as it was. */
  method ToggleTwice(catalog: Catalog, tableName: string)
    modifies catalog
    ensures catalog.expandedSections == old(catalog.expandedSections)
  {
    catalog.ToggleSection(tableName);
    catalog.ToggleSection(tableName);
    UiState.ToggleInvolution(old(catalog.expandedSections), tableName);
  }
}
