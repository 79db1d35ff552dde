/**
 * The searchable list of data-quality rules found in the scanned code
 * (src/components/RulesCatalog.tsx over `mockRules` of src/data/mockData.ts):
 * the search and severity filter, the severity buttons and the expandable rows.
 */
module RulesCatalog {
  import opened Common
  import Text
  import UiState

  datatype CatalogSeverity = Critical | High | Medium | Low
  datatype RuleState = Passing | Failing | Warning
  datatype Category = Completeness | Validity | Uniqueness | Consistency | Timeliness

  /** A rule found in the code. The code snippet it carries is display text and is not part of this model. */
  datatype DataQualityRule = DataQualityRule(
    id: string,
    name: string,
    description: string,
    severity: CatalogSeverity,
    source: string,
    pipeline: string,
    status: RuleState,
    lastRun: string,
    passRate: real,
    category: Category)

  /** `mockRules` */
  const MockRules: seq<DataQualityRule> := [
    DataQualityRule("rule-001", "email_format_validation", "Validates that email fields match RFC 5322 format",
      Critical, "customer_ingestion.py:45", "Customer Data Pipeline", Passing, "2 mins ago", 99.8, Validity),
    DataQualityRule("rule-002", "null_check_required_fields", "Ensures required fields (user_id, created_at) are never null",
      Critical, "user_transform.py:78", "User Events Pipeline", Failing, "5 mins ago", 94.2, Completeness),
    DataQualityRule("rule-003", "unique_transaction_id", "Validates transaction IDs are unique within each batch",
      High, "transactions_loader.py:122", "Financial Transactions", Passing, "1 min ago", 100.0, Uniqueness),
    DataQualityRule("rule-004", "date_range_validation", "Ensures dates are within acceptable range (not future, not too old)",
      Medium, "orders_validator.py:56", "Orders Pipeline", RuleState.Warning, "8 mins ago", 97.5, Validity),
    DataQualityRule("rule-005", "referential_integrity_check", "Validates foreign key references exist in parent tables",
      High, "product_sync.py:89", "Product Catalog", Passing, "3 mins ago", 99.1, Consistency),
    DataQualityRule("rule-006", "freshness_sla_check", "Ensures data arrives within 15-minute SLA window",
      High, "streaming_validator.py:34", "Real-time Events", Failing, "12 mins ago", 88.3, Timeliness),
    DataQualityRule("rule-007", "numeric_range_validation", "Validates price values are positive and within expected range",
      Medium, "pricing_etl.py:67", "Pricing Updates", Passing, "6 mins ago", 99.9, Validity),
    DataQualityRule("rule-008", "schema_compliance_check", "Validates incoming data matches expected schema version",
      Critical, "schema_validator.py:23", "API Ingestion", Passing, "1 min ago", 100.0, Consistency)
  ]

  /** The search part of the filter: the lower-cased name or description contains the lower-cased query. */
  predicate MatchesSearch(rule: DataQualityRule, query: string) {
    Text.Contains(Text.Lower(rule.name), Text.Lower(query)) ||
    Text.Contains(Text.Lower(rule.description), Text.Lower(query))
  }

  /** The severity part of the filter: no filter, or the rule's own severity. */
  predicate MatchesSeverity(rule: DataQualityRule, filter: Option<CatalogSeverity>) {
    filter.None? || rule.severity == filter.value
  }

  predicate Keeps(rule: DataQualityRule, query: string, filter: Option<CatalogSeverity>) {
    MatchesSearch(rule, query) && MatchesSeverity(rule, filter)
  }

  /** `filteredRules`: the rules the search and the severity filter keep, in list order. */
  function Filtered(rules: seq<DataQualityRule>, query: string, filter: Option<CatalogSeverity>): (r: seq<DataQualityRule>)
    ensures |r| <= |rules|
    ensures forall i :: 0 <= i < |r| ==> Keeps(r[i], query, filter)
    decreases |rules|
  {
    if |rules| == 0 then []
    else
      var last := rules[|rules| - 1];
      Filtered(rules[..|rules| - 1], query, filter) + (if Keeps(last, query, filter) then [last] else [])
  }

  /** xs is ys with some elements deleted, the rest in their order. */
  predicate Subsequence<T(==)>(xs: seq<T>, ys: seq<T>)
    decreases |ys|
  {
    if |xs| == 0 then true
    else if |ys| == 0 then false
    else if xs[|xs| - 1] == ys[|ys| - 1] then Subsequence(xs[..|xs| - 1], ys[..|ys| - 1])
    else Subsequence(xs, ys[..|ys| - 1])
  }

  /** The filtered list is the full list with some rules deleted, the rest in order. */
  lemma {:induction false} FilteredSubsequence(rules: seq<DataQualityRule>, query: string, filter: Option<CatalogSeverity>)
    ensures Subsequence(Filtered(rules, query, filter), rules)
    decreases |rules|
  {
    if |rules| > 0 {
      var init := rules[..|rules| - 1];
      var r := Filtered(rules, query, filter);
      FilteredSubsequence(init, query, filter);
      if Keeps(rules[|rules| - 1], query, filter) {
        assert r[..|r| - 1] == Filtered(init, query, filter);
      } else {
        assert r == Filtered(init, query, filter);
        assert |r| == 0 || r[|r| - 1] != rules[|rules| - 1];
      }
    }
  }

  /** A rule is listed exactly when it is in the catalog and the filter keeps it. */
  lemma {:induction false} FilteredMembership(rules: seq<DataQualityRule>, query: string, filter: Option<CatalogSeverity>)
    ensures forall rule :: rule in Filtered(rules, query, filter) <==> rule in rules && Keeps(rule, query, filter)
    decreases |rules|
  {
    if |rules| > 0 {
      var init := rules[..|rules| - 1];
      FilteredMembership(init, query, filter);
      assert rules == init + [rules[|rules| - 1]];
    }
  }

  /** When the filter keeps every rule the list is shown whole. */
  lemma {:induction false} FilteredKeepsAll(rules: seq<DataQualityRule>, query: string, filter: Option<CatalogSeverity>)
    requires forall i :: 0 <= i < |rules| ==> Keeps(rules[i], query, filter)
    ensures Filtered(rules, query, filter) == rules
    decreases |rules|
  {
    if |rules| > 0 {
      FilteredKeepsAll(rules[..|rules| - 1], query, filter);
    }
  }

  /** An empty search with no severity filter shows every rule. */
  lemma EmptySearchKeepsAll(rules: seq<DataQualityRule>)
    ensures Filtered(rules, "", None) == rules
  {
    forall i | 0 <= i < |rules| ensures Keeps(rules[i], "", None) {
      Text.ContainsEmpty(Text.Lower(rules[i].name));
    }
    FilteredKeepsAll(rules, "", None);
  }

  /** Queries with the same lower-cased form give the same list. */
  lemma {:induction false} FilteredCaseInsensitive(rules: seq<DataQualityRule>, q1: string, q2: string, filter: Option<CatalogSeverity>)
    requires Text.Lower(q1) == Text.Lower(q2)
    ensures Filtered(rules, q1, filter) == Filtered(rules, q2, filter)
    decreases |rules|
  {
    if |rules| > 0 {
      FilteredCaseInsensitive(rules[..|rules| - 1], q1, q2, filter);
    }
  }

  /** In particular, upper-casing the query changes nothing. */
  lemma UpperQuery(rules: seq<DataQualityRule>, query: string, filter: Option<CatalogSeverity>)
    ensures Filtered(rules, Text.Upper(query), filter) == Filtered(rules, query, filter)
  {
    Text.LowerOfUpper(query);
    FilteredCaseInsensitive(rules, Text.Upper(query), query, filter);
  }

  function Ids(rules: seq<DataQualityRule>): (r: seq<string>)
    ensures |r| == |rules|
    ensures forall i :: 0 <= i < |rules| ==> r[i] == rules[i].id
  {
    seq(|rules|, i requires 0 <= i < |rules| => rules[i].id)
  }

  /** The severity of every catalog rule (`DataQualityRule`), in order. */
  function Severities(rules: seq<DataQualityRule>): (r: seq<CatalogSeverity>)
    ensures |r| == |rules|
    ensures forall i :: 0 <= i < |rules| ==> r[i] == rules[i].severity
  {
    seq(|rules|, i requires 0 <= i < |rules| => rules[i].severity)
  }

  /** Eight rules, with their severities in list order. */
  lemma MockRulesLayout()
    ensures |MockRules| == 8
    ensures Severities(MockRules) == [Critical, Critical, High, Medium, High, High, Medium, Critical]
    ensures MockRules[0].id == "rule-001" && MockRules[1].id == "rule-002" && MockRules[7].id == "rule-008"
  {
  }

  /** The Critical filter with an empty search on any list laid out like `mockRules`. */
  lemma CriticalOfLayout(rules: seq<DataQualityRule>)
    requires Severities(rules) == [Critical, Critical, High, Medium, High, High, Medium, Critical]
    ensures Filtered(rules[..8], "", Some(Critical)) == [rules[0], rules[1], rules[7]]
  {
    forall i | 0 <= i < |rules| ensures MatchesSearch(rules[i], "") {
      Text.ContainsEmpty(Text.Lower(rules[i].name));
    }
    assert rules[..0] == [];
    assert rules[..1][..0] == rules[..0];
    assert Filtered(rules[..1], "", Some(Critical)) == [rules[0]];
    assert rules[..2][..1] == rules[..1];
    assert Filtered(rules[..2], "", Some(Critical)) == [rules[0], rules[1]];
    assert rules[..3][..2] == rules[..2];
    assert Filtered(rules[..3], "", Some(Critical)) == [rules[0], rules[1]];
    assert rules[..4][..3] == rules[..3];
    assert Filtered(rules[..4], "", Some(Critical)) == [rules[0], rules[1]];
    assert rules[..5][..4] == rules[..4];
    assert Filtered(rules[..5], "", Some(Critical)) == [rules[0], rules[1]];
    assert rules[..6][..5] == rules[..5];
    assert Filtered(rules[..6], "", Some(Critical)) == [rules[0], rules[1]];
    assert rules[..7][..6] == rules[..6];
    assert Filtered(rules[..7], "", Some(Critical)) == [rules[0], rules[1]];
    assert rules[..8][..7] == rules[..7];
    assert Filtered(rules[..8], "", Some(Critical)) == [rules[0], rules[1], rules[7]];
  }

  /** With no search, the Critical button leaves rules 001, 002 and 008. */
  lemma CriticalRules()
    ensures Ids(Filtered(MockRules, "", Some(Critical))) == ["rule-001", "rule-002", "rule-008"]
  {
    MockRulesLayout();
    CriticalOfLayout(MockRules);
    assert MockRules[..8] == MockRules;
  }

  /** The state of the catalog: the search text, the severity filter and the expanded rule. */
  class Catalog {
    var searchQuery: string
    var filterSeverity: Option<CatalogSeverity>
    var expandedRule: Option<string>

    constructor()
      ensures searchQuery == "" && filterSeverity == None && expandedRule == None
      ensures Visible() == MockRules
    {
      searchQuery, filterSeverity, expandedRule := "", None, None;
      EmptySearchKeepsAll(MockRules);
    }

    /** The rules on screen. */
    function Visible(): seq<DataQualityRule>
      reads this
    {
      Filtered(MockRules, searchQuery, filterSeverity)
    }

    /** Typing in the search box. */
    method SetSearchQuery(query: string)
      modifies this
      ensures searchQuery == query
      ensures filterSeverity == old(filterSeverity) && expandedRule == old(expandedRule)
    {
      searchQuery := query;
    }

    /** A severity button: the selected one clears the filter, another one selects itself. */
    method ClickSeverity(severity: CatalogSeverity)
      modifies this
      ensures filterSeverity == UiState.SelectToggle(old(filterSeverity), severity)
      ensures old(filterSeverity) == Some(severity) ==> filterSeverity == None
      ensures old(filterSeverity) != Some(severity) ==> filterSeverity == Some(severity)
      ensures searchQuery == old(searchQuery) && expandedRule == old(expandedRule)
    {
      filterSeverity := UiState.SelectToggle(filterSeverity, severity);
    }

    /** A rule's row: the expanded one collapses, another one expands in its place. */
    method ClickRule(id: string)
      modifies this
      ensures expandedRule == UiState.SelectToggle(old(expandedRule), id)
      ensures old(expandedRule) == Some(id) ==> expandedRule == None
      ensures old(expandedRule) != Some(id) ==> expandedRule == Some(id)
      ensures IsExpanded(id) <==> !old(IsExpanded(id))
      ensures forall other :: other != id ==> !IsExpanded(other)
      ensures searchQuery == old(searchQuery) && filterSeverity == old(filterSeverity)
    {
      expandedRule := UiState.SelectToggle(expandedRule, id);
    }

    predicate IsExpanded(id: string)
      reads this
    {
      expandedRule == Some(id)
    }
  }
}
