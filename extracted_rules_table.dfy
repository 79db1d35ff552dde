/**
 * The table of extracted rules (src/components/ExtractedRulesTable.tsx): one
 * collapsible section per table with its status badges, and rows with a
 * result label, an affected-rows label and a code row that opens on click.
 */
module ExtractedRulesTable {
  import opened Common
  import opened Counting
  import Decimal
  import UiState
  import opened ExtractedRules

  /** The three counts a section header computes. */
  datatype SectionCounts = SectionCounts(pass: nat, fail: nat, warn: nat)

  /** The counts of a section: since a result is never pending they split the section's rules. */
  function CountSection(rules: seq<ExtractedRule>): (c: SectionCounts)
    ensures c.pass == Count(Statuses(rules), Pass)
    ensures c.fail == Count(Statuses(rules), Fail)
    ensures c.warn == Count(Statuses(rules), Warning)
    ensures c.pass + c.fail + c.warn == |rules|
  {
    var statuses := Statuses(rules);
    StatusPartition(statuses);
    CountAbsent(statuses, Pending);
    SectionCounts(Count(statuses, Pass), Count(statuses, Fail), Count(statuses, Warning))
  }

  /** A badge of a section header with its count. */
  datatype Badge = PassBadge(n: nat) | WarnBadge(n: nat) | FailBadge(n: nat)

  /** The badges of a header, in the order pass, warn, fail; a badge is rendered only for a positive count. */
  function Badges(c: SectionCounts): (bs: seq<Badge>)
    ensures PassBadge(c.pass) in bs <==> c.pass > 0
    ensures WarnBadge(c.warn) in bs <==> c.warn > 0
    ensures FailBadge(c.fail) in bs <==> c.fail > 0
    ensures forall i :: 0 <= i < |bs| ==> bs[i].n > 0 && bs[i] in [PassBadge(c.pass), WarnBadge(c.warn), FailBadge(c.fail)]
  {
    (if c.pass > 0 then [PassBadge(c.pass)] else []) +
    (if c.warn > 0 then [WarnBadge(c.warn)] else []) +
    (if c.fail > 0 then [FailBadge(c.fail)] else [])
  }

  function BadgeTotal(bs: seq<Badge>): nat {
    if |bs| == 0 then 0 else bs[0].n + BadgeTotal(bs[1..])
  }

  /** The rendered badges add up to the three counts, a hidden badge standing for zero. */
  lemma BadgesTotal(c: SectionCounts)
    ensures BadgeTotal(Badges(c)) == c.pass + c.warn + c.fail
  {
    var p := if c.pass > 0 then [PassBadge(c.pass)] else [];
    var w := if c.warn > 0 then [WarnBadge(c.warn)] else [];
    var f := if c.fail > 0 then [FailBadge(c.fail)] else [];
    assert Badges(c) == p + w + f;
    BadgeTotalAppend(p, w);
    BadgeTotalAppend(p + w, f);
  }

  /** So the rendered badges of a section add up to its number of rules. */
  lemma BadgesCoverSection(rules: seq<ExtractedRule>)
    ensures BadgeTotal(Badges(CountSection(rules))) == |rules|
  {
    BadgesTotal(CountSection(rules));
  }

  lemma {:induction false} BadgeTotalAppend(a: seq<Badge>, b: seq<Badge>)
    ensures BadgeTotal(a + b) == BadgeTotal(a) + BadgeTotal(b)
    decreases |a|
  {
    if |a| > 0 {
      assert (a + b)[1..] == a[1..] + b;
      BadgeTotalAppend(a[1..], b);
    } else {
      assert a + b == b;
    }
  }

  /** The property section shows 6 pass, 2 warn and 2 fail. */
  lemma PropertySectionBadges()
    ensures Badges(CountSection(PropertyRules)) == [PassBadge(6), WarnBadge(2), FailBadge(2)]
  {
    PropertyStatuses();
    PropertyStatusCounts(Pass); PropertyStatusCounts(Fail); PropertyStatusCounts(Warning);
  }

  /** The tenant section shows 5 pass, 1 warn and 1 fail. */
  lemma TenantSectionBadges()
    ensures Badges(CountSection(TenantRules)) == [PassBadge(5), WarnBadge(1), FailBadge(1)]
  {
    TenantStatuses();
    TenantStatusCounts(Pass); TenantStatusCounts(Fail); TenantStatusCounts(Warning);
  }

  /** `resultConfig[status].label`: every status of an extracted rule has its own label. */
  function ResultLabel(status: ResultStatus): (s: string)
    ensures s in ["Pass", "Fail", "Warning"]
  {
    match status
    case Pass => "Pass"
    case Fail => "Fail"
    case Warning => "Warning"
  }

  const NoRows: string := "No rows affected"
  const RowsSuffix: string := " rows affected"

  /** The affected-rows line of a row. */
  function RowsLabel(rowsAffected: int): (s: string)
    ensures s == NoRows <==> rowsAffected <= 0
    ensures rowsAffected > 0 ==> s == Decimal.NatToString(rowsAffected) + RowsSuffix
  {
    if rowsAffected > 0 then
      var digits := Decimal.NatToString(rowsAffected);
      assert (digits + RowsSuffix)[0] == digits[0];
      digits + RowsSuffix
    else NoRows
  }

  /** The count in the label reads back as the number of rows. */
  lemma RowsLabelRoundTrip(rowsAffected: int)
    requires rowsAffected > 0
    ensures var text := RowsLabel(rowsAffected);
      |text| > |RowsSuffix| && Decimal.ParseNat(text[..|text| - |RowsSuffix|]) == rowsAffected
  {
    var text := RowsLabel(rowsAffected);
    assert text[..|text| - |RowsSuffix|] == Decimal.NatToString(rowsAffected);
    Decimal.ParseNatToString(rowsAffected);
  }

  /** The rows of a section: which rule has its code row open. */
  class RuleTable {
    var expandedCode: Option<string>

    constructor()
      ensures expandedCode == None
    {
      expandedCode := None;
    }

    /** The View / Hide button of a rule. */
    method ClickCode(id: string)
      modifies this
      ensures expandedCode == UiState.SelectToggle(old(expandedCode), id)
      ensures old(expandedCode) == Some(id) ==> expandedCode == None
      ensures old(expandedCode) != Some(id) ==> expandedCode == Some(id)
      ensures ButtonLabel(id) == (if old(ButtonLabel(id)) == "Hide" then "View" else "Hide")
      ensures forall other :: other != id ==> ButtonLabel(other) == "View"
    {
      expandedCode := UiState.SelectToggle(expandedCode, id);
    }

    function ButtonLabel(id: string): string
      reads this
    {
      if expandedCode == Some(id) then "Hide" else "View"
    }
  }

  /** A collapsible section; both sections of the page start open. */
  class Section {
    var isOpen: bool

    constructor(defaultOpen: bool)
      ensures isOpen == defaultOpen
    {
      isOpen := defaultOpen;
    }

    method Toggle()
      modifies this
      ensures isOpen == !old(isOpen)
    {
      isOpen := !isOpen;
    }
  }
}
