/**
 * The live log feed (src/components/RuntimeLogs.tsx over `mockLogs` of
 * src/data/mockData.ts): while live, every tick puts a copy of a randomly
 * chosen sample log, with a fresh id and timestamp, at the head of the list
 * and keeps at most ten entries.
 */
module RuntimeLogs {
  import opened Common
  import Decimal

  datatype LogStatus = LogPass | LogFail | LogWarning

  datatype RuntimeLog = RuntimeLog(
    id: string,
    timestamp: string,
    ruleId: string,
    ruleName: string,
    status: LogStatus,
    message: string,
    recordsChecked: nat,
    recordsFailed: nat,
    duration: nat)

  /** `mockLogs`: the list the feed starts with and the templates of new entries. */
  const MockLogs: seq<RuntimeLog> := [
    RuntimeLog("log-001", "2024-01-15T14:32:15Z", "rule-002", "null_check_required_fields", LogFail,
      "Found 1,247 records with null user_id in batch #45892", 50000, 1247, 234),
    RuntimeLog("log-002", "2024-01-15T14:31:45Z", "rule-001", "email_format_validation", LogPass,
      "All 25,000 email records validated successfully", 25000, 0, 156),
    RuntimeLog("log-003", "2024-01-15T14:31:20Z", "rule-006", "freshness_sla_check", LogFail,
      "SLA breach: 342 events arrived 18+ minutes late", 15000, 342, 89),
    RuntimeLog("log-004", "2024-01-15T14:30:55Z", "rule-004", "date_range_validation", LogWarning,
      "125 orders have dates older than 18 months", 5000, 125, 45),
    RuntimeLog("log-005", "2024-01-15T14:30:30Z", "rule-003", "unique_transaction_id", LogPass,
      "All 75,000 transaction IDs verified unique", 75000, 0, 312),
    RuntimeLog("log-006", "2024-01-15T14:30:00Z", "rule-005", "referential_integrity_check", LogPass,
      "All category references validated", 12000, 0, 178),
    RuntimeLog("log-007", "2024-01-15T14:29:30Z", "rule-008", "schema_compliance_check", LogPass,
      "Schema v2.3.1 compliance verified for 8,500 records", 8500, 0, 67),
    RuntimeLog("log-008", "2024-01-15T14:29:00Z", "rule-007", "numeric_range_validation", LogPass,
      "Price range validation passed for 32,000 products", 32000, 0, 203)
  ]

  /** The number of entries the feed keeps. */
  const Capacity: nat := 10

  function Min(a: nat, b: nat): nat {
    if a <= b then a else b
  }

  /**
   * A new entry: the sample log the draw picks, with the id `log-<now>` and
   * the given timestamp; `now` stands for `Date.now()` and the timestamp for
   * `new Date().toISOString()`.
   */
  function NewLog(draw: Draw, now: nat, timestamp: string): (r: RuntimeLog)
    ensures exists i :: 0 <= i < |MockLogs| && r == MockLogs[i].(id := r.id, timestamp := r.timestamp)
    ensures r.id == "log-" + Decimal.NatToString(now) && r.timestamp == timestamp
  {
    var template := MockLogs[PickIndex(draw, |MockLogs|)];
    template.(id := "log-" + Decimal.NatToString(now), timestamp := timestamp)
  }

  /** `[newLog, ...prev.slice(0, 9)]` */
  function Prepend(prev: seq<RuntimeLog>, entry: RuntimeLog): (r: seq<RuntimeLog>)
    ensures |r| == Min(|prev| + 1, Capacity)
    ensures r[0] == entry
    ensures r[1..] == prev[..Min(|prev|, Capacity - 1)]
  {
    [entry] + prev[..Min(|prev|, Capacity - 1)]
  }

  /** Two ticks put the second entry first and the first one second. */
  lemma {:induction false} PrependTwice(prev: seq<RuntimeLog>, a: RuntimeLog, b: RuntimeLog)
    ensures Prepend(Prepend(prev, a), b) == [b, a] + prev[..Min(|prev|, Capacity - 2)]
  {
    var once := Prepend(prev, a);
    assert once[..Min(|once|, Capacity - 1)] == [a] + prev[..Min(|prev|, Capacity - 2)];
  }

  /** The feed: the list on screen and whether it is live. */
  class LogFeed {
    var logs: seq<RuntimeLog>
    var isLive: bool

    /** The list never holds more than ten entries. */
    predicate Valid()
      reads this
    {
      |logs| <= Capacity
    }

    constructor()
      ensures logs == MockLogs && isLive
      ensures Valid()
    {
      logs, isLive := MockLogs, true;
    }

    /** One interval tick; no tick runs while the feed is paused. */
    method Tick(draw: Draw, now: nat, timestamp: string)
      requires Valid()
      modifies this
      ensures Valid()
      ensures isLive == old(isLive)
      ensures old(isLive) ==> logs == Prepend(old(logs), NewLog(draw, now, timestamp))
      ensures !old(isLive) ==> logs == old(logs)
    {
      if isLive {
        logs := Prepend(logs, NewLog(draw, now, timestamp));
      }
    }

    /** The Pause / Resume button. */
    method ToggleLive()
      modifies this
      ensures isLive == !old(isLive) && logs == old(logs)
    {
      isLive := !isLive;
    }
  }

  /** The list after a run of live ticks that add `entries`, oldest first. */
  function AfterTicks(prev: seq<RuntimeLog>, entries: seq<RuntimeLog>): (r: seq<RuntimeLog>)
    decreases |entries|
  {
    if |entries| == 0 then prev
    else Prepend(AfterTicks(prev, entries[..|entries| - 1]), entries[|entries| - 1])
  }

  /** However many ticks run, the list grows by one per tick up to ten entries and never beyond. */
  lemma {:induction false} AfterTicksLength(prev: seq<RuntimeLog>, entries: seq<RuntimeLog>)
    requires |prev| <= Capacity
    ensures |AfterTicks(prev, entries)| == Min(|prev| + |entries|, Capacity)
    ensures |entries| > 0 ==> AfterTicks(prev, entries)[0] == entries[|entries| - 1]
    decreases |entries|
  {
    if |entries| > 0 {
      AfterTicksLength(prev, entries[..|entries| - 1]);
    }
  }

  /** From the eight sample logs, the list is full after two ticks. */
  lemma FullAfterTwoTicks(entries: seq<RuntimeLog>)
    requires |entries| >= 2
    ensures |AfterTicks(MockLogs, entries)| == Capacity
  {
    AfterTicksLength(MockLogs, entries);
  }
}
