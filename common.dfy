/**
 * Vocabulary shared by the rule records of the dashboard: the optional value
 * that stands for TypeScript's `T | null` and `T | undefined`, the severity
 * of a rule and the status of a rule's result.
 */
module Common {

  /** `T | null` (or an absent optional field) in the TypeScript source. */
  datatype Option<T> = None | Some(value: T)

  /** The severity union 'ERROR' | 'WARN' | 'INFO' of every rule record. */
  datatype Severity = Error | Warn | Info

  /**
   * The status union of a rule result. Extracted rules only ever carry the
   * first three ('pass' | 'fail' | 'warning'); AI-generated and created rules
   * may also be 'pending'.
   */
  datatype Status = Pass | Fail | Warning | Pending

  /** The status of an extracted rule's result, which is never 'pending'. */
  type ResultStatus = s: Status | s != Pending witness Pass

  /**
   * The object returned by `getRuleSummary` and `getAIRuleSummary`; passRate
   * is the string `toFixed(1)` produces.
   */
  datatype RuleSummary = RuleSummary(total: nat, passed: nat, failed: nat, warnings: nat, passRate: string)

  /** A value of `Math.random()`: a real in [0, 1). Every random draw of the dashboard is a parameter of this type. */
  type Draw = r: real | 0.0 <= r < 1.0 witness 0.0

  /** `Math.floor(draw * n)`: a uniformly chosen index below n. */
  function PickIndex(draw: Draw, n: nat): (i: nat)
    requires n > 0
    ensures i < n
  {
    var x := draw * n as real;
    assert x < n as real by {
      assert n as real - x == (1.0 - draw) * n as real;
    }
    x.Floor
  }

}

/**
 * `xs.filter(x => x === v).length`, the way every count on the dashboard is
 * computed, and the facts the summaries rely on.
 */
module Counting {
  import opened Common

  /** The number of occurrences of v in xs[i..]. */
  function CountFrom<T(==)>(xs: seq<T>, v: T, i: nat): (n: nat)
    requires i <= |xs|
    ensures n <= |xs| - i
    decreases |xs| - i
  {
    if i == |xs| then 0 else (if xs[i] == v then 1 else 0) + CountFrom(xs, v, i + 1)
  }

  /** The number of occurrences of v in xs. */
  function Count<T(==)>(xs: seq<T>, v: T): (n: nat)
    ensures n <= |xs|
  {
    CountFrom(xs, v, 0)
  }

  /** Counting from the end of a prefix continues into what follows it. */
  lemma {:induction false} CountFromAppend<T>(a: seq<T>, b: seq<T>, v: T, i: nat)
    requires i <= |a|
    ensures CountFrom(a + b, v, i) == CountFrom(a, v, i) + Count(b, v)
    decreases |a| - i
  {
    if i == |a| {
      CountFromShift(a, b, v, 0);
    } else {
      CountFromAppend(a, b, v, i + 1);
    }
  }

  /** Positions past a prefix count as the same positions of the rest. */
  lemma {:induction false} CountFromShift<T>(a: seq<T>, b: seq<T>, v: T, j: nat)
    requires j <= |b|
    ensures CountFrom(a + b, v, |a| + j) == CountFrom(b, v, j)
    decreases |b| - j
  {
    if j < |b| {
      CountFromShift(a, b, v, j + 1);
    }
  }

  lemma CountAppend<T>(a: seq<T>, b: seq<T>, v: T)
    ensures Count(a + b, v) == Count(a, v) + Count(b, v)
  {
    CountFromAppend(a, b, v, 0);
  }

  lemma {:induction false} CountFromAbsent<T>(xs: seq<T>, v: T, i: nat)
    requires i <= |xs|
    requires forall k :: i <= k < |xs| ==> xs[k] != v
    ensures CountFrom(xs, v, i) == 0
    decreases |xs| - i
  {
    if i < |xs| {
      CountFromAbsent(xs, v, i + 1);
    }
  }

  lemma CountAbsent<T>(xs: seq<T>, v: T)
    requires forall i :: 0 <= i < |xs| ==> xs[i] != v
    ensures Count(xs, v) == 0
  {
    CountFromAbsent(xs, v, 0);
  }

  lemma {:induction false} CountFromPositive<T>(xs: seq<T>, v: T, i: nat)
    requires i <= |xs|
    ensures CountFrom(xs, v, i) > 0 <==> exists k :: i <= k < |xs| && xs[k] == v
    decreases |xs| - i
  {
    if i < |xs| {
      CountFromPositive(xs, v, i + 1);
      if xs[i] == v {
        assert i <= i < |xs| && xs[i] == v;
      }
    }
  }

  /** Count is positive exactly when v occurs. */
  lemma CountPositive<T>(xs: seq<T>, v: T)
    ensures Count(xs, v) > 0 <==> v in xs
  {
    CountFromPositive(xs, v, 0);
    if v in xs {
      var k :| 0 <= k < |xs| && xs[k] == v;
    }
  }

  lemma {:induction false} CountFromAll<T>(xs: seq<T>, v: T, i: nat)
    requires i <= |xs|
    ensures CountFrom(xs, v, i) == |xs| - i <==> forall k :: i <= k < |xs| ==> xs[k] == v
    decreases |xs| - i
  {
    if i < |xs| {
      CountFromAll(xs, v, i + 1);
    }
  }

  /** Count reaches the length exactly when every element is v. */
  lemma CountAll<T>(xs: seq<T>, v: T)
    ensures Count(xs, v) == |xs| <==> forall k :: 0 <= k < |xs| ==> xs[k] == v
  {
    CountFromAll(xs, v, 0);
  }

  lemma {:induction false} StatusPartitionFrom(xs: seq<Status>, i: nat)
    requires i <= |xs|
    ensures CountFrom(xs, Pass, i) + CountFrom(xs, Fail, i) + CountFrom(xs, Warning, i)
      + CountFrom(xs, Pending, i) == |xs| - i
    decreases |xs| - i
  {
    if i < |xs| {
      StatusPartitionFrom(xs, i + 1);
      assert xs[i] == Pass || xs[i] == Fail || xs[i] == Warning || xs[i] == Pending;
    }
  }

  lemma {:induction false} SeverityPartitionFrom(xs: seq<Severity>, i: nat)
    requires i <= |xs|
    ensures CountFrom(xs, Error, i) + CountFrom(xs, Warn, i) + CountFrom(xs, Info, i) == |xs| - i
    decreases |xs| - i
  {
    if i < |xs| {
      SeverityPartitionFrom(xs, i + 1);
      assert xs[i] == Error || xs[i] == Warn || xs[i] == Info;
    }
  }

  /** Every status is one of four, so the four counts add up to the length. */
  lemma StatusPartition(xs: seq<Status>)
    ensures Count(xs, Pass) + Count(xs, Fail) + Count(xs, Warning) + Count(xs, Pending) == |xs|
  {
    StatusPartitionFrom(xs, 0);
  }

  /** Every severity is one of three, so the three counts add up to the length. */
  lemma SeverityPartition(xs: seq<Severity>)
    ensures Count(xs, Error) + Count(xs, Warn) + Count(xs, Info) == |xs|
  {
    SeverityPartitionFrom(xs, 0);
  }
}
