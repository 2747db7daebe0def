/** Derived statistics: sums, maxima and the truncated average of the
    summary block, and the per-operator ratios (throughput, share of total)
    the detailed script prints. Ratios are exact reals. */
module Statistics {
  import opened Wrappers
  import opened ProfileDocument
  import opened Extraction

  /** `sum(f(x) for x in s)`. */
  function SumOf<T>(s: seq<T>, f: T -> nat): nat {
    if |s| == 0 then 0 else f(s[0]) + SumOf(s[1..], f)
  }

  /** `max(f(x) for x in s)`: an upper bound of every value that some element attains. */
  function MaxOf<T>(s: seq<T>, f: T -> nat): (m: nat)
    requires |s| > 0
    ensures forall i :: 0 <= i < |s| ==> f(s[i]) <= m
    ensures exists i :: 0 <= i < |s| && f(s[i]) == m
  {
    if |s| == 1 then f(s[0])
    else
      var rest := MaxOf(s[1..], f);
      assert forall i :: 1 <= i < |s| ==> s[i] == s[1..][i - 1];
      if f(s[0]) >= rest then f(s[0]) else rest
  }

  /** Every value is at most the sum. */
  lemma {:induction false} ElementAtMostSum<T>(s: seq<T>, f: T -> nat, i: nat)
    requires i < |s|
    ensures f(s[i]) <= SumOf(s, f)
    decreases i
  {
    if i > 0 {
      ElementAtMostSum(s[1..], f, i - 1);
    }
  }

  /** A sum of `|s|` values each at most `m` is at most `|s| * m`. */
  lemma {:induction false} SumAtMostCountTimesBound<T>(s: seq<T>, f: T -> nat, m: nat)
    requires forall i :: 0 <= i < |s| ==> f(s[i]) <= m
    ensures SumOf(s, f) <= |s| * m
    decreases |s|
  {
    if |s| > 0 {
      assert forall i :: 0 <= i < |s[1..]| ==> s[1..][i] == s[i + 1];
      SumAtMostCountTimesBound(s[1..], f, m);
    }
  }

  lemma DivisionBounds(total: nat, count: nat, max: nat)
    requires count > 0 && total <= count * max
    ensures total / count <= max
    ensures count * (total / count) <= total
  {
    var q := total / count;
    assert count * q + total % count == total;
  }

  /** The maximum is at most the sum, and the truncated average lies between the two. */
  lemma {:induction false} AggregateBounds<T>(s: seq<T>, f: T -> nat)
    requires |s| > 0
    ensures MaxOf(s, f) <= SumOf(s, f)
    ensures SumOf(s, f) / |s| <= MaxOf(s, f)
    ensures |s| * (SumOf(s, f) / |s|) <= SumOf(s, f)
  {
    var max := MaxOf(s, f);
    var i :| 0 <= i < |s| && f(s[i]) == max;
    ElementAtMostSum(s, f, i);
    SumAtMostCountTimesBound(s, f, max);
    DivisionBounds(SumOf(s, f), |s|, max);
  }

  /** The operator block of the execution summary. */
  datatype OperatorSummary = OperatorSummary(total: nat, max: nat, avg: nat, count: nat)

  /** The phase block of the execution summary. */
  datatype PhaseSummary = PhaseSummary(total: nat, max: nat, count: nat)

  function OperatorTotal(op: OperatorTiming): nat {
    op.totalNanos
  }

  function PhaseDuration(ph: PhaseTiming): nat {
    ph.durationMillis
  }

  /** Operator statistics, present only for a non-empty list; the average is the sum
      divided by the count with the fraction dropped. */
  function SummarizeOperators(ops: seq<OperatorTiming>): (r: Option<OperatorSummary>)
    ensures r.None? <==> |ops| == 0
    ensures r.Some? ==>
              && r.value.count == |ops|
              && r.value.total == SumOf(ops, OperatorTotal)
              && (forall i :: 0 <= i < |ops| ==> ops[i].totalNanos <= r.value.max)
              && (exists i :: 0 <= i < |ops| && ops[i].totalNanos == r.value.max)
              && r.value.avg == r.value.total / r.value.count
              && r.value.max <= r.value.total
              && r.value.avg <= r.value.max
              && r.value.count * r.value.avg <= r.value.total
  {
    if |ops| == 0 then None
    else
      var total := SumOf(ops, OperatorTotal);
      AggregateBounds(ops, OperatorTotal);
      Some(OperatorSummary(total, MaxOf(ops, OperatorTotal), total / |ops|, |ops|))
  }

  /** Phase statistics, present only for a non-empty list. */
  function SummarizePhases(phases: seq<PhaseTiming>): (r: Option<PhaseSummary>)
    ensures r.None? <==> |phases| == 0
    ensures r.Some? ==>
              && r.value.count == |phases|
              && r.value.total == SumOf(phases, PhaseDuration)
              && (forall i :: 0 <= i < |phases| ==> phases[i].durationMillis <= r.value.max)
              && (exists i :: 0 <= i < |phases| && phases[i].durationMillis == r.value.max)
              && r.value.max <= r.value.total
  {
    if |phases| == 0 then None
    else
      AggregateBounds(phases, PhaseDuration);
      Some(PhaseSummary(SumOf(phases, PhaseDuration), MaxOf(phases, PhaseDuration), |phases|))
  }

  /** Wall-clock query time and planning time, absent timestamps reading as 0. These are
      plain differences: nothing keeps them non-negative. */
  datatype QueryTiming = QueryTiming(queryTime: int, planningTime: int)

  function QueryTimes(p: QueryProfile): (r: QueryTiming)
    ensures p.start.GetOr(0) + r.queryTime == p.end.GetOr(0)
    ensures p.planningStart.GetOr(0) + r.planningTime == p.planningEnd.GetOr(0)
  {
    QueryTiming(p.end.GetOr(0) - p.start.GetOr(0), p.planningEnd.GetOr(0) - p.planningStart.GetOr(0))
  }

  /** Records per second of processing time; 0 when no processing time was recorded. */
  function Throughput(inputRecords: nat, processNanos: nat): (r: real)
    ensures r >= 0.0
    ensures processNanos == 0 ==> r == 0.0
    ensures processNanos > 0 ==> r * (processNanos as real) == (inputRecords as real) * 1000000000.0
  {
    if processNanos > 0 then (inputRecords as real) / ((processNanos as real) / 1000000000.0) else 0.0
  }

  /** `part / total * 100`; the source divides without a guard, so `total` must be positive. */
  function PercentOf(part: nat, total: nat): (r: real)
    requires total > 0
    ensures r >= 0.0
    ensures r * (total as real) == (part as real) * 100.0
    ensures part <= total ==> r <= 100.0
  {
    (part as real) / (total as real) * 100.0
  }
}
