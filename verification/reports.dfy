/** The two scripts' report pipelines with the printing removed: the summary
    script (`analyze_profile_file`: summary block, top operators, top phases,
    longest operator and phase) and the detailed script (`main`: per-operator
    breakdown, then the bottleneck lists). */
module Reports {
  import opened Wrappers
  import opened ProfileDocument
  import opened Traversal
  import opened Extraction
  import opened Ranking
  import opened Statistics
  import opened Bottlenecks

  function OperatorRankKey(op: OperatorTiming): real {
    op.totalNanos as real
  }

  function PhaseRankKey(ph: PhaseTiming): real {
    ph.durationMillis as real
  }

  function DetailedRankKey(op: DetailedOperatorMetrics): real {
    op.totalNanos as real
  }

  /** What the summary script reports. */
  datatype ProfileReport = ProfileReport(
    timing: QueryTiming,
    operators: Option<OperatorSummary>,
    phases: Option<PhaseSummary>,
    topOperators: seq<OperatorTiming>,
    topPhases: seq<PhaseTiming>,
    longestOperator: Option<OperatorTiming>,
    longestPhase: Option<PhaseTiming>)

  /** The operator half of the summary report: summary, top list and longest operator agree
      with each other and with the extracted operators. */
  lemma OperatorSectionAgrees(ops: seq<OperatorTiming>, topN: int)
    ensures var summary, top, longest := SummarizeOperators(ops), TopN(ops, OperatorRankKey, topN), MaxBy(ops, OperatorRankKey);
      && (summary.Some? <==> |ops| > 0)
      && (summary.Some? <==> longest.Some?)
      && (longest.Some? ==> longest.value in ops && longest.value.totalNanos == summary.value.max)
      && (|top| <= |ops| && forall i :: 0 <= i < |top| ==> top[i] == Rank(ops, OperatorRankKey)[i])
      && (|top| > 0 ==> longest == Some(top[0]))
      && (topN > 0 && |ops| > 0 ==> |top| > 0)
  {

  }

  /** The phase half of the summary report, likewise. */
  lemma PhaseSectionAgrees(phases: seq<PhaseTiming>, topN: int)
    ensures var summary, top, longest := SummarizePhases(phases), TopN(phases, PhaseRankKey, topN), MaxBy(phases, PhaseRankKey);
      && (summary.Some? <==> |phases| > 0)
      && (summary.Some? <==> longest.Some?)
      && (longest.Some? ==> longest.value in phases && longest.value.durationMillis == summary.value.max)
      && (|top| <= |phases| && forall i :: 0 <= i < |top| ==> top[i] == Rank(phases, PhaseRankKey)[i])
      && (|top| > 0 ==> longest == Some(top[0]))
      && (topN > 0 && |phases| > 0 ==> |top| > 0)
  {

  }

  /** The summary script's report over extracted operators and phases. Its parts agree:
      the longest operator exists exactly when there are operators, is one of them, has the
      summary's maximum time, and heads the top list, which is the leading part of the
      ranking; likewise for phases. */
  function BuildProfileReport(p: QueryProfile, ops: seq<OperatorTiming>, phases: seq<PhaseTiming>, topN: int): (r: ProfileReport)
    ensures r.operators.Some? <==> |ops| > 0
    ensures r.phases.Some? <==> |phases| > 0
    ensures r.operators.Some? <==> r.longestOperator.Some?
    ensures r.phases.Some? <==> r.longestPhase.Some?
    ensures r.longestOperator.Some? ==> r.longestOperator.value in ops
    ensures r.longestPhase.Some? ==> r.longestPhase.value in phases
    ensures r.longestOperator.Some? ==> r.longestOperator.value.totalNanos == r.operators.value.max
    ensures r.longestPhase.Some? ==> r.longestPhase.value.durationMillis == r.phases.value.max
    ensures |r.topOperators| <= |ops| && forall i :: 0 <= i < |r.topOperators| ==> r.topOperators[i] == Rank(ops, OperatorRankKey)[i]
    ensures |r.topPhases| <= |phases| && forall i :: 0 <= i < |r.topPhases| ==> r.topPhases[i] == Rank(phases, PhaseRankKey)[i]
    ensures |r.topOperators| > 0 ==> r.longestOperator == Some(r.topOperators[0])
    ensures |r.topPhases| > 0 ==> r.longestPhase == Some(r.topPhases[0])
    ensures topN > 0 && |ops| > 0 ==> |r.topOperators| > 0
    ensures topN > 0 && |phases| > 0 ==> |r.topPhases| > 0
  {
    OperatorSectionAgrees(ops, topN);
    PhaseSectionAgrees(phases, topN);
    ProfileReport(
      QueryTimes(p),
      SummarizeOperators(ops),
      SummarizePhases(phases),
      TopN(ops, OperatorRankKey, topN),
      TopN(phases, PhaseRankKey, topN),
      MaxBy(ops, OperatorRankKey),
      MaxBy(phases, PhaseRankKey))
  }

  /** `analyze_profile_file` on an already decoded document: the extracted operators and
      phases, and the report built from them. */
  method AnalyzeProfileFile(p: QueryProfile, topN: int)
    returns (ops: seq<OperatorTiming>, phases: seq<PhaseTiming>, report: ProfileReport)
    ensures |ops| == |OperatorEntries(p)|
    ensures forall i :: 0 <= i < |ops| ==> ops[i] == Timing(DetailedRecord(OperatorEntries(p)[i]))
    ensures |phases| == |PhasesOf(p)|
    ensures forall i :: 0 <= i < |phases| ==>
              && phases[i].phaseName == PhasesOf(p)[i].phaseName.GetOr("Unknown")
              && phases[i].durationMillis == PhasesOf(p)[i].durationMillis.GetOr(0)
    ensures report == BuildProfileReport(p, ops, phases, topN)
    ensures report.longestOperator.Some? <==> |OperatorEntries(p)| > 0
    ensures report.longestPhase.Some? <==> |PhasesOf(p)| > 0
    ensures report.operators.Some? <==> |OperatorEntries(p)| > 0
    ensures report.operators.Some? ==> report.operators.value.count == |OperatorEntries(p)|
    ensures report.phases.Some? <==> |PhasesOf(p)| > 0
    ensures report.phases.Some? ==> report.phases.value.count == |PhasesOf(p)|
    ensures report.timing == QueryTimes(p)
    ensures |report.topOperators| > 0 ==> report.longestOperator == Some(report.topOperators[0])
    ensures |report.topPhases| > 0 ==> report.longestPhase == Some(report.topPhases[0])
  {
    ops := AnalyzeOperators(p);
    phases := AnalyzePhases(p);
    report := BuildProfileReport(p, ops, phases, topN);
  }

  /** One row of the detailed breakdown: the operator at 1-based `rank` and the share of
      its total spent in each part. */
  datatype BreakdownRow = BreakdownRow(rank: nat, op: DetailedOperatorMetrics,
                                       setupPercent: real, processPercent: real, waitPercent: real)

  /** The breakdown divides by the total time without a guard: a shown operator with no
      recorded time raises a division error that ends the whole run. */
  datatype AnalysisError = DivisionByZero(rank: nat)

  /** `row` is the printed breakdown of `op` at 1-based position `rank`: the operator has
      recorded time, each share is its part as a percentage of the total (`PercentOf`), and the three shares
      make up the whole. */
  predicate IsBreakdownRow(row: BreakdownRow, rank: nat, op: DetailedOperatorMetrics) {
    && row.rank == rank
    && row.op == op
    && op.totalNanos > 0
    && row.setupPercent == PercentOf(op.setupNanos, op.totalNanos)
    && row.processPercent == PercentOf(op.processNanos, op.totalNanos)
    && row.waitPercent == PercentOf(op.waitNanos, op.totalNanos)
    && row.setupPercent + row.processPercent + row.waitPercent == 100.0
  }

  lemma SharesSumToHundred(s: nat, p: nat, w: nat, t: nat)
    requires t > 0 && t == s + p + w
    ensures PercentOf(s, t) + PercentOf(p, t) + PercentOf(w, t) == 100.0
  {
    var a, b, c := PercentOf(s, t), PercentOf(p, t), PercentOf(w, t);
    var tr := t as real;
    calc {
      (a + b + c) * tr;
      a * tr + b * tr + c * tr;
      (s as real) * 100.0 + (p as real) * 100.0 + (w as real) * 100.0;
      tr * 100.0;
    }
    assert (a + b + c - 100.0) * tr == 0.0;
  }

  function BreakdownRows(shown: seq<DetailedOperatorMetrics>, rank: nat): (r: Result<seq<BreakdownRow>, AnalysisError>)
    requires forall i :: 0 <= i < |shown| ==> TotalIsSum(shown[i])
    ensures r.Success? <==> forall i :: 0 <= i < |shown| ==> shown[i].totalNanos > 0
    ensures r.Failure? ==>
              && rank <= r.error.rank < rank + |shown|
              && shown[r.error.rank - rank].totalNanos == 0
              && forall i :: 0 <= i < r.error.rank - rank ==> shown[i].totalNanos > 0
    ensures r.Success? ==>
              && |r.value| == |shown|
              && forall i :: 0 <= i < |shown| ==>
                   IsBreakdownRow(r.value[i], rank + i, shown[i])
    decreases |shown|
  {
    if |shown| == 0 then Success([])
    else
      var op := shown[0];
      assert TotalIsSum(op);
      if op.totalNanos == 0 then Failure(DivisionByZero(rank))
      else
        SharesSumToHundred(op.setupNanos, op.processNanos, op.waitNanos, op.totalNanos);
        var row := BreakdownRow(rank, op, PercentOf(op.setupNanos, op.totalNanos),
                                PercentOf(op.processNanos, op.totalNanos), PercentOf(op.waitNanos, op.totalNanos));
        match BreakdownRows(shown[1..], rank + 1)
        case Failure(e) => Failure(e)
        case Success(rows) => Success([row] + rows)
  }

  /** The shown operators are drawn from the profile, so their totals are sums too. */
  lemma ShownTotalsAreSums(ops: seq<DetailedOperatorMetrics>, topN: int)
    requires AllTotalsAreSums(ops)
    ensures forall i :: 0 <= i < |TopN(ops, DetailedRankKey, topN)| ==> TotalIsSum(TopN(ops, DetailedRankKey, topN)[i])
  {
    var shown := TopN(ops, DetailedRankKey, topN);
    assert forall i :: 0 <= i < |shown| ==> shown[i] in multiset(ops);
  }

  /** `print_detailed_operator_breakdown`: the first `topN` operators by total time (Python
      slice semantics), ranked from 1, or the division error of the first shown operator
      whose total is zero. */
  function Breakdown(ops: seq<DetailedOperatorMetrics>, topN: int): (r: Result<seq<BreakdownRow>, AnalysisError>)
    requires AllTotalsAreSums(ops)
    ensures r.Success? <==>
              forall i :: 0 <= i < |TopN(ops, DetailedRankKey, topN)| ==> TopN(ops, DetailedRankKey, topN)[i].totalNanos > 0
    ensures r.Success? ==> |r.value| == |TopN(ops, DetailedRankKey, topN)|
    ensures r.Success? ==> forall i :: 0 <= i < |r.value| ==>
              IsBreakdownRow(r.value[i], i + 1, Rank(ops, DetailedRankKey)[i])
    ensures r.Failure? ==>
              && 1 <= r.error.rank <= |TopN(ops, DetailedRankKey, topN)|
              && TopN(ops, DetailedRankKey, topN)[r.error.rank - 1].totalNanos == 0
              && forall i :: 0 <= i < r.error.rank - 1 ==> TopN(ops, DetailedRankKey, topN)[i].totalNanos > 0
  {
    ShownTotalsAreSums(ops, topN);
    BreakdownRows(TopN(ops, DetailedRankKey, topN), 1)
  }

  /** What the detailed script reports when it runs to the end. */
  datatype DetailedReport = DetailedReport(breakdown: seq<BreakdownRow>, findings: Findings)

  /** The detailed script's `main` on an already decoded document: extraction, the
      breakdown, then the bottleneck lists; a division error in the breakdown ends the run
      before any bottleneck is reported. */
  method DetailedAnalysis(p: QueryProfile, topN: int) returns (ops: seq<DetailedOperatorMetrics>, r: Result<DetailedReport, AnalysisError>)
    ensures |ops| == |OperatorEntries(p)|
    ensures forall i :: 0 <= i < |ops| ==> ops[i] == DetailedRecord(OperatorEntries(p)[i])
    ensures AllTotalsAreSums(ops)
    ensures r.Success? <==> Breakdown(ops, topN).Success?
    ensures r.Success? ==> r.value.findings == Classify(ops) && r.value.breakdown == Breakdown(ops, topN).value
    ensures r.Failure? ==> r == Failure(Breakdown(ops, topN).error)
  {
    ops := ExtractDetailedMetrics(p);
    match Breakdown(ops, topN)
    case Failure(e) =>
      r := Failure(e);
    case Success(rows) =>
      r := Success(DetailedReport(rows, Classify(ops)));
  }
}
