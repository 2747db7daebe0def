/** The bottleneck classifier of the detailed script (`analyze_bottlenecks`):
    four independent threshold rules, each selecting operators from the
    extracted sequence and ranking them by the value that triggered the rule. */
module Bottlenecks {
  import opened Extraction
  import opened Ranking
  import Statistics

  const HighWaitNanos: nat := 1000000
  const HighMemoryBytes: nat := 1000000
  const HighVolumeRecords: nat := 1000000
  const SelectivityMinInput: nat := 1000
  const LowSelectivityRatio: real := 0.01

  /** Waiting longer than processing, and more than a millisecond. */
  predicate IsHighWait(op: DetailedOperatorMetrics) {
    op.waitNanos > op.processNanos && op.waitNanos > HighWaitNanos
  }

  /** Peak memory above 1 MB. */
  predicate IsHighMemory(op: DetailedOperatorMetrics) {
    op.peakMemory > HighMemoryBytes
  }

  /** More than a million input records. */
  predicate IsHighVolume(op: DetailedOperatorMetrics) {
    op.inputRecords > HighVolumeRecords
  }

  /** Output records per input record. */
  function Selectivity(op: DetailedOperatorMetrics): real
    requires op.inputRecords > 0
  {
    (op.outputRecords as real) / (op.inputRecords as real)
  }

  /** Over a thousand inputs, some output, and under 1% of the input kept. The ratio is
      only formed once the input count is known to be positive. */
  predicate IsLowSelectivity(op: DetailedOperatorMetrics) {
    op.inputRecords > SelectivityMinInput && op.outputRecords > 0 && Selectivity(op) < LowSelectivityRatio
  }

  lemma RatioBelowPercent(o: real, n: real)
    requires n > 0.0
    ensures o / n < 0.01 <==> 100.0 * o < n
  {
    var q := o / n;
    assert q * n == o;
    if q < 0.01 {
      assert q * n < 0.01 * n;
    } else {
      assert q * n >= 0.01 * n;
    }
  }

  /** The selectivity rule stated over integers, without any division. */
  lemma LowSelectivityExact(op: DetailedOperatorMetrics)
    ensures IsLowSelectivity(op) <==>
              op.inputRecords > 1000 && op.outputRecords > 0 && 100 * op.outputRecords < op.inputRecords
  {
    if op.inputRecords > 1000 {
      RatioBelowPercent(op.outputRecords as real, op.inputRecords as real);
      assert 100.0 * (op.outputRecords as real) == (100 * op.outputRecords) as real;
    }
  }

  function WaitKey(op: DetailedOperatorMetrics): real {
    op.waitNanos as real
  }

  function MemoryKey(op: DetailedOperatorMetrics): real {
    op.peakMemory as real
  }

  function VolumeKey(op: DetailedOperatorMetrics): real {
    op.inputRecords as real
  }

  /** Ascending selectivity expressed as a descending key: a stable descending sort on the
      negated ratio orders exactly as Python's stable ascending sort on the ratio. */
  function SelectivityRankKey(op: DetailedOperatorMetrics): real {
    if op.inputRecords > 0 then -Selectivity(op) else 0.0
  }

  /** High-wait operators, most waiting first, ties in extraction order. */
  function HighWaitOperators(ops: seq<DetailedOperatorMetrics>): (r: seq<DetailedOperatorMetrics>)
    ensures SelectedFrom(r, ops, IsHighWait)
    ensures NonIncreasing(r, WaitKey)
    ensures forall k :: WithKey(r, WaitKey, k) == Filter(WithKey(ops, WaitKey, k), IsHighWait)
  {
    FilterSelects(ops, IsHighWait);
    RankOfFilterStable(ops, IsHighWait, WaitKey);
    Rank(Filter(ops, IsHighWait), WaitKey)
  }

  /** High-memory operators, largest peak first, ties in extraction order. */
  function HighMemoryOperators(ops: seq<DetailedOperatorMetrics>): (r: seq<DetailedOperatorMetrics>)
    ensures SelectedFrom(r, ops, IsHighMemory)
    ensures NonIncreasing(r, MemoryKey)
    ensures forall k :: WithKey(r, MemoryKey, k) == Filter(WithKey(ops, MemoryKey, k), IsHighMemory)
  {
    FilterSelects(ops, IsHighMemory);
    RankOfFilterStable(ops, IsHighMemory, MemoryKey);
    Rank(Filter(ops, IsHighMemory), MemoryKey)
  }

  /** High-volume operators, most input first, ties in extraction order. */
  function HighVolumeOperators(ops: seq<DetailedOperatorMetrics>): (r: seq<DetailedOperatorMetrics>)
    ensures SelectedFrom(r, ops, IsHighVolume)
    ensures NonIncreasing(r, VolumeKey)
    ensures forall k :: WithKey(r, VolumeKey, k) == Filter(WithKey(ops, VolumeKey, k), IsHighVolume)
  {
    FilterSelects(ops, IsHighVolume);
    RankOfFilterStable(ops, IsHighVolume, VolumeKey);
    Rank(Filter(ops, IsHighVolume), VolumeKey)
  }

  /** Low-selectivity operators, lowest selectivity first, ties in extraction order. */
  function LowSelectivityOperators(ops: seq<DetailedOperatorMetrics>): (r: seq<DetailedOperatorMetrics>)
    ensures SelectedFrom(r, ops, IsLowSelectivity)
    ensures forall i :: 0 <= i < |r| ==> r[i].inputRecords > SelectivityMinInput
    ensures forall i, j :: 0 <= i < j < |r| ==> Selectivity(r[i]) <= Selectivity(r[j])
    ensures forall k :: WithKey(r, SelectivityRankKey, k) == Filter(WithKey(ops, SelectivityRankKey, k), IsLowSelectivity)
  {
    FilterSelects(ops, IsLowSelectivity);
    RankOfFilterStable(ops, IsLowSelectivity, SelectivityRankKey);
    var r := Rank(Filter(ops, IsLowSelectivity), SelectivityRankKey);
    SelectedFromMembers(r, ops, IsLowSelectivity);
    AscendingSelectivity(r);
    r
  }

  lemma AscendingSelectivity(r: seq<DetailedOperatorMetrics>)
    requires forall i :: 0 <= i < |r| ==> IsLowSelectivity(r[i])
    requires NonIncreasing(r, SelectivityRankKey)
    ensures forall i :: 0 <= i < |r| ==> r[i].inputRecords > SelectivityMinInput
    ensures forall i, j :: 0 <= i < j < |r| ==> Selectivity(r[i]) <= Selectivity(r[j])
  {
    forall i | 0 <= i < |r|
      ensures r[i].inputRecords > SelectivityMinInput
    {
      assert IsLowSelectivity(r[i]);
    }
    forall i, j | 0 <= i < j < |r|
      ensures Selectivity(r[i]) <= Selectivity(r[j])
    {
      assert IsLowSelectivity(r[i]) && IsLowSelectivity(r[j]);
      assert SelectivityRankKey(r[i]) >= SelectivityRankKey(r[j]);
    }
  }

  /** A high-wait operator with its wait time as a percentage of its total time. */
  datatype WaitFinding = WaitFinding(op: DetailedOperatorMetrics, waitPercent: real)

  /** A high-volume operator with its processing throughput in records per second. */
  datatype VolumeFinding = VolumeFinding(op: DetailedOperatorMetrics, throughput: real)

  /** A low-selectivity operator with its selectivity. */
  datatype SelectivityFinding = SelectivityFinding(op: DetailedOperatorMetrics, selectivity: real)

  /** The four flagged lists, in display order. */
  datatype Findings = Findings(
    highWait: seq<WaitFinding>,
    highMemory: seq<DetailedOperatorMetrics>,
    highVolume: seq<VolumeFinding>,
    lowSelectivity: seq<SelectivityFinding>)

  predicate AllTotalsAreSums(ops: seq<DetailedOperatorMetrics>) {
    forall i :: 0 <= i < |ops| ==> TotalIsSum(ops[i])
  }

  /** The wait share of a high-wait operator: defined, because a high wait forces a
      positive total, and within (0, 100]. */
  function WaitShare(op: DetailedOperatorMetrics): (pct: real)
    requires IsHighWait(op) && TotalIsSum(op)
    ensures op.totalNanos >= op.waitNanos > 0
    ensures 0.0 < pct <= 100.0
    ensures pct * (op.totalNanos as real) == (op.waitNanos as real) * 100.0
  {
    Statistics.PercentOf(op.waitNanos, op.totalNanos)
  }

  function WaitFindingsOf(hw: seq<DetailedOperatorMetrics>): (r: seq<WaitFinding>)
    requires forall i :: 0 <= i < |hw| ==> IsHighWait(hw[i]) && TotalIsSum(hw[i])
    ensures |r| == |hw|
    ensures forall i :: 0 <= i < |r| ==> r[i].op == hw[i] && r[i].waitPercent == WaitShare(hw[i])
  {
    if |hw| == 0 then []
    else [WaitFinding(hw[0], WaitShare(hw[0]))] + WaitFindingsOf(hw[1..])
  }

  /** The wait findings, one per high-wait operator in rank order. */
  function WaitFindings(ops: seq<DetailedOperatorMetrics>): (r: seq<WaitFinding>)
    requires AllTotalsAreSums(ops)
    ensures |r| == |HighWaitOperators(ops)|
    ensures forall i :: 0 <= i < |r| ==>
              && r[i].op == HighWaitOperators(ops)[i]
              && r[i].op.totalNanos >= r[i].op.waitNanos > 0
              && 0.0 < r[i].waitPercent <= 100.0
              && IsHighWait(r[i].op) && TotalIsSum(r[i].op)
              && r[i].waitPercent == WaitShare(r[i].op)
  {
    var hw := HighWaitOperators(ops);
    SelectedFromMembers(hw, ops, IsHighWait);
    WaitFindingsOf(hw)
  }

  function VolumeFindingsOf(hv: seq<DetailedOperatorMetrics>): (r: seq<VolumeFinding>)
    ensures |r| == |hv|
    ensures forall i :: 0 <= i < |r| ==>
              r[i].op == hv[i] && r[i].throughput == Statistics.Throughput(hv[i].inputRecords, hv[i].processNanos)
  {
    if |hv| == 0 then []
    else [VolumeFinding(hv[0], Statistics.Throughput(hv[0].inputRecords, hv[0].processNanos))] + VolumeFindingsOf(hv[1..])
  }

  function SelectivityFindingsOf(ls: seq<DetailedOperatorMetrics>): (r: seq<SelectivityFinding>)
    requires forall i :: 0 <= i < |ls| ==> ls[i].inputRecords > 0
    ensures |r| == |ls|
    ensures forall i :: 0 <= i < |r| ==> r[i].op == ls[i] && r[i].selectivity == Selectivity(ls[i])
  {
    if |ls| == 0 then []
    else [SelectivityFinding(ls[0], Selectivity(ls[0]))] + SelectivityFindingsOf(ls[1..])
  }

  /** `analyze_bottlenecks` without the printing. */
  function Classify(ops: seq<DetailedOperatorMetrics>): (r: Findings)
    requires AllTotalsAreSums(ops)
    ensures |r.highWait| == |HighWaitOperators(ops)|
    ensures r.highMemory == HighMemoryOperators(ops)
    ensures |r.highVolume| == |HighVolumeOperators(ops)|
    ensures |r.lowSelectivity| == |LowSelectivityOperators(ops)|
    ensures forall i :: 0 <= i < |r.highWait| ==> r.highWait[i].op == HighWaitOperators(ops)[i]
    ensures forall i :: 0 <= i < |r.highVolume| ==> r.highVolume[i].op == HighVolumeOperators(ops)[i]
    ensures forall i :: 0 <= i < |r.lowSelectivity| ==> r.lowSelectivity[i].op == LowSelectivityOperators(ops)[i]
  {
    var ls := LowSelectivityOperators(ops);
    SelectedFromMembers(ls, ops, IsLowSelectivity);
    Findings(WaitFindings(ops), HighMemoryOperators(ops), VolumeFindingsOf(HighVolumeOperators(ops)), SelectivityFindingsOf(ls))
  }

  predicate NoFindings(f: Findings) {
    f.highWait == [] && f.highMemory == [] && f.highVolume == [] && f.lowSelectivity == []
  }

  /** Nothing is flagged exactly when no operator trips any of the four rules. */
  lemma NoFindingsIffNoRuleFires(ops: seq<DetailedOperatorMetrics>)
    requires AllTotalsAreSums(ops)
    ensures NoFindings(Classify(ops)) <==>
              forall i :: 0 <= i < |ops| ==>
                !IsHighWait(ops[i]) && !IsHighMemory(ops[i]) && !IsHighVolume(ops[i]) && !IsLowSelectivity(ops[i])
  {
    var f := Classify(ops);
    var hw, hm, hv, ls := HighWaitOperators(ops), HighMemoryOperators(ops), HighVolumeOperators(ops), LowSelectivityOperators(ops);
    SelectedFromMembers(hw, ops, IsHighWait);
    SelectedFromMembers(hm, ops, IsHighMemory);
    SelectedFromMembers(hv, ops, IsHighVolume);
    SelectedFromMembers(ls, ops, IsLowSelectivity);
    assert NoFindings(f) <==> hw == [] && hm == [] && hv == [] && ls == [];
    forall i | 0 <= i < |ops|
      ensures IsHighWait(ops[i]) ==> ops[i] in hw
      ensures IsHighMemory(ops[i]) ==> ops[i] in hm
      ensures IsHighVolume(ops[i]) ==> ops[i] in hv
      ensures IsLowSelectivity(ops[i]) ==> ops[i] in ls
    {
      assert ops[i] in ops;
    }
  }
}
