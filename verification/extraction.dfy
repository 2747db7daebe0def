/** The metric and phase extractors: each operator entry of the walk becomes
    one flat record (`extract_detailed_metrics` in the detailed script,
    `analyze_operators` in the summary script), each plan phase one phase
    record (`analyze_phases`). */
module Extraction {
  import opened ProfileDocument
  import opened Traversal
  import OperatorCatalog
  import Decimal

  /** The detailed script's per-operator record. */
  datatype DetailedOperatorMetrics = DetailedOperatorMetrics(
    operatorId: nat,
    operatorType: int,
    operatorName: string,
    setupNanos: nat,
    processNanos: nat,
    waitNanos: nat,
    totalNanos: nat,
    fragmentId: nat,
    minorFragmentId: nat,
    inputRecords: nat,
    outputRecords: nat,
    inputBytes: nat,
    outputBytes: nat,
    peakMemory: nat,
    metrics: map<string, MetricValue>)

  /** The summary script's per-operator record: identity and timing only. */
  datatype OperatorTiming = OperatorTiming(
    operatorId: nat,
    operatorType: int,
    operatorName: string,
    setupNanos: nat,
    processNanos: nat,
    waitNanos: nat,
    totalNanos: nat,
    fragmentId: nat,
    minorFragmentId: nat)

  /** The summary script's per-phase record. */
  datatype PhaseTiming = PhaseTiming(phaseName: string, durationMillis: nat)

  /** The record invariant: the total is always recomputed as the sum of its three parts. */
  predicate TotalIsSum(d: DetailedOperatorMetrics) {
    d.totalNanos == d.setupNanos + d.processNanos + d.waitNanos
  }

  /** The detailed record seen through the summary script's narrower record. */
  function Timing(d: DetailedOperatorMetrics): OperatorTiming {
    OperatorTiming(d.operatorId, d.operatorType, d.operatorName, d.setupNanos, d.processNanos,
                   d.waitNanos, d.totalNanos, d.fragmentId, d.minorFragmentId)
  }

  /** Sum of `records` over the input entries, an absent count reading as 0. */
  function InputRecords(ips: seq<InputProfile>): nat {
    if |ips| == 0 then 0 else ips[0].records.GetOr(0) + InputRecords(ips[1..])
  }

  /** Sum of `size` over the input entries, an absent size reading as 0. */
  function InputBytes(ips: seq<InputProfile>): nat {
    if |ips| == 0 then 0 else ips[0].size.GetOr(0) + InputBytes(ips[1..])
  }

  /** The input sums are additive over concatenation. */
  lemma {:induction false} InputSumsAppend(a: seq<InputProfile>, b: seq<InputProfile>)
    ensures InputRecords(a + b) == InputRecords(a) + InputRecords(b)
    ensures InputBytes(a + b) == InputBytes(a) + InputBytes(b)
    decreases |a|
  {
    if |a| == 0 {
      assert a + b == b;
    } else {
      assert (a + b)[1..] == a[1..] + b;
      InputSumsAppend(a[1..], b);
    }
  }

  /** The map key under which a metric id is stored. */
  function MetricKey(id: int): string {
    "metric_" + Decimal.IntToDecimal(id)
  }

  /** Different metric ids never share a key. */
  lemma MetricKeyInjective(a: int, b: int)
    ensures MetricKey(a) == MetricKey(b) ==> a == b
  {
    if MetricKey(a) == MetricKey(b) {
      assert MetricKey(a)[7..] == Decimal.IntToDecimal(a);
      assert MetricKey(b)[7..] == Decimal.IntToDecimal(b);
      Decimal.IntToDecimalInjective(a, b);
    }
  }

  function MetricIdOf(e: MetricEntry): int {
    e.metricId.GetOr(0)
  }

  predicate HasNumericValue(e: MetricEntry) {
    e.longValue.Some? || e.doubleValue.Some?
  }

  /** The value an entry contributes: the integer one when present, else the floating one. */
  function EntryValue(e: MetricEntry): MetricValue
    requires HasNumericValue(e)
  {
    if e.longValue.Some? then LongValue(e.longValue.value) else DoubleValue(e.doubleValue.value)
  }

  /** The per-operator metric map, entries applied in order so that a later entry
      with the same id replaces an earlier one. */
  function MetricsMap(es: seq<MetricEntry>): map<string, MetricValue> {
    if |es| == 0 then map[]
    else
      var m := MetricsMap(es[..|es| - 1]);
      var e := es[|es| - 1];
      if HasNumericValue(e) then m[MetricKey(MetricIdOf(e)) := EntryValue(e)] else m
  }

  /** No entry after position `i` carries a value for the same id. */
  predicate LastForId(es: seq<MetricEntry>, i: nat)
    requires i < |es|
  {
    forall j :: i < j < |es| && HasNumericValue(es[j]) ==> MetricIdOf(es[j]) != MetricIdOf(es[i])
  }

  /** Applying the entries in order: the map of a non-empty list is the map of all but the
      last entry, updated by the last entry when it carries a value. */
  lemma MetricsMapStep(es: seq<MetricEntry>)
    requires |es| > 0
    ensures HasNumericValue(es[|es| - 1]) ==>
              MetricsMap(es) == MetricsMap(es[..|es| - 1])[MetricKey(MetricIdOf(es[|es| - 1])) := EntryValue(es[|es| - 1])]
    ensures !HasNumericValue(es[|es| - 1]) ==> MetricsMap(es) == MetricsMap(es[..|es| - 1])
  {
  }

  /** Every key of the metric map comes from an entry that carries a value. */
  lemma {:induction false} MetricsMapKeysSound(es: seq<MetricEntry>)
    ensures forall k :: k in MetricsMap(es) ==>
              exists i :: 0 <= i < |es| && HasNumericValue(es[i]) && k == MetricKey(MetricIdOf(es[i]))
    decreases |es|
  {
    if |es| > 0 {
      var init := es[..|es| - 1];
      MetricsMapKeysSound(init);
      MetricsMapStep(es);
      forall k | k in MetricsMap(es)
        ensures exists i :: 0 <= i < |es| && HasNumericValue(es[i]) && k == MetricKey(MetricIdOf(es[i]))
      {
        if k in MetricsMap(init) {
          var i :| 0 <= i < |init| && HasNumericValue(init[i]) && k == MetricKey(MetricIdOf(init[i]));
          assert es[i] == init[i];
        } else {
          assert HasNumericValue(es[|es| - 1]) && k == MetricKey(MetricIdOf(es[|es| - 1]));
        }
      }
    }
  }

  /** Every entry that carries a value has its key in the metric map. */
  lemma {:induction false} MetricsMapKeysComplete(es: seq<MetricEntry>)
    ensures forall i :: 0 <= i < |es| && HasNumericValue(es[i]) ==> MetricKey(MetricIdOf(es[i])) in MetricsMap(es)
    decreases |es|
  {
    if |es| > 0 {
      var init := es[..|es| - 1];
      MetricsMapKeysComplete(init);
      MetricsMapStep(es);
      forall i | 0 <= i < |es| - 1 && HasNumericValue(es[i])
        ensures MetricKey(MetricIdOf(es[i])) in MetricsMap(es)
      {
        assert es[i] == init[i];
      }
    }
  }

  /** For each id, the metric map holds the value of the last entry that carries one. */
  lemma {:induction false} MetricsMapLastWins(es: seq<MetricEntry>)
    ensures forall i :: 0 <= i < |es| && HasNumericValue(es[i]) && LastForId(es, i) ==>
              && MetricKey(MetricIdOf(es[i])) in MetricsMap(es)
              && MetricsMap(es)[MetricKey(MetricIdOf(es[i]))] == EntryValue(es[i])
    decreases |es|
  {
    MetricsMapKeysComplete(es);
    if |es| > 0 {
      var init := es[..|es| - 1];
      var e := es[|es| - 1];
      MetricsMapLastWins(init);
      MetricsMapKeysComplete(init);
      MetricsMapStep(es);
      forall i | 0 <= i < |es| - 1 && HasNumericValue(es[i]) && LastForId(es, i)
        ensures MetricKey(MetricIdOf(es[i])) in MetricsMap(es)
        ensures MetricsMap(es)[MetricKey(MetricIdOf(es[i]))] == EntryValue(es[i])
      {
        assert es[i] == init[i];
        assert LastForId(init, i);
        if HasNumericValue(e) {
          MetricKeyInjective(MetricIdOf(e), MetricIdOf(es[i]));
        }
      }
    }
  }

  /** The detailed record of one walked operator entry. */
  function DetailedRecord(loc: Located): DetailedOperatorMetrics {
    var op := loc.op;
    var setup := op.setupNanos.GetOr(0);
    var process := op.processNanos.GetOr(0);
    var wait := op.waitNanos.GetOr(0);
    var inputs := op.inputProfile.GetOr([]);
    DetailedOperatorMetrics(
      operatorId := op.operatorId.GetOr(0),
      operatorType := op.operatorType.GetOr(0),
      operatorName := OperatorCatalog.OperatorTypeName(op.operatorType.GetOr(0)),
      setupNanos := setup,
      processNanos := process,
      waitNanos := wait,
      totalNanos := setup + process + wait,
      fragmentId := loc.fragmentId,
      minorFragmentId := loc.minorFragmentId,
      inputRecords := InputRecords(inputs),
      outputRecords := op.outputRecords.GetOr(0),
      inputBytes := InputBytes(inputs),
      outputBytes := op.outputBytes.GetOr(0),
      peakMemory := op.peakLocalMemoryAllocated.GetOr(0),
      metrics := MetricsMap(op.metric.GetOr([])))
  }

  /** The summary script's record of one walked operator entry, built from the entry directly. */
  function TimingRecord(loc: Located): OperatorTiming {
    var op := loc.op;
    var setup := op.setupNanos.GetOr(0);
    var process := op.processNanos.GetOr(0);
    var wait := op.waitNanos.GetOr(0);
    OperatorTiming(
      operatorId := op.operatorId.GetOr(0),
      operatorType := op.operatorType.GetOr(0),
      operatorName := OperatorCatalog.OperatorTypeName(op.operatorType.GetOr(0)),
      setupNanos := setup,
      processNanos := process,
      waitNanos := wait,
      totalNanos := setup + process + wait,
      fragmentId := loc.fragmentId,
      minorFragmentId := loc.minorFragmentId)
  }

  /** `extract_detailed_metrics`: three nested loops over fragments, minor fragments and
      operators, appending one record per operator entry. */
  method ExtractDetailedMetrics(p: QueryProfile) returns (ops: seq<DetailedOperatorMetrics>)
    ensures |ops| == |OperatorEntries(p)|
    ensures forall i :: 0 <= i < |ops| ==> ops[i] == DetailedRecord(OperatorEntries(p)[i])
    ensures forall i :: 0 <= i < |ops| ==> TotalIsSum(ops[i])
    ensures forall i :: 0 <= i < |ops| ==>
              ops[i].operatorName == OperatorCatalog.OperatorTypeName(ops[i].operatorType)
  {
    ops := [];
    ghost var walked: seq<Located> := [];
    var fs := FragmentsOf(p);
    for i := 0 to |fs|
      invariant walked == FragmentEntries(fs[..i])
      invariant |ops| == |walked|
      invariant forall t :: 0 <= t < |ops| ==> ops[t] == DetailedRecord(walked[t])
    {
      var fid := fs[i].majorFragmentId.GetOr(0);
      var ms := MinorsOf(fs[i]);
      ghost var before := walked;
      for j := 0 to |ms|
        invariant walked == before + MinorEntries(fid, ms[..j])
        invariant |ops| == |walked|
        invariant forall t :: 0 <= t < |ops| ==> ops[t] == DetailedRecord(walked[t])
      {
        var mid := ms[j].minorFragmentId.GetOr(0);
        var opList := OperatorsOf(ms[j]);
        ghost var beforeMinor := walked;
        for k := 0 to |opList|
          invariant walked == beforeMinor + LocateOperators(fid, mid, opList[..k])
          invariant |ops| == |walked|
          invariant forall t :: 0 <= t < |ops| ==> ops[t] == DetailedRecord(walked[t])
        {
          var loc := Located(fid, mid, opList[k]);
          ops := ops + [DetailedRecord(loc)];
          walked := walked + [loc];
          LocateOperatorsAppend(fid, mid, opList[..k], [opList[k]]);
          assert opList[..k + 1] == opList[..k] + [opList[k]];
          assert LocateOperators(fid, mid, [opList[k]]) == [loc];
        }
        assert opList[..|opList|] == opList;
        MinorEntriesAppend(fid, ms[..j], [ms[j]]);
        assert ms[..j + 1] == ms[..j] + [ms[j]];
        assert MinorEntries(fid, [ms[j]]) == LocateOperators(fid, mid, opList) by {
          assert [ms[j]][1..] == [];
        }
      }
      assert ms[..|ms|] == ms;
      FragmentEntriesAppend(fs[..i], [fs[i]]);
      assert fs[..i + 1] == fs[..i] + [fs[i]];
      assert FragmentEntries([fs[i]]) == MinorEntries(fid, ms) by {
        assert [fs[i]][1..] == [];
      }
    }
    assert fs[..|fs|] == fs;
  }

  /** `analyze_operators`: the same walk building the narrower record; it agrees with the
      detailed extractor on count, order, identity and timing of every record. */
  method AnalyzeOperators(p: QueryProfile) returns (ops: seq<OperatorTiming>)
    ensures |ops| == |OperatorEntries(p)|
    ensures forall i :: 0 <= i < |ops| ==> ops[i] == Timing(DetailedRecord(OperatorEntries(p)[i]))
    ensures forall i :: 0 <= i < |ops| ==>
              ops[i].totalNanos == ops[i].setupNanos + ops[i].processNanos + ops[i].waitNanos
  {
    ops := [];
    ghost var walked: seq<Located> := [];
    var fs := FragmentsOf(p);
    for i := 0 to |fs|
      invariant walked == FragmentEntries(fs[..i])
      invariant |ops| == |walked|
      invariant forall t :: 0 <= t < |ops| ==> ops[t] == TimingRecord(walked[t])
    {
      var fid := fs[i].majorFragmentId.GetOr(0);
      var ms := MinorsOf(fs[i]);
      ghost var before := walked;
      for j := 0 to |ms|
        invariant walked == before + MinorEntries(fid, ms[..j])
        invariant |ops| == |walked|
        invariant forall t :: 0 <= t < |ops| ==> ops[t] == TimingRecord(walked[t])
      {
        var mid := ms[j].minorFragmentId.GetOr(0);
        var opList := OperatorsOf(ms[j]);
        ghost var beforeMinor := walked;
        for k := 0 to |opList|
          invariant walked == beforeMinor + LocateOperators(fid, mid, opList[..k])
          invariant |ops| == |walked|
          invariant forall t :: 0 <= t < |ops| ==> ops[t] == TimingRecord(walked[t])
        {
          var loc := Located(fid, mid, opList[k]);
          ops := ops + [TimingRecord(loc)];
          walked := walked + [loc];
          LocateOperatorsAppend(fid, mid, opList[..k], [opList[k]]);
          assert opList[..k + 1] == opList[..k] + [opList[k]];
          assert LocateOperators(fid, mid, [opList[k]]) == [loc];
        }
        assert opList[..|opList|] == opList;
        MinorEntriesAppend(fid, ms[..j], [ms[j]]);
        assert ms[..j + 1] == ms[..j] + [ms[j]];
        assert MinorEntries(fid, [ms[j]]) == LocateOperators(fid, mid, opList) by {
          assert [ms[j]][1..] == [];
        }
      }
      assert ms[..|ms|] == ms;
      FragmentEntriesAppend(fs[..i], [fs[i]]);
      assert fs[..i + 1] == fs[..i] + [fs[i]];
      assert FragmentEntries([fs[i]]) == MinorEntries(fid, ms) by {
        assert [fs[i]][1..] == [];
      }
    }
    assert fs[..|fs|] == fs;
  }

  /** `analyze_phases`: one record per plan phase in document order; a missing name reads
      as "Unknown" and a missing duration as 0. */
  method AnalyzePhases(p: QueryProfile) returns (phases: seq<PhaseTiming>)
    ensures |phases| == |PhasesOf(p)|
    ensures forall i :: 0 <= i < |phases| ==>
              && phases[i].phaseName == PhasesOf(p)[i].phaseName.GetOr("Unknown")
              && phases[i].durationMillis == PhasesOf(p)[i].durationMillis.GetOr(0)
  {
    phases := [];
    var plan := PhasesOf(p);
    for i := 0 to |plan|
      invariant |phases| == i
      invariant forall t :: 0 <= t < i ==>
                  phases[t] == PhaseTiming(plan[t].phaseName.GetOr("Unknown"), plan[t].durationMillis.GetOr(0))
    {
      phases := phases + [PhaseTiming(plan[i].phaseName.GetOr("Unknown"), plan[i].durationMillis.GetOr(0))];
    }
  }
}
