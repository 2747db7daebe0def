/** Worked examples: a two-operator profile and a two-phase plan, run through
    the walk, the record builder, the rankings and the classifier. */
module Scenarios {
  import opened Wrappers
  import opened ProfileDocument
  import opened Traversal
  import opened Extraction
  import opened Ranking
  import opened Statistics
  import opened Bottlenecks
  import opened Reports

  function HashAggEntry(): OperatorProfile {
    OperatorProfile(Some(0), Some(3), Some(100), Some(900), Some(50), None, None, None, None, None)
  }

  function TableFunctionEntry(): OperatorProfile {
    OperatorProfile(Some(1), Some(53), Some(10), Some(10), Some(2000000),
                    Some([InputProfile(Some(5000000), None)]), Some(10), None, None, None)
  }

  function TwoOperatorProfile(): QueryProfile {
    QueryProfile(None, None, None, None,
      Some([FragmentProfile(Some(0), Some([MinorFragmentProfile(Some(0), Some([HashAggEntry(), TableFunctionEntry()]))]))]),
      None)
  }

  /** The walk yields both operators, in document order. */
  lemma TwoOperatorWalk()
    ensures OperatorEntries(TwoOperatorProfile()) == [Located(0, 0, HashAggEntry()), Located(0, 0, TableFunctionEntry())]
  {
    var fs := FragmentsOf(TwoOperatorProfile());
    var ms := MinorsOf(fs[0]);
    var opList := OperatorsOf(ms[0]);
    assert fs[1..] == [] && ms[1..] == [] && opList[1..][1..] == [];
  }

  /** The second operator waits 2 ms against 10 ns of processing, reads five million
      records and keeps ten; the first spends 1050 ns in all and is named from the table. */
  lemma TwoOperatorRecords()
    ensures DetailedRecord(Located(0, 0, HashAggEntry())).operatorName == "HashAgg"
    ensures DetailedRecord(Located(0, 0, TableFunctionEntry())).operatorName == "TableFunction"
    ensures DetailedRecord(Located(0, 0, HashAggEntry())).totalNanos == 1050
    ensures DetailedRecord(Located(0, 0, TableFunctionEntry())).totalNanos == 2000020
    ensures DetailedRecord(Located(0, 0, TableFunctionEntry())).inputRecords == 5000000
    ensures DetailedRecord(Located(0, 0, TableFunctionEntry())).outputRecords == 10
  {
    var ips := [InputProfile(Some(5000000), None)];
    assert ips[1..] == [];
  }

  /** The scenario's counters, on any two records. */
  predicate ScenarioCounters(first: DetailedOperatorMetrics, second: DetailedOperatorMetrics) {
    && first.setupNanos == 100 && first.processNanos == 900 && first.waitNanos == 50
    && first.totalNanos == 1050 && first.inputRecords == 0 && first.peakMemory == 0
    && second.processNanos == 10 && second.waitNanos == 2000000 && second.totalNanos == 2000020
    && second.inputRecords == 5000000 && second.outputRecords == 10 && second.peakMemory == 0
  }

  lemma RankOfTwo(first: DetailedOperatorMetrics, second: DetailedOperatorMetrics)
    requires ScenarioCounters(first, second)
    ensures Rank([first, second], DetailedRankKey) == [second, first]
  {
    assert [first, second][1..] == [second];
    assert [second][1..] == [];
  }

  lemma FilterOfTwo(first: DetailedOperatorMetrics, second: DetailedOperatorMetrics, p: DetailedOperatorMetrics -> bool)
    requires !p(first) && p(second)
    ensures Filter([first, second], p) == [second]
  {
    assert [first, second][1..] == [second];
    assert [second][1..] == [];
  }

  lemma FilterOfTwoNone(first: DetailedOperatorMetrics, second: DetailedOperatorMetrics, p: DetailedOperatorMetrics -> bool)
    requires !p(first) && !p(second)
    ensures Filter([first, second], p) == []
  {
    assert [first, second][1..] == [second];
    assert [second][1..] == [];
  }

  lemma RankOfOne(x: DetailedOperatorMetrics, key: DetailedOperatorMetrics -> real)
    ensures Rank([x], key) == [x]
  {
    assert [x][1..] == [];
  }

  /** The classification of any two records with the scenario's counters. */
  lemma FindingsOfTwo(first: DetailedOperatorMetrics, second: DetailedOperatorMetrics)
    requires ScenarioCounters(first, second)
    ensures Rank([first, second], DetailedRankKey) == [second, first]
    ensures HighWaitOperators([first, second]) == [second]
    ensures HighMemoryOperators([first, second]) == []
    ensures HighVolumeOperators([first, second]) == [second]
    ensures LowSelectivityOperators([first, second]) == [second]
  {
    RankOfTwo(first, second);
    LowSelectivityExact(second);
    LowSelectivityExact(first);
    FilterOfTwo(first, second, IsHighWait);
    FilterOfTwoNone(first, second, IsHighMemory);
    FilterOfTwo(first, second, IsHighVolume);
    FilterOfTwo(first, second, IsLowSelectivity);
    RankOfOne(second, WaitKey);
    RankOfOne(second, VolumeKey);
    RankOfOne(second, SelectivityRankKey);
  }

  /** The second operator ranks first and is flagged for wait, volume and selectivity;
      nothing is flagged for memory, and the first operator is flagged for nothing. */
  lemma TwoOperatorFindings()
    ensures
      var first := DetailedRecord(Located(0, 0, HashAggEntry()));
      var second := DetailedRecord(Located(0, 0, TableFunctionEntry()));
      var ops := [first, second];
      && Rank(ops, DetailedRankKey) == [second, first]
      && HighWaitOperators(ops) == [second]
      && HighMemoryOperators(ops) == []
      && HighVolumeOperators(ops) == [second]
      && LowSelectivityOperators(ops) == [second]
  {
    TwoOperatorRecords();
    FindingsOfTwo(DetailedRecord(Located(0, 0, HashAggEntry())), DetailedRecord(Located(0, 0, TableFunctionEntry())));
  }

  /** Two plan phases: the longer one ranks first, and the phase total is their sum. */
  lemma TwoPhaseScenario()
    ensures
      var parser := PhaseTiming("Parser", 50);
      var planning := PhaseTiming("Planning", 200);
      && Rank([parser, planning], PhaseRankKey) == [planning, parser]
      && SummarizePhases([parser, planning]) == Some(PhaseSummary(250, 200, 2))
  {
    var parser := PhaseTiming("Parser", 50);
    var planning := PhaseTiming("Planning", 200);
    assert [parser, planning][1..] == [planning];
    assert [planning][1..] == [];
  }
}
