/** The consumed shape of a query profile document. Every key the scripts
    read with a default is an `Option`; `None` is an absent key. Counters,
    durations and identifiers are non-negative, as the profile format
    declares them; the operator-type code, the metric id and the wall-clock
    timestamps are arbitrary integers. */
module ProfileDocument {
  import opened Wrappers

  /** One `inputProfile` entry of an operator. */
  datatype InputProfile = InputProfile(records: Option<nat>, size: Option<nat>)

  /** A numeric metric value: an integer `longValue` or a floating `doubleValue`
      (kept as an exact real; nothing computes with it). */
  datatype MetricValue = LongValue(long: int) | DoubleValue(double: real)

  /** One `metric` entry of an operator; either value may be absent. */
  datatype MetricEntry = MetricEntry(metricId: Option<int>, longValue: Option<int>, doubleValue: Option<real>)

  /** One `operatorProfile` entry. */
  datatype OperatorProfile = OperatorProfile(
    operatorId: Option<nat>,
    operatorType: Option<int>,
    setupNanos: Option<nat>,
    processNanos: Option<nat>,
    waitNanos: Option<nat>,
    inputProfile: Option<seq<InputProfile>>,
    outputRecords: Option<nat>,
    outputBytes: Option<nat>,
    peakLocalMemoryAllocated: Option<nat>,
    metric: Option<seq<MetricEntry>>)

  /** One `minorFragmentProfile` entry: a parallel instance of a major fragment. */
  datatype MinorFragmentProfile = MinorFragmentProfile(
    minorFragmentId: Option<nat>,
    operatorProfile: Option<seq<OperatorProfile>>)

  /** One `fragmentProfile` entry: a major fragment. */
  datatype FragmentProfile = FragmentProfile(
    majorFragmentId: Option<nat>,
    minorFragmentProfile: Option<seq<MinorFragmentProfile>>)

  /** One `planPhases` entry. */
  datatype PlanPhase = PlanPhase(phaseName: Option<string>, durationMillis: Option<nat>)

  /** The whole document, restricted to the keys the analysis reads. */
  datatype QueryProfile = QueryProfile(
    start: Option<int>,
    end: Option<int>,
    planningStart: Option<int>,
    planningEnd: Option<int>,
    fragmentProfile: Option<seq<FragmentProfile>>,
    planPhases: Option<seq<PlanPhase>>)

  function FragmentsOf(p: QueryProfile): seq<FragmentProfile> {
    p.fragmentProfile.GetOr([])
  }

  function MinorsOf(f: FragmentProfile): seq<MinorFragmentProfile> {
    f.minorFragmentProfile.GetOr([])
  }

  function OperatorsOf(m: MinorFragmentProfile): seq<OperatorProfile> {
    m.operatorProfile.GetOr([])
  }

  function PhasesOf(p: QueryProfile): seq<PlanPhase> {
    p.planPhases.GetOr([])
  }
}
