# Query profile analysis, modelled in Dafny

This project models the two analysers that read a query-engine profile
(a JSON document produced by one query attempt) and report where the time went:

* `analyze_profile.py` walks the profile's fragments, minor fragments and operators. It
  records each operator's setup, process and wait time and collects the planning phases.
  It then builds a summary: query and planning time; the total, maximum, truncated average
  and count of operator times; and the total, maximum and count of phase times. Finally it ranks the top-N operators and
  phases and picks the longest of each.
* `detailed_profile_analysis.py` extracts a richer record per operator. The record adds
  input and output records and bytes, peak memory, and a map of numeric metrics keyed
  `metric_<id>`. The script prints a per-operator breakdown of the top-N operators by total
  time, with the percentage shares of setup, process and wait. It then runs the four
  bottleneck rules: high wait, high memory, high record volume, and low selectivity.

The model is written over immutable datatypes. Every JSON key the scripts read with
`dict.get(key, default)` is an `Option` field, read through `GetOr(default)`. The model is
split into these modules:

| module | file | concern |
|---|---|---|
| `Wrappers` | wrappers.dfy | `Option` and `Result` |
| `Decimal` | decimal.dfy | rendering of integers in f-strings (`str(int)`) and its inverse |
| `OperatorCatalog` | catalog.dfy | operator type code to display name |
| `ProfileDocument` | profile.dfy | the profile document and its defaulted accessors |
| `Traversal` | traversal.dfy | the fragment, minor fragment and operator walk, in document order |
| `Extraction` | extraction.dfy | per-operator records, the metrics map, and the phase list |
| `Ranking` | ranking.dfy | list filtering, Python's stable `sorted(..., reverse=True)`, `[:n]` slicing, `max(key=)` |
| `Statistics` | statistics.dfy | sums, maxima, averages, throughput and percentages |
| `Units` | units.dfy | which unit each formatter picks for a value |
| `Bottlenecks` | bottlenecks.dfy | the four bottleneck rules and their ordering |
| `Reports` | reports.dfy | the summary report, the detailed breakdown, and both end-to-end runs |
| `Scenarios` | scenarios.dfy | worked profiles with their full expected outcome |

Modelling choices:

* Counters are natural numbers. Timestamps and codes are integers.
* Python floats are exact `real`s.
* `sorted(key, reverse=True)` is stable: equal keys keep their input order. `Ranking.Rank`
  is a stable insertion sort, and `Ranking.RankStable` proves that order-preservation for
  every key value.
* The low-selectivity list is sorted ascending by selectivity. It is modelled as a
  descending rank on the negated selectivity, which is the same order, stability included.
* `max(ops, key=...)` returns the first element that attains the maximum. The model proves
  that this element is the head of the descending rank, so "longest" and "top 1" always
  agree.

What the code does, and so what the model does:

* Operator names come from the 7-entry table that both scripts carry:
  * 2 Filter, 3 HashAgg, 10 Project, 13 Screen, 14 SelectionVectorRemover,
    52 IcebergManifestList, 53 TableFunction;
  * any other code renders as `Unknown(<code>)`.
* There are exactly four bottleneck rules: high wait, high memory, high record volume and
  low selectivity. No rule looks at joins or sorts.
* The findings are four separately ordered lists, one per rule, and they carry
  no message text.
* The breakdown divides each share by the operator's total time without a guard. An
  operator in the top N with zero total time raises `ZeroDivisionError`, which ends the run
  before the bottleneck analysis. The model returns `Failure(DivisionByZero(rank))` for
  this case, where `rank` is the 1-based position of the first such row.
  `Reports.DetailedAnalysis` then yields no findings.
* A negative `top_n` slices from the end, as Python's `[:n]` does (`Ranking.Prefix`).

## Model

| member | source | states |
|---|---|---|
| Decimal.IntRoundTrip | detailed_profile_analysis.py:41 | the decimal text of any integer that an f-string produces parses back to that same integer, so the rendering loses nothing |
| Decimal.IntToDecimalInjective | detailed_profile_analysis.py:78 | two different integers never render to the same decimal text |
| Decimal.NatToDecimal | detailed_profile_analysis.py:41 | a non-negative number renders as a non-empty string of digits with no leading zero, and zero renders as "0" |
| OperatorCatalog.OperatorTypeName | detailed_profile_analysis.py:30-41 | a name is never empty, and any code outside the seven-entry table renders as "Unknown(" followed by its decimal code and ")" |
| OperatorCatalog.NameRoundTrip | analyze_profile.py:30-41 | the operator type code can be recovered from the displayed name, for the seven table codes and for every unknown code |
| OperatorCatalog.NameInjective | analyze_profile.py:30-41 | two different operator type codes never share a display name |
| Traversal.OperatorEntriesCount | detailed_profile_analysis.py:47-57 | the walk visits exactly as many operators as all minor fragments of all fragments hold in total |
| Traversal.OperatorEntryAt | detailed_profile_analysis.py:49-57 | the operator at fragment fi, minor fragment mi, position oi appears at index "operators in earlier fragments + operators in earlier minors + oi", tagged with its fragment's and minor's defaulted ids |
| Traversal.OperatorEntriesInDocumentOrder | analyze_profile.py:49-57 | an operator at a lexicographically earlier (fragment, minor, position) address is emitted before one at a later address |
| Traversal.LocateOperatorsAt | detailed_profile_analysis.py:57 | the innermost loop emits every operator of a minor fragment, in order, tagged with that fragment and minor id |
| Extraction.InputSumsAppend | detailed_profile_analysis.py:65-67 | the input record and byte totals are additive over the operator's input profiles |
| Extraction.MetricKeyInjective | detailed_profile_analysis.py:76-80 | distinct metric ids give distinct `metric_<id>` keys |
| Extraction.MetricsMapKeysSound | detailed_profile_analysis.py:74-80 | every key in the metrics map comes from a metric entry that carries a long or a double value |
| Extraction.MetricsMapKeysComplete | detailed_profile_analysis.py:74-80 | every metric entry with a long or a double value has its key in the map |
| Extraction.MetricsMapLastWins | detailed_profile_analysis.py:74-80 | when several entries share a metric id, the map holds the value of the last one, with the long value preferred over the double within an entry |
| Extraction.ExtractDetailedMetrics | detailed_profile_analysis.py:43-103 | yields one record per operator in the walk, in walk order; every record's total is setup + process + wait, and its name is the catalog name of its type |
| Extraction.AnalyzeOperators | analyze_profile.py:43-79 | yields the timing part of the detailed record for each operator, in the same order, with total = setup + process + wait |
| Extraction.AnalyzePhases | analyze_profile.py:81-96 | yields one phase per plan phase, in order; a missing name defaults to "Unknown" and a missing duration to 0 |
| Ranking.Filter | detailed_profile_analysis.py:144 | every kept element satisfies the rule, and no more elements are kept than the input has |
| Ranking.FilterSelects | detailed_profile_analysis.py:144 | the kept elements are exactly the input elements that satisfy the rule, each as often as it occurs in the input |
| Ranking.WithKeyOfFilter | detailed_profile_analysis.py:152 | filtering keeps relative order: the kept elements with any one key value are the elements of the input with that key that satisfy the rule, in input order |
| Ranking.Rank | analyze_profile.py:122 | the ranked list is a permutation of the input, ordered by non-increasing key |
| Ranking.RankStable | analyze_profile.py:138 | for every key value, the elements with that key appear in the ranking in their input order, as Python's stable sort keeps them |
| Ranking.RankIdempotent | analyze_profile.py:122 | ranking an already ranked list changes nothing |
| Ranking.RankOfSorted | analyze_profile.py:138 | a list already in non-increasing key order is its own rank |
| Ranking.Prefix | detailed_profile_analysis.py:188 | `[:n]` keeps the first min(n, len) elements for n >= 0 and drops the last -n elements for negative n |
| Ranking.TopN | analyze_profile.py:127 | the shown items are the leading items of the rank: min(n, len) of them for n >= 0, all but the last -n of them for negative n; none of the hidden items has a larger key than a shown one |
| Ranking.FirstMaxIndex | analyze_profile.py:204 | picks an element whose key is maximal and before which no element has an equal key, as `max(key=)` does |
| Ranking.RankHeadIsFirstMax | analyze_profile.py:203-213 | the first item of the descending rank is the element `max(key=)` returns |
| Ranking.MaxBy | analyze_profile.py:210-211 | there is no longest item exactly when the list is empty; otherwise the longest item is a member with maximal key and is the rank's first item |
| Ranking.RankOfFilterStable | detailed_profile_analysis.py:144-147 | ranking the filtered operators keeps, for every key value, the order in which the operators appeared in the profile |
| Ranking.SelectedFromMembers | detailed_profile_analysis.py:152 | every flagged operator satisfies the rule and occurs in the profile, and every operator that satisfies it is flagged |
| Statistics.MaxOf | analyze_profile.py:166 | the maximum bounds every element and is attained by one |
| Statistics.AggregateBounds | analyze_profile.py:165-167 | maximum <= total, average <= maximum, and count * average <= total |
| Statistics.SummarizeOperators | analyze_profile.py:164-172 | there is an operator summary exactly when there are operators; its total, maximum, count and truncated average relate to the operator totals as stated |
| Statistics.SummarizePhases | analyze_profile.py:175-181 | there is a phase summary exactly when there are phases; its total, maximum and count relate to the phase durations as stated |
| Statistics.QueryTimes | analyze_profile.py:152-158 | start + query time = end and planning start + planning time = planning end, with absent timestamps read as 0 |
| Statistics.Throughput | detailed_profile_analysis.py:163 | throughput is 0 when no process time was spent; otherwise throughput * process seconds = input records |
| Statistics.PercentOf | detailed_profile_analysis.py:191-193 | a share is non-negative, share * total = part * 100, and it is at most 100 when the part does not exceed the total |
| Units.TimeUnitOf | analyze_profile.py:98-107 | the time formatter picks ns below 1000, μs below 10^6, ms below 10^9, and s from 10^9 up |
| Units.MillisUnitOf | analyze_profile.py:109-114 | the millisecond formatter prints ms exactly below 1000 and seconds from 1000 up |
| Units.ByteUnitOf | detailed_profile_analysis.py:116-125 | the byte formatter picks B below 1024, KB below 1024^2, MB below 1024^3, and GB from 1024^3 up |
| Units.RecordUnitOf | detailed_profile_analysis.py:127-136 | the record formatter picks plain, K, M and B at the thresholds 10^3, 10^6 and 10^9 |
| Units.MagnitudeMonotone | detailed_profile_analysis.py:105-136 | a larger value never gets a smaller unit |
| Units.Magnitude | detailed_profile_analysis.py:116-125 | the chosen unit index k is the largest with base^k <= value, capped at the top unit |
| Bottlenecks.LowSelectivityExact | detailed_profile_analysis.py:168-173 | an operator is flagged for low selectivity exactly when input > 1000, output > 0 and 100 * output < input |
| Bottlenecks.HighWaitOperators | detailed_profile_analysis.py:143-147 | flags exactly the operators whose wait exceeds both their process time and 1 ms; the list runs longest wait first, with ties in profile order |
| Bottlenecks.HighMemoryOperators | detailed_profile_analysis.py:151-155 | flags exactly the operators whose peak memory exceeds 10^6 bytes; the list runs largest peak first, with ties in profile order |
| Bottlenecks.HighVolumeOperators | detailed_profile_analysis.py:158-162 | flags exactly the operators whose input exceeds 10^6 records; the list runs largest input first, with ties in profile order |
| Bottlenecks.LowSelectivityOperators | detailed_profile_analysis.py:167-177 | flags exactly the low-selectivity operators; the list runs lowest selectivity first, with ties in profile order |
| Bottlenecks.AscendingSelectivity | detailed_profile_analysis.py:177 | a descending rank on the negated selectivity is an ascending order of selectivity |
| Bottlenecks.WaitShare | detailed_profile_analysis.py:148 | for a high-wait operator, the total time is positive and the wait share lies in (0, 100] |
| Bottlenecks.WaitFindings | detailed_profile_analysis.py:144-149 | one wait finding per high-wait operator, in the rule's order; each carries a positive total time and a share that is exactly wait * 100 / total, within (0, 100] |
| Bottlenecks.VolumeFindingsOf | detailed_profile_analysis.py:159-165 | one volume finding per high-volume operator, in order, each carrying its throughput |
| Bottlenecks.SelectivityFindingsOf | detailed_profile_analysis.py:168-179 | one selectivity finding per low-selectivity operator, in order, each carrying output / input |
| Bottlenecks.Classify | detailed_profile_analysis.py:138-179 | the four finding lists follow the four rule lists element for element |
| Bottlenecks.NoFindingsIffNoRuleFires | detailed_profile_analysis.py:143-175 | the analysis reports nothing exactly when no operator satisfies any of the four rules |
| Reports.BuildProfileReport | analyze_profile.py:193-213 | there is an operator summary and a longest operator exactly when there are operators; the longest is one of them, has the summary maximum, and heads the top list; the top list is the leading part of the ranking, non-empty when top_n > 0; likewise for phases |
| Reports.AnalyzeProfileFile | analyze_profile.py:183-213 | the operators and phases are those of the walk and the plan phases, with their defaults; the report is built from exactly them, so the longest operator (phase) exists exactly when the profile has one and the summaries count all of them |
| Reports.OperatorSectionAgrees | analyze_profile.py:164-208 | the operator summary, the top list and the longest operator agree: all three are present exactly when there are operators, the longest is a member with the summary maximum, and it heads the top list |
| Reports.PhaseSectionAgrees | analyze_profile.py:175-213 | the phase summary, the top list and the longest phase agree in the same way |
| Reports.SharesSumToHundred | detailed_profile_analysis.py:191-193 | when the total is setup + process + wait and is positive, the three percentage shares add up to 100 |
| Reports.BreakdownRows | detailed_profile_analysis.py:188-193 | the breakdown succeeds exactly when every shown operator has positive total time; otherwise it fails at the first zero-total row; on success row i is ranked rank + i, and its setup, process and wait shares are each part * 100 / total and add up to 100 |
| Reports.Breakdown | detailed_profile_analysis.py:181-193 | the breakdown covers the top-N operators by total time in rank order, numbered from 1, each with its three shares as part * 100 / total; it fails exactly when one of them has zero total time, and then at the position of the first such operator |
| Reports.DetailedAnalysis | detailed_profile_analysis.py:230-235 | bottleneck findings are produced exactly when the breakdown did not abort, and then they are those of the extracted operators |
| Scenarios.TwoOperatorWalk | detailed_profile_analysis.py:49-57 | a profile with one fragment, one minor fragment and two operators yields those two operators, in order, with fragment and minor id 0 |
| Scenarios.TwoOperatorRecords | detailed_profile_analysis.py:58-101 | the HashAgg and TableFunction operators of that profile extract to the expected names, totals and input and output records |
| Scenarios.FindingsOfTwo | detailed_profile_analysis.py:143-177 | with those counters, the TableFunction operator ranks first and is flagged for wait, volume and selectivity, and neither operator is flagged for memory |
| Scenarios.TwoOperatorFindings | detailed_profile_analysis.py:143-177 | for the two operators extracted from that profile, the TableFunction operator ranks first and is the only one flagged, for wait, volume and selectivity |
| Scenarios.TwoPhaseScenario | analyze_profile.py:138-181 | plan phases of 50 ms and 200 ms rank the 200 ms phase first and summarise to total 250, maximum 200, count 2 |

## Left out

- Reading the file, parsing JSON, command-line arguments, and the error exits (`sys.exit`). These are I/O: the model starts from an already decoded document.
- All printed text: headers, emoji, column padding, and the `.2f`, `.1f`, `.0f` and `.3f` number formats. Only the unit each formatter picks is modelled (`Units`), not the rendered digits.
- The query id (`id.part1`) and the user. They are only printed.
- The TableFunction metric lines of the breakdown (readers, bytes read, async reads). They only print entries of the metrics map, which is modelled.
- Python dict insertion order of the metrics map. A Dafny `map` has no order, and nothing in the scripts depends on it except printing.
- Floating point. Percentages, selectivity and throughput are exact rationals. For counters beyond 2^53, an IEEE double division can round across the 0.01 selectivity bound, where the exact model does not.
- Bottlenecks.LowSelectivityOperators: orders by exact selectivity, so ties are exact-ratio ties. The script sorts by the double `output / input`, and two different ratios can round to the same double. That already happens with input counts around 10^9, for example 28,502,665 / 3,049,844,217 and 21,387,857 / 2,288,545,018. The script then keeps profile order for the pair, while the model puts the smaller exact ratio first, so the two orders can differ.
- Statistics.SummarizeOperators: the average is integer division. The script computes `int(total / count)` through a float, which can differ for totals beyond 2^53.
- Negative counters and identifiers, which a malformed document could contain and the scripts would accept. The nanosecond counters, record and byte counts, peak memory, `operatorId`, `majorFragmentId`, `minorFragmentId` and `durationMillis` are natural numbers here; only timestamps, operator types and metric ids may be negative. A negative duration, for instance, would break `Statistics.SummarizePhases`' maximum <= total, which the model proves for natural numbers only.
- JSON values of the wrong type (a string where a number is expected, or an explicit `null`). The scripts raise on many of these, for example when a null or string counter reaches an addition or a comparison. Others pass silently: a null or string `metricId` becomes part of the metric key (`metric_None`, or the same key as the integer for `"7"`), a null `longValue` is stored as it is, and a string `operatorType` misses the table and renders as `Unknown(<text>)`. The model's datatypes admit none of them.
- The lines printed before the breakdown aborts on a zero-total operator. `Reports.Breakdown` reports only the failure and its rank, not the partial output.
- `main` in both scripts: it reads `top_n` from the command line (a parameter here) and dispatches to the modelled functions.
