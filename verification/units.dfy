/** The unit a formatter picks for a value (`format_time`, `format_bytes`,
    `format_records`, `format_millis`): the largest power of the base that
    does not exceed the value, capped at the largest unit. The rendered text
    itself is not modelled. */
module Units {

  function Power(b: nat, k: nat): nat {
    if k == 0 then 1 else b * Power(b, k - 1)
  }

  lemma {:induction false} PowerMonotone(b: nat, i: nat, j: nat)
    requires b >= 1 && i <= j
    ensures Power(b, i) <= Power(b, j)
    decreases j
  {
    if i < j {
      PowerMonotone(b, i, j - 1);
      assert Power(b, j) == b * Power(b, j - 1);
    }
  }

  function MagnitudeFrom(v: int, b: nat, k: nat, levels: nat): (r: nat)
    requires b >= 2 && k <= levels
    requires k == 0 || Power(b, k) <= v
    ensures k <= r <= levels
    ensures r == 0 || Power(b, r) <= v
    ensures r == levels || v < Power(b, r + 1)
    decreases levels - k
  {
    if k == levels || v < Power(b, k + 1) then k else MagnitudeFrom(v, b, k + 1, levels)
  }

  /** The number of times the base is reached: the unit index among `levels + 1` units. */
  function Magnitude(v: int, b: nat, levels: nat): (r: nat)
    requires b >= 2
    ensures r <= levels
    ensures r == 0 || Power(b, r) <= v
    ensures r == levels || v < Power(b, r + 1)
  {
    MagnitudeFrom(v, b, 0, levels)
  }

  /** A larger value never gets a smaller unit. */
  lemma MagnitudeMonotone(v: int, w: int, b: nat, levels: nat)
    requires b >= 2 && v <= w
    ensures Magnitude(v, b, levels) <= Magnitude(w, b, levels)
  {
    var rv := Magnitude(v, b, levels);
    var rw := Magnitude(w, b, levels);
    if rv > rw {
      PowerMonotone(b, rw + 1, rv);
    }
  }

  datatype TimeUnit = Nanoseconds | Microseconds | Milliseconds | Seconds
  datatype ByteUnit = Bytes | Kilobytes | Megabytes | Gigabytes
  datatype RecordUnit = Plain | Thousands | Millions | Billions
  datatype MillisUnit = Millis | WholeSeconds

  /** `format_time`: ns below 1000, μs below 10^6, ms below 10^9, s from 10^9 up. */
  function TimeUnitOf(nanos: int): (u: TimeUnit)
    ensures u == Nanoseconds <==> nanos < 1000
    ensures u == Microseconds <==> 1000 <= nanos < 1000000
    ensures u == Milliseconds <==> 1000000 <= nanos < 1000000000
    ensures u == Seconds <==> 1000000000 <= nanos
  {
    assert Power(1000, 3) == 1000 * Power(1000, 2) == 1000000000;
    match Magnitude(nanos, 1000, 3)
    case 0 => Nanoseconds
    case 1 => Microseconds
    case 2 => Milliseconds
    case _ => Seconds
  }

  /** `format_bytes`: B below 1024, KB below 1024^2, MB below 1024^3, GB from 1024^3 up. */
  function ByteUnitOf(bytes: int): (u: ByteUnit)
    ensures u == Bytes <==> bytes < 1024
    ensures u == Kilobytes <==> 1024 <= bytes < 1048576
    ensures u == Megabytes <==> 1048576 <= bytes < 1073741824
    ensures u == Gigabytes <==> 1073741824 <= bytes
  {
    assert Power(1024, 3) == 1024 * Power(1024, 2) == 1073741824;
    match Magnitude(bytes, 1024, 3)
    case 0 => Bytes
    case 1 => Kilobytes
    case 2 => Megabytes
    case _ => Gigabytes
  }

  /** `format_records`: plain below 1000, K below 10^6, M below 10^9, B from 10^9 up. */
  function RecordUnitOf(records: int): (u: RecordUnit)
    ensures u == Plain <==> records < 1000
    ensures u == Thousands <==> 1000 <= records < 1000000
    ensures u == Millions <==> 1000000 <= records < 1000000000
    ensures u == Billions <==> 1000000000 <= records
  {
    assert Power(1000, 3) == 1000 * Power(1000, 2) == 1000000000;
    match Magnitude(records, 1000, 3)
    case 0 => Plain
    case 1 => Thousands
    case 2 => Millions
    case _ => Billions
  }

  /** `format_millis`: ms below 1000, s from 1000 up; a negative duration stays in
      milliseconds. */
  function MillisUnitOf(millis: int): (u: MillisUnit)
    ensures u == Millis <==> millis < 1000
  {
    assert Power(1000, 1) == 1000;
    if Magnitude(millis, 1000, 1) == 0 then Millis else WholeSeconds
  }
}
