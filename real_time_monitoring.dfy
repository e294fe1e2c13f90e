/** The live monitoring panel of one facility: a three-band status per
    metric and 24-hour sample series. */
module RealTimeMonitoring {
  import opened Wrappers
  import opened JsNumber
  import opened DataCenterType

  /** The status colours, best first. */
  datatype Band = Green | Yellow | Red

  function Rank(b: Band): nat {
    match b
    case Green => 0
    case Yellow => 1
    case Red => 2
  }

  /** `getStatusColor(value, { good, warning })` */
  function StatusBand(value: real, good: real, warning: real): Band {
    if value <= good then Green
    else if value <= warning then Yellow
    else Red
  }

  /** Green up to and including `good`, yellow above it up to and including
      `warning`, red above both. */
  lemma StatusBandSpec(value: real, good: real, warning: real)
    ensures StatusBand(value, good, warning) == Green <==> value <= good
    ensures StatusBand(value, good, warning) == Yellow <==> good < value <= warning
    ensures StatusBand(value, good, warning) == Red <==> good < value && warning < value
    ensures StatusBand(good, good, warning) == Green
    ensures good < warning ==> StatusBand(warning, good, warning) == Yellow
  {
  }

  /** With ordered thresholds a larger value never gets a better band. */
  lemma StatusBandMonotone(v1: real, v2: real, good: real, warning: real)
    requires good <= warning && v1 <= v2
    ensures Rank(StatusBand(v1, good, warning)) <= Rank(StatusBand(v2, good, warning))
  {
  }

  datatype Metric = Temperature | Humidity | PowerUsage | NetworkLatency | Uptime | Pue

  /** The six cards, in display order. */
  const Metrics: seq<Metric> := [Temperature, Humidity, PowerUsage, NetworkLatency, Uptime, Pue]

  /** `{ good, warning }` of each card; uptime has none. */
  function Thresholds(m: Metric): Option<(real, real)> {
    match m
    case Temperature => Some((23.0, 25.0))
    case Humidity => Some((50.0, 60.0))
    case PowerUsage => Some((20.0, 30.0))
    case NetworkLatency => Some((3.0, 5.0))
    case Uptime => None
    case Pue => Some((1.3, 1.5))
  }

  function Reading(dc: DataCenter, m: Metric): real {
    match m
    case Temperature => dc.realTimeData.temperature
    case Humidity => dc.realTimeData.humidity
    case PowerUsage => dc.realTimeData.powerUsage
    case NetworkLatency => dc.realTimeData.networkLatency
    case Uptime => dc.realTimeData.uptime
    case Pue => dc.sustainability.pue
  }

  /** The card's status colour. */
  function MetricBand(dc: DataCenter, m: Metric): Band {
    match Thresholds(m)
    case None => Green
    case Some(t) => StatusBand(Reading(dc, m), t.0, t.1)
  }

  /** Every threshold pair is ordered, uptime is green whatever its value,
      and every other card is classified by its own reading. */
  lemma MetricBandSpec(dc: DataCenter, m: Metric)
    ensures Thresholds(m).Some? ==> Thresholds(m).value.0 < Thresholds(m).value.1
    ensures m == Uptime ==> MetricBand(dc, m) == Green
    ensures m != Uptime ==>
              Thresholds(m).Some?
              && MetricBand(dc, m) == StatusBand(Reading(dc, m), Thresholds(m).value.0, Thresholds(m).value.1)
  {
  }

  /** The spread passed to `generateHistoricalData`; humidity, uptime and
      PUE draw no series. */
  function SeriesVariance(m: Metric): Option<real> {
    match m
    case Temperature => Some(2.0)
    case PowerUsage => Some(3.0)
    case NetworkLatency => Some(1.0)
    case _ => None
  }

  datatype Point = Point(hour: string, value: real)

  const Hours := 24

  /** `generateHistoricalData(base, variance)`; `draws` are the 24 values
      `Math.random()` returned, each in [0, 1). */
  function HistoricalData(base: real, variance: real, draws: seq<real>): seq<Point>
    requires |draws| == Hours
  {
    seq(Hours, i requires 0 <= i < Hours => Point(Decimal(i) + ":00", base + (draws[i] - 0.5) * variance))
  }

  /** 24 points labelled "0:00" to "23:00" in order, each within half the
      variance of the base value. */
  lemma HistoricalDataSpec(base: real, variance: real, draws: seq<real>)
    requires |draws| == Hours && variance >= 0.0
    requires forall i :: 0 <= i < Hours ==> 0.0 <= draws[i] < 1.0
    ensures var pts := HistoricalData(base, variance, draws);
            && |pts| == Hours
            && (forall i :: 0 <= i < Hours ==> pts[i].hour == Decimal(i) + ":00")
            && (forall i :: 0 <= i < Hours ==>
                  base - variance / 2.0 <= pts[i].value <= base + variance / 2.0)
  {
    var pts := HistoricalData(base, variance, draws);
    forall i | 0 <= i < Hours
      ensures base - variance / 2.0 <= pts[i].value <= base + variance / 2.0
    {
      var d := draws[i] - 0.5;
      assert -0.5 <= d < 0.5;
      assert -0.5 * variance <= d * variance <= 0.5 * variance;
    }
  }

  /** `Decimal` loses nothing: different hours get different labels. */
  lemma HourLabelsDistinct(i: nat, j: nat)
    requires i != j
    ensures Decimal(i) + ":00" != Decimal(j) + ":00"
  {
    DecimalValue(i);
    DecimalValue(j);
    var a, b := Decimal(i) + ":00", Decimal(j) + ":00";
    assert a[..|Decimal(i)|] == Decimal(i) && |a| == |Decimal(i)| + 3;
    assert b[..|Decimal(j)|] == Decimal(j) && |b| == |Decimal(j)| + 3;
  }

  /** The cards that carry a chart are exactly temperature, power and
      latency. */
  lemma SeriesCards(m: Metric)
    ensures SeriesVariance(m).Some? <==> m in {Temperature, PowerUsage, NetworkLatency}
  {
  }
}
