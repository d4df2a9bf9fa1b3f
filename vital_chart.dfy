/**
 * The vital-sign trend chart: the points it plots for one channel, the value in its header,
 * and the vertical range of its axis.
 */
module VitalChart {
  import opened Wrappers
  import opened Health
  import opened Sequences
  import opened JsMath

  /** How many of the most recent samples the chart plots. */
  const ChartWindow: nat := 20

  /** One plotted point: the channel's value to one decimal, and the sample's instant. */
  datatype ChartPoint = ChartPoint(value: real, timestamp: int)

  /** `Math.round(x * 10) / 10`: `x` to one decimal place. */
  function Round1(x: real): (r: real)
    ensures x - 0.05 < r <= x + 0.05
  {
    Round(x * 10.0) as real / 10.0
  }

  function Point(v: VitalSigns, c: Channel): ChartPoint {
    ChartPoint(Round1(Reading(v, c)), v.timestamp)
  }

  /**
   * `chartData`: the last twenty samples (all of them when there are fewer), oldest first,
   * each plotted as its channel value to one decimal place.
   */
  function ChartData(data: seq<VitalSigns>, c: Channel): (pts: seq<ChartPoint>)
    ensures |pts| == if |data| < ChartWindow then |data| else ChartWindow
    ensures forall i :: 0 <= i < |pts| ==> pts[i] == Point(data[|data| - |pts| + i], c)
  {
    var window := LastN(data, ChartWindow);
    seq(|window|, i requires 0 <= i < |window| => Point(window[i], c))
  }

  /** Every plotted value is within 0.05 of the sample it comes from, and carries its instant. */
  lemma ChartTracksData(data: seq<VitalSigns>, c: Channel, i: int)
    requires 0 <= i < |ChartData(data, c)|
    ensures var pts := ChartData(data, c);
      var k := |data| - |pts|;
      && Reading(data[k + i], c) - 0.05 < pts[i].value <= Reading(data[k + i], c) + 0.05
      && pts[i].timestamp == data[k + i].timestamp
  {
  }

  /** The header's value: the last plotted point's, absent (`undefined`) for an empty history. */
  function HeaderValue(pts: seq<ChartPoint>): Option<real> {
    if |pts| == 0 then None else Some(pts[|pts| - 1].value)
  }

  /** The header shows the newest sample of the history, rounded, and nothing without data. */
  lemma HeaderShowsNewest(data: seq<VitalSigns>, c: Channel)
    ensures HeaderValue(ChartData(data, c)).None? <==> data == []
    ensures data != [] ==> HeaderValue(ChartData(data, c)) == Some(Round1(Reading(data[|data| - 1], c)))
  {
  }

  /**
   * The vertical axis: ten units beyond either end of the normal band when one is given,
   * otherwise five below the smallest and above the largest plotted value.
   */
  datatype AxisDomain = Fixed(low: real, high: real) | AroundData(below: real, above: real)

  function YDomain(normalRange: Option<(real, real)>): AxisDomain {
    if normalRange.Some? then Fixed(normalRange.value.0 - 10.0, normalRange.value.1 + 10.0)
    else AroundData(5.0, 5.0)
  }

  function MinValue(pts: seq<ChartPoint>): (m: real)
    requires pts != []
    ensures forall i :: 0 <= i < |pts| ==> m <= pts[i].value
    ensures exists i :: 0 <= i < |pts| && m == pts[i].value
  {
    if |pts| == 1 then pts[0].value
    else
      var rest := MinValue(pts[1..]);
      assert forall i :: 1 <= i < |pts| ==> pts[i] == pts[1..][i - 1];
      if pts[0].value <= rest then pts[0].value else rest
  }

  function MaxValue(pts: seq<ChartPoint>): (m: real)
    requires pts != []
    ensures forall i :: 0 <= i < |pts| ==> pts[i].value <= m
    ensures exists i :: 0 <= i < |pts| && m == pts[i].value
  {
    if |pts| == 1 then pts[0].value
    else
      var rest := MaxValue(pts[1..]);
      assert forall i :: 1 <= i < |pts| ==> pts[i] == pts[1..][i - 1];
      if pts[0].value >= rest then pts[0].value else rest
  }

  /** The range the chart library draws for a domain and the plotted points. */
  function AxisBounds(d: AxisDomain, pts: seq<ChartPoint>): (real, real)
    requires d.AroundData? ==> pts != []
  {
    match d
    case Fixed(low, high) => (low, high)
    case AroundData(below, above) => (MinValue(pts) - below, MaxValue(pts) + above)
  }

  /**
   * Without a normal band every plotted point lies at least five units inside the axis; with
   * one, the band's ends lie exactly ten units inside it.
   */
  lemma AxisContainsData(normalRange: Option<(real, real)>, pts: seq<ChartPoint>)
    requires normalRange.None? ==> pts != []
    ensures var b := AxisBounds(YDomain(normalRange), pts);
      && (normalRange.None? ==> forall i :: 0 <= i < |pts| ==> b.0 + 5.0 <= pts[i].value <= b.1 - 5.0)
      && (normalRange.Some? ==> b.0 + 10.0 == normalRange.value.0 && normalRange.value.1 == b.1 - 10.0)
  {
  }
}
