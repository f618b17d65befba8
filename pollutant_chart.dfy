/**
 * The data behind the pollutant bar chart: each reading as a percentage of
 * the level at which it becomes unhealthy, capped at 150 so that one very
 * high bar does not flatten the others.
 */
module PollutantChart {
  import opened AirQuality

  /** The largest percentage a bar may show. */
  const PercentageCap: real := 150.0

  /** The level a reading is measured against when its name is not in the table. */
  const DefaultReference: real := 100.0

  datatype ChartEntry = ChartEntry(
    name: string, value: real, percentage: real, unit: string, description: string, refValue: real)

  /**
   * The chart's reference table. It holds the same six levels as the
   * unhealthy thresholds of the dominant-pollutant rule, keyed by exact
   * name; any other name is measured against 100.
   */
  function RefValue(name: string): (ref: real)
    ensures ref > 0.0
    ensures name == "PM2.5" ==> ref == 35.0
    ensures name == "PM10" ==> ref == 150.0
    ensures name == "O3" ==> ref == 70.0
    ensures name == "NO2" ==> ref == 100.0
    ensures name == "SO2" ==> ref == 75.0
    ensures name == "CO" ==> ref == 9.0
    ensures name !in KnownNames ==> ref == DefaultReference
  {
    UnhealthyThreshold(name).GetOr(DefaultReference)
  }

  function Min(a: real, b: real): (m: real)
    ensures m <= a && m <= b && (m == a || m == b)
  {
    if a <= b then a else b
  }

  /** One bar: the reading with its reference level and its capped percentage. */
  function ToChartEntry(p: Pollutant): (e: ChartEntry)
    ensures e.name == p.name && e.value == p.value && e.unit == p.unit && e.description == p.description
    ensures e.refValue == RefValue(p.name)
    ensures e.percentage <= PercentageCap
    ensures e.percentage < PercentageCap ==> e.percentage * e.refValue == p.value * 100.0
  {
    var ref := RefValue(p.name);
    var percentage := (p.value / ref) * 100.0;
    ChartEntry(p.name, p.value, Min(percentage, PercentageCap), p.unit, p.description, ref)
  }

  /** The `map` over the readings: one bar per reading, in the same order. */
  function ChartData(ps: seq<Pollutant>): (es: seq<ChartEntry>)
    ensures |es| == |ps|
    ensures forall i :: 0 <= i < |ps| ==> es[i] == ToChartEntry(ps[i])
  {
    seq(|ps|, i requires 0 <= i < |ps| => ToChartEntry(ps[i]))
  }

  /** A reading that is not negative draws a bar that is not negative. */
  lemma PercentageNonNegative(p: Pollutant)
    requires p.value >= 0.0
    ensures ToChartEntry(p).percentage >= 0.0
  {
    var ref := RefValue(p.name);
    assert p.value / ref >= 0.0;
  }

  /** A bar reaches 100% exactly when the reading reaches its reference level. */
  lemma AtLeastFullIffUnhealthy(p: Pollutant)
    ensures ToChartEntry(p).percentage >= 100.0 <==> p.value >= RefValue(p.name)
  {
    var ref := RefValue(p.name);
    if p.value >= ref {
      assert p.value / ref >= 1.0;
    } else {
      assert p.value / ref < 1.0;
    }
  }

  /** For one pollutant, a higher reading never draws a shorter bar. */
  lemma PercentageMonotone(p: Pollutant, q: Pollutant)
    requires p.name == q.name && p.value <= q.value
    ensures ToChartEntry(p).percentage <= ToChartEntry(q).percentage
  {
    var ref := RefValue(p.name);
    assert p.value / ref <= q.value / ref;
  }

  /** Below the cap, the bar is the reading as a percentage of its reference level. */
  lemma PercentageBelowCap(p: Pollutant)
    requires p.value * 100.0 < PercentageCap * RefValue(p.name)
    ensures ToChartEntry(p).percentage == p.value * 100.0 / RefValue(p.name)
  {
    var ref := RefValue(p.name);
    assert (p.value / ref) * 100.0 == p.value * 100.0 / ref;
    assert p.value * 100.0 / ref < PercentageCap;
  }

  /** Every bar drawn from the generated readings stands between 0 and the cap. */
  lemma GeneratedBarsInRange(d: Draws)
    ensures forall e :: e in ChartData(PollutantList(d)) ==> 0.0 <= e.percentage <= PercentageCap
  {
    var ps := PollutantList(d);
    PollutantRanges(d);
    assert forall p :: p in ps ==> p.value >= 0.0;
    forall e | e in ChartData(ps) ensures 0.0 <= e.percentage <= PercentageCap {
      var i :| 0 <= i < |ps| && ChartData(ps)[i] == e;
      assert ps[i] in ps;
      PercentageNonNegative(ps[i]);
    }
  }
}
