/**
 * Forecast payload shapes (app/types/predictions.ts) and `normalizeSeries`
 * (app/utils/charts/companyForecastLine.ts, lines 17-26), which turns either form of a
 * series into the canonical array of `{date, value}`.
 */
module Series {
  import opened Common

  /** One `{date, value}` entry of a canonical series. */
  datatype Point = Point(date: string, value: int)

  /** An object's keys are distinct. */
  predicate DistinctKeys(entries: seq<(string, int)>) {
    forall i, j | 0 <= i < j < |entries| :: entries[i].0 != entries[j].0
  }

  /** A `Record<string, number>` as `Object.entries` lists it: its entries in iteration order. */
  type Entries = e: seq<(string, int)> | DistinctKeys(e)

  /** A series as the backend may send it: an array of points, a date→value object, or nothing. */
  datatype SeriesLike = Points(points: seq<Point>) | Mapping(entries: Entries) | Missing

  /** One day of the general (single-series) prediction. */
  datatype PredictionData = PredictionData(date: string, ticket_count: int, is_prediction: bool)

  /** The general prediction response; `metadata` stands for an opaque record that is passed along. */
  datatype PredictionResponse = PredictionResponse(
    historical_data: seq<PredictionData>,
    predictions: seq<PredictionData>,
    model_used: string,
    forecast_period_days: int,
    metadata: map<string, string>)

  /** A forecast subject (company or product) with its two series. */
  datatype CompanyForecast = CompanyForecast(
    company: string,
    best_model: string,
    total_next30: int,
    forecast: SeriesLike,
    raw_series: SeriesLike)

  function Dates(points: seq<Point>): (ds: seq<string>)
    ensures |ds| == |points| && forall i | 0 <= i < |points| :: ds[i] == points[i].date
  {
    seq(|points|, i requires 0 <= i < |points| => points[i].date)
  }

  function Values(points: seq<Point>): (vs: seq<int>)
    ensures |vs| == |points| && forall i | 0 <= i < |points| :: vs[i] == points[i].value
  {
    seq(|points|, i requires 0 <= i < |points| => points[i].value)
  }

  /** The dates of the days of the general prediction, in order. */
  function PredictionDates(days: seq<PredictionData>): (ds: seq<string>)
    ensures |ds| == |days| && forall i | 0 <= i < |days| :: ds[i] == days[i].date
  {
    seq(|days|, i requires 0 <= i < |days| => days[i].date)
  }

  /** The dates of a series in either form: the points' dates or the object's keys (`?? {}` for nothing). */
  function SeriesDates(s: SeriesLike): (ds: seq<string>)
    ensures s.Missing? ==> ds == []
    ensures s.Points? ==> ds == Dates(s.points)
    ensures s.Mapping? ==> |ds| == |s.entries| && forall i | 0 <= i < |ds| :: ds[i] == s.entries[i].0
  {
    match s
    case Points(ps) => Dates(ps)
    case Mapping(es) => seq(|es|, i requires 0 <= i < |es| => es[i].0)
    case Missing => []
  }

  /** `Object.entries(record).map(([date, value]) => ({ date, value: Number(value) }))`. */
  function EntriesToPoints(entries: Entries): (ps: seq<Point>)
    ensures |ps| == |entries|
    ensures forall i | 0 <= i < |entries| :: ps[i] == Point(entries[i].0, entries[i].1)
  {
    seq(|entries|, i requires 0 <= i < |entries| => Point(entries[i].0, entries[i].1))
  }

  /**
   * `normalizeSeries`: an array comes back unchanged, an object gives one point per entry in
   * entry order, and anything else gives the empty series.
   */
  function NormalizeSeries(s: SeriesLike): (ps: seq<Point>)
    ensures s.Points? ==> ps == s.points
    ensures s.Mapping? ==> ps == EntriesToPoints(s.entries)
    ensures s.Missing? ==> ps == []
  {
    match s
    case Points(points) => points
    case Mapping(entries) => EntriesToPoints(entries)
    case Missing => []
  }

  /** Normalising keeps the dates of a series, in their order, whichever form it came in. */
  lemma NormalizeKeepsDates(s: SeriesLike)
    ensures Dates(NormalizeSeries(s)) == SeriesDates(s)
  {
  }

  /** `{"2024-01-01": 5, "2024-01-02": 7}` normalises to the two points in that order. */
  lemma NormalizeMappingExample()
    ensures NormalizeSeries(Mapping([("2024-01-01", 5), ("2024-01-02", 7)]))
         == [Point("2024-01-01", 5), Point("2024-01-02", 7)]
  {
  }
}
