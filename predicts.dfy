/**
 * The per-subject summaries of the forecasting service as `getCompanyPredicts` and
 * `getProductPredicts` map them (app/composables/useServer.ts, lines 115-158): field-name
 * variants resolved, both series turned into arrays and the 30-day total derived when the
 * service leaves it out.
 */
module Predicts {
  import opened Common
  import opened Series

  /** One entry of `best_models_summary`; every field may be missing. */
  datatype SummaryItem = SummaryItem(
    product: Option<string>,
    company: Option<string>,
    best_model: Option<string>,
    model_name: Option<string>,
    total_next30: Option<int>,
    raw_series: Option<Entries>,
    forecast: Option<Entries>)

  /** What the request to the forecasting service gives: a body, or an error of any kind. */
  datatype SummaryReply = Summary(best_models_summary: Option<seq<SummaryItem>>) | RequestFailed

  /** `a ?? b`. */
  function Coalesce(a: Option<string>, b: string): string {
    if a.Some? then a.value else b
  }

  /** `Object.values(forecast).reduce((a, b) => a + Number(b), 0)`: the values added from the left. */
  function SumValues(entries: seq<(string, int)>): int {
    if |entries| == 0 then 0 else SumValues(entries[..|entries| - 1]) + entries[|entries| - 1].1
  }

  /** The sum of the values of a series, first value first. */
  function SumPoints(points: seq<Point>): int {
    if |points| == 0 then 0 else points[0].value + SumPoints(points[1..])
  }

  /** A present object becomes its array of points; a missing one becomes `[]`. */
  function SeriesOf(entries: Option<Entries>): (s: SeriesLike)
    ensures s.Points?
    ensures entries.None? ==> s.points == []
    ensures entries.Some? ==> s.points == EntriesToPoints(entries.value)
  {
    if entries.Some? then Points(EntriesToPoints(entries.value)) else Points([])
  }

  /** `total_next30` if it is a number, else the sum of the forecast, else 0. */
  function TotalNext30(item: SummaryItem): int {
    if item.total_next30.Some? then item.total_next30.value
    else if item.forecast.Some? then SumValues(item.forecast.value)
    else 0
  }

  /** The mapping shared by both requests, for a subject name resolved by the caller. */
  function ToForecast(item: SummaryItem, subject: string): CompanyForecast {
    CompanyForecast(
      subject,
      Coalesce(item.best_model, Coalesce(item.model_name, "Desconhecido")),
      TotalNext30(item),
      SeriesOf(item.forecast),
      SeriesOf(item.raw_series))
  }

  /** `company ?? product ?? 'Unknown'`. */
  function CompanyFromItem(item: SummaryItem): (fc: CompanyForecast)
    ensures fc.company == if item.company.Some? then item.company.value
                          else if item.product.Some? then item.product.value else "Unknown"
    ensures fc == ToForecast(item, fc.company)
  {
    ToForecast(item, Coalesce(item.company, Coalesce(item.product, "Unknown")))
  }

  /** `product ?? 'Unknown'`: the product request ignores the `company` field. */
  function ProductFromItem(item: SummaryItem): (fc: CompanyForecast)
    ensures fc.company == if item.product.Some? then item.product.value else "Unknown"
    ensures fc == ToForecast(item, fc.company)
  {
    ToForecast(item, Coalesce(item.product, "Unknown"))
  }

  function ItemsOf(reply: SummaryReply): seq<SummaryItem> {
    if reply.Summary? && reply.best_models_summary.Some? then reply.best_models_summary.value else []
  }

  /** `getCompanyPredicts`: one forecast per summary item, in order; nothing on any failure. */
  function GetCompanyPredicts(reply: SummaryReply): (fcs: seq<CompanyForecast>)
    ensures reply.RequestFailed? ==> fcs == []
    ensures |fcs| == |ItemsOf(reply)|
    ensures forall i | 0 <= i < |fcs| :: fcs[i] == CompanyFromItem(ItemsOf(reply)[i])
  {
    var items := ItemsOf(reply);
    seq(|items|, i requires 0 <= i < |items| => CompanyFromItem(items[i]))
  }

  /** `getProductPredicts`: the same mapping with the subject taken from `product` alone. */
  function GetProductPredicts(reply: SummaryReply): (fcs: seq<CompanyForecast>)
    ensures reply.RequestFailed? ==> fcs == []
    ensures |fcs| == |ItemsOf(reply)|
    ensures forall i | 0 <= i < |fcs| :: fcs[i] == ProductFromItem(ItemsOf(reply)[i])
  {
    var items := ItemsOf(reply);
    seq(|items|, i requires 0 <= i < |items| => ProductFromItem(items[i]))
  }

  // ---------------------------------------------------------------------------
  // The derived total.
  // ---------------------------------------------------------------------------

  lemma {:induction false} SumPointsAppend(points: seq<Point>, last: Point)
    ensures SumPoints(points + [last]) == SumPoints(points) + last.value
  {
    if |points| > 0 {
      assert (points + [last])[1..] == points[1..] + [last];
      SumPointsAppend(points[1..], last);
    }
  }

  /** Adding the object's values from the left gives the sum of the points it becomes. */
  lemma {:induction false} SumValuesIsSumPoints(entries: Entries)
    ensures SumValues(entries) == SumPoints(EntriesToPoints(entries))
  {
    if |entries| > 0 {
      var init := entries[..|entries| - 1];
      var last := entries[|entries| - 1];
      assert DistinctKeys(init);
      SumValuesIsSumPoints(init);
      assert EntriesToPoints(entries) == EntriesToPoints(init) + [Point(last.0, last.1)];
      SumPointsAppend(EntriesToPoints(init), Point(last.0, last.1));
    }
  }

  /**
   * The total of a mapped subject, whichever way its name was resolved, is the service's
   * own when it sends a number, and otherwise the sum of the subject's forecast values
   * (0 for no forecast).
   */
  lemma DerivedTotal(item: SummaryItem, subject: string)
    ensures var fc := ToForecast(item, subject);
      && (item.total_next30.Some? ==> fc.total_next30 == item.total_next30.value)
      && (item.total_next30.None? ==> fc.total_next30 == SumPoints(NormalizeSeries(fc.forecast)))
  {
    if item.forecast.Some? {
      SumValuesIsSumPoints(item.forecast.value);
    }
  }

  /**
   * The model name falls back from `best_model` to `model_name` to `'Desconhecido'`; the
   * series keep their dates in entry order, `[]` when absent; the subject is the name given.
   */
  lemma ForecastFields(item: SummaryItem, subject: string)
    ensures var fc := ToForecast(item, subject);
      && fc.company == subject
      && fc.best_model == (if item.best_model.Some? then item.best_model.value
                           else if item.model_name.Some? then item.model_name.value else "Desconhecido")
      && SeriesDates(fc.forecast) == (if item.forecast.Some? then SeriesDates(Mapping(item.forecast.value)) else [])
      && SeriesDates(fc.raw_series) == (if item.raw_series.Some? then SeriesDates(Mapping(item.raw_series.value)) else [])
  {
  }

  /**
   * Both requests map every summary item the same way apart from the subject name: the
   * model-name fallback and the derived total hold for the company and the product lists.
   */
  lemma MappedSummaries(reply: SummaryReply, i: nat)
    requires i < |ItemsOf(reply)|
    ensures var item := ItemsOf(reply)[i];
      forall fc | fc in {GetCompanyPredicts(reply)[i], GetProductPredicts(reply)[i]} ::
        && fc.best_model == (if item.best_model.Some? then item.best_model.value
                             else if item.model_name.Some? then item.model_name.value else "Desconhecido")
        && fc.total_next30 == (if item.total_next30.Some? then item.total_next30.value
                               else SumPoints(NormalizeSeries(fc.forecast)))
  {
    var item := ItemsOf(reply)[i];
    var c, p := GetCompanyPredicts(reply)[i], GetProductPredicts(reply)[i];
    DerivedTotal(item, c.company);
    DerivedTotal(item, p.company);
    ForecastFields(item, c.company);
    ForecastFields(item, p.company);
  }

  /** Forecast values 10 and 20 and no total give a total of 30. */
  lemma DerivedTotalExample()
    ensures CompanyFromItem(SummaryItem(None, Some("Acme"), None, None, None, None,
                                        Some([("d1", 10), ("d2", 20)]))).total_next30 == 30
  {
    var e: Entries := [("d1", 10), ("d2", 20)];
    assert e[..1] == [("d1", 10)];
    assert SumValues(e) == 30;
  }
}
