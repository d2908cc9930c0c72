/**
 * The data side of the chart builders: which labels, which dataset values and where the
 * "start of predictions" marker go (app/utils/charts/companyForecastLine.ts,
 * predictionLine.ts and bar.ts). Colours other than the palette, fonts, dash patterns and
 * the other option literals are presentation constants and are not modelled.
 */
module Charts {
  import opened Common
  import opened Series
  import opened Palette

  /** `labels[i]`, which is `undefined` past the end. */
  function LabelAt(labels: seq<string>, i: nat): Option<string> {
    if i < |labels| then Some(labels[i]) else None
  }

  /** `new Array(n).fill(null)`. */
  function Nulls(n: nat): (s: seq<Option<int>>)
    ensures |s| == n && forall i | 0 <= i < n :: s[i].None?
  {
    seq(n, _ => None)
  }

  function Present(values: seq<int>): (s: seq<Option<int>>)
    ensures |s| == |values| && forall i | 0 <= i < |values| :: s[i] == Some(values[i])
  {
    seq(|values|, i requires 0 <= i < |values| => Some(values[i]))
  }

  // ---------------------------------------------------------------------------
  // `useCompanyForecastLineChart`.
  // ---------------------------------------------------------------------------

  datatype CompanyLineChart = CompanyLineChart(
    title: string,
    labels: seq<string>,
    historicalData: seq<int>,
    forecastData: seq<Option<int>>,
    marker: Option<string>)

  function UseCompanyForecastLineChart(company: CompanyForecast): (chart: CompanyLineChart)
    ensures var h, p := NormalizeSeries(company.raw_series), NormalizeSeries(company.forecast);
      && |chart.labels| == |h| + |p|
      && |chart.historicalData| == |h|
      && |chart.forecastData| == |chart.labels|
      && chart.marker == (if |p| > 0 then Some(p[0].date) else None)
      && chart.title == company.company
  {
    var historical := NormalizeSeries(company.raw_series);
    var predicted := NormalizeSeries(company.forecast);
    var labels := Dates(historical) + Dates(predicted);
    var transitionIndex := |historical|;
    CompanyLineChart(
      company.company,
      labels,
      Values(historical),
      Nulls(|historical|) + Present(Values(predicted)),
      LabelAt(labels, transitionIndex))
  }

  /**
   * The labels are the historical dates and then the predicted ones; the historical dataset
   * is the historical values; the forecast dataset is blank under every historical label and
   * holds the predicted values after it; the marker sits on the first predicted date.
   */
  lemma CompanyForecastLayout(company: CompanyForecast)
    ensures var chart := UseCompanyForecastLineChart(company);
      var h, p := NormalizeSeries(company.raw_series), NormalizeSeries(company.forecast);
      && |chart.labels| == |h| + |p|
      && (forall i | 0 <= i < |h| :: chart.labels[i] == h[i].date)
      && (forall i | 0 <= i < |p| :: chart.labels[|h| + i] == p[i].date)
      && chart.historicalData == Values(h)
      && |chart.forecastData| == |chart.labels|
      && (forall i | 0 <= i < |h| :: chart.forecastData[i].None?)
      && (forall i | 0 <= i < |p| :: chart.forecastData[|h| + i] == Some(p[i].value))
      && chart.marker == (if |p| > 0 then Some(p[0].date) else None)
      && chart.title == company.company
  {
  }

  /** The forecast dataset is non-blank exactly from the transition index on. */
  lemma CompanyForecastNonBlank(company: CompanyForecast, i: nat)
    requires i < |UseCompanyForecastLineChart(company).labels|
    ensures UseCompanyForecastLineChart(company).forecastData[i].Some? <==> i >= |NormalizeSeries(company.raw_series)|
  {
  }

  // ---------------------------------------------------------------------------
  // `usePredictionLineChart`.
  // ---------------------------------------------------------------------------

  datatype PredictionLineChart = PredictionLineChart(
    labels: seq<string>,
    actualData: seq<Option<int>>,
    predictedData: seq<Option<int>>,
    marker: Option<string>,
    modelUsed: string)

  function Counts(days: seq<PredictionData>): (cs: seq<int>)
    ensures |cs| == |days| && forall i | 0 <= i < |days| :: cs[i] == days[i].ticket_count
  {
    seq(|days|, i requires 0 <= i < |days| => days[i].ticket_count)
  }

  function UsePredictionLineChart(response: PredictionResponse): (chart: PredictionLineChart)
    ensures |chart.labels| == |response.historical_data| + |response.predictions|
    ensures |chart.actualData| == |chart.labels| && |chart.predictedData| == |chart.labels|
    ensures chart.marker == if |response.predictions| > 0 then Some(response.predictions[0].date) else None
    ensures chart.modelUsed == response.model_used
  {
    var historicalValues := Counts(response.historical_data);
    var predictionValues := Counts(response.predictions);
    var labels := PredictionDates(response.historical_data) + PredictionDates(response.predictions);
    var transitionIndex := |response.historical_data|;
    PredictionLineChart(
      labels,
      Present(historicalValues) + Nulls(|predictionValues|),
      Nulls(|historicalValues|) + Present(predictionValues),
      LabelAt(labels, transitionIndex),
      response.model_used)
  }

  /**
   * Both datasets run along all the labels; at every index exactly one of them has a value:
   * the actual count before the transition index, the predicted count from it on.
   */
  lemma PredictionLineLayout(response: PredictionResponse)
    ensures var chart := UsePredictionLineChart(response);
      var h, p := response.historical_data, response.predictions;
      && |chart.labels| == |h| + |p|
      && |chart.actualData| == |chart.labels| && |chart.predictedData| == |chart.labels|
      && (forall i | 0 <= i < |h| :: chart.labels[i] == h[i].date && chart.actualData[i] == Some(h[i].ticket_count))
      && (forall i | 0 <= i < |p| :: chart.labels[|h| + i] == p[i].date && chart.predictedData[|h| + i] == Some(p[i].ticket_count))
      && (forall i | 0 <= i < |chart.labels| :: chart.actualData[i].Some? <==> i < |h|)
      && (forall i | 0 <= i < |chart.labels| :: chart.predictedData[i].Some? <==> i >= |h|)
      && (forall i | 0 <= i < |chart.labels| :: chart.actualData[i].Some? != chart.predictedData[i].Some?)
      && chart.marker == (if |p| > 0 then Some(p[0].date) else None)
  {
  }

  // ---------------------------------------------------------------------------
  // `useHorizontalBar` and `useVerticalBar`.
  // ---------------------------------------------------------------------------

  /** `...(yMax && { max: yMax })`: a maximum only for a present, non-zero `yMax`. */
  function AxisMax(yMax: Option<int>): (max: Option<int>)
    ensures max.Some? <==> TruthyNumber(yMax)
    ensures max.Some? ==> max == yMax
  {
    if TruthyNumber(yMax) then yMax else None
  }

  datatype HorizontalBar = HorizontalBar(labels: seq<string>, data: seq<int>, backgroundColor: seq<string>, xMax: Option<int>)

  /** `useHorizontalBar`: labels and data as given, the whole palette as colours. */
  function UseHorizontalBar(palette: seq<string>, labels: seq<string>, data: seq<int>, yMax: Option<int>): (chart: HorizontalBar)
    ensures chart.labels == labels && chart.data == data && chart.backgroundColor == palette
    ensures chart.xMax == AxisMax(yMax)
  {
    HorizontalBar(labels, data, palette, AxisMax(yMax))
  }

  /** The indexes of the labels other than `'N/A'`, ascending. */
  function KeptIndexes(labels: seq<string>): (idx: seq<nat>)
    ensures |idx| <= |labels|
    ensures forall k | 0 <= k < |idx| :: idx[k] < |labels| && labels[idx[k]] != "N/A"
    ensures forall k, l | 0 <= k < l < |idx| :: idx[k] < idx[l]
    ensures forall j | 0 <= j < |labels| && labels[j] != "N/A" :: j in idx
  {
    if |labels| == 0 then []
    else
      var init := KeptIndexes(labels[..|labels| - 1]);
      if labels[|labels| - 1] != "N/A" then init + [|labels| - 1] else init
  }

  /** The labels without any `'N/A'`, in order. */
  function WithoutNA(labels: seq<string>): seq<string> {
    if |labels| == 0 then []
    else if labels[0] == "N/A" then WithoutNA(labels[1..])
    else [labels[0]] + WithoutNA(labels[1..])
  }

  /** `data[j]`, which is `undefined` past the end of `data`. */
  function DataAt(data: seq<int>, j: nat): Option<int> {
    if j < |data| then Some(data[j]) else None
  }

  datatype VerticalBar = VerticalBar(labels: seq<string>, data: seq<Option<int>>, backgroundColor: seq<Option<string>>, yMax: Option<int>)

  function UseVerticalBar(palette: seq<string>, labels: seq<string>, data: seq<int>, yMax: Option<int>): (chart: VerticalBar)
    ensures |chart.data| == |chart.labels| == |chart.backgroundColor| <= |labels|
    ensures forall k | 0 <= k < |chart.labels| :: chart.labels[k] != "N/A"
    ensures chart.yMax == AxisMax(yMax)
  {
    var kept := KeptIndexes(labels);
    var filteredLabels := seq(|kept|, k requires 0 <= k < |kept| => labels[kept[k]]);
    var filteredData := seq(|kept|, k requires 0 <= k < |kept| => DataAt(data, kept[k]));
    var colors := seq(|filteredLabels|, i requires 0 <= i < |filteredLabels| => ColorForIndex(palette, i));
    VerticalBar(filteredLabels, filteredData, colors, AxisMax(yMax))
  }

  lemma {:induction false} KeptLabelsWithoutNA(labels: seq<string>)
    ensures var kept := KeptIndexes(labels);
      seq(|kept|, k requires 0 <= k < |kept| => labels[kept[k]]) == WithoutNA(labels)
  {
    if |labels| > 0 {
      var init := labels[..|labels| - 1];
      KeptLabelsWithoutNA(init);
      WithoutNAAppend(init, labels[|labels| - 1]);
      assert labels == init + [labels[|labels| - 1]];
    }
  }

  lemma {:induction false} WithoutNAAppend(labels: seq<string>, last: string)
    ensures WithoutNA(labels + [last]) == WithoutNA(labels) + (if last == "N/A" then [] else [last])
  {
    if |labels| > 0 {
      assert (labels + [last])[1..] == labels[1..] + [last];
      WithoutNAAppend(labels[1..], last);
    } else {
      assert [last][1..] == [];
    }
  }

  /**
   * `useVerticalBar`: the labels are the input's without `'N/A'`, in order; each kept label
   * keeps its own value; the k-th bar's colour is `colorForIndex(k)`.
   */
  lemma VerticalBarFiltersNA(palette: seq<string>, labels: seq<string>, data: seq<int>, yMax: Option<int>)
    ensures var chart := UseVerticalBar(palette, labels, data, yMax);
      var kept := KeptIndexes(labels);
      && chart.labels == WithoutNA(labels)
      && |chart.data| == |chart.labels| == |chart.backgroundColor|
      && (forall k | 0 <= k < |kept| :: chart.labels[k] == labels[kept[k]] && chart.data[k] == DataAt(data, kept[k]))
      && (forall k | 0 <= k < |chart.labels| :: chart.labels[k] != "N/A")
      && (forall i | 0 <= i < |chart.backgroundColor| :: chart.backgroundColor[i] == ColorForIndex(palette, i))
      && chart.yMax == AxisMax(yMax)
  {
    KeptLabelsWithoutNA(labels);
  }

  /** With values for every label, the data keeps each kept label's own value. */
  lemma VerticalBarPairs(palette: seq<string>, labels: seq<string>, data: seq<int>, yMax: Option<int>, j: nat)
    requires |data| == |labels| && j < |labels| && labels[j] != "N/A"
    ensures var chart := UseVerticalBar(palette, labels, data, yMax);
      exists k | 0 <= k < |chart.labels| :: chart.labels[k] == labels[j] && chart.data[k] == Some(data[j])
  {
    var kept := KeptIndexes(labels);
    var k :| 0 <= k < |kept| && kept[k] == j;
    assert UseVerticalBar(palette, labels, data, yMax).labels[k] == labels[j];
  }
}
