/**
 * The date-range helpers of the forecast pages (app/utils/dateRangeHelpers.ts, lines 29-98):
 * the sorted union of the dates of several series, the first prediction day, the day
 * classifiers of the date picker and the window filter of the general prediction.
 * Dates are well-formed `YYYY-MM-DD` texts, whose string order is their chronological order.
 */
module DateRanges {
  import opened Common
  import opened Strings
  import opened CalendarDates
  import opened Series

  /** Every date comes before every later one: ascending and without repetition. */
  predicate StrictlyAscending(s: seq<string>) {
    forall i, j | 0 <= i < j < |s| :: Less(s[i], s[j])
  }

  lemma StrictlyAscendingDistinct(s: seq<string>)
    requires StrictlyAscending(s)
    ensures forall i, j | 0 <= i < j < |s| :: s[i] != s[j]
  {
    forall i, j | 0 <= i < j < |s| ensures s[i] != s[j] {
      LessAsymmetric(s[i], s[j]);
    }
  }

  // ---------------------------------------------------------------------------
  // The `Set` filled by `forEach` and `Array.from(set).sort(…)`.
  // ---------------------------------------------------------------------------

  /** `ds.forEach(d => set.add(d))`. */
  method AddAll(seen: set<string>, ds: seq<string>) returns (result: set<string>)
    ensures forall d :: d in result <==> d in seen || d in ds
  {
    result := seen;
    for i := 0 to |ds|
      invariant forall d :: d in result <==> d in seen || d in ds[..i]
    {
      result := result + {ds[i]};
    }
  }

  /** The earliest date of a non-empty set. */
  method EarliestIn(dates: set<string>) returns (first: string)
    requires dates != {}
    ensures first in dates && forall d | d in dates :: LessEq(first, d)
  {
    first :| first in dates;
    var rest := dates - {first};
    while rest != {}
      invariant first in dates && rest <= dates
      invariant forall d | d in dates && d !in rest :: LessEq(first, d)
      decreases |rest|
    {
      var d :| d in rest;
      LessTotal(first, d);
      if Less(d, first) {
        forall e | e in dates && e !in rest
          ensures LessEq(d, e)
        {
          LessEqTransitive(d, first, e);
        }
        first := d;
      }
      rest := rest - {d};
    }
  }

  /** `Array.from(set).sort(…)`: the dates of a set, ascending. */
  method SortDates(dates: set<string>) returns (sorted: seq<string>)
    ensures StrictlyAscending(sorted)
    ensures forall d :: d in sorted <==> d in dates
  {
    sorted := [];
    var rest := dates;
    while rest != {}
      invariant rest <= dates
      invariant forall d :: d in dates <==> d in rest || d in sorted
      invariant forall i, d | 0 <= i < |sorted| && d in rest :: Less(sorted[i], d)
      invariant StrictlyAscending(sorted)
      decreases |rest|
    {
      var next := EarliestIn(rest);
      sorted := sorted + [next];
      rest := rest - {next};
    }
  }

  /** The dates of a subject's historical and predicted series. */
  predicate InSubject(d: string, fc: CompanyForecast) {
    d in SeriesDates(fc.raw_series) || d in SeriesDates(fc.forecast)
  }

  /**
   * `extractAvailableDates`: every date of every subject's `raw_series` and `forecast`
   * (array or object), once each, ascending.
   */
  method ExtractAvailableDates(forecasts: seq<CompanyForecast>) returns (dates: seq<string>)
    ensures StrictlyAscending(dates)
    ensures forall d :: d in dates <==> exists k | 0 <= k < |forecasts| :: InSubject(d, forecasts[k])
  {
    var seen: set<string> := {};
    for k := 0 to |forecasts|
      invariant forall d :: d in seen <==> exists j | 0 <= j < k :: InSubject(d, forecasts[j])
    {
      seen := AddAll(seen, SeriesDates(forecasts[k].raw_series));
      seen := AddAll(seen, SeriesDates(forecasts[k].forecast));
    }
    dates := SortDates(seen);
  }

  /**
   * `extractGeneralAvailableDates`: nothing for no response; otherwise the dates of the
   * historical days and the predictions, once each, ascending.
   */
  method ExtractGeneralAvailableDates(data: Option<PredictionResponse>) returns (dates: seq<string>)
    ensures data.None? ==> dates == []
    ensures StrictlyAscending(dates)
    ensures data.Some? ==> forall d :: d in dates <==>
      d in PredictionDates(data.value.historical_data) || d in PredictionDates(data.value.predictions)
  {
    if data.None? {
      return [];
    }
    var seen: set<string> := {};
    seen := AddAll(seen, PredictionDates(data.value.historical_data));
    seen := AddAll(seen, PredictionDates(data.value.predictions));
    dates := SortDates(seen);
  }

  // ---------------------------------------------------------------------------
  // The first prediction day.
  // ---------------------------------------------------------------------------

  /** All of `ds` lie at or after `b` when they lie at or after some `a` with `b <= a`. */
  lemma AllAfter(b: string, a: string, ds: seq<string>)
    requires LessEq(b, a)
    requires forall d | d in ds :: LessEq(a, d)
    ensures forall d | d in ds :: LessEq(b, d)
  {
    forall d | d in ds ensures LessEq(b, d) {
      LessEqTransitive(b, a, d);
    }
  }

  /** `dates.reduce((a, b) => a < b ? a : b)`: the earliest of a non-empty list of dates. */
  function Earliest(dates: seq<string>): (first: string)
    requires |dates| > 0
    ensures first in dates
    ensures forall d | d in dates :: LessEq(first, d)
  {
    if |dates| == 1 then dates[0]
    else
      var init := dates[..|dates| - 1];
      var a, b := Earliest(init), dates[|dates| - 1];
      assert dates == init + [b];
      if Less(a, b) then a
      else
        LessTotal(a, b);
        AllAfter(b, a, init);
        b
  }

  function ForecastDates(fc: CompanyForecast): seq<string> {
    SeriesDates(fc.forecast)
  }

  /**
   * `findEarliestPredictionDate`: nothing exactly when no subject has a forecast date;
   * otherwise a forecast date that no forecast date precedes.
   */
  method FindEarliestPredictionDate(forecasts: seq<CompanyForecast>) returns (min: Option<string>)
    ensures min.None? <==> forall k | 0 <= k < |forecasts| :: ForecastDates(forecasts[k]) == []
    ensures min.Some? ==> exists k | 0 <= k < |forecasts| :: min.value in ForecastDates(forecasts[k])
    ensures min.Some? ==> forall k, d | 0 <= k < |forecasts| && d in ForecastDates(forecasts[k]) :: LessEq(min.value, d)
  {
    min := None;
    for k := 0 to |forecasts|
      invariant min.None? <==> forall j | 0 <= j < k :: ForecastDates(forecasts[j]) == []
      invariant min.Some? ==> exists j | 0 <= j < k :: min.value in ForecastDates(forecasts[j])
      invariant min.Some? ==> forall j, d | 0 <= j < k && d in ForecastDates(forecasts[j]) :: LessEq(min.value, d)
    {
      var dates := ForecastDates(forecasts[k]);
      if |dates| > 0 {
        var localMin := Earliest(dates);
        if min.None? || Less(localMin, min.value) {
          if min.Some? {
            var previous := min.value;
            forall j, d | 0 <= j < k && d in ForecastDates(forecasts[j])
              ensures LessEq(localMin, d)
            {
              LessEqTransitive(localMin, previous, d);
            }
          }
          min := Some(localMin);
        } else {
          LessTotal(localMin, min.value);
          AllAfter(min.value, localMin, dates);
        }
      }
    }
  }

  /**
   * `findGeneralPredictionStart`: nothing for no response or no predictions; otherwise the
   * date of a prediction that no prediction precedes.
   */
  function FindGeneralPredictionStart(data: Option<PredictionResponse>): (start: Option<string>)
    ensures start.None? <==> data.None? || |data.value.predictions| == 0
    ensures start.Some? ==> exists i | 0 <= i < |data.value.predictions| :: data.value.predictions[i].date == start.value
    ensures start.Some? ==> forall i | 0 <= i < |data.value.predictions| :: LessEq(start.value, data.value.predictions[i].date)
  {
    if data.None? || |data.value.predictions| == 0 then None
    else
      var dates := PredictionDates(data.value.predictions);
      var first := Earliest(dates);
      assert forall i | 0 <= i < |dates| :: dates[i] in dates;
      Some(first)
  }

  // ---------------------------------------------------------------------------
  // The date picker's classifiers.
  // ---------------------------------------------------------------------------

  /** The three closures `createDateClassifiers` returns. */
  datatype DateClassifiers = DateClassifiers(
    isHistorical: CalendarDate -> bool,
    isPrediction: CalendarDate -> bool,
    isHighlightable: CalendarDate -> bool)

  predicate IsHistorical(allowed: set<string>, predictionStart: Option<string>, day: CalendarDate) {
    var text := DateValueToISO(day);
    if text !in allowed then false
    else if !TruthyText(predictionStart) then true
    else Less(text, predictionStart.value)
  }

  /** `dateStr >= predictionStart`, which JavaScript evaluates as `!(dateStr < predictionStart)`. */
  predicate IsPrediction(allowed: set<string>, predictionStart: Option<string>, day: CalendarDate) {
    var text := DateValueToISO(day);
    if text !in allowed then false
    else if !TruthyText(predictionStart) then false
    else !Less(text, predictionStart.value)
  }

  predicate IsHighlightable(predictionStart: Option<string>, day: CalendarDate) {
    if !TruthyText(predictionStart) then false
    else DateValueToISO(day) == predictionStart.value
  }

  function CreateDateClassifiers(allowed: set<string>, predictionStart: Option<string>): (c: DateClassifiers)
    ensures forall day :: c.isHistorical(day) == IsHistorical(allowed, predictionStart, day)
    ensures forall day :: c.isPrediction(day) == IsPrediction(allowed, predictionStart, day)
    ensures forall day :: c.isHighlightable(day) == IsHighlightable(predictionStart, day)
  {
    DateClassifiers(
      day => IsHistorical(allowed, predictionStart, day),
      day => IsPrediction(allowed, predictionStart, day),
      day => IsHighlightable(predictionStart, day))
  }

  /**
   * A day outside the allowed set is neither historical nor a prediction; an allowed day is
   * historical before the prediction start and a prediction from it on, never both; with no
   * start every allowed day is historical; only the start itself is highlighted.
   */
  lemma ClassifiersPartition(allowed: set<string>, predictionStart: Option<string>, day: CalendarDate)
    ensures var c := CreateDateClassifiers(allowed, predictionStart);
      var text := DateValueToISO(day);
      && (text !in allowed ==> !c.isHistorical(day) && !c.isPrediction(day))
      && (text in allowed && TruthyText(predictionStart) ==>
            (c.isHistorical(day) <==> Less(text, predictionStart.value))
            && (c.isPrediction(day) <==> LessEq(predictionStart.value, text))
            && (c.isHistorical(day) <==> !c.isPrediction(day)))
      && (text in allowed && !TruthyText(predictionStart) ==> c.isHistorical(day) && !c.isPrediction(day))
      && (c.isHighlightable(day) <==> TruthyText(predictionStart) && text == predictionStart.value)
  {
    if TruthyText(predictionStart) {
      NotLessIsLessEq(DateValueToISO(day), predictionStart.value);
    }
  }

  /** The highlighted day, when it is allowed, is the first prediction day. */
  lemma HighlightIsFirstPrediction(allowed: set<string>, predictionStart: Option<string>, day: CalendarDate)
    requires IsHighlightable(predictionStart, day) && DateValueToISO(day) in allowed
    ensures IsPrediction(allowed, predictionStart, day) && !IsHistorical(allowed, predictionStart, day)
  {
    LessIrreflexive(predictionStart.value);
  }

  // ---------------------------------------------------------------------------
  // `filterGeneralDataByRange`.
  // ---------------------------------------------------------------------------

  /** `d >= start && d <= end`, as JavaScript compares strings. */
  predicate Within(start: string, end: string, d: string) {
    !Less(d, start) && !Less(end, d)
  }

  lemma WithinIsBetween(start: string, end: string, d: string)
    ensures Within(start, end, d) <==> LessEq(start, d) && LessEq(d, end)
  {
    NotLessIsLessEq(d, start);
    NotLessIsLessEq(end, d);
  }

  /** `days.filter(d => within(d.date))`. */
  function FilterWithin(days: seq<PredictionData>, start: string, end: string): (kept: seq<PredictionData>)
    ensures |kept| <= |days|
    ensures forall x | x in kept :: x in days && Within(start, end, x.date)
    ensures forall x | x in days && Within(start, end, x.date) :: x in kept
    ensures forall x :: multiset(kept)[x] == if Within(start, end, x.date) then multiset(days)[x] else 0
  {
    if |days| == 0 then []
    else
      var rest := FilterWithin(days[1..], start, end);
      assert days == [days[0]] + days[1..];
      if Within(start, end, days[0].date) then [days[0]] + rest else rest
  }

  /** `r` is `s` with some elements left out, the rest in their order. */
  predicate SubsequenceOf<T(==)>(r: seq<T>, s: seq<T>)
    decreases |s|
  {
    if |r| == 0 then true
    else if |s| == 0 then false
    else if r[0] == s[0] then SubsequenceOf(r[1..], s[1..])
    else SubsequenceOf(r, s[1..])
  }

  lemma {:induction false} SubsequenceDropFirst<T>(r: seq<T>, s: seq<T>, x: T)
    requires SubsequenceOf(r, s)
    ensures SubsequenceOf(r, [x] + s)
    decreases |s|, 1
  {
    var t := [x] + s;
    assert t[1..] == s;
    if |r| > 0 && r[0] == x {
      // Matching `x` greedily leaves `r[1..]`, a subsequence of `s` since `r` is.
      SubsequenceTail(r, s);
    }
  }

  lemma {:induction false} SubsequenceTail<T>(r: seq<T>, s: seq<T>)
    requires |r| > 0 && SubsequenceOf(r, s)
    ensures SubsequenceOf(r[1..], s)
    decreases |s|, 0
  {
    if r[0] == s[0] {
      SubsequenceDropFirst(r[1..], s[1..], s[0]);
      assert [s[0]] + s[1..] == s;
    } else {
      SubsequenceTail(r, s[1..]);
      SubsequenceDropFirst(r[1..], s[1..], s[0]);
      assert [s[0]] + s[1..] == s;
    }
  }

  /** The filter keeps the order of the days it keeps. */
  lemma {:induction false} FilterWithinSubsequence(days: seq<PredictionData>, start: string, end: string)
    ensures SubsequenceOf(FilterWithin(days, start, end), days)
  {
    if |days| > 0 {
      FilterWithinSubsequence(days[1..], start, end);
      var rest := FilterWithin(days[1..], start, end);
      if !Within(start, end, days[0].date) {
        SubsequenceDropFirst(rest, days[1..], days[0]);
        assert [days[0]] + days[1..] == days;
      }
    }
  }

  datatype DateRange = DateRange(start: Option<string>, end: Option<string>)

  /**
   * `filterGeneralDataByRange`: no response stays none; a missing start or end leaves the
   * response as it is; otherwise both lists keep, in order, just the days inside the
   * inclusive window, and every other field stays.
   */
  function FilterGeneralDataByRange(data: Option<PredictionResponse>, range: DateRange): (r: Option<PredictionResponse>)
    ensures data.None? ==> r.None?
    ensures data.Some? && (!TruthyText(range.start) || !TruthyText(range.end)) ==> r == data
    ensures data.Some? && TruthyText(range.start) && TruthyText(range.end) ==>
      r.Some?
      && r.value.model_used == data.value.model_used
      && r.value.forecast_period_days == data.value.forecast_period_days
      && r.value.metadata == data.value.metadata
      && r.value.historical_data == FilterWithin(data.value.historical_data, range.start.value, range.end.value)
      && r.value.predictions == FilterWithin(data.value.predictions, range.start.value, range.end.value)
  {
    if data.None? then None
    else if !TruthyText(range.start) || !TruthyText(range.end) then data
    else
      var start, end := range.start.value, range.end.value;
      Some(data.value.(
        historical_data := FilterWithin(data.value.historical_data, start, end),
        predictions := FilterWithin(data.value.predictions, start, end)))
  }

  /**
   * With both bounds given, each list of the filtered response is an order-preserving
   * selection of the original holding exactly the days with `start <= date <= end`.
   */
  lemma FilterGeneralDataByRangeWindow(data: PredictionResponse, start: string, end: string)
    requires start != "" && end != ""
    ensures var r := FilterGeneralDataByRange(Some(data), DateRange(Some(start), Some(end))).value;
      && SubsequenceOf(r.historical_data, data.historical_data)
      && SubsequenceOf(r.predictions, data.predictions)
      && (forall x | x in data.historical_data :: x in r.historical_data <==> LessEq(start, x.date) && LessEq(x.date, end))
      && (forall x | x in data.predictions :: x in r.predictions <==> LessEq(start, x.date) && LessEq(x.date, end))
      && (forall x :: multiset(r.historical_data)[x] ==
            if LessEq(start, x.date) && LessEq(x.date, end) then multiset(data.historical_data)[x] else 0)
      && (forall x :: multiset(r.predictions)[x] ==
            if LessEq(start, x.date) && LessEq(x.date, end) then multiset(data.predictions)[x] else 0)
  {
    FilterWithinSubsequence(data.historical_data, start, end);
    FilterWithinSubsequence(data.predictions, start, end);
    forall x: PredictionData { WithinIsBetween(start, end, x.date); }
  }
}
