# Forecast dashboard front-end: a Dafny model of its data core

This is a model of the data logic of the VisionData dashboard, a Nuxt front-end that shows
ticket metrics and ticket forecasts. The model covers:

- the calendar-day helpers behind the date pickers of the forecast pages;
- the normalisation of forecast series;
- the mapping of the forecasting service's per-company and per-product summaries;
- the data layout of the line and bar charts;
- request construction in the API client: auth headers, header merge, the 401 branch and the URL templates;
- the module-level token cache of the auth composable;
- the admin route guard;
- the two colour helpers.

Modules:

| module | file | models |
|---|---|---|
| `Common` | common.dfy | `Option`, JavaScript truthiness of a string and a number |
| `Strings` | strings.dfy | JavaScript string `<`, `split`, `parseInt(_, 10)`, `String(n)`, `padStart(2, '0')` |
| `CalendarDates` | dates.dfy | `parseISOToCalendarDate`, `toISOFromCalendarDate`, `dateValueToISO` |
| `Series` | series.dfy | the forecast payload types and `normalizeSeries` |
| `DateRanges` | ranges.dfy | the rest of app/utils/dateRangeHelpers.ts |
| `Palette` | palette.dfy | `colorForIndex`, `useColor` |
| `Charts` | charts.dfy | `useCompanyForecastLineChart`, `usePredictionLineChart`, `useHorizontalBar`, `useVerticalBar` |
| `Predicts` | predicts.dfy | the summary mapping of `getCompanyPredicts` / `getProductPredicts` |
| `Auth` | auth.dfy | the `token` cache and `getToken`, `login`, `logout` |
| `ApiClient` | client.dfy | `getAuthHeaders`, `authenticatedFetch`, the endpoint wrappers |
| `AdminGate` | admin.dfy | the `admin` route middleware |

Modelling choices:

- **Dates** are `YYYY-MM-DD` texts, compared by `Strings.Less`, a lexicographic order on characters that is proved to be a strict total order. On text in the Basic Multilingual Plane, such as dates, it is JavaScript's string `<`. For dates with four-digit years this is also the order the code gets from `new Date(…)` in its sorts and reductions.
- **Values** are unbounded integers.
- **An object** (`Record<string, number>`) is the sequence of its entries in iteration order, with distinct keys.
- **Imperative code is modelled as code.**
  - `extractAvailableDates`, `extractGeneralAvailableDates` and `findEarliestPredictionDate` fill a set or update a variable inside a loop. They are methods with loop invariants.
  - `Array.prototype.sort` is a selection sort over the collected set.
  - The token cache is a class, `Auth.TokenCache`, whose methods change its one field.
  - `getAuthHeaders` and `authenticatedFetch` are methods over that cache.
- **Outside effects are parameters.** The outcome of every network request, of the session refresh and clear, and whether the code runs in the browser (`import.meta.client`) are inputs. The HTTP call of `authenticatedFetch` is a function parameter, `respond`.

## Model

| member | source | states |
|---|---|---|
| CalendarDates.ParseISOToCalendarDate | app/utils/dateRangeHelpers.ts:6-11 | null or empty text gives nothing; a result has non-zero fields that are the `parseInt` readings of the first three dash-separated fields; for a non-empty text there is a result exactly when all three readings are non-zero numbers |
| CalendarDates.ToISOFromCalendarDate | app/utils/dateRangeHelpers.ts:13-19 | no date gives null; a date gives its `y-MM-DD` text, the same text `dateValueToISO` gives |
| CalendarDates.DateValueToISO | app/utils/dateRangeHelpers.ts:21-27 | the `y-MM-DD` text of a date value; for year, month and day all at least 1 it reads back to the same date (proved through `CalendarDates.ParseFormatted`) |
| CalendarDates.ParseFormatted | app/utils/dateRangeHelpers.ts:6-27 | the `y-MM-DD` text of a date with positive fields reads back to that date |
| CalendarDates.ParseAfterFormat | app/utils/dateRangeHelpers.ts:6-19 | for year, month and day all at least 1, reading back the formatted text gives the same date |
| CalendarDates.FormatAfterParse | app/utils/dateRangeHelpers.ts:6-19 | for a text naming a real calendar day (year 1-9999 without leading zero, two-digit month 01-12, two-digit day within that month by the Gregorian leap rule), the parsed date is that real day, which the `CalendarDate` constructor keeps unclamped, and it formats back to the same text |
| CalendarDates.LeapDayExamples | app/utils/dateRangeHelpers.ts:6-19 | `2024-02-29` names a real day and `2023-02-29` does not, so the round trip is claimed only for the first |
| CalendarDates.OutOfRangeDayExamples | app/utils/dateRangeHelpers.ts:6-19 | `2024-02-30` and `2024-13-01` do not name real days, so the round trip, which the constructor's clamp breaks on them, is not claimed |
| Series.NormalizeSeries | app/utils/charts/companyForecastLine.ts:17-26 | an array comes back unchanged; an object gives one `{date, value}` per entry, key as date, in entry order; anything else gives `[]` |
| Series.NormalizeKeepsDates | app/utils/charts/companyForecastLine.ts:17-26 | the normalised series has the same dates in the same order as the input in either form |
| Series.NormalizeMappingExample | app/utils/charts/companyForecastLine.ts:17-26 | `{"2024-01-01": 5, "2024-01-02": 7}` becomes the two points `{date, value}` in that order |
| DateRanges.AddAll | app/utils/dateRangeHelpers.ts:32-35 | the set after the `forEach` holds the old members and every date of the list, and nothing else |
| DateRanges.SortDates | app/utils/dateRangeHelpers.ts:37 | the result is strictly ascending and holds exactly the members of the set |
| DateRanges.ExtractAvailableDates | app/utils/dateRangeHelpers.ts:29-38 | strictly ascending (so duplicate-free), and a date is in it exactly when it is in some subject's `raw_series` or `forecast`, array or object |
| DateRanges.ExtractGeneralAvailableDates | app/utils/dateRangeHelpers.ts:40-46 | `[]` for no response; otherwise strictly ascending and exactly the dates of `historical_data` and `predictions` |
| DateRanges.Earliest | app/utils/dateRangeHelpers.ts:53 | the `reduce` picks a member of the list that is at or before every member |
| DateRanges.FindEarliestPredictionDate | app/utils/dateRangeHelpers.ts:48-58 | null exactly when no subject has a forecast date; otherwise a date of some forecast at or before every forecast date |
| DateRanges.FindGeneralPredictionStart | app/utils/dateRangeHelpers.ts:60-63 | null exactly for no response or no predictions; otherwise the date of some prediction at or before every prediction's date |
| DateRanges.CreateDateClassifiers | app/utils/dateRangeHelpers.ts:65-84 | the three closures decide exactly `IsHistorical`, `IsPrediction` and `IsHighlightable` for every day; `DateRanges.ClassifiersPartition` states what those decide |
| DateRanges.ClassifiersPartition | app/utils/dateRangeHelpers.ts:65-84 | a day outside the allowed set is neither historical nor prediction; with a start, an allowed day is historical iff before it and prediction iff at or after it, exactly one of the two; with no start, allowed days are historical only; a day is highlighted iff it is the start |
| DateRanges.HighlightIsFirstPrediction | app/utils/dateRangeHelpers.ts:73-82 | an allowed highlighted day is a prediction day and not a historical one |
| DateRanges.WithinIsBetween | app/utils/dateRangeHelpers.ts:93 | `d >= start && d <= end` holds iff `start <= d <= end` in the string order |
| DateRanges.FilterWithin | app/utils/dateRangeHelpers.ts:96-97 | every day inside the window is kept as often as it occurs in the input, and no day outside it is kept; the result is no longer than the input |
| DateRanges.FilterWithinSubsequence | app/utils/dateRangeHelpers.ts:96-97 | the kept days are a subsequence of the input: their relative order is kept |
| DateRanges.FilterGeneralDataByRange | app/utils/dateRangeHelpers.ts:86-98 | no response gives none; a missing start or end returns the response unchanged; otherwise both lists are filtered to the window and `model_used`, `forecast_period_days` and `metadata` are unchanged |
| DateRanges.FilterGeneralDataByRangeWindow | app/utils/dateRangeHelpers.ts:86-98 | with both bounds, each filtered list is an order-preserving selection of the input that keeps every day with `start <= date <= end` as often as it occurs, and no other day |
| Palette.JsRemainder | app/utils/index.ts:9 | JavaScript `%`: the Euclidean remainder for a non-negative index; for a negative one `-((-i) mod n)`, a value in `(-n, 0]` that is 0 exactly when `n` divides the index |
| Palette.ColorForIndex | app/utils/index.ts:8-10 | palette entry `i mod n` for `i >= 0`; `undefined` for an empty palette; for negative `i` a colour exactly when `n` divides `i`, and then the first entry (the `-0` remainder); every colour returned is in the palette |
| Palette.ColorForIndexPeriodic | app/utils/index.ts:9 | for `i >= 0`, `colorForIndex(i + n) == colorForIndex(i)` (a negative index is not periodic: `-1` gives `undefined`, `n - 1` a colour) |
| Palette.ColorForIndexCoversPalette | app/utils/index.ts:9 | the first `n` indexes get the palette's colours in order |
| Palette.UseColor | app/utils/index.ts:27-40 | every result is one of success, info, warning, error, neutral |
| Palette.UseColorClassifies | app/utils/index.ts:28-38 | the result is non-neutral iff the text is one of the four priority labels, and then it names that label back through `PriorityOf`; every other text is neutral |
| Palette.PriorityOfRoundTrip | app/utils/index.ts:29-36 | each of success, info, warning and error is the colour of its own priority label |
| Charts.UseCompanyForecastLineChart | app/utils/charts/companyForecastLine.ts:28-77 | as many labels as historical and predicted points together; the historical dataset has one value per historical point; the forecast dataset is as long as the labels; the marker is the first predicted date (none without predictions); the title is the subject. `Charts.CompanyForecastLayout` gives every position |
| Charts.CompanyForecastLayout | app/utils/charts/companyForecastLine.ts:28-39 | labels are the historical dates then the predicted ones; the historical dataset is the historical values; the forecast dataset has a null under each historical label and then the predicted values, as long as the labels; the marker is the first predicted date (none without predictions); the title is the subject |
| Charts.CompanyForecastNonBlank | app/utils/charts/companyForecastLine.ts:33-39 | the forecast dataset is non-null at index `i` exactly when `i >= |historical|` |
| Charts.PredictionLineLayout | app/utils/charts/predictionLine.ts:9-32 | labels are the historical then the predicted dates; both datasets are as long as the labels; the first is non-null exactly before the transition index and the second exactly from it on, never both; the marker is `labels[transitionIndex]` |
| Charts.UsePredictionLineChart | app/utils/charts/predictionLine.ts:9-51 | as many labels as historical and predicted days together; both datasets as long as the labels; the marker is the first prediction's date (none without predictions); the model name is the response's. `Charts.PredictionLineLayout` gives every position |
| Charts.AxisMax | app/utils/charts/bar.ts:31 | a maximum is set exactly when `yMax` is present and non-zero, and then it is `yMax` |
| Charts.UseHorizontalBar | app/utils/charts/bar.ts:5-41 | labels and data pass through unchanged, the colours are the whole palette, and the `x` maximum follows the truthiness rule |
| Charts.KeptIndexes | app/utils/charts/bar.ts:49-50 | the kept indexes are ascending, in range and no more than the labels, and they are exactly the indexes of labels other than `'N/A'` |
| Charts.UseVerticalBar | app/utils/charts/bar.ts:43-76 | labels, values and colours are equally long and no longer than the input; no label is `'N/A'`; the `y` maximum follows the truthiness rule. `Charts.VerticalBarFiltersNA` gives the contents |
| Charts.VerticalBarFiltersNA | app/utils/charts/bar.ts:49-62 | the labels are the input's without `'N/A'`, in order; the k-th value is the input value at the k-th kept index; the k-th colour is `colorForIndex(k)`; the three lists are equally long; the `y` maximum follows the truthiness rule |
| Charts.VerticalBarPairs | app/utils/charts/bar.ts:49-52 | with one value per label, every kept label appears with its own value |
| Predicts.CompanyFromItem | app/composables/useServer.ts:118-130 | the subject is `company ?? product ?? 'Unknown'`, and the rest is the shared mapping `ToForecast` |
| Predicts.ProductFromItem | app/composables/useServer.ts:141-153 | the subject is `product ?? 'Unknown'`, and the rest is the shared mapping `ToForecast` |
| Predicts.SeriesOf | app/composables/useServer.ts:124-129 | a present object becomes its points in entry order; a missing one becomes `[]` |
| Predicts.GetCompanyPredicts | app/composables/useServer.ts:115-135 | `[]` on a failed request; otherwise one forecast per summary item in order (none for a missing `best_models_summary`) |
| Predicts.GetProductPredicts | app/composables/useServer.ts:138-158 | `[]` on a failed request; otherwise one forecast per summary item in order, with the subject from `product` only |
| Predicts.SumValuesIsSumPoints | app/composables/useServer.ts:123 | adding the object's values from the left equals the sum of the points it converts to |
| Predicts.DerivedTotal | app/composables/useServer.ts:121-123 | for any subject name, the total is the service's number when it sends one; otherwise the sum of the subject's normalised forecast values, 0 without a forecast |
| Predicts.DerivedTotalExample | app/composables/useServer.ts:121-123 | a summary with forecast values 10 and 20 and no total gets the total 30 |
| Predicts.ForecastFields | app/composables/useServer.ts:120-130 | for any subject name, the subject is that name; the model name is `best_model ?? model_name ?? 'Desconhecido'`; both series keep their dates in entry order, `[]` when absent |
| Predicts.MappedSummaries | app/composables/useServer.ts:118-153 | in both the company and the product list, the i-th forecast has the model-name fallback and the derived total of the i-th summary item |
| Auth.TokenOf | app/composables/useAuth.ts:15 | `session?.token \|\| null`: a token exactly when the session has a non-empty one |
| Auth.TokenCache.GetToken | app/composables/useAuth.ts:8-21 | a non-empty cached token is returned with no lookup and the cache kept; on a miss the session's token or null is stored and returned; a failed lookup returns null and keeps the cache; the cache never holds `""` |
| Auth.TokenCache.Login | app/composables/useAuth.ts:23-34 | when the login request, the refresh and the session read all complete, the cache holds the session's token or null; if any throws, the cache is unchanged |
| Auth.TokenCache.Logout | app/composables/useAuth.ts:36-45 | a failing logout request leaves the cache unchanged; once it completes the cache is null, and the outcome is navigation to `/login` unless clearing the session throws |
| Auth.CacheScenario | app/composables/useAuth.ts:8-45 | a fresh cache looks the session up, a filled cache is served without a lookup, and after a completed logout the next `getToken` looks the session up again |
| ApiClient.AuthHeaders | app/composables/useServer.ts:31-42 | `Content-Type: application/json` always; `Authorization` present iff the token is truthy, and then `Bearer <token>`; no other keys |
| ApiClient.GetAuthHeaders | app/composables/useServer.ts:31-42 | the headers built are those of the token `getToken` resolves from the cache and the lookup; the cache is kept on a hit or a failed lookup, and filled with the session's token (or null) on a miss |
| ApiClient.MergeHeaders | app/composables/useServer.ts:47-50 | caller header values win on shared keys, auth-only keys are kept, and absent or non-object caller headers leave the auth headers as they are |
| ApiClient.CallerHeadersOverride | app/composables/useServer.ts:47-50 | a caller `Authorization` replaces the client's; without one, `Authorization` is present iff a token was resolved; `Content-Type` stays JSON unless the caller sets it |
| ApiClient.AuthenticatedFetch | app/composables/useServer.ts:44-72 | one request is made, with the merged headers and the caller's method and body; a success returns its value; any error is rethrown unchanged; navigation to `/login` happens exactly for a 401 `status` or `statusCode` in the browser; the cache ends as `getAuthHeaders` leaves it |
| ApiClient.TicketsQueryFields | app/composables/useServer.ts:78-80 | for a `q` without `&`: split at `&`, the query is `q=<q>` only for a non-empty `q`, then `page=<p>`, then `page_size=<s>` |
| ApiClient.TicketsQueryUnencoded | app/composables/useServer.ts:78-80 | `q` is not encoded: page 1, size 10 and `q = "R&D"` give the fields `q=R`, `D`, `page=1`, `page_size=10` |
| ApiClient.TicketsQueryExample | app/composables/useServer.ts:79 | `getTicketsQuery(2, 10, 'foo')` requests `…/tickets/query?q=foo&page=2&page_size=10` |
| ApiClient.AllTermsDefaults | app/composables/useServer.ts:199-201 | `getAllTerms()` is `getAllTerms(1, 10)`, `…/terms?page=1&pageSize=10` |
| ApiClient.Route | app/composables/useServer.ts:74-245 | no wrapper sets caller headers; the read wrappers pass no method, body or headers; ticket creation is POST and update is PUT, both with the stringified data; term creation is POST with the data as an object; the ticket and user deletions are DELETE, and term activation and deactivation are PATCH, all without a body; a ticket's get, update and delete share the path `/tickets/<id>` |
| ApiClient.CallUrl | app/composables/useServer.ts:74-245 | every authenticated URL is the backend base URL followed by a path |
| ApiClient.PublicRequest | app/composables/useServer.ts:108-178 | the public calls and the forecasting-service calls never carry `Authorization`; the first go to the backend, the others to the forecasting service |
| AdminGate.AdminRedirect | app/middleware/admin.ts:1-7 | no redirect exactly for a user whose type is `ADMIN` or `MANAGER`; any other user, or none, is redirected to `/` |
| AdminGate.AdminRedirectCases | app/middleware/admin.ts:4-5 | no user, `AGENT` and `USER` are redirected; `ADMIN` and `MANAGER` pass |

## Left out

- `getTicketsQuery` does not URL-encode `q`, so a search text containing `&` adds query fields (`ApiClient.TicketsQueryUnencoded` shows one); `ApiClient.TicketsQueryFields` is therefore stated only for a `q` without `&`.
- HTTP (`$fetch`), `navigateTo`, `useUserSession` and its refresh and clear: their outcomes are inputs; console logging is not modelled.
- Interleaving on the event loop is not modelled: each of `getToken`, `login` and `logout` runs as one step on the token cache. For example, a `getToken` miss still awaiting the session could write a token back after `logout` has set the cache to null.
- `Strings.Less` compares Unicode scalar values, while JavaScript's `<` compares UTF-16 code units; the two differ only when a character above U+FFFF meets one in U+E000–U+FFFF, which cannot happen in date texts.
- `authenticatedFetch` has no 403 handling and does not clear the session on a 401: it only navigates and rethrows, and the model does the same.
- ApiClient.AuthenticatedFetch: an error that escapes `getAuthHeaders` is not modelled, because `getToken` catches its own lookup failure and `getAuthHeaders` has no other failing step.
- ApiClient.AuthenticatedFetch: an error object that has a `status` or `statusCode` key whose value is not a number is treated like any non-401 error, which is what the code does.
- The `new Date(…)` comparisons in the sorts and reductions are modelled as string order, which agrees with them on `YYYY-MM-DD` dates with four-digit years; invalid dates (NaN times) are not modelled.
- The range checking of the `CalendarDate` constructor of `@internationalized/date` (month and day clamped into range) is foreign code: a parsed date carries the numbers as read.
- CalendarDates.FormatAfterParse: stated only for texts naming a real calendar day. In the code, the constructor clamps an out-of-range month or day, so `2024-02-30` comes back as `2024-02-29`; the model does not clamp, so that round trip fails in the code exactly where the lemma makes no claim.
- `Number(…)` coercion of non-numeric values (NaN) and floating-point values: values are `int`.
- `Object.entries` / `Object.keys` list integer-like keys first in ascending order; an object is modelled as its entries already in iteration order.
- Optional chaining on the response lists in `extractGeneralAvailableDates`: the response type declares both lists, so absent lists are not modelled.
- The palette `universalColors` lives in app/utils/charts/colors.ts, which is not part of this model; the palette is a parameter.
- `formatDate` (locale-dependent) and `randomInt` / `randomFrom` (randomness) are not modelled.
- The Chart.js option literals (colours other than the palette, fonts, tension, dash patterns, plugin registration, the legend callbacks of the vertical bar), chartConfig.ts and doughnut.ts are presentation constants.
- The server/api handlers and app/services/use-server.ts (an older unauthenticated wrapper) are HTTP plumbing outside this model.
- The response payloads of the wrappers (tickets, terms, consents) are opaque: only the URL, method, body and headers of each request are modelled.
- The user type in app/types/auth.ts lists only `AGENT`, `ADMIN` and `USER`; the guard also accepts `MANAGER`, as its code does, and the model follows the code.
