/**
 * The request side of the API client in app/composables/useServer.ts: the auth headers,
 * the header merge and the 401 branch of `authenticatedFetch`, and the URL and method of
 * every endpoint wrapper. The HTTP call itself is a parameter (`respond`), and so is
 * whether the code runs in the browser (`import.meta.client`).
 */
module ApiClient {
  import opened Common
  import opened Strings
  import opened Auth

  type Headers = map<string, string>

  /** `getAuthHeaders` for a resolved token: JSON content type, and a bearer token only when there is one. */
  function AuthHeaders(userToken: Option<string>): (headers: Headers)
    ensures "Content-Type" in headers && headers["Content-Type"] == "application/json"
    ensures "Authorization" in headers <==> TruthyText(userToken)
    ensures "Authorization" in headers ==> headers["Authorization"] == "Bearer " + userToken.value
    ensures headers.Keys <= {"Content-Type", "Authorization"}
  {
    var base := map["Content-Type" := "application/json"];
    if TruthyText(userToken) then base["Authorization" := "Bearer " + userToken.value] else base
  }

  /** `getAuthHeaders`: resolve the token through the cache, then build the record. */
  method GetAuthHeaders(cache: TokenCache, lookup: SessionReply) returns (headers: Headers)
    requires cache.Valid()
    modifies cache
    ensures cache.Valid()
    ensures headers == AuthHeaders(ResolvedToken(old(cache.token), lookup))
    ensures cache.token == if TruthyText(old(cache.token)) || lookup.LookupFailed? then old(cache.token) else TokenOf(lookup)
  {
    headers := map["Content-Type" := "application/json"];
    var userToken, _ := cache.GetToken(lookup);
    if TruthyText(userToken) {
      headers := headers["Authorization" := "Bearer " + userToken.value];
    }
  }

  /** `options.headers`: absent, a header record, or something that is not an object. */
  datatype CallerHeaders = NoHeaders | HeaderRecord(fields: Headers) | NotAnObject

  /** `{ ...authHeaders, ...(headers is an object ? headers : {}) }`. */
  function MergeHeaders(auth: Headers, caller: CallerHeaders): (merged: Headers)
    ensures !caller.HeaderRecord? ==> merged == auth
    ensures caller.HeaderRecord? ==> merged.Keys == auth.Keys + caller.fields.Keys
    ensures caller.HeaderRecord? ==> forall k | k in caller.fields :: merged[k] == caller.fields[k]
    ensures caller.HeaderRecord? ==> forall k | k in auth && k !in caller.fields :: merged[k] == auth[k]
  {
    if caller.HeaderRecord? then auth + caller.fields else auth
  }

  datatype HttpMethod = GET | POST | PUT | PATCH | DELETE

  /** An opaque request or response record. */
  type Payload = map<string, string>

  /** A request body: none, `JSON.stringify(data)`, or an object `$fetch` serialises. */
  datatype Body = NoBody | Stringified(data: Payload) | AsObject(data: Payload)

  /** The options a wrapper passes; `verb: None` (no `method`) is `$fetch`'s default, GET. */
  datatype Options = Options(verb: Option<HttpMethod>, body: Body, headers: CallerHeaders)

  const NoOptions := Options(None, NoBody, NoHeaders)

  /** What `$fetch` is called with. */
  datatype Request = Request(url: string, verb: Option<HttpMethod>, body: Body, headers: Headers)

  /** A thrown error: one with `status` and/or `statusCode` fields, or anything else. */
  datatype FetchError = HttpError(status: Option<int>, statusCode: Option<int>) | OtherError(description: string)

  datatype Reply<T> = Delivered(value: T) | Raised(error: FetchError)

  /** How `authenticatedFetch` ends: the result, or the original error rethrown. */
  datatype Outcome<T> = Returned(value: T) | Rethrown(error: FetchError)

  /** The 401 test of the catch block: `status === 401 || statusCode === 401`. */
  predicate IsUnauthorized(e: FetchError) {
    e.HttpError? && (e.status == Some(401) || e.statusCode == Some(401))
  }

  /**
   * `authenticatedFetch`: send the merged headers; return the result; on an error rethrow it
   * unchanged, after navigating to `/login` when it is a 401 and the code runs in the
   * browser. The request is made once.
   */
  method AuthenticatedFetch<T>(cache: TokenCache, lookup: SessionReply, url: string, options: Options,
                               isClient: bool, respond: Request -> Reply<T>)
    returns (sent: Request, outcome: Outcome<T>, navigation: Option<string>)
    requires cache.Valid()
    modifies cache
    ensures cache.Valid()
    ensures cache.token == if TruthyText(old(cache.token)) || lookup.LookupFailed? then old(cache.token) else TokenOf(lookup)
    ensures sent == Request(url, options.verb, options.body,
                            MergeHeaders(AuthHeaders(ResolvedToken(old(cache.token), lookup)), options.headers))
    ensures respond(sent).Delivered? ==> outcome == Returned(respond(sent).value) && navigation.None?
    ensures respond(sent).Raised? ==> outcome == Rethrown(respond(sent).error)
    ensures navigation.Some? <==> respond(sent).Raised? && IsUnauthorized(respond(sent).error) && isClient
    ensures navigation.Some? ==> navigation.value == "/login"
  {
    var authHeaders := GetAuthHeaders(cache, lookup);
    var headers := MergeHeaders(authHeaders, options.headers);
    sent := Request(url, options.verb, options.body, headers);
    var reply := respond(sent);
    navigation := None;
    match reply {
      case Delivered(value) =>
        outcome := Returned(value);
      case Raised(error) =>
        if IsUnauthorized(error) && isClient {
          navigation := Some("/login");
        }
        outcome := Rethrown(error);
    }
  }

  /**
   * Caller headers win: a caller `Authorization` or `Content-Type` replaces the client's; when
   * the caller sets no `Authorization`, it is there exactly when a token was resolved.
   */
  lemma CallerHeadersOverride(userToken: Option<string>, caller: CallerHeaders)
    ensures var merged := MergeHeaders(AuthHeaders(userToken), caller);
      && (caller.HeaderRecord? && "Authorization" in caller.fields ==> merged["Authorization"] == caller.fields["Authorization"])
      && (!(caller.HeaderRecord? && "Authorization" in caller.fields) ==>
            ("Authorization" in merged <==> TruthyText(userToken))
            && (TruthyText(userToken) ==> merged["Authorization"] == "Bearer " + userToken.value))
      && (!(caller.HeaderRecord? && "Content-Type" in caller.fields) ==> merged["Content-Type"] == "application/json")
  {
  }

  // ---------------------------------------------------------------------------
  // URL templates.
  // ---------------------------------------------------------------------------

  /** A path parameter typed `string | number`, as a template literal prints it. */
  datatype Id = NumberId(n: int) | TextId(text: string)

  function IdText(id: Id): string {
    match id
    case NumberId(n) => IntToString(n)
    case TextId(text) => text
  }

  /** The query of `getTicketsQuery`: `q=<q>&` only for a non-empty `q`, then the page fields. */
  function TicketsQueryString(page: int, pageSize: int, q: Option<string>): string {
    (if TruthyText(q) then "q=" + q.value + "&" else "") + PageFields(page, pageSize)
  }

  function PageFields(page: int, pageSize: int): string {
    "page=" + IntToString(page) + "&page_size=" + IntToString(pageSize)
  }

  lemma NoAmpersandInNumber(n: int)
    ensures '&' !in IntToString(n)
  {
    var s := IntToString(n);
    if n >= 0 {
      assert forall i | 0 <= i < |s| :: s[i] != '&';
    } else {
      assert forall i | 1 <= i < |s| :: s[i] != '&';
      assert s[0] == '-';
    }
  }

  /** The page fields of the query split into the two of them. */
  lemma PageFieldsSplit(page: int, pageSize: int)
    ensures Split(PageFields(page, pageSize), '&') == ["page=" + IntToString(page), "page_size=" + IntToString(pageSize)]
  {
    var p, s := "page=" + IntToString(page), "page_size=" + IntToString(pageSize);
    NoAmpersandInNumber(page);
    NoAmpersandInNumber(pageSize);
    assert '&' !in p;
    assert '&' !in s;
    assert PageFields(page, pageSize) == p + ['&'] + s;
    SplitAfterField(p, '&', s);
    SplitWithoutSeparator(s, '&');
  }

  /**
   * Split at `&`, the query is the free-text field (when there is one) followed by the two
   * page fields, in that order.
   */
  lemma TicketsQueryFields(page: int, pageSize: int, q: Option<string>)
    requires q.Some? ==> '&' !in q.value
    ensures Split(TicketsQueryString(page, pageSize, q), '&') ==
      (if TruthyText(q) then ["q=" + q.value] else []) + ["page=" + IntToString(page), "page_size=" + IntToString(pageSize)]
  {
    PageFieldsSplit(page, pageSize);
    if TruthyText(q) {
      var f := "q=" + q.value;
      assert '&' !in f;
      assert TicketsQueryString(page, pageSize, q) == f + ['&'] + PageFields(page, pageSize);
      SplitAfterField(f, '&', PageFields(page, pageSize));
    } else {
      assert TicketsQueryString(page, pageSize, q) == PageFields(page, pageSize);
    }
  }

  /**
   * `q` goes into the URL without encoding, so a search text holding `&` adds query fields:
   * `getTicketsQuery(1, 10, 'R&D')` sends the fields `q=R`, `D`, `page=1`, `page_size=10`.
   */
  lemma TicketsQueryUnencoded()
    ensures Split(TicketsQueryString(1, 10, Some("R&D")), '&') == ["q=R", "D", "page=1", "page_size=10"]
  {
    var rest := PageFields(1, 10);
    PageFieldsSplit(1, 10);
    assert IntToString(1) == "1" && IntToString(10) == "10";
    assert "page=" + IntToString(1) == "page=1";
    assert "page_size=" + IntToString(10) == "page_size=10";
    assert TicketsQueryString(1, 10, Some("R&D")) == "q=R" + ['&'] + ("D" + ['&'] + rest);
    SplitAfterField("q=R", '&', "D" + ['&'] + rest);
    SplitAfterField("D", '&', rest);
    assert Split(rest, '&') == ["page=1", "page_size=10"];
  }

  /** An authenticated backend call of the client. */
  datatype Call =
    | MetricsTickets
    | TicketsQuery(page: int, pageSize: int, q: Option<string>)
    | GetTicket(id: Id)
    | CreateTicket(data: Payload)
    | UpdateTicket(id: Id, data: Payload)
    | DeleteTicket(id: Id)
    | MyConsent
    | UserConsent(userId: int)
    | AllTerms(termsPage: Option<int>, termsPageSize: Option<int>)
    | CreateTerm(data: Payload)
    | TermById(termId: int)
    | ActivateTerm(termId: int)
    | DeactivateTerm(termId: int)
    | DeleteUser(userId: int)

  function WithMethod(m: HttpMethod, body: Body): Options {
    Options(Some(m), body, NoHeaders)
  }

  /** The path (after the backend base URL) and the options each wrapper passes to `authenticatedFetch`. */
  function Route(call: Call): (route: (string, Options))
    ensures route.1.headers == NoHeaders
    ensures (call.MetricsTickets? || call.TicketsQuery? || call.GetTicket? || call.MyConsent?
             || call.UserConsent? || call.AllTerms? || call.TermById?) ==> route.1 == NoOptions
    ensures call.CreateTicket? ==> route.1.verb == Some(POST) && route.1.body == Stringified(call.data)
    ensures call.UpdateTicket? ==> route.1.verb == Some(PUT) && route.1.body == Stringified(call.data)
    ensures call.CreateTerm? ==> route.1.verb == Some(POST) && route.1.body == AsObject(call.data)
    ensures call.DeleteTicket? || call.DeleteUser? ==> route.1.verb == Some(DELETE) && route.1.body == NoBody
    ensures call.ActivateTerm? || call.DeactivateTerm? ==> route.1.verb == Some(PATCH) && route.1.body == NoBody
    ensures call.GetTicket? || call.UpdateTicket? || call.DeleteTicket? ==> route.0 == "/tickets/" + IdText(call.id)
  {
    match call
    case MetricsTickets => ("/metrics/tickets", NoOptions)
    case TicketsQuery(page, pageSize, q) => ("/tickets/query?" + TicketsQueryString(page, pageSize, q), NoOptions)
    case GetTicket(id) => ("/tickets/" + IdText(id), NoOptions)
    case CreateTicket(data) => ("/tickets", WithMethod(POST, Stringified(data)))
    case UpdateTicket(id, data) => ("/tickets/" + IdText(id), WithMethod(PUT, Stringified(data)))
    case DeleteTicket(id) => ("/tickets/" + IdText(id), WithMethod(DELETE, NoBody))
    case MyConsent => ("/consents/me", NoOptions)
    case UserConsent(userId) => ("/consents/user/" + IntToString(userId), NoOptions)
    case AllTerms(page, pageSize) =>
      // Default parameters: `page = 1`, `pageSize = 10` when left out.
      var p := if page.Some? then page.value else 1;
      var s := if pageSize.Some? then pageSize.value else 10;
      ("/terms?page=" + IntToString(p) + "&pageSize=" + IntToString(s), NoOptions)
    case CreateTerm(data) => ("/terms", WithMethod(POST, AsObject(data)))
    case TermById(termId) => ("/terms/" + IntToString(termId), NoOptions)
    case ActivateTerm(termId) => ("/terms/" + IntToString(termId) + "/activate", WithMethod(PATCH, NoBody))
    case DeactivateTerm(termId) => ("/terms/" + IntToString(termId) + "/deactivate", WithMethod(PATCH, NoBody))
    case DeleteUser(userId) => ("/users/" + IntToString(userId), WithMethod(DELETE, NoBody))
  }

  /** The full URL of an authenticated call. */
  function CallUrl(serverUrl: string, call: Call): (url: string)
    ensures serverUrl + "/" <= url
  {
    serverUrl + Route(call).0
  }

  /** `getTicketsQuery(2, 10, 'foo')` asks for `…/tickets/query?q=foo&page=2&page_size=10`. */
  lemma TicketsQueryExample(serverUrl: string)
    ensures CallUrl(serverUrl, TicketsQuery(2, 10, Some("foo"))) == serverUrl + "/tickets/query?q=foo&page=2&page_size=10"
  {
  }

  /** `getAllTerms()` asks for page 1 with 10 terms per page. */
  lemma AllTermsDefaults(serverUrl: string)
    ensures CallUrl(serverUrl, AllTerms(None, None)) == CallUrl(serverUrl, AllTerms(Some(1), Some(10)))
    ensures CallUrl(serverUrl, AllTerms(None, None)) == serverUrl + "/terms?page=1&pageSize=10"
  {
  }

  /** A call through one of the public or forecasting-service endpoints, which bypass `authenticatedFetch`. */
  datatype PublicCall =
    | ActiveTerm
    | RegisterUser(data: Payload)
    | Predicts(days: Id, historicalDays: Id)
    | CompanyPredicts
    | ProductPredicts

  const JsonOnly: Headers := map["Content-Type" := "application/json"]

  /** The request a public call makes, with only the JSON content type or no headers at all. */
  function PublicRequest(serverUrl: string, mlUrl: string, call: PublicCall): (request: Request)
    ensures "Authorization" !in request.headers
    ensures call.ActiveTerm? || call.RegisterUser? ==> serverUrl <= request.url
    ensures call.Predicts? || call.CompanyPredicts? || call.ProductPredicts? ==> mlUrl <= request.url
  {
    match call
    case ActiveTerm => Request(serverUrl + "/auth/terms/active", None, NoBody, JsonOnly)
    case RegisterUser(data) => Request(serverUrl + "/auth/register", Some(POST), AsObject(data), JsonOnly)
    case Predicts(days, historicalDays) =>
      Request(mlUrl + "/predictAllTickets?days=" + IdText(days) + "&historical_days=" + IdText(historicalDays), None, NoBody, JsonOnly)
    case CompanyPredicts => Request(mlUrl + "/predict_company", None, NoBody, map[])
    case ProductPredicts => Request(mlUrl + "/predict_product", None, NoBody, map[])
  }
}
