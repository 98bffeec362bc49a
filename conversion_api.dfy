/**
 * App\Controller\ConversionController: GET /api/convert maps the query to a request,
 * validates it, converts and turns every exception into a JSON error with its status code;
 * POST /api/convert first demands a session user and a CSRF token, then hands the JSON body
 * to the GET handler as a fresh query.
 */
module ConversionApi {
  import opened Wrappers
  import opened Errors
  import opened PhpStrings
  import opened PhpValues
  import opened FormatHelper
  import opened Calculator
  import opened ConversionDto
  import opened Metrics
  import opened Http
  import opened Sessions
  import opened Conversion

  /** ConversionController::normalizeLocale, the controller's private copy of the locale rule. */
  function LocaleFromHeader(acceptLanguage: string): string {
    var first := SplitBefore(acceptLanguage, ',');
    var first' := SplitBefore(first, ';');
    var trimmed := Trim(first');
    var chosen := if trimmed == "" || trimmed == "0" then "en-US" else trimmed;
    var icu := ReplaceChar(chosen, '-', '_');
    if icu == "" || !MatchesLocalePattern(icu) then "en_US" else icu
  }

  /** The private copy agrees with FormatHelper::normalizeLocale on every header. */
  lemma LocaleFromHeaderIsNormalizeLocale(acceptLanguage: string)
    ensures LocaleFromHeader(acceptLanguage) == NormalizeLocale(acceptLanguage)
  {
  }

  /** The catch blocks: a SwopApiException is an upstream failure (502), a ConversionException
      a rejected conversion (422), and every other Throwable a server error (500); the details
      carry the exception. */
  function ErrorResponse(e: Exception): (resp: Response)
    ensures resp.status == 502 <==> e.Swop?
    ensures resp.status == 422 <==> e.Conversion?
    ensures resp.status == 500 <==> !e.Swop? && !e.Conversion?
    ensures resp.payload.DetailedError? && resp.payload.details == Message(e)
    ensures resp.payload.error == (if e.Swop? then "External API error"
      else if e.Conversion? then "Conversion failed" else "Unexpected server error")
  {
    match e
    case Swop(_) => Response(502, DetailedError("External API error", Message(e)))
    case Conversion(_) => Response(422, DetailedError("Conversion failed", Message(e)))
    case _ => Response(500, DetailedError("Unexpected server error", Message(e)))
  }

  /** The one 'errors' metric a failed conversion records. */
  function ErrorMetric(kind: string): Metric {
    Metric("errors", [("count", Int(1))], [("route", "convert_get"), ("error", kind)])
  }

  /** The catch blocks' metrics: error=swop for a SwopApiException, none for a
      ConversionException, error=unexpected for anything else. */
  function ErrorMetrics(e: Exception): (ms: seq<Metric>)
    ensures |ms| <= 1
    ensures ms == [] <==> e.Conversion?
    ensures e.Swop? ==> ms == [ErrorMetric("swop")]
    ensures !e.Swop? && !e.Conversion? ==> ms == [ErrorMetric("unexpected")]
  {
    match e
    case Swop(_) => [ErrorMetric("swop")]
    case Conversion(_) => []
    case _ => [ErrorMetric("unexpected")]
  }

  /** What one call of a handler produces: the response, the metrics recorded in order, and
      the currency codes asked of the rate provider in order. */
  datatype Handled = Handled(response: Response, metrics: seq<Metric>, lookups: seq<string>)

  /** The Accept-Language header getConvert assumes when the request has none. */
  const DefaultAcceptLanguage: string := "en-US"

  /** getConvert on a query and an optional Accept-Language header (absent reads as "en-US"). */
  function HandleGet(rates: RateLookup, format: CurrencyFormatter, query: Fields,
      acceptLanguage: Option<string>, timestamp: string, elapsedMs: int): (h: Handled)
    ensures var dto := FromArray(query);
      && (Violations(dto) != [] ==>
            h == Handled(Response(422, DetailedError("Validation failed", ViolationList(Violations(dto)))), [], []))
      && (Violations(dto) == [] ==> h.lookups == Lookups(rates, dto))
      && (h.response.status == 200 <==>
            && Valid(dto)
            && rates(dto.sourceCurrency).Success? && rates(dto.sourceCurrency).value > 0.0
            && rates(dto.targetCurrency).Success? && rates(dto.targetCurrency).value > 0.0)
      && (h.response.status == 200 ==>
            && h.response.payload.Converted?
            && h.response.payload.response.from == dto.sourceCurrency
            && h.response.payload.response.to == dto.targetCurrency
            && h.response.payload.response.converted
                 == ConvertAmount(dto.amount, rates(dto.sourceCurrency).value, rates(dto.targetCurrency).value).value
            && h.metrics == [RequestsMetric(elapsedMs)])
    ensures var dto := FromArray(query);
      var outcome := Outcome(rates, format, dto, LocaleFromHeader(acceptLanguage.GetOr(DefaultAcceptLanguage)), timestamp);
      Violations(dto) == [] && outcome.Failure? ==>
        h.response == ErrorResponse(outcome.error) && h.metrics == ErrorMetrics(outcome.error)
    ensures |h.metrics| <= 1
  {
    var dto := FromArray(query);
    var violations := Violations(dto);
    if violations != [] then
      Handled(Response(422, DetailedError("Validation failed", ViolationList(violations))), [], [])
    else
      var locale := LocaleFromHeader(acceptLanguage.GetOr(DefaultAcceptLanguage));
      Answer(rates, dto, Outcome(rates, format, dto, locale, timestamp), elapsedMs)
  }

  /** What getConvert produces for a valid request once the conversion has succeeded or thrown. */
  function Answer(rates: RateLookup, dto: ConversionRequest, outcome: Result<ConversionResponse, Exception>,
      elapsedMs: int): Handled {
    match outcome
    case Success(c) => Handled(Response(200, Converted(c)), [RequestsMetric(elapsedMs)], Lookups(rates, dto))
    case Failure(e) => Handled(ErrorResponse(e), ErrorMetrics(e), Lookups(rates, dto))
  }

  /** `!$session->get('user')`: the attribute is missing or falsy. */
  predicate SignedIn(user: Option<Attr>) {
    match user
    case None => false
    case Some(Text(s)) => TruthyText(s)
    case Some(NonText(truthy)) => truthy
  }

  /** `json_decode($req->getContent() ?: '{}', true) ?: []`: the query the proxy request gets.
      None when the decoded value is a truthy scalar, which `new Request(query: ...)` refuses. */
  function PostQuery(body: Body): (q: Option<Fields>)
    ensures body.NoContent? || body.Malformed? ==> q == Some(map[])
    ensures body.Decoded? && body.json.JsonObject? ==> q == Some(body.json.entries)
    ensures body.Decoded? && body.json.JsonScalar? ==> (q.None? <==> Truthy(body.json.value))
    ensures q.Some? && body.Decoded? && body.json.JsonScalar? ==> q.value == map[]
  {
    match body
    case NoContent => Some(map[])
    case Malformed => Some(map[])
    case Decoded(JsonScalar(v)) => if Truthy(v) then None else Some(map[])
    case Decoded(JsonObject(entries)) => Some(entries)
  }

  /** postConvert: the session gate, then the CSRF gate, then getConvert on a request that has
      only the decoded body as its query. */
  function HandlePost(rates: RateLookup, format: CurrencyFormatter, csrf: CsrfManager, user: Option<Attr>,
      req: Request, timestamp: string, elapsedMs: int): (h: Handled)
    ensures !SignedIn(user) ==> h == Handled(Response(401, ErrorBody("Authentication required")), [], [])
    ensures SignedIn(user) && (req.csrfToken.None? || !TruthyText(req.csrfToken.value)
                               || !csrf.isTokenValid(CsrfIntent, req.csrfToken.value)) ==>
      h == Handled(Response(403, ErrorBody("Invalid CSRF token")), [], [])
    ensures h.response.status != 401 && h.response.status != 403 ==>
      && SignedIn(user) && req.csrfToken.Some? && TruthyText(req.csrfToken.value)
      && csrf.isTokenValid(CsrfIntent, req.csrfToken.value)
      && (PostQuery(req.body).None? ==> h == Handled(Response(500, UncaughtTypeError), [], []))
      && (PostQuery(req.body).Some? ==>
            h == HandleGet(rates, format, PostQuery(req.body).value, None, timestamp, elapsedMs))
  {
    if !SignedIn(user) then
      Handled(Response(401, ErrorBody("Authentication required")), [], [])
    else if req.csrfToken.None? || !TruthyText(req.csrfToken.value)
         || !csrf.isTokenValid(CsrfIntent, req.csrfToken.value) then
      Handled(Response(403, ErrorBody("Invalid CSRF token")), [], [])
    else
      match PostQuery(req.body)
      case None => Handled(Response(500, UncaughtTypeError), [], [])
      case Some(query) => HandleGet(rates, format, query, None, timestamp, elapsedMs)
  }

  class ConversionController {
    const rates: RateLookup
    const format: CurrencyFormatter
    const csrf: CsrfManager
    const metrics: MetricsClient
    /** The codes asked of the rate provider, oldest first. */
    ghost var lookups: seq<string>

    constructor(rates: RateLookup, format: CurrencyFormatter, csrf: CsrfManager, metrics: MetricsClient)
      ensures this.rates == rates && this.format == format && this.csrf == csrf && this.metrics == metrics
      ensures lookups == []
    {
      this.rates, this.format, this.csrf, this.metrics := rates, format, csrf, metrics;
      lookups := [];
    }

    /** A catch block: record its metric, if any, and build its response. */
    method Fail(e: Exception) returns (resp: Response)
      modifies metrics
      ensures resp == ErrorResponse(e)
      ensures metrics.recorded == old(metrics.recorded) + ErrorMetrics(e)
      ensures metrics.sent == old(metrics.sent) + metrics.Transmitted(ErrorMetrics(e))
    {
      if e.Swop? {
        var m := ErrorMetric("swop");
        metrics.Record(m.measurement, m.fields, m.tags);
      } else if !e.Conversion? {
        var m := ErrorMetric("unexpected");
        metrics.Record(m.measurement, m.fields, m.tags);
      }
      resp := ErrorResponse(e);
    }

    /** getConvert, step by step: the result, the metrics and the lookups are those of
        HandleGet. */
    method GetConvert(req: Request, elapsedMs: int, timestamp: string) returns (resp: Response)
      modifies this, metrics
      ensures var h := HandleGet(rates, format, req.query, req.acceptLanguage, timestamp, elapsedMs);
        && resp == h.response
        && lookups == old(lookups) + h.lookups
        && metrics.recorded == old(metrics.recorded) + h.metrics
        && metrics.sent == old(metrics.sent) + metrics.Transmitted(h.metrics)
    {
      var dto := FromArray(req.query);
      var violations := Violations(dto);
      if |violations| > 0 {
        return Response(422, DetailedError("Validation failed", ViolationList(violations)));
      }
      resp := ConvertValid(dto, req.acceptLanguage, elapsedMs, timestamp);
    }

    /** The part of getConvert after validation has passed. */
    method ConvertValid(dto: ConversionRequest, acceptLanguage: Option<string>, elapsedMs: int, timestamp: string)
      returns (resp: Response)
      requires Violations(dto) == []
      modifies this, metrics
      ensures var outcome := Outcome(rates, format, dto, LocaleFromHeader(acceptLanguage.GetOr(DefaultAcceptLanguage)), timestamp);
        var h := Answer(rates, dto, outcome, elapsedMs);
        && resp == h.response
        && lookups == old(lookups) + h.lookups
        && metrics.recorded == old(metrics.recorded) + h.metrics
        && metrics.sent == old(metrics.sent) + metrics.Transmitted(h.metrics)
    {
      ghost var outcome := Outcome(rates, format, dto, LocaleFromHeader(acceptLanguage.GetOr(DefaultAcceptLanguage)), timestamp);
      ghost var before := lookups;
      lookups := lookups + [dto.sourceCurrency];
      var eurToFrom := rates(dto.sourceCurrency);
      if eurToFrom.Failure? {
        assert outcome == Failure(eurToFrom.error);
        assert Lookups(rates, dto) == [dto.sourceCurrency];
        resp := Fail(eurToFrom.error);
        return;
      }
      lookups := lookups + [dto.targetCurrency];
      assert lookups == before + [dto.sourceCurrency, dto.targetCurrency] == before + Lookups(rates, dto);
      var eurToTo := rates(dto.targetCurrency);
      if eurToTo.Failure? {
        assert outcome == Failure(eurToTo.error);
        resp := Fail(eurToTo.error);
        return;
      }
      var converted := ConvertAmount(dto.amount, eurToFrom.value, eurToTo.value);
      if converted.Failure? {
        assert outcome == Failure(converted.error);
        resp := Fail(converted.error);
        return;
      }
      assert eurToFrom.value > 0.0 && eurToTo.value > 0.0;
      var localeHeader := acceptLanguage.GetOr(DefaultAcceptLanguage);
      var icu := LocaleFromHeader(localeHeader);
      // As in the service, the `=== false` fallback to en_US cannot fire.
      var formatted := format(icu, converted.value, dto.targetCurrency);
      var rate := RoundedRate(eurToFrom.value, eurToTo.value);
      resp := Response(200, Converted(ConversionResponse(dto.amount, dto.sourceCurrency, dto.targetCurrency,
        rate, converted.value, formatted, "cache", timestamp)));
      assert outcome == Success(resp.payload.response);
      var m := RequestsMetric(elapsedMs);
      metrics.Record(m.measurement, m.fields, m.tags);
    }

    /** postConvert: the two gates read the session and the header; past them, the call is
        getConvert on the decoded body with no headers. */
    method PostConvert(req: Request, session: Session, elapsedMs: int, timestamp: string)
      returns (resp: Response)
      modifies this, metrics
      ensures var h := HandlePost(rates, format, csrf, session.Get("user"), req, timestamp, elapsedMs);
        && resp == h.response
        && lookups == old(lookups) + h.lookups
        && metrics.recorded == old(metrics.recorded) + h.metrics
        && metrics.sent == old(metrics.sent) + metrics.Transmitted(h.metrics)
    {
      if !SignedIn(session.Get("user")) {
        return Response(401, ErrorBody("Authentication required"));
      }
      var headerToken := req.csrfToken;
      if headerToken.None? || !TruthyText(headerToken.value) || !csrf.isTokenValid(CsrfIntent, headerToken.value) {
        return Response(403, ErrorBody("Invalid CSRF token"));
      }
      var json := PostQuery(req.body);
      if json.None? {
        return Response(500, UncaughtTypeError);
      }
      resp := GetConvert(Request(json.value, None, None, NoContent), elapsedMs, timestamp);
    }
  }

  /** A negative amount is refused by validation: 422 with the PositiveOrZero violation first,
      no rate lookup and no metric. */
  lemma NegativeAmountRejected(rates: RateLookup, format: CurrencyFormatter, query: Fields,
      acceptLanguage: Option<string>, timestamp: string, elapsedMs: int)
    requires FromArray(query).amount < 0.0
    ensures var h := HandleGet(rates, format, query, acceptLanguage, timestamp, elapsedMs);
      && h.response.status == 422 && h.response.payload.DetailedError?
      && h.response.payload.details.ViolationList?
      && h.response.payload.details.violations[0] == Violation("amount", PositiveOrZero)
      && h.lookups == [] && h.metrics == []
  {
  }

  /** 100 from a currency at 1.1 to one at 0.9 answers 200 with 81.82 converted. */
  lemma HandleGetExample(rates: RateLookup, format: CurrencyFormatter, query: Fields,
      acceptLanguage: Option<string>, timestamp: string, elapsedMs: int)
    requires FromArray(query).amount == 100.0
    requires IsCurrencyCode(FromArray(query).sourceCurrency) && IsCurrencyCode(FromArray(query).targetCurrency)
    requires rates(FromArray(query).sourceCurrency) == Success(1.1)
    requires rates(FromArray(query).targetCurrency) == Success(0.9)
    ensures var h := HandleGet(rates, format, query, acceptLanguage, timestamp, elapsedMs);
      && h.response.status == 200 && h.response.payload.response.converted == 81.82
      && h.metrics == [RequestsMetric(elapsedMs)]
  {
    ConvertAmountExample();
  }

  /** A SwopApiException from the first lookup answers 502 with error=swop, and the target
      currency is never asked for. */
  lemma SwopFailureIsBadGateway(rates: RateLookup, format: CurrencyFormatter, query: Fields,
      acceptLanguage: Option<string>, timestamp: string, elapsedMs: int, err: SwopError)
    requires Violations(FromArray(query)) == []
    requires rates(FromArray(query).sourceCurrency) == Failure(Swop(err))
    ensures var h := HandleGet(rates, format, query, acceptLanguage, timestamp, elapsedMs);
      && h.response.status == 502 && h.response.payload.error == "External API error"
      && h.metrics == [ErrorMetric("swop")]
      && h.lookups == [FromArray(query).sourceCurrency]
  {
  }

  /** A rate <= 0 on either side makes the calculator throw ConversionException::invalidRates:
      422 and no metric. */
  lemma InvalidRatesIsUnprocessable(rates: RateLookup, format: CurrencyFormatter, query: Fields,
      acceptLanguage: Option<string>, timestamp: string, elapsedMs: int)
    requires Violations(FromArray(query)) == []
    requires rates(FromArray(query).sourceCurrency).Success?
    requires rates(FromArray(query).targetCurrency).Success?
    requires rates(FromArray(query).sourceCurrency).value <= 0.0 || rates(FromArray(query).targetCurrency).value <= 0.0
    ensures var h := HandleGet(rates, format, query, acceptLanguage, timestamp, elapsedMs);
      && h.response.status == 422 && h.response.payload.error == "Conversion failed"
      && h.metrics == []
  {
  }

  /** The calculator's InvalidArgumentException is not one of the two handled classes, so it
      would answer 500 and record error=unexpected. */
  lemma NegativeAmountIsServerError()
    ensures ErrorResponse(InvalidArgument(NegativeAmount)).status == 500
    ensures ErrorMetrics(InvalidArgument(NegativeAmount)) == [ErrorMetric("unexpected")]
  {
  }

  /** The proxy request carries no headers: postConvert answers the same whatever
      Accept-Language the client sent. */
  lemma PostIgnoresAcceptLanguage(rates: RateLookup, format: CurrencyFormatter, csrf: CsrfManager,
      user: Option<Attr>, req: Request, language: Option<string>, timestamp: string, elapsedMs: int)
    ensures HandlePost(rates, format, csrf, user, req, timestamp, elapsedMs)
         == HandlePost(rates, format, csrf, user, req.(acceptLanguage := language), timestamp, elapsedMs)
  {
  }

  /** A conversion answered by postConvert is always formatted for en_US. */
  lemma PostFormatsForEnUs(rates: RateLookup, format: CurrencyFormatter, csrf: CsrfManager,
      user: Option<Attr>, req: Request, timestamp: string, elapsedMs: int)
    ensures var h := HandlePost(rates, format, csrf, user, req, timestamp, elapsedMs);
      h.response.status == 200 ==>
        h.response.payload.response.formatted
          == format("en_US", h.response.payload.response.converted, h.response.payload.response.to)
  {
    var h := HandlePost(rates, format, csrf, user, req, timestamp, elapsedMs);
    if h.response.status == 200 {
      var query := PostQuery(req.body).value;
      assert h == HandleGet(rates, format, query, None, timestamp, elapsedMs);
      HandleGetFormats(rates, format, query, None, timestamp, elapsedMs);
      DefaultLocale();
    }
  }

  /** Without an Accept-Language header, getConvert formats for en_US. */
  lemma DefaultLocale()
    ensures LocaleFromHeader(DefaultAcceptLanguage) == "en_US"
  {
    var tag := "en_US";
    assert tag[..2] + "-" + tag[3..] == DefaultAcceptLanguage;
    HyphenatedHeaderLocale(DefaultAcceptLanguage, tag);
  }

  /** getConvert formats the converted amount in the target currency for the locale its
      Accept-Language header names, "en-US" when there is none. */
  lemma HandleGetFormats(rates: RateLookup, format: CurrencyFormatter, query: Fields,
      acceptLanguage: Option<string>, timestamp: string, elapsedMs: int)
    ensures var h := HandleGet(rates, format, query, acceptLanguage, timestamp, elapsedMs);
      h.response.status == 200 ==>
        h.response.payload.response.formatted
          == format(LocaleFromHeader(acceptLanguage.GetOr(DefaultAcceptLanguage)), h.response.payload.response.converted,
                    h.response.payload.response.to)
  {
  }

  /** A header "ll-CC" reads as the locale "ll_CC"; so the default "en-US" gives en_US. */
  lemma HyphenatedHeaderLocale(header: string, tag: string)
    requires IsLocaleTag(tag) && |tag| == 5
    requires header == tag[..2] + "-" + tag[3..]
    ensures LocaleFromHeader(header) == tag
  {
    LocaleFromHeaderIsNormalizeLocale(header);
    HyphenatedLocale(header, tag);
  }

  /** A session user "0" counts as signed in for GET /api/session, since it is a non-empty
      string, yet postConvert's `!$session->get('user')` reads it as false and answers 401. */
  lemma ZeroUserRefused(rates: RateLookup, format: CurrencyFormatter, csrf: CsrfManager,
      attributes: map<string, Attr>, req: Request, timestamp: string, elapsedMs: int)
    requires "user" in attributes && attributes["user"] == Text("0")
    ensures UserOf(attributes) == Some("0")
    ensures HandlePost(rates, format, csrf, Some(attributes["user"]), req, timestamp, elapsedMs).response.status == 401
  {
  }

  /** A CSRF header "0" is refused by postConvert before the token manager is asked, while
      SessionService::isCsrfValid would pass "0" on to the manager. */
  lemma ZeroTokenRefused(rates: RateLookup, format: CurrencyFormatter, service: SessionService,
      user: Option<Attr>, req: Request, timestamp: string, elapsedMs: int)
    requires SignedIn(user) && req.csrfToken == Some("0")
    requires service.csrf.isTokenValid(CsrfIntent, "0")
    ensures service.IsCsrfValid(Some("0"))
    ensures HandlePost(rates, format, service.csrf, user, req, timestamp, elapsedMs).response.status == 403
  {
  }
}
