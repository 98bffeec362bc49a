# Currency conversion backend: a verified model

This project models the PHP/Symfony backend of a currency converter. It covers:

- **Currency codes.** `FormatHelper` normalises a currency code, derives an ICU locale from an Accept-Language header, and builds cache keys.
- **Arithmetic.** `MoneyConversionCalculator` converts an amount between two EUR-based rates and rounds to cents.
- **Swop client.** `SwopApiClient` scans the rates payload of the Swop API for a quote currency.
- **Rate provider.** `SwopExchangeRateProvider` is a caching provider: entries have a time-to-live, and non-positive rates are refused.
- **Request DTO.** `ConversionRequest` is built from a query, and its validation constraints are modelled.
- **Conversion service.** `ConversionService::convertRates` runs validate, source lookup, target lookup, calculate, format, then metric.
- **Conversion endpoints.** `ConversionController` serves GET and POST `/api/convert`. POST checks the session gate, then the CSRF gate, then delegates to GET. Every exception is mapped to a status code and a metric.
- **Metrics.** `MetricsClient::record` builds an InfluxDB line-protocol body.
- **Sessions.** `SessionService` and `SessionController` handle the CSRF token, the session user, login and logout.

## How the pieces are represented

**Values, strings and exceptions.**
- PHP values decoded from JSON, query strings or rate rows are `PhpValues.Scalar`. Each numeric string carries its own float reading, and each float its own rendering.
- Strings are `seq<char>`. `PhpStrings` defines `trim`, `strtoupper`, `explode(...)[0]`, single-character `str_replace` and `implode` on them.
- An exception is a value of `Errors.Exception`. Every PHP call that may throw becomes a function or method returning `Result<T, Exception>`.

**Stateful objects.** Each is a class:
- The rate provider keeps its cache as a `map` from key to `(value, expiresAt)`, and the current time is a parameter.
- The metrics client keeps ghost logs of what was recorded and what was sent.
- Sessions keep their attributes map.
- The controllers keep a ghost log of rate lookups.

**Loops.**
- The Swop client's `foreach` over rows is a `while` loop, proved against the function `FirstRate`.
- The metrics client's two `foreach` loops are proved against the function `Body`.

**Orchestration.** `ConversionService::convertRates`, `getConvert` and `postConvert` are methods. Each is tied to a function that states the response, the metrics and the lookups one request produces: `Outcome`/`Lookups`, `HandleGet` and `HandlePost`.

**What is abstract.** These outside pieces are parameters, and nothing about them is assumed:
- the HTTP reply the Swop API gives
- the rate client and the rate provider (`string -> Result<real, Exception>`)
- the ICU formatter
- the CSRF token manager
- the elapsed milliseconds and the `gmdate('c')` timestamp
- PHP's float-to-string rendering

**Where the model follows the interface rather than the call as written:**
- `ConversionController::getConvert` calls `getEurToQuote` (`ConversionController.php:49-50`). Neither `ExchangeRateProviderInterface` nor `SwopExchangeRateProvider` declares that method, and neither has a `__call`. As written, every valid GET would throw an `Error`, which the catch-all turns into 500 'Unexpected server error' with an error=unexpected metric. The model treats the call as the interface's `fetchExchangeRateCurrency`, as the controller tests do (`tests/Unit/Controller/ConversionControllerTest.php:38`): one abstract lookup, `Conversion.RateLookup`.

**Where the specification and the code disagree, the model follows the code:**
- postConvert's proxy request carries no headers, so POST conversions always format for `en_US` (`ConversionApi.PostFormatsForEnUs`).
- postConvert reads the session user with PHP truthiness, so a user named "0" is refused with 401. `getSession` reports that same user as signed in (`ConversionApi.ZeroUserRefused`).
- postConvert refuses a CSRF header "0" without consulting the token manager, while `SessionService::isCsrfValid` would pass it on (`ConversionApi.ZeroTokenRefused`).
- A POST body that decodes to a truthy JSON scalar (say `"abc"` or `5`) makes `new Request(query: ...)` throw a TypeError outside the controller's `try`. The model answers it as the framework's 500 error page, `UncaughtTypeError`.
- Validation rejects a negative amount before the calculator runs, so the calculator's `InvalidArgumentException` cannot reach getConvert's catch-all. It would be mapped to 500 (`Conversion.ValidRequestHasNoNegativeAmount`, `ConversionApi.NegativeAmountIsServerError`).

## Model

| member | source | states |
|---|---|---|
| PhpStrings.Trim | backend/src/Util/FormatHelper.php:13 | trim() removes only the characters " \t\n\r\0\x0B", and leaves none of them at either end |
| PhpStrings.TrimRemovesOnlyPadding | backend/src/Util/FormatHelper.php:13 | trim() keeps one contiguous slice of its input and removes only trimmable characters around it |
| PhpStrings.TrimIgnoresPadding | backend/src/Util/FormatHelper.php:13 | adding trimmable characters on either side does not change what trim() returns |
| PhpStrings.TrimUpperCommute | backend/src/Util/FormatHelper.php:13 | trim and strtoupper commute |
| PhpStrings.ToUpper | backend/src/Util/FormatHelper.php:13 | strtoupper keeps the length, maps each of a-z to the matching A-Z (code point minus 32) and keeps every other character |
| PhpStrings.ToUpperIdempotent | backend/src/Util/FormatHelper.php:13 | strtoupper applied twice equals strtoupper applied once |
| PhpStrings.SplitBefore | backend/src/Util/FormatHelper.php:23-24 | explode(sep, s, 2)[0] is the longest prefix of s without sep, followed in s by sep or by nothing |
| PhpStrings.ReplaceChar | backend/src/Util/FormatHelper.php:26 | str_replace of one character changes exactly the occurrences of that character |
| PhpStrings.IntToStringRoundTrip | backend/src/Service/MetricsClient.php:36 | the decimal rendering of an int field reads back as the same number |
| FormatHelper.NormalizeCurrencyCode | backend/src/Util/FormatHelper.php:11-19 | it succeeds exactly when trim+upper-case gives three letters A-Z, and returns that code; otherwise it throws InvalidArgumentException carrying the normalised text |
| FormatHelper.NormalizeCurrencyCodeIgnoresCase | backend/src/Util/FormatHelper.php:13 | two inputs with the same upper-case form normalise alike |
| FormatHelper.NormalizeCurrencyCodeIgnoresPadding | backend/src/Util/FormatHelper.php:13 | surrounding whitespace does not change the outcome |
| FormatHelper.NormalizeCurrencyCodeIdempotent | backend/src/Util/FormatHelper.php:11-19 | normalising an already-normalised code returns it unchanged |
| FormatHelper.NormalizeCurrencyCodeAccepts | backend/src/Util/FormatHelper.php:14-18 | every valid code is accepted unchanged |
| FormatHelper.NormalizeCurrencyCodeExample | backend/src/Util/FormatHelper.php:11-19 | " usd ", "usd" and "USD" all normalise to "USD" |
| FormatHelper.ShortCodeRejected | backend/src/Util/FormatHelper.php:14-16 | a code shorter than three characters is refused, and the exception carries its normalised text |
| FormatHelper.NormalizeLocale | backend/src/Util/FormatHelper.php:21-31 | the result is "en_US" or a tag xx / xx_YY, and never holds '-', ',' or ';' |
| FormatHelper.MatchedLocaleIsTag | backend/src/Util/FormatHelper.php:25-27 | a matched value without a final newline is a tag xx or xx_YY |
| FormatHelper.FallbackLocaleIsTag | backend/src/Util/FormatHelper.php:28 | the fallback "en_US" is itself a tag and holds none of '-', ',' and ';' |
| FormatHelper.NormalizeLocaleFirstEntry | backend/src/Util/FormatHelper.php:23 | only the header's first comma-separated entry matters |
| FormatHelper.NormalizeLocaleDropsParameters | backend/src/Util/FormatHelper.php:24 | parameters after ';' are ignored |
| FormatHelper.NormalizeLocaleKeepsTag | backend/src/Util/FormatHelper.php:26-30 | a tag that is already valid is returned unchanged |
| FormatHelper.NormalizeLocaleIdempotent | backend/src/Util/FormatHelper.php:21-31 | normalising a normalised locale changes nothing |
| FormatHelper.NormalizeLocaleBlank | backend/src/Util/FormatHelper.php:25-28 | a blank header falls back to "en-US" and so gives "en_US" |
| FormatHelper.EmptyEntryLocale | backend/src/Util/FormatHelper.php:25-28 | a first entry that trims to "" gives "en_US" |
| FormatHelper.DefaultHeaderLocale | backend/src/Util/FormatHelper.php:25-27 | the default "en-US" becomes "en_US", which matches the pattern |
| FormatHelper.NormalizeLocaleFallback | backend/src/Util/FormatHelper.php:26-30 | "en_US" normalises to itself |
| FormatHelper.NormalizeLocaleBrowserHeader | backend/src/Util/FormatHelper.php:21-31 | "en-US,en;q=0.9" gives "en_US" |
| FormatHelper.HyphenatedFirstEntry | backend/src/Util/FormatHelper.php:23-30 | a first entry "ll-CC" followed by more entries gives "ll_CC" |
| FormatHelper.HyphenatedLocale | backend/src/Util/FormatHelper.php:26-30 | "ll-CC" gives "ll_CC" |
| FormatHelper.NormalizeLocaleExamples | backend/src/Util/FormatHelper.php:21-31 | "de-DE" gives "de_DE", and "" gives "en_US" |
| FormatHelper.NormalizeLocaleRejects | backend/src/Util/FormatHelper.php:27-28 | a header that is no tag ("???") gives "en_US" |
| FormatHelper.CacheKey | backend/src/Util/FormatHelper.php:33-37 | the key has the length of the joined parts, and every character is in A-Z, 0-9, '.', '_' or '-'; what each position holds is CacheKeyAt |
| FormatHelper.CacheKeyAt | backend/src/Util/FormatHelper.php:33-37 | position i of the key is the upper-cased i-th character of the '.'-joined parts if it is in A-Z, 0-9, '.', '_' or '-', and '_' otherwise |
| FormatHelper.CacheKeyOfKey | backend/src/Util/FormatHelper.php:35-36 | a string that is already a key is its own key |
| FormatHelper.CacheKeyIdempotent | backend/src/Util/FormatHelper.php:33-37 | taking the key of a key changes nothing |
| FormatHelper.RateCacheKey | backend/src/Service/SwopExchangeRateProvider.php:22 | cacheKey('rate','EUR',code) is "RATE.EUR." followed by the normalised code |
| FormatHelper.CacheKeyExample | backend/src/Util/FormatHelper.php:33-37 | cacheKey('rate','EUR','USD') is "RATE.EUR.USD" |
| Calculator.Round | backend/src/Service/MoneyConversionCalculator.php:18 | round(x, k) for x >= 0 is the multiple of 10^-k closest to x, with halves rounded up |
| Calculator.RoundingUnique | backend/src/Service/MoneyConversionCalculator.php:18 | there is only one rounding of x to k decimals |
| Calculator.RoundKeepsRounded | backend/src/Service/MoneyConversionCalculator.php:18 | a value that already has k decimals is kept |
| Calculator.RoundIdempotent | backend/src/Service/MoneyConversionCalculator.php:18 | rounding twice equals rounding once |
| Calculator.ConvertAmount | backend/src/Service/MoneyConversionCalculator.php:10-19 | a negative amount throws InvalidArgumentException; a zero or negative rate throws ConversionException with both rates; otherwise the result is amount * target/source rounded to two decimals, and is >= 0 |
| Calculator.ConvertAmountInCents | backend/src/Service/MoneyConversionCalculator.php:18 | a converted amount is a whole number of cents |
| Calculator.NegativeAmountBeforeRates | backend/src/Service/MoneyConversionCalculator.php:12-16 | the amount is checked before the rates |
| Calculator.ConvertAtEqualRates | backend/src/Service/MoneyConversionCalculator.php:18 | with equal rates the amount only gets rounded |
| Calculator.ConvertAmountExample | backend/tests/Unit/MoneyConversionCalculatorTest.php:9-16 | 100 at rates 1.1 and 0.9 gives 81.82 |
| SwopClient.RowRate | backend/src/Service/SwopApiClient.php:41-50 | a row yields a rate exactly when it is an array, its quote_currency matches case-insensitively, and quote ?? rate is numeric; the rate is that value as a float |
| SwopClient.FetchExchangeCurrency | backend/src/Service/SwopApiClient.php:19-54 | the loop returns the first usable row's rate; a status other than 200 throws fromHttpStatus; no usable row throws missingRate |
| SwopClient.FirstRateAt | backend/src/Service/SwopApiClient.php:39-51 | the rate is taken from the first usable row |
| SwopClient.FirstRateNone | backend/src/Service/SwopApiClient.php:39-53 | there is no rate exactly when no row is usable |
| SwopClient.StatusFirst | backend/src/Service/SwopApiClient.php:34-36 | a status other than 200 throws before the payload is read |
| SwopClient.NotArraySkipped | backend/src/Service/SwopApiClient.php:41-43 | rows that are not arrays are skipped |
| SwopClient.FirstRateSkips | backend/src/Service/SwopApiClient.php:39-51 | unusable rows anywhere are skipped |
| SwopClient.NonNumericMatchSkipped | backend/src/Service/SwopApiClient.php:45-50 | a matching row with a non-numeric value is skipped, and scanning goes on |
| SwopClient.QuoteShadowsRate | backend/src/Service/SwopApiClient.php:46-47 | a non-null quote is used even when it is not numeric, so it never falls back to rate |
| SwopClient.NonPositiveReturned | backend/src/Service/SwopApiClient.php:47-48 | zero or negative rates are returned unchanged |
| SwopClient.TwoRowPayload | backend/tests/Unit/SwopExchangeRateProviderTest.php:14-33 | the payload [USD 1.1, GBP 0.9] yields 1.1 for USD, 0.9 for GBP and missingRate for CHF |
| RateProvider.RateKeysDiffer | backend/src/Service/SwopExchangeRateProvider.php:22 | different codes have different cache keys |
| RateProvider.SwopExchangeRateProvider.constructor | backend/src/Service/SwopExchangeRateProvider.php:11-17 | the provider starts with an empty cache |
| RateProvider.SwopExchangeRateProvider.FetchExchangeRateCurrency | backend/src/Service/SwopExchangeRateProvider.php:19-33 | an invalid code throws before the cache is touched; a live entry is returned without a client call; on a miss the client is called once with the normalised code, its exception propagates with nothing stored, a rate <= 0 throws missingRate, and otherwise the rate is stored with expiry now + ttl; every value returned is > 0 |
| RateProvider.InvalidCodeScenario | backend/src/Service/SwopExchangeRateProvider.php:21 | any code normalizeCurrencyCode refuses ("us", "US1", "USDX", ...) throws its InvalidArgumentException, makes no client call and caches nothing |
| RateProvider.CachedScenario | backend/tests/Unit/Service/SwopExchangeRateProviderTest.php:13-41 | USD, then GBP, then "usd" calls the client exactly twice, and the third call returns the cached USD rate |
| RateProvider.ZeroRateScenario | backend/tests/Unit/Service/SwopExchangeRateProviderTest.php:43-55 | a client rate of 0 throws missingRate and caches nothing |
| RateProvider.Miss | backend/src/Service/SwopExchangeRateProvider.php:24-32 | on a cache miss with a positive client rate, the client is called once and the rate is stored with expiry now + ttl |
| RateProvider.Hit | backend/src/Service/SwopExchangeRateProvider.php:24 | on a live entry the cached rate is returned and neither the cache nor the client calls change |
| ConversionDto.FromArray | backend/src/DTO/ConversionRequest.php:22-29 | a missing amount becomes 0.0 and a missing from/to becomes ""; the codes are upper-cased but not trimmed, so they hold no lower-case letter |
| ConversionDto.Violations | backend/src/DTO/ConversionRequest.php:8-20 | there are no violations exactly when amount >= 0 and both codes are three letters A-Z; every violation names one of the three properties |
| ConversionDto.CodeViolationsEmpty | backend/src/DTO/ConversionRequest.php:12-19 | a code passes NotBlank, Length(3) and Regex exactly when it is three letters A-Z |
| ConversionDto.TrailingNewlineRejected | backend/src/DTO/ConversionRequest.php:13-14 | "USD\n" passes the Regex because of PCRE's `$`, but the Length constraint rejects it |
| ConversionDto.FromArrayCodes | backend/src/DTO/ConversionRequest.php:26-27 | "usd" becomes the valid "USD", while " gbp" becomes the invalid " GBP" |
| ConversionDto.FromEmptyArray | backend/src/DTO/ConversionRequest.php:25-27 | an empty query gives amount 0.0 and empty codes |
| Metrics.SanitizeTag | backend/src/Service/MetricsClient.php:28-29 | every space and comma becomes '_', and nothing else changes |
| Metrics.FieldParts | backend/src/Service/MetricsClient.php:32-38 | there is one field part per field |
| Metrics.EscapeRoundTrip | backend/src/Service/MetricsClient.php:37 | escaping '"' as '\"' can be undone |
| Metrics.EscapedQuotes | backend/src/Service/MetricsClient.php:37 | every quote in an escaped value is preceded by a backslash |
| Metrics.TagStringHasNoSpace | backend/src/Service/MetricsClient.php:25-30 | the tag string holds no space, so the first space of the body separates it from the fields |
| Metrics.BodySplit | backend/src/Service/MetricsClient.php:44 | the body up to its first space is the measurement followed by the tags |
| Metrics.OneTagIntBody | backend/src/Service/MetricsClient.php:25-44 | one clean tag and one int field are written as m,k=v f=n |
| Metrics.TwoTagIntBody | backend/src/Service/MetricsClient.php:25-44 | two clean tags and one int field are written as m,k=v,k'=v' f=n, tags in order |
| Metrics.RequestsBody | backend/src/Service/ConversionService.php:42 | the 'requests' metric is sent as "requests,route=convert_get duration_ms=N" |
| Metrics.ErrorsBody | backend/src/Controller/ConversionController.php:77 | the 'errors' metric is sent as "errors,route=convert_get,error=K count=1" |
| Metrics.SanitizeKeeps | backend/src/Service/MetricsClient.php:28-29 | a tag without spaces or commas is kept as it is |
| Metrics.TextFieldQuoted | backend/src/Service/MetricsClient.php:37 | a non-numeric field is rendered as key="escaped text" |
| Metrics.MetricsClient.Transmitted | backend/src/Service/MetricsClient.php:17-23 | an unconfigured client sends nothing, and each metric sends at most one body |
| Metrics.MetricsClient.BuildBody | backend/src/Service/MetricsClient.php:25-44 | the two loops compute measurement + ",k=v" per tag + " " + the field parts joined by ',' |
| Metrics.MetricsClient.Record | backend/src/Service/MetricsClient.php:15-63 | every call is recorded; a body is sent only if url, token, org and bucket are truthy and there is a field; send failures are swallowed |
| Conversion.Outcome | backend/src/Service/ConversionService.php:30-53 | a source lookup failure propagates, then a target lookup failure, then the calculator's exception (InvalidArgument or invalidRates) unchanged; on success both rates are positive, converted is the calculator's result for (amount, source, target), rate is round(target/source, 6), amount/from/to are the request's, formatted uses the given locale, and source is "cache" |
| Conversion.RoundedRate | backend/src/Service/ConversionService.php:48 | the quoted rate is target/source rounded to six decimals |
| Conversion.Lookups | backend/src/Service/ConversionService.php:30-31 | the source code is looked up first, and the target only if the source lookup returned |
| Conversion.ConversionService.constructor | backend/src/Service/ConversionService.php:14-19 | the service holds its collaborators and has made no lookup |
| Conversion.ConversionService.ConvertRates | backend/src/Service/ConversionService.php:21-54 | with violations it throws ConversionException with no lookup and no metric; otherwise the result is Outcome with the normalised locale, and the lookups are Lookups; exactly one 'requests' metric is recorded on success and none on failure |
| Conversion.OutcomeUsesRatesInOrder | backend/tests/Unit/Service/ConversionServiceTest.php:26-55 | the calculator receives (amount, sourceRate, targetRate): 100 from 1.1 to 0.9 gives 81.82 |
| Conversion.ValidRequestHasNoNegativeAmount | backend/src/Service/ConversionService.php:25-32 | after validation has passed, the calculator never throws for a negative amount |
| Conversion.OutcomeSucceeds | backend/src/Service/ConversionService.php:30-53 | with a valid request and two positive rates, the conversion succeeds |
| ConversionApi.LocaleFromHeader | backend/src/Controller/ConversionController.php:111-126 | models the controller's private normalizeLocale |
| ConversionApi.LocaleFromHeaderIsNormalizeLocale | backend/src/Controller/ConversionController.php:111-126 | the private normalizeLocale agrees with FormatHelper::normalizeLocale on every input |
| ConversionApi.ErrorResponse | backend/src/Controller/ConversionController.php:76-84 | SwopApiException gives 502 'External API error', ConversionException gives 422 'Conversion failed', and anything else gives 500 'Unexpected server error'; the details carry the exception |
| ConversionApi.ErrorMetrics | backend/src/Controller/ConversionController.php:76-84 | one 'errors' metric tagged error=swop for a SwopApiException, none for a ConversionException, and error=unexpected otherwise |
| ConversionApi.HandleGet | backend/src/Controller/ConversionController.php:34-85 | violations give 422 'Validation failed' with the list, no lookup and no metric; the status is 200 exactly when the request is valid and both rates are positive, in which case converted is the calculator's result and one 'requests' metric is recorded; a valid request whose conversion throws answers ErrorResponse and records ErrorMetrics of that exception |
| ConversionApi.PostQuery | backend/src/Controller/ConversionController.php:100-101 | an empty, malformed or falsy body gives no fields; a JSON object gives its fields; a truthy scalar is no query at all |
| ConversionApi.HandlePost | backend/src/Controller/ConversionController.php:89-105 | no truthy session user gives 401 before anything else; a missing, falsy or refused CSRF header gives 403; past both gates the result is getConvert on the body's fields without headers |
| ConversionApi.ConversionController.constructor | backend/src/Controller/ConversionController.php:24-30 | the controller holds its collaborators and has made no lookup |
| ConversionApi.ConversionController.Fail | backend/src/Controller/ConversionController.php:76-84 | a catch block records ErrorMetrics and answers ErrorResponse |
| ConversionApi.ConversionController.GetConvert | backend/src/Controller/ConversionController.php:34-85 | the response, the metrics recorded and sent, and the lookups are those of HandleGet |
| ConversionApi.ConversionController.ConvertValid | backend/src/Controller/ConversionController.php:49-84 | for a valid request: the two lookups in order, the response, and the metrics recorded and sent are those of Answer on Outcome |
| ConversionApi.ConversionController.PostConvert | backend/src/Controller/ConversionController.php:89-105 | the response, the metrics and the lookups are those of HandlePost for the session's user |
| ConversionApi.NegativeAmountRejected | backend/tests/Unit/ConvertControllerTest.php:45-78 | a negative amount gives 422 with the PositiveOrZero violation first, no lookup and no metric |
| ConversionApi.HandleGetExample | backend/tests/Unit/ConvertControllerTest.php:19-43 | 100 from a currency at 1.1 to one at 0.9 answers 200 with 81.82 and one 'requests' metric |
| ConversionApi.SwopFailureIsBadGateway | backend/src/Controller/ConversionController.php:76-78 | a SwopApiException on the source lookup answers 502 'External API error' with error=swop, and the target is never looked up |
| ConversionApi.InvalidRatesIsUnprocessable | backend/src/Controller/ConversionController.php:79-80 | a source or target rate <= 0 answers 422 'Conversion failed' and records no metric |
| ConversionApi.NegativeAmountIsServerError | backend/src/Controller/ConversionController.php:81-83 | the calculator's InvalidArgumentException would answer 500 and record error=unexpected |
| ConversionApi.PostIgnoresAcceptLanguage | backend/src/Controller/ConversionController.php:100-104 | postConvert's answer does not depend on the client's Accept-Language |
| ConversionApi.PostFormatsForEnUs | backend/src/Controller/ConversionController.php:53-60 | a POST conversion is always formatted for en_US |
| ConversionApi.HandleGetFormats | backend/src/Controller/ConversionController.php:53-60 | getConvert formats for the locale of its Accept-Language header, or of "en-US" when there is none |
| ConversionApi.DefaultLocale | backend/src/Controller/ConversionController.php:53-54 | without a header the locale is en_US |
| ConversionApi.HyphenatedHeaderLocale | backend/src/Controller/ConversionController.php:114-125 | a header "ll-CC" gives the locale "ll_CC" |
| ConversionApi.ZeroUserRefused | backend/src/Controller/ConversionController.php:91-93 | a session user "0" is signed in for getUser, yet postConvert answers 401 |
| ConversionApi.ZeroTokenRefused | backend/src/Controller/ConversionController.php:95-98 | a CSRF header "0" gets 403 from postConvert even when the manager accepts it, while isCsrfValid would accept it |
| Sessions.Session.constructor | backend/src/Controller/SessionController.php:24-28 | a session starts with the given state and nothing logged; it stands in for Symfony's session object |
| Sessions.UserOf | backend/src/Service/SessionService.php:37-41 | the user is the 'user' attribute exactly when it is a non-empty string |
| Sessions.UserOfCases | backend/src/Service/SessionService.php:37-41 | a name, "", a non-string and a missing attribute are all read as stated |
| Sessions.SessionService.constructor | backend/src/Service/SessionService.php:14 | the service holds its token manager |
| Sessions.SessionService.StartSession | backend/src/Service/SessionService.php:16-21 | start is called only when the session is not yet started, and attributes are kept |
| Sessions.SessionService.GetTokenValue | backend/src/Service/SessionService.php:23-26 | it is the manager's token value for intent 'convert' |
| Sessions.SessionService.IsCsrfValid | backend/src/Service/SessionService.php:28-35 | null and "" are refused without the manager, and any other value gets the manager's verdict for 'convert' |
| Sessions.SessionService.SetUserSession | backend/src/Service/SessionService.php:43-46 | it writes only 'user', so a following getUser returns a non-empty name |
| Sessions.SessionService.Logout | backend/src/Service/SessionService.php:48-51 | it invalidates exactly once, leaving no user |
| Sessions.StartTwice | backend/tests/Unit/Service/SessionServiceTest.php:19-33 | starting twice starts the session at most once |
| SessionApi.LoginName | backend/src/Controller/SessionController.php:47-56 | the username is trimmed, and a body that is not a JSON object gives "" |
| SessionApi.LoginNameTrimmed | backend/src/Controller/SessionController.php:56 | padding around the username is dropped |
| SessionApi.LoginNameOf | backend/src/Controller/SessionController.php:56 | a JSON object whose username is a string gives that string trimmed |
| SessionApi.SessionController.constructor | backend/src/Controller/SessionController.php:21 | the controller holds its session service |
| SessionApi.SessionController.GetCsrfToken | backend/src/Controller/SessionController.php:24-28 | starts the session and answers the token value for 'convert' |
| SessionApi.SessionController.GetSession | backend/src/Controller/SessionController.php:31-36 | starts the session; authenticated is (getUser != null), and user equals getUser |
| SessionApi.SessionController.Login | backend/src/Controller/SessionController.php:39-64 | an invalid CSRF token gives 403 with the session untouched; an empty trimmed username gives 422; otherwise the trimmed name is stored and returned |
| SessionApi.SessionController.Logout | backend/src/Controller/SessionController.php:67-78 | an invalid CSRF token gives 403 and no invalidation; otherwise the session is invalidated once and ok=true, user=null is returned |
| SessionApi.LoginThenSession | backend/src/Controller/SessionController.php:31-78 | login, session, logout, session answers ok/name, signed in, ok, then signed out |

## Left out

- There is no IEEE-754 arithmetic: rates and amounts are exact reals. PHP's float rendering, including `(float)$value` in MetricsClient and the `%.4f` in the message of `ConversionException::invalidRates`, is an abstract parameter.
- Exception messages are not built as text. An exception value carries the data its message is made from. `(string) $violations` is the violation list itself.
- ICU `NumberFormatter` is an uninterpreted formatter. Its `=== false` fallback branch is not modelled, because `new NumberFormatter` never yields false.
- `microtime` durations and `gmdate('c')` timestamps are parameters of the methods.
- The HTTP transport, URL building, the API key header, the timeout and JSON decoding in SwopApiClient are out of scope. The method receives the reply: a transport failure, or a status with decoded rows.
- The curl send in MetricsClient, its URL with `rawurlencode`, and its headers are not modelled. The body handed to the write endpoint is logged in a ghost `sent`.
- Metrics.MetricsClient.Record: the `!$fieldParts` guard is not modelled, since `FieldParts` proves one part per field and the guard cannot fire after the empty-fields return.
- Consecutive lookups and calls on the cache happen one at a time. Symfony cache pool storage, locking, early expiration (stampede protection) and eviction are left out.
- FormatHelper.CacheKey: works on characters, whereas PHP's `strtoupper` and a `preg_replace` without `/u` work on bytes. A non-ASCII character becomes one '_' here, but one per byte in PHP.
- Decoded inputs have scalar values and string keys. Nested arrays inside a query or JSON body, and integer keys, are not modelled.
- Symfony's session storage is reduced to the `started` flag and the attribute map. Lazy start, cookies and id migration are left out. `Invalidate` empties the attributes and keeps `started`.
- CSRF token generation and storage are left out; the manager is two abstract functions.
- `SwopApiException::invalidPayload` and `ValidationException` are never thrown by the modelled code, so they have no variants.
- backend/tests/Unit/SwopExchangeRateProviderTest.php builds the provider with an older constructor (HTTP client, base URL, key, cache, TTL) and calls `getEurToQuote`. That signature is not modelled; the rows and rates it checks are (`SwopClient.TwoRowPayload`).
- The frontend (frontend/src/**) is the Vue user interface, its fetch calls and its browser storage. It is not part of this model.
- backend/public/index.php and backend/tests/bootstrap.php are kernel and test setup, and not part of this model.
