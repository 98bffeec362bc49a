/**
 * App\Service\ConversionService::convertRates: validate, fetch the source and then the target
 * rate, convert, format, record one metric and assemble the response. The rate provider is an
 * abstract lookup, ICU number formatting a parameter, and the duration and timestamp arguments.
 */
module Conversion {
  import opened Wrappers
  import opened Errors
  import opened FormatHelper
  import opened Calculator
  import opened PhpValues
  import opened ConversionDto
  import opened Metrics

  /** ExchangeRateProviderInterface: the EUR rate of a currency code, or what it throws. */
  type RateLookup = string -> Result<real, Exception>

  /** NumberFormatter(locale, CURRENCY)->formatCurrency(amount, currency). */
  type CurrencyFormatter = (string, real, string) -> string

  /** The outcome once the request has passed validation: the first failing step's exception,
      or the response built from both rates. */
  function Outcome(rates: RateLookup, format: CurrencyFormatter, dto: ConversionRequest, locale: string,
      timestamp: string): (r: Result<ConversionResponse, Exception>)
    ensures rates(dto.sourceCurrency).Failure? ==> r == Failure(rates(dto.sourceCurrency).error)
    ensures rates(dto.sourceCurrency).Success? && rates(dto.targetCurrency).Failure? ==>
      r == Failure(rates(dto.targetCurrency).error)
    ensures rates(dto.sourceCurrency).Success? && rates(dto.targetCurrency).Success? ==>
      var converted := ConvertAmount(dto.amount, rates(dto.sourceCurrency).value, rates(dto.targetCurrency).value);
      converted.Failure? ==> r == Failure(converted.error)
    ensures r.Success? ==>
      && rates(dto.sourceCurrency).Success? && rates(dto.targetCurrency).Success?
      && var source, target := rates(dto.sourceCurrency).value, rates(dto.targetCurrency).value;
      && ConvertAmount(dto.amount, source, target) == Success(r.value.converted)
      && source > 0.0 && target > 0.0
      && IsRoundingOf(r.value.rate, target / source, 6)
      && r.value.amount == dto.amount && r.value.from == dto.sourceCurrency && r.value.to == dto.targetCurrency
      && r.value.formatted == format(locale, r.value.converted, dto.targetCurrency)
      && r.value.source == "cache" && r.value.timestamp == timestamp
  {
    match rates(dto.sourceCurrency)
    case Failure(e) => Failure(e)
    case Success(source) =>
      match rates(dto.targetCurrency)
      case Failure(e) => Failure(e)
      case Success(target) =>
        match ConvertAmount(dto.amount, source, target)
        case Failure(e) => Failure(e)
        case Success(converted) =>
          Success(ConversionResponse(dto.amount, dto.sourceCurrency, dto.targetCurrency,
            RoundedRate(source, target), converted, format(locale, converted, dto.targetCurrency),
            "cache", timestamp))
  }

  /** round($eurToTarget / $eurToSource, 6): the quoted rate, to six decimals. */
  function RoundedRate(source: real, target: real): (rate: real)
    requires source > 0.0 && target > 0.0
    ensures rate >= 0.0 && IsRoundingOf(rate, target / source, 6)
  {
    assert target / source > 0.0;
    Round(target / source, 6)
  }

  /** The codes looked up once the request is valid: the source, then the target unless the
      source lookup threw. */
  function Lookups(rates: RateLookup, dto: ConversionRequest): (codes: seq<string>)
    ensures 1 <= |codes| <= 2 && codes[0] == dto.sourceCurrency
    ensures |codes| == 2 <==> rates(dto.sourceCurrency).Success?
    ensures |codes| == 2 ==> codes[1] == dto.targetCurrency
  {
    if rates(dto.sourceCurrency).Success? then [dto.sourceCurrency, dto.targetCurrency]
    else [dto.sourceCurrency]
  }

  /** The metric recorded after a successful conversion. */
  function RequestsMetric(elapsedMs: int): Metric {
    Metric("requests", [("duration_ms", Int(elapsedMs))], [("route", "convert_get")])
  }

  class ConversionService {
    const rates: RateLookup
    const format: CurrencyFormatter
    const metrics: MetricsClient
    /** The codes asked of the rate provider, oldest first. */
    ghost var lookups: seq<string>

    constructor(rates: RateLookup, format: CurrencyFormatter, metrics: MetricsClient)
      ensures this.rates == rates && this.format == format && this.metrics == metrics
      ensures lookups == []
    {
      this.rates, this.format, this.metrics := rates, format, metrics;
      lookups := [];
    }

    /** convertRates: violations are thrown as a ConversionException before any lookup;
        otherwise the first exception of a lookup or of the calculator propagates and no
        metric is recorded; on success exactly one 'requests' metric is. */
    method ConvertRates(dto: ConversionRequest, acceptLanguage: string, elapsedMs: int, timestamp: string)
      returns (r: Result<ConversionResponse, Exception>)
      modifies this, metrics
      ensures Violations(dto) != [] ==>
        && r == Failure(Conversion(Rejected(Violations(dto))))
        && lookups == old(lookups)
        && metrics.recorded == old(metrics.recorded) && metrics.sent == old(metrics.sent)
      ensures Violations(dto) == [] ==>
        && r == Outcome(rates, format, dto, NormalizeLocale(acceptLanguage), timestamp)
        && lookups == old(lookups) + Lookups(rates, dto)
      ensures Violations(dto) == [] && r.Success? ==>
        && metrics.recorded == old(metrics.recorded) + [RequestsMetric(elapsedMs)]
        && metrics.sent == old(metrics.sent) + metrics.Transmitted([RequestsMetric(elapsedMs)])
      ensures r.Failure? ==> metrics.recorded == old(metrics.recorded) && metrics.sent == old(metrics.sent)
    {
      var violations := Violations(dto);
      if |violations| > 0 {
        return Failure(Conversion(Rejected(violations)));
      }
      lookups := lookups + [dto.sourceCurrency];
      var sourceCurrency := rates(dto.sourceCurrency);
      if sourceCurrency.Failure? {
        return Failure(sourceCurrency.error);
      }
      lookups := lookups + [dto.targetCurrency];
      var targetCurrency := rates(dto.targetCurrency);
      if targetCurrency.Failure? {
        return Failure(targetCurrency.error);
      }
      var converted := ConvertAmount(dto.amount, sourceCurrency.value, targetCurrency.value);
      if converted.Failure? {
        assert Outcome(rates, format, dto, NormalizeLocale(acceptLanguage), timestamp) == Failure(converted.error);
        return Failure(converted.error);
      }
      assert sourceCurrency.value > 0.0 && targetCurrency.value > 0.0;
      var locale := NormalizeLocale(acceptLanguage);
      // ICU's `=== false` fallback to en_US is dead code: `new` never yields false.
      var formatted := format(locale, converted.value, dto.targetCurrency);
      var rate := RoundedRate(sourceCurrency.value, targetCurrency.value);
      r := Success(ConversionResponse(dto.amount, dto.sourceCurrency, dto.targetCurrency,
        rate, converted.value, formatted, "cache", timestamp));
      assert r == Outcome(rates, format, dto, locale, timestamp);
      var metric := RequestsMetric(elapsedMs);
      metrics.Record(metric.measurement, metric.fields, metric.tags);
    }
  }

  /** The calculator receives (amount, sourceRate, targetRate) in that order: with a source
      rate of 1.1 and a target rate of 0.9, 100 converts to 81.82. */
  lemma OutcomeUsesRatesInOrder(rates: RateLookup, format: CurrencyFormatter, dto: ConversionRequest,
      locale: string, timestamp: string)
    requires dto.amount == 100.0
    requires rates(dto.sourceCurrency) == Success(1.1) && rates(dto.targetCurrency) == Success(0.9)
    ensures Outcome(rates, format, dto, locale, timestamp).Success?
    ensures Outcome(rates, format, dto, locale, timestamp).value.converted == 81.82
  {
    ConvertAmountExample();
  }

  /** A request that passed validation never trips the calculator's negative-amount guard,
      whatever the rates. */
  lemma ValidRequestHasNoNegativeAmount(dto: ConversionRequest, source: real, target: real)
    requires Violations(dto) == []
    ensures ConvertAmount(dto.amount, source, target) != Failure(InvalidArgument(NegativeAmount))
  {
  }

  /** With both rates available and positive, the outcome is a response. */
  lemma OutcomeSucceeds(rates: RateLookup, format: CurrencyFormatter, dto: ConversionRequest,
      locale: string, timestamp: string)
    requires Violations(dto) == []
    requires rates(dto.sourceCurrency).Success? && rates(dto.sourceCurrency).value > 0.0
    requires rates(dto.targetCurrency).Success? && rates(dto.targetCurrency).value > 0.0
    ensures Outcome(rates, format, dto, locale, timestamp).Success?
  {
  }
}
