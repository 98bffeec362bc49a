/**
 * App\Service\SwopExchangeRateProvider: a cache-aside lookup of the EUR rate of a currency.
 * The cache pool is a map from key to entry, the clock is the `now` parameter (seconds) and the
 * rate client is a function from the normalised code to what fetchExchangeCurrency returns.
 */
module RateProvider {
  import opened Wrappers
  import opened PhpStrings
  import opened Errors
  import opened FormatHelper

  /** A cached value and the instant from which it no longer counts. */
  datatype CacheEntry = CacheEntry(value: real, expiresAt: int)

  /** The constructor's default time to live, in seconds. */
  const DefaultTtlSeconds: int := 3600

  /** What the rate client returns or throws for a normalised code. */
  type RateClient = string -> Result<real, Exception>

  /** An entry is returned by the cache while the clock has not reached its expiry. */
  predicate IsLive(cache: map<string, CacheEntry>, key: string, now: int) {
    key in cache && now < cache[key].expiresAt
  }

  /** The cache key of a normalised code, as RateCacheKey shows cacheKey('rate', 'EUR', code)
      to be. */
  function RateKey(code: string): string {
    "RATE.EUR." + code
  }

  /** The shape of every key the provider writes. */
  predicate IsRateKey(key: string) {
    |key| == 12 && key[..9] == "RATE.EUR." && IsCurrencyCode(key[9..])
  }

  /** Different codes never share a cache entry. */
  lemma RateKeysDiffer(a: string, b: string)
    requires IsCurrencyCode(a) && IsCurrencyCode(b) && a != b
    ensures RateKey(a) != RateKey(b)
  {
    assert RateKey(a)[9..] == a;
    assert RateKey(b)[9..] == b;
  }

  class SwopExchangeRateProvider {
    const clientApi: RateClient
    const ttlSeconds: int
    var cache: map<string, CacheEntry>
    /** The codes the client has been asked for, oldest first. */
    ghost var clientCalls: seq<string>

    /** Everything in the cache was put there by a successful miss: a positive rate under the
        key of a valid code. */
    ghost predicate Valid()
      reads this
    {
      forall key :: key in cache ==> cache[key].value > 0.0 && IsRateKey(key)
    }

    constructor(clientApi: RateClient, ttlSeconds: int)
      ensures this.clientApi == clientApi && this.ttlSeconds == ttlSeconds
      ensures cache == map[] && clientCalls == []
      ensures Valid()
    {
      this.clientApi := clientApi;
      this.ttlSeconds := ttlSeconds;
      cache := map[];
      clientCalls := [];
    }

    /** fetchExchangeRateCurrency: normalise the code (which may throw), then serve the live
        entry or, on a miss, ask the client once, refuse a rate <= 0 and store the rest with
        expiry now + ttlSeconds. Nothing is stored when the callback throws. */
    method FetchExchangeRateCurrency(currencyCode: string, now: int) returns (r: Result<real, Exception>)
      requires Valid()
      modifies this
      ensures Valid()
      ensures r.Success? ==> r.value > 0.0
      ensures NormalizeCurrencyCode(currencyCode).Failure? ==>
        && r == Failure(NormalizeCurrencyCode(currencyCode).error)
        && cache == old(cache) && clientCalls == old(clientCalls)
      ensures NormalizeCurrencyCode(currencyCode).Success? ==>
        var code := NormalizeCurrencyCode(currencyCode).value;
        var key := RateKey(code);
        if IsLive(old(cache), key, now) then
          && r == Success(old(cache)[key].value)
          && cache == old(cache) && clientCalls == old(clientCalls)
        else
          && clientCalls == old(clientCalls) + [code]
          && match clientApi(code)
             case Failure(e) => r == Failure(e) && cache == old(cache)
             case Success(rate) =>
               if rate <= 0.0 then
                 r == Failure(Swop(MissingRate(code))) && cache == old(cache)
               else
                 r == Success(rate) && cache == old(cache)[key := CacheEntry(rate, now + ttlSeconds)]
    {
      var normalized := NormalizeCurrencyCode(currencyCode);
      if normalized.Failure? {
        return Failure(normalized.error);
      }
      var code := normalized.value;
      var key := CacheKey(["rate", "EUR", code]);
      RateCacheKey(code);
      assert key[..9] == "RATE.EUR." && key[9..] == code;
      if key in cache && now < cache[key].expiresAt {
        return Success(cache[key].value);
      }
      clientCalls := clientCalls + [code];
      var fetched := clientApi(code);
      if fetched.Failure? {
        return Failure(fetched.error);
      }
      var rate := fetched.value;
      if rate <= 0.0 {
        return Failure(Swop(MissingRate(code)));
      }
      cache := cache[key := CacheEntry(rate, now + ttlSeconds)];
      r := Success(rate);
    }
  }

  /** An invalid code is refused before the cache or the client is touched. */
  method InvalidCodeScenario(clientApi: RateClient, currencyCode: string)
    returns (r: Result<real, Exception>, ghost calls: seq<string>, cached: map<string, CacheEntry>)
    requires NormalizeCurrencyCode(currencyCode).Failure?
    ensures r == Failure(NormalizeCurrencyCode(currencyCode).error) && r.error.InvalidArgument?
    ensures calls == [] && cached == map[]
  {
    var provider := new SwopExchangeRateProvider(clientApi, DefaultTtlSeconds);
    r := provider.FetchExchangeRateCurrency(currencyCode, 0);
    calls := provider.clientCalls;
    cached := provider.cache;
  }

  /** Two codes, then a different spelling of the first, within the time to live: the third
      call is served from the cache, so the client is asked exactly twice. With "USD", "GBP"
      and "usd" this is the provider's caching test (NormalizeCurrencyCodeExample supplies
      the requirement on "usd"). */
  method CachedScenario(clientApi: RateClient, first: string, second: string, again: string)
    returns (r1: Result<real, Exception>, r2: Result<real, Exception>, r3: Result<real, Exception>,
      ghost calls: seq<string>)
    requires IsCurrencyCode(first) && IsCurrencyCode(second) && first != second
    requires NormalizeCurrencyCode(again) == Success(first)
    requires clientApi(first).Success? && clientApi(first).value > 0.0
    requires clientApi(second).Success? && clientApi(second).value > 0.0
    ensures r1 == clientApi(first) && r2 == clientApi(second) && r3 == clientApi(first)
    ensures calls == [first, second]
  {
    var provider := new SwopExchangeRateProvider(clientApi, 60);
    RateKeysDiffer(first, second);
    var v1 := clientApi(first).value;
    r1 := Miss(provider, first, 0);
    assert provider.cache == map[RateKey(first) := CacheEntry(v1, 60)];
    assert provider.clientCalls == [first];
    assert !IsLive(provider.cache, RateKey(second), 1);
    r2 := Miss(provider, second, 1);
    assert provider.cache[RateKey(first)] == CacheEntry(v1, 60);
    assert provider.clientCalls == [first, second];
    assert IsLive(provider.cache, RateKey(NormalizeCurrencyCode(again).value), 2);
    r3 := Hit(provider, again, 2);
    calls := provider.clientCalls;
  }

  /** A call for a valid code without a live entry, whose client rate is positive: the client
      is asked once and the rate is stored. */
  method Miss(provider: SwopExchangeRateProvider, code: string, now: int) returns (r: Result<real, Exception>)
    requires provider.Valid() && IsCurrencyCode(code) && !IsLive(provider.cache, RateKey(code), now)
    requires provider.clientApi(code).Success? && provider.clientApi(code).value > 0.0
    modifies provider
    ensures provider.Valid() && r == provider.clientApi(code)
    ensures provider.cache == old(provider.cache)[RateKey(code) := CacheEntry(r.value, now + provider.ttlSeconds)]
    ensures provider.clientCalls == old(provider.clientCalls) + [code]
  {
    NormalizeCurrencyCodeAccepts(code);
    r := provider.FetchExchangeRateCurrency(code, now);
  }

  /** A call whose normalised code has a live entry: served from the cache, nothing changes. */
  method Hit(provider: SwopExchangeRateProvider, currencyCode: string, now: int) returns (r: Result<real, Exception>)
    requires provider.Valid() && NormalizeCurrencyCode(currencyCode).Success?
    requires IsLive(provider.cache, RateKey(NormalizeCurrencyCode(currencyCode).value), now)
    modifies provider
    ensures provider.Valid()
    ensures provider.cache == old(provider.cache) && provider.clientCalls == old(provider.clientCalls)
    ensures r == Success(provider.cache[RateKey(NormalizeCurrencyCode(currencyCode).value)].value)
  {
    r := provider.FetchExchangeRateCurrency(currencyCode, now);
  }

  /** A client rate of 0 is refused as a missing rate and not cached. */
  method ZeroRateScenario(clientApi: RateClient) returns (r: Result<real, Exception>, cached: map<string, CacheEntry>)
    requires clientApi("GBP") == Success(0.0)
    ensures r == Failure(Swop(MissingRate("GBP")))
    ensures cached == map[]
  {
    var provider := new SwopExchangeRateProvider(clientApi, 60);
    NormalizeCurrencyCodeAccepts("GBP");
    r := provider.FetchExchangeRateCurrency("GBP", 0);
    cached := provider.cache;
  }
}
