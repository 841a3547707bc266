/** The USD to JPY rate service: a one-slot cache with a one-hour lifetime in
    front of one HTTP request, and a fallback rate when the request fails. The
    clock reading and the outcome of the request are inputs: `fetch` is the
    JPY rate parsed from a 200 response, or None for any other status or any
    exception on the way (connection, timeout, malformed JSON). */
module ExchangeRate {
  import opened Wrappers

  const CacheValidityMillis: int := 60 * 60 * 1000
  const FallbackRate: real := 150.0

  /** The two fields of the service. */
  datatype CacheState = CacheState(cachedRate: Option<real>, lastFetchTime: int)

  const InitialCache: CacheState := CacheState(None, 0)

  /** What one call returns, and the cache it leaves behind. */
  datatype RateCall = RateCall(result: Result<real, string>, cache: CacheState)

  /** A rate is cached and less than an hour old (strictly). */
  predicate IsFresh(c: CacheState, now: int) {
    c.cachedRate.Some? && now - c.lastFetchTime < CacheValidityMillis
  }

  /** One call of `getUsdToJpyRate` at clock reading `now`. */
  function RateStep(c: CacheState, now: int, fetch: Option<real>): (call: RateCall)
    ensures call.result.Success?
    ensures call.result.value == call.cache.cachedRate.GetOr(FallbackRate)
    ensures call.cache == c || (fetch.Some? && call.cache == CacheState(fetch, now))
    ensures c.cachedRate.Some? ==> call.cache.cachedRate.Some?
  {
    if IsFresh(c, now) then RateCall(Success(c.cachedRate.value), c)
    else match fetch
      case Some(jpyRate) => RateCall(Success(jpyRate), CacheState(Some(jpyRate), now))
      case None => RateCall(Success(c.cachedRate.GetOr(FallbackRate)), c)
  }

  /** While the cached rate is fresh, the network is not consulted: the
      outcome is the same whatever the request would have returned. */
  lemma FreshHitIgnoresNetwork(c: CacheState, now: int, fetch: Option<real>)
    requires IsFresh(c, now)
    ensures RateStep(c, now, fetch) == RateStep(c, now, None)
    ensures RateStep(c, now, fetch) == RateCall(Success(c.cachedRate.value), c)
  {
  }

  /** A call that is not served from the cache stores a fetched rate together
      with the clock reading of that call; a failed request keeps the cache as
      it was and serves the old rate, or 150.0 when none is cached. */
  lemma MissFetches(c: CacheState, now: int, fetch: Option<real>)
    requires !IsFresh(c, now)
    ensures fetch.Some? ==> RateStep(c, now, fetch) == RateCall(Success(fetch.value), CacheState(fetch, now))
    ensures fetch.None? ==> RateStep(c, now, fetch) == RateCall(Success(c.cachedRate.GetOr(FallbackRate)), c)
  {
  }

  /** Nothing is cached at first, so the first call always goes to the
      network, whatever the clock says. */
  lemma InitialCallFetches(now: int, rate: real)
    ensures !IsFresh(InitialCache, now)
    ensures RateStep(InitialCache, now, Some(rate)) == RateCall(Success(rate), CacheState(Some(rate), now))
    ensures RateStep(InitialCache, now, None) == RateCall(Success(FallbackRate), InitialCache)
  {
  }

  /** One call in a sequence of calls: its clock reading and what its request
      would yield. */
  datatype Call = Call(now: int, fetch: Option<real>)

  /** The cache after a sequence of calls. */
  function RunCache(c: CacheState, calls: seq<Call>): CacheState
    decreases |calls|
  {
    if calls == [] then c
    else RunCache(RateStep(c, calls[0].now, calls[0].fetch).cache, calls[1..])
  }

  /** What a sequence of calls returns, call by call. */
  function RunRates(c: CacheState, calls: seq<Call>): (rates: seq<real>)
    ensures |rates| == |calls|
    decreases |calls|
  {
    if calls == [] then []
    else
      var call := RateStep(c, calls[0].now, calls[0].fetch);
      [call.result.value] + RunRates(call.cache, calls[1..])
  }

  /** The rates that the requests of `calls` would yield. */
  function Fetched(calls: seq<Call>): set<real> {
    set i | 0 <= i < |calls| && calls[i].fetch.Some? :: calls[i].fetch.value
  }

  /** Once a rate is cached, the cache is never empty again. */
  lemma {:induction false} StaysCached(c: CacheState, calls: seq<Call>)
    requires c.cachedRate.Some?
    ensures RunCache(c, calls).cachedRate.Some?
    decreases |calls|
  {
    if calls != [] {
      StaysCached(RateStep(c, calls[0].now, calls[0].fetch).cache, calls[1..]);
    }
  }

  /** The rates fetched by the later calls of a run were fetched by the run. */
  lemma FetchedTail(calls: seq<Call>)
    requires calls != []
    ensures Fetched(calls[1..]) <= Fetched(calls)
    ensures calls[0].fetch.Some? ==> calls[0].fetch.value in Fetched(calls)
  {
    forall x | x in Fetched(calls[1..]) ensures x in Fetched(calls) {
      var i :| 0 <= i < |calls[1..]| && calls[1..][i].fetch.Some? && calls[1..][i].fetch.value == x;
      assert calls[i + 1] == calls[1..][i];
    }
  }

  /** A run either leaves the cached rate as it found it or ends with a rate
      that one of its requests returned. */
  lemma {:induction false} CachedRateWasFetched(c: CacheState, calls: seq<Call>)
    ensures var after := RunCache(c, calls).cachedRate;
      after == c.cachedRate || (after.Some? && after.value in Fetched(calls))
    decreases |calls|
  {
    if calls != [] {
      var next := RateStep(c, calls[0].now, calls[0].fetch).cache;
      CachedRateWasFetched(next, calls[1..]);
      FetchedTail(calls);
    }
  }

  /** From the initial state, whatever is cached is a rate that a request
      returned: the fallback rate is never written into the cache. */
  lemma FallbackNeverCached(calls: seq<Call>)
    ensures RunCache(InitialCache, calls).cachedRate.Some? ==>
      RunCache(InitialCache, calls).cachedRate.value in Fetched(calls)
    ensures FallbackRate !in Fetched(calls) ==> RunCache(InitialCache, calls).cachedRate != Some(FallbackRate)
  {
    CachedRateWasFetched(InitialCache, calls);
  }

  /** For an hour after a successful fetch (by the clock's own readings), every
      call returns the fetched rate, touches neither field and does no
      request. */
  lemma {:induction false} StableWithinTheHour(rate: real, t: int, calls: seq<Call>)
    requires forall i :: 0 <= i < |calls| ==> calls[i].now - t < CacheValidityMillis
    ensures RunCache(CacheState(Some(rate), t), calls) == CacheState(Some(rate), t)
    ensures forall i :: 0 <= i < |calls| ==> RunRates(CacheState(Some(rate), t), calls)[i] == rate
    decreases |calls|
  {
    if calls != [] {
      StableWithinTheHour(rate, t, calls[1..]);
      var rates := RunRates(CacheState(Some(rate), t), calls);
      assert rates[1..] == RunRates(CacheState(Some(rate), t), calls[1..]);
    }
  }

  /** `convertUsdToJpy`: the amount times the rate, unrounded, so converting
      back at the same rate gives the amount exactly. */
  function ConvertUsdToJpy(usdAmount: real, rate: real): (jpy: real)
    ensures rate != 0.0 ==> jpy / rate == usdAmount
    ensures rate == 0.0 ==> jpy == 0.0
    ensures usdAmount > 0.0 && rate > 0.0 ==> jpy > 0.0
  {
    usdAmount * rate
  }

  class ExchangeRateService {
    var cachedRate: Option<real>
    var lastFetchTime: int

    constructor ()
      ensures Cache() == InitialCache
    {
      cachedRate := None;
      lastFetchTime := 0;
    }

    function Cache(): CacheState
      reads this
    {
      CacheState(cachedRate, lastFetchTime)
    }

    /** `getUsdToJpyRate`: reads the clock once, serves a fresh cached rate,
        and otherwise makes the request, caching what it yields. */
    method GetUsdToJpyRate(now: int, fetch: Option<real>) returns (r: Result<real, string>)
      modifies this
      ensures r.Success?
      ensures r == RateStep(old(Cache()), now, fetch).result
      ensures Cache() == RateStep(old(Cache()), now, fetch).cache
    {
      var currentTime := now;
      if cachedRate.Some? && currentTime - lastFetchTime < CacheValidityMillis {
        return Success(cachedRate.value);
      }
      match fetch {
        case Some(jpyRate) =>
          cachedRate := Some(jpyRate);
          lastFetchTime := currentTime;
          r := Success(jpyRate);
        case None =>
          r := Success(cachedRate.GetOr(FallbackRate));
      }
    }
  }
}
