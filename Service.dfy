/** The client's fetch service: builds the query string and the cache key of
    a page, fetches it, remembers every successful response in an in-memory
    map, and falls back to that map when a fetch fails. The network is an
    input: the outcome of the `fetch` call is passed in. */
module Service {
  import opened Wrappers
  import opened JsNumber
  import opened Types

  const DefaultLimit: int := 200

  /** `params.limit || 200`. */
  function EffectiveLimit(p: PaginationParams): (l: int)
    ensures l != 0
    ensures p.limit.Some? && p.limit.value != 0 ==> l == p.limit.value
    ensures p.limit.None? || p.limit.value == 0 ==> l == DefaultLimit
  {
    if p.limit.Some? && p.limit.value != 0 then p.limit.value else DefaultLimit
  }

  /** `params.offset || 0`. */
  function EffectiveOffset(p: PaginationParams): (o: int)
    ensures p.offset.Some? ==> o == p.offset.value
    ensures p.offset.None? ==> o == 0
  {
    if p.offset.Some? && p.offset.value != 0 then p.offset.value else 0
  }

  /** `buildCacheKey(params)`: `stories_<limit>_<offset>`. */
  function CacheKey(p: PaginationParams): (k: string)
    ensures |k| > 8 && k[..8] == "stories_"
  {
    "stories_" + IntToString(EffectiveLimit(p)) + "_" + IntToString(EffectiveOffset(p))
  }

  /** Two parameter sets share a cache entry exactly when their effective
      limit and offset agree: a numeral never contains `_`. */
  lemma CacheKeyIdentifiesPage(p1: PaginationParams, p2: PaginationParams)
    ensures CacheKey(p1) == CacheKey(p2) <==>
            EffectiveLimit(p1) == EffectiveLimit(p2) && EffectiveOffset(p1) == EffectiveOffset(p2)
  {
    if CacheKey(p1) == CacheKey(p2) {
      JoinedNumeralsInjective("stories_", "_", EffectiveLimit(p1), EffectiveOffset(p1),
                              EffectiveLimit(p2), EffectiveOffset(p2));
    }
  }

  /** The parameters the hook passes (none) have the key `stories_200_0`. */
  lemma DefaultParamsKey()
    ensures CacheKey(DefaultParams) == "stories_200_0"
  {
    assert NatToString(2) == "2";
    assert NatToString(20) == "20";
    assert NatToString(200) == "200";
    assert NatToString(0) == "0";
  }

  /** `if (n) url.searchParams.set(name, n.toString())`: the parameter's
      text, present only for a truthy number. */
  function SearchParam(n: Option<int>): (r: Option<string>)
    ensures r.Some? <==> n.Some? && n.value != 0
    ensures r.Some? ==> ParseInt(r.value) == Num(n.value)
  {
    match n
    case None => None
    case Some(v) =>
      ParseIntOfIntToString(v);
      if v != 0 then Some(IntToString(v)) else None
  }

  /** The query string of `buildUrl(params)`; the rest of the URL is fixed. */
  function BuildUrl(p: PaginationParams): (q: Query)
    ensures q.limit.Some? <==> p.limit.Some? && p.limit.value != 0
    ensures q.offset.Some? <==> p.offset.Some? && p.offset.value != 0
    ensures q.limit.Some? ==> ParseInt(q.limit.value) == Num(p.limit.value)
    ensures q.offset.Some? ==> ParseInt(q.offset.value) == Num(p.offset.value)
  {
    Query(SearchParam(p.limit), SearchParam(p.offset))
  }

  /** What the `fetch` call produced: a network error, or an HTTP response
      with its status and the outcome of `response.json()`. */
  datatype FetchOutcome =
    | NetworkError(message: string)
    | HttpResponse(status: int, json: Result<HackerNewsResponse, string>)

  /** `response.ok`. */
  predicate IsOk(status: int) {
    200 <= status <= 299
  }

  /** The message thrown for a non-OK status: the status reads back from its tail. */
  function HttpErrorMessage(status: int): (m: string)
    ensures |m| > 20 && m[..20] == "HTTP error! status: "
    ensures ParseInt(m[20..]) == Num(status)
  {
    IntToStringChars(status);
    ParseIntOfIntToString(status);
    var m := "HTTP error! status: " + IntToString(status);
    assert m[20..] == IntToString(status);
    m
  }

  /** The `try` block of `fetchStories` up to the parsed body: the data, or
      the message of the error it throws. */
  function Attempt(outcome: FetchOutcome): (r: Result<HackerNewsResponse, string>)
    ensures outcome.NetworkError? ==> r == Failure(outcome.message)
    ensures outcome.HttpResponse? && !IsOk(outcome.status) ==> r == Failure(HttpErrorMessage(outcome.status))
    ensures outcome.HttpResponse? && IsOk(outcome.status) ==> r == outcome.json
  {
    match outcome
    case NetworkError(m) => Failure(m)
    case HttpResponse(status, json) =>
      if !IsOk(status) then Failure(HttpErrorMessage(status)) else json
  }

  type Cache = map<string, HackerNewsResponse>

  /** `cache.get(key) || null` for the key of `p`. */
  function Lookup(cache: Cache, p: PaginationParams): (r: Option<HackerNewsResponse>)
    ensures r.Some? <==> CacheKey(p) in cache
    ensures r.Some? ==> r.value == cache[CacheKey(p)]
  {
    if CacheKey(p) in cache then Some(cache[CacheKey(p)]) else None
  }

  datatype Fetched = Fetched(cache: Cache, result: Result<HackerNewsResponse, string>)

  /** What `fetchStories(p)` does to the cache and what it returns or throws. */
  function FetchStep(cache: Cache, p: PaginationParams, outcome: FetchOutcome): (f: Fetched)
    ensures Attempt(outcome).Success? ==>
      f.result == Attempt(outcome) && f.cache == cache[CacheKey(p) := Attempt(outcome).value]
    ensures Attempt(outcome).Failure? ==> f.cache == cache
    ensures Attempt(outcome).Failure? && CacheKey(p) in cache ==> f.result == Success(cache[CacheKey(p)])
    ensures Attempt(outcome).Failure? && CacheKey(p) !in cache ==> f.result == Attempt(outcome)
    ensures forall k :: k != CacheKey(p) ==> (k in f.cache <==> k in cache)
    ensures forall k :: k in cache && k != CacheKey(p) ==> f.cache[k] == cache[k]
  {
    var key := CacheKey(p);
    match Attempt(outcome)
    case Success(data) => Fetched(cache[key := data], Success(data))
    case Failure(e) => if key in cache then Fetched(cache, Success(cache[key])) else Fetched(cache, Failure(e))
  }

  /** A non-OK status takes the same path as a network failure whose message is the HTTP error's. */
  lemma NonOkStatusIsNetworkFailure(cache: Cache, p: PaginationParams, status: int, json: Result<HackerNewsResponse, string>)
    requires !IsOk(status)
    ensures FetchStep(cache, p, HttpResponse(status, json)) == FetchStep(cache, p, NetworkError(HttpErrorMessage(status)))
  {
  }

  /** A fetch that throws leaves the page's key absent: whatever was stored
      under it has already been returned instead of the error. */
  lemma FailedFetchFindsNothing(cache: Cache, p: PaginationParams, outcome: FetchOutcome)
    requires FetchStep(cache, p, outcome).result.Failure?
    ensures Lookup(FetchStep(cache, p, outcome).cache, p).None?
  {
  }

  /** One explicitly constructed service instance and its response cache. */
  class HackerNewsService {
    var cache: Cache

    constructor ()
      ensures cache == map[]
    {
      cache := map[];
    }

    /** `fetchStories(params)` given the outcome of its `fetch` call. */
    method FetchStories(params: PaginationParams, outcome: FetchOutcome) returns (r: Result<HackerNewsResponse, string>)
      modifies this
      ensures Fetched(cache, r) == FetchStep(old(cache), params, outcome)
    {
      var key := CacheKey(params);
      var attempt := Attempt(outcome);
      if attempt.Success? {
        cache := cache[key := attempt.value];
        return attempt;
      }
      var cachedData := Lookup(cache, params);
      if cachedData.Some? {
        return Success(cachedData.value);
      }
      return Failure(attempt.error);
    }

    /** `getCachedStories(params)`. */
    function GetCachedStories(params: PaginationParams): (r: Option<HackerNewsResponse>)
      reads this
      ensures r.Some? <==> CacheKey(params) in cache
      ensures r.Some? ==> r.value == cache[CacheKey(params)]
    {
      Lookup(cache, params)
    }

    /** `clearCache()`. */
    method ClearCache()
      modifies this
      ensures cache == map[]
      ensures forall p :: !HasCachedPage(p) && GetCachedStories(p).None?
    {
      cache := map[];
    }

    /** `hasCachedPage(params)`. */
    function HasCachedPage(params: PaginationParams): (b: bool)
      reads this
      ensures b <==> GetCachedStories(params).Some?
    {
      CacheKey(params) in cache
    }
  }
}
