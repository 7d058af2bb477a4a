/** The `useHackerNews` hook: its query function, which cascades from a
    live fetch to the service's cache to the bundled snapshot, and the
    projection of the query's data into what the page renders. The
    bundled snapshot and the current time (as the ISO text `toISOString`
    gives) are inputs. */
module Hooks {
  import opened Wrappers
  import opened Types
  import opened Service

  /** The response built from the bundled snapshot. */
  function SnapshotResponse(snapshot: seq<Story>, now: string): (r: HackerNewsResponse)
    ensures r.stories == snapshot && !r.cached && r.lastUpdated == now && r.pagination.None?
  {
    HackerNewsResponse(snapshot, false, now, None)
  }

  /** The `try`/`catch` of `queryFn`, given what `fetchStories()` returned or
      threw and, after a throw, what `getCachedStories()` returned. */
  function Cascade(fetched: Result<HackerNewsResponse, string>, cachedData: Option<HackerNewsResponse>,
                   snapshot: seq<Story>, now: string): (r: HackerNewsResponse)
    ensures fetched.Success? ==> r == fetched.value
    ensures fetched.Failure? && cachedData.Some? ==>
      r.cached && r.stories == cachedData.value.stories && r.lastUpdated == cachedData.value.lastUpdated
      && r.pagination == cachedData.value.pagination
    ensures fetched.Failure? && cachedData.None? ==> r == SnapshotResponse(snapshot, now)
  {
    match fetched
    case Success(data) => data
    case Failure(_) =>
      match cachedData
      case Some(data) => data.(cached := true)
      case None => SnapshotResponse(snapshot, now)
  }

  /** What `queryFn` resolves to when the service's cache is `cache` and
      its `fetch` call has the given outcome. It never rejects. */
  function QueryResult(cache: Cache, outcome: FetchOutcome, snapshot: seq<Story>, now: string): HackerNewsResponse {
    var f := FetchStep(cache, DefaultParams, outcome);
    Cascade(f.result, if f.result.Failure? then Lookup(f.cache, DefaultParams) else None, snapshot, now)
  }

  /** `queryFn`: runs against the service, which it may update. */
  method QueryFn(service: HackerNewsService, outcome: FetchOutcome, snapshot: seq<Story>, now: string)
    returns (r: HackerNewsResponse)
    modifies service
    ensures r == QueryResult(old(service.cache), outcome, snapshot, now)
    ensures service.cache == FetchStep(old(service.cache), DefaultParams, outcome).cache
  {
    var fetched := service.FetchStories(DefaultParams, outcome);
    var cachedData := None;
    if fetched.Failure? {
      cachedData := service.GetCachedStories(DefaultParams);
    }
    r := Cascade(fetched, cachedData, snapshot, now);
  }

  /** Whatever `fetchStories()` returns, `queryFn` returns unchanged, be it
      fresh data or the entry the service fell back to. */
  lemma ReturnedFetchPassesThrough(cache: Cache, outcome: FetchOutcome, snapshot: seq<Story>, now: string)
    requires FetchStep(cache, DefaultParams, outcome).result.Success?
    ensures QueryResult(cache, outcome, snapshot, now) == FetchStep(cache, DefaultParams, outcome).result.value
  {
  }

  /** Run sequentially, the re-tagging branch is dead: when `fetchStories()`
      throws, its own fallback has already found no entry, so `queryFn`
      returns either what the service returned or the snapshot. */
  lemma RetagBranchUnreachable(cache: Cache, outcome: FetchOutcome, snapshot: seq<Story>, now: string)
    ensures var f := FetchStep(cache, DefaultParams, outcome);
      f.result.Failure? ==> Lookup(f.cache, DefaultParams).None?
    ensures QueryResult(cache, outcome, snapshot, now) ==
      match FetchStep(cache, DefaultParams, outcome).result
      case Success(data) => data
      case Failure(_) => SnapshotResponse(snapshot, now)
  {
    if FetchStep(cache, DefaultParams, outcome).result.Failure? {
      FailedFetchFindsNothing(cache, DefaultParams, outcome);
    }
  }

  /** The live response is what `queryFn` returns whenever the request
      succeeds, and the snapshot whenever it fails on an empty cache. */
  lemma QueryTiers(cache: Cache, outcome: FetchOutcome, snapshot: seq<Story>, now: string)
    ensures Attempt(outcome).Success? ==> QueryResult(cache, outcome, snapshot, now) == Attempt(outcome).value
    ensures Attempt(outcome).Failure? && CacheKey(DefaultParams) in cache ==>
      QueryResult(cache, outcome, snapshot, now) == cache[CacheKey(DefaultParams)]
    ensures Attempt(outcome).Failure? && CacheKey(DefaultParams) !in cache ==>
      QueryResult(cache, outcome, snapshot, now) == SnapshotResponse(snapshot, now)
  {
  }

  /** What the hook hands to the page. */
  datatype HookView = HookView(stories: seq<Story>, lastUpdated: Option<string>, isCached: bool)

  /** `data?.stories || []`, `data?.lastUpdated || null`, `data?.cached || false`. */
  function Project(data: Option<HackerNewsResponse>): (v: HookView)
    ensures data.None? ==> v == HookView([], None, false)
    ensures data.Some? ==> v.stories == data.value.stories && v.isCached == data.value.cached
    ensures v.lastUpdated.Some? <==> data.Some? && data.value.lastUpdated != ""
    ensures v.lastUpdated.Some? ==> v.lastUpdated.value == data.value.lastUpdated
  {
    match data
    case None => HookView([], None, false)
    case Some(d) => HookView(d.stories, if d.lastUpdated != "" then Some(d.lastUpdated) else None, d.cached)
  }

  /** When the live request fails and the service has nothing for the
      default page, the page shows the snapshot, untagged, stamped now. */
  lemma FallbackView(cache: Cache, outcome: FetchOutcome, snapshot: seq<Story>, now: string)
    requires Attempt(outcome).Failure? && CacheKey(DefaultParams) !in cache && now != ""
    ensures Project(Some(QueryResult(cache, outcome, snapshot, now))) == HookView(snapshot, Some(now), false)
  {
  }
}
