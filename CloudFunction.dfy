/** The HTTP cloud function that serves one page of stories: request
    dispatch, clamping of `limit`/`offset`, the cache key, the one-hour
    freshness rule, the formatting of upstream rows and the
    hit/miss/overwrite protocol of the cache collection.

    The analytical query engine is an oracle from SQL text to rows, the
    document store is a map from cache key to document, and the md5 digest
    is a function value of the deployment. Time is in integer milliseconds. */
module CloudFunction {
  import opened Wrappers
  import opened JsNumber
  import opened Types

  const CacheDurationHours: int := 1
  const MsPerHour: int := 1000 * 60 * 60
  const DefaultLimit: int := 200
  const MaxLimit: int := 500

  /** What a deployment fixes: the SQL text without its window, the hash
      function behind `getQueryHash`, and the environment variables
      `API_KEY` and `NODE_ENV` (`None` when unset). */
  datatype Deployment = Deployment(
    baseQuery: string,
    digest: string -> string,
    apiKey: Option<string>,
    nodeEnv: Option<string>)

  /** An incoming request: its method, its `x-api-key` header and its query string. */
  datatype Request = Request(verb: string, apiKeyHeader: Option<string>, query: Query)

  type NonEmptyString = s: string | |s| > 0 witness "0"

  /** A row's `timestamp` cell: absent or null, a plain string, or a
      timestamp object whose `value` is its (non-empty) ISO text. */
  datatype RawTimestamp = NoTimestamp | TimestampText(text: string) | TimestampObject(value: NonEmptyString)

  /** One row as the query engine returns it; `None` is a null or missing cell. */
  datatype Row = Row(
    id: Option<int>,
    title: Option<string>,
    text: Option<string>,
    url: Option<string>,
    score: Option<int>,
    parent: Option<int>,
    ranking: Option<int>,
    descendants: Option<int>,
    timestamp: RawTimestamp)

  /** A document of the cache collection. A missing `limit` or `offset` reads as 0: both are falsy. */
  datatype CacheDoc = CacheDoc(stories: seq<Story>, timestamp: int, queryText: string, limit: int, offset: int)

  type Store = map<string, CacheDoc>

  datatype Body =
    | NoContent
    | ErrorJson(error: string, message: Option<string>)
    | PageJson(stories: seq<Story>, cached: bool, lastUpdated: int, pagination: Pagination)

  datatype Reply = Reply(status: int, body: Body)

  /** The outcome of the two store operations of one request: `Some(message)` when it throws. */
  datatype StoreFaults = StoreFaults(readError: Option<string>, writeError: Option<string>)

  /** The analytical query engine: rows for a SQL text, or the message of its error. */
  type Upstream = string -> Result<seq<Row>, string>

  /** What one request does: the reply, the store afterwards, and the SQL sent upstream, if any. */
  datatype Served = Served(reply: Reply, store: Store, query: Option<string>)

  // ---------------------------------------------------------------------
  // Pagination parameters

  function Min(a: int, b: int): int { if a <= b then a else b }
  function Max(a: int, b: int): int { if a >= b then a else b }

  /** `Math.min(Math.max(parseInt(limit) || 200, 1), 500)`. */
  function ClampLimit(p: Parsed): (r: int)
    ensures 1 <= r <= MaxLimit
    ensures !Truthy(p) ==> r == DefaultLimit
    ensures Truthy(p) && p.value < 1 ==> r == 1
    ensures Truthy(p) && 1 <= p.value <= MaxLimit ==> r == p.value
    ensures Truthy(p) && p.value > MaxLimit ==> r == MaxLimit
  {
    Min(Max(OrElse(p, DefaultLimit), 1), MaxLimit)
  }

  /** `Math.max(parseInt(offset) || 0, 0)`. */
  function ClampOffset(p: Parsed): (r: int)
    ensures r >= 0
    ensures !Truthy(p) || p.value < 0 ==> r == 0
    ensures Truthy(p) && p.value > 0 ==> r == p.value
  {
    Max(OrElse(p, 0), 0)
  }

  /** The clamped (limit, offset) window of a query string. */
  function RequestWindow(q: Query): (w: (int, int))
    ensures 1 <= w.0 <= MaxLimit && w.1 >= 0
  {
    (ClampLimit(ParseParam(q.limit)), ClampOffset(ParseParam(q.offset)))
  }

  // ---------------------------------------------------------------------
  // SQL text and cache key

  /** `buildQuery(limit, offset)`: the fixed query followed by its window. */
  function BuildQuery(base: string, limit: int, offset: int): (q: string)
    ensures |base| < |q| && q[..|base|] == base && q[|base|] == '\n'
  {
    base + "\nLIMIT " + IntToString(limit) + "\nOFFSET " + IntToString(offset)
  }

  /** The string `getQueryHash` feeds to the digest. */
  function HashInput(base: string, limit: int, offset: int): (h: string)
    ensures |base| + 7 < |h| && h[..|base|] == base && h[|base|..|base| + 7] == "_limit_"
  {
    base + "_limit_" + IntToString(limit) + "_offset_" + IntToString(offset)
  }

  /** `getQueryHash(BASE_QUERY, limit, offset)`: the document id of a window. */
  function QueryHash(d: Deployment, limit: int, offset: int): string {
    d.digest(HashInput(d.baseQuery, limit, offset))
  }

  ghost predicate Injective(f: string -> string) {
    forall a, b :: f(a) == f(b) ==> a == b
  }

  /** Distinct windows are distinct SQL texts: the oracle is asked for what was requested. */
  lemma BuildQueryInjective(base: string, l1: int, o1: int, l2: int, o2: int)
    ensures BuildQuery(base, l1, o1) == BuildQuery(base, l2, o2) <==> l1 == l2 && o1 == o2
  {
    if BuildQuery(base, l1, o1) == BuildQuery(base, l2, o2) {
      JoinedNumeralsInjective(base + "\nLIMIT ", "\nOFFSET ", l1, o1, l2, o2);
    }
  }

  /** The key depends on the window only, and with a collision-free digest
      distinct windows never share a document. */
  lemma QueryHashDistinguishesWindows(d: Deployment, l1: int, o1: int, l2: int, o2: int)
    requires Injective(d.digest)
    ensures QueryHash(d, l1, o1) == QueryHash(d, l2, o2) <==> l1 == l2 && o1 == o2
  {
    if QueryHash(d, l1, o1) == QueryHash(d, l2, o2) {
      JoinedNumeralsInjective(d.baseQuery + "_limit_", "_offset_", l1, o1, l2, o2);
    }
  }

  // ---------------------------------------------------------------------
  // Freshness

  /** `isCacheValid(timestamp)`: less than `CACHE_DURATION_HOURS` has
      elapsed since the write. The source divides the elapsed milliseconds
      by an hour and compares with 1; on integers that is this comparison. */
  function IsCacheValid(timestamp: int, now: int): (valid: bool)
    ensures valid <==> now < timestamp + CacheDurationHours * MsPerHour
  {
    now - timestamp < CacheDurationHours * MsPerHour
  }

  /** Once stale, an entry stays stale as the clock advances. */
  lemma StaleStaysStale(timestamp: int, now: int, later: int)
    requires now <= later && !IsCacheValid(timestamp, now)
    ensures !IsCacheValid(timestamp, later)
  {
  }

  /** A document dated in the future counts as fresh. */
  lemma FutureDatedIsFresh(timestamp: int, now: int)
    requires now < timestamp
    ensures IsCacheValid(timestamp, now)
  {
  }

  // ---------------------------------------------------------------------
  // Formatting rows

  /** `s || null` for a string cell. */
  function TextField(cell: Option<string>): (r: Option<string>)
    ensures r.Some? <==> cell.Some? && cell.value != ""
    ensures r.Some? ==> r == cell
  {
    if cell.Some? && cell.value != "" then cell else None
  }

  /** `cell?.toString() || null` for an integer cell: the decimal text, or
      null for a missing cell only (0 becomes "0", which is truthy). */
  function NumberField(cell: Option<int>): (r: Option<string>)
    ensures r.None? <==> cell.None?
    ensures r.Some? ==> r.value == IntToString(cell.value) && ParseInt(r.value) == Num(cell.value)
  {
    match cell
    case None => None
    case Some(n) =>
      IntToStringChars(n);
      ParseIntOfIntToString(n);
      var t := IntToString(n);
      if t != "" then Some(t) else None
  }

  /** `row.timestamp?.value || row.timestamp || ''`. */
  function TimestampField(cell: RawTimestamp): (r: string)
    ensures cell.NoTimestamp? ==> r == ""
    ensures cell.TimestampText? ==> r == cell.text
    ensures cell.TimestampObject? ==> r == cell.value
  {
    match cell
    case NoTimestamp => ""
    case TimestampText(t) => if t != "" then t else ""
    case TimestampObject(v) => v
  }

  /** The mapping applied by `formatStories` to one row. */
  function FormatStory(row: Row): (s: Story)
    ensures s.id == "" <==> row.id.None?
    ensures row.id.Some? ==> ParseInt(s.id) == Num(row.id.value)
    ensures s.title == row.title.GetOr("")
    ensures s.text == TextField(row.text) && s.url == TextField(row.url)
    ensures s.score == NumberField(row.score) && s.parent == NumberField(row.parent)
    ensures s.ranking == NumberField(row.ranking) && s.descendants == NumberField(row.descendants)
    ensures s.timestamp == TimestampField(row.timestamp)
  {
    var id := NumberField(row.id);
    Story(
      id := if id.Some? then id.value else "",
      title := if row.title.Some? && row.title.value != "" then row.title.value else "",
      text := TextField(row.text),
      url := TextField(row.url),
      score := NumberField(row.score),
      parent := NumberField(row.parent),
      ranking := NumberField(row.ranking),
      descendants := NumberField(row.descendants),
      timestamp := TimestampField(row.timestamp))
  }

  /** `formatStories(rows)`: one story per row, in the same order. */
  function FormatStories(rows: seq<Row>): (stories: seq<Story>)
    ensures |stories| == |rows|
    ensures forall i :: 0 <= i < |rows| ==> stories[i] == FormatStory(rows[i])
  {
    if rows == [] then [] else [FormatStory(rows[0])] + FormatStories(rows[1..])
  }

  // ---------------------------------------------------------------------
  // Replies

  /** `stored || requested` for a limit or offset read back from a document. */
  function StoredOr(stored: int, requested: int): int {
    if stored != 0 then stored else requested
  }

  /** The reply body on a cache hit: the stored stories, tagged cached. */
  function HitBody(doc: CacheDoc, limit: int, offset: int): (b: Body)
    ensures b.PageJson? && b.cached && b.stories == doc.stories && b.lastUpdated == doc.timestamp
    ensures b.pagination.count == |doc.stories|
    ensures b.pagination.hasMore <==> |doc.stories| == b.pagination.limit
    ensures b.pagination.limit == (if doc.limit != 0 then doc.limit else limit)
    ensures b.pagination.offset == (if doc.offset != 0 then doc.offset else offset)
  {
    var effLimit := StoredOr(doc.limit, limit);
    PageJson(doc.stories, true, doc.timestamp,
      Pagination(effLimit, StoredOr(doc.offset, offset), |doc.stories|, |doc.stories| == effLimit))
  }

  /** The reply body after querying upstream: the fresh stories, not cached. */
  function MissBody(stories: seq<Story>, now: int, limit: int, offset: int): (b: Body)
    ensures b.PageJson? && !b.cached && b.stories == stories && b.lastUpdated == now
    ensures b.pagination == Pagination(limit, offset, |stories|, b.pagination.hasMore)
    ensures b.pagination.hasMore <==> |stories| == limit
  {
    PageJson(stories, false, now, Pagination(limit, offset, |stories|, |stories| == limit))
  }

  /** The 500 reply: the error's message only in development. */
  function ServerError(d: Deployment, message: string): (r: Reply)
    ensures r.status == 500 && r.body.ErrorJson?
    ensures r.body.message == Some(if d.nodeEnv == Some("development") then message else "Internal server error")
  {
    Reply(500, ErrorJson("Failed to fetch stories",
      Some(if d.nodeEnv == Some("development") then message else "Internal server error")))
  }

  /** `expectedApiKey && apiKey !== expectedApiKey`: a configured, non-empty
      key that the header does not carry exactly. */
  predicate ApiKeyRejected(d: Deployment, req: Request): (rejected: bool)
    ensures d.apiKey.None? || d.apiKey == Some("") ==> !rejected
    ensures req.apiKeyHeader == d.apiKey ==> !rejected
    ensures d.apiKey.Some? && d.apiKey.value != "" && req.apiKeyHeader.None? ==> rejected
  {
    d.apiKey.Some? && d.apiKey.value != "" && req.apiKeyHeader != d.apiKey
  }

  /** The document id a GET request is served from. */
  function RequestKey(d: Deployment, req: Request): string {
    var w := RequestWindow(req.query);
    QueryHash(d, w.0, w.1)
  }

  /** One invocation of `fetchHackerNewsStories`, as a function of the store before it. */
  function Serve(d: Deployment, store: Store, req: Request, now: int, faults: StoreFaults, upstream: Upstream): (o: Served)
    ensures req.verb == "OPTIONS" ==> o == Served(Reply(204, NoContent), store, None)
    ensures req.verb != "OPTIONS" && req.verb != "GET" ==> o == Served(Reply(405, ErrorJson("Method not allowed", None)), store, None)
    ensures req.verb == "GET" && ApiKeyRejected(d, req) ==> o == Served(Reply(401, ErrorJson("Unauthorized", None)), store, None)
    ensures o.reply.status == 500 ==> o.store == store
    ensures o.store != store ==>
      && req.verb == "GET" && !ApiKeyRejected(d, req)
      && o.reply.status == 200 && o.query.Some? && o.reply.body.PageJson? && !o.reply.body.cached
      && o.store == store[RequestKey(d, req) :=
           CacheDoc(o.reply.body.stories, now, d.baseQuery, RequestWindow(req.query).0, RequestWindow(req.query).1)]
    ensures o.reply.body.PageJson? && o.reply.body.cached ==>
      RequestKey(d, req) in store && o.reply.body == HitBody(store[RequestKey(d, req)], RequestWindow(req.query).0, RequestWindow(req.query).1)
    ensures o.reply.body.PageJson? && !o.reply.body.cached ==>
      o.reply.body == MissBody(o.reply.body.stories, now, RequestWindow(req.query).0, RequestWindow(req.query).1)
    ensures forall k :: k != RequestKey(d, req) ==> (k in o.store <==> k in store)
    ensures forall k :: k in store && k != RequestKey(d, req) ==> o.store[k] == store[k]
    ensures o.query.Some? ==> o.query.value == BuildQuery(d.baseQuery, RequestWindow(req.query).0, RequestWindow(req.query).1)
  {
    if req.verb == "OPTIONS" then Served(Reply(204, NoContent), store, None)
    else if req.verb != "GET" then Served(Reply(405, ErrorJson("Method not allowed", None)), store, None)
    else if ApiKeyRejected(d, req) then Served(Reply(401, ErrorJson("Unauthorized", None)), store, None)
    else
      var (limit, offset) := RequestWindow(req.query);
      var key := QueryHash(d, limit, offset);
      if faults.readError.Some? then Served(ServerError(d, faults.readError.value), store, None)
      else if key in store && IsCacheValid(store[key].timestamp, now) then
        Served(Reply(200, HitBody(store[key], limit, offset)), store, None)
      else
        var q := BuildQuery(d.baseQuery, limit, offset);
        match upstream(q)
        case Failure(message) => Served(ServerError(d, message), store, Some(q))
        case Success(rows) =>
          var stories := FormatStories(rows);
          if faults.writeError.Some? then Served(ServerError(d, faults.writeError.value), store, Some(q))
          else Served(Reply(200, MissBody(stories, now, limit, offset)),
                      store[key := CacheDoc(stories, now, d.baseQuery, limit, offset)], Some(q))
  }

  /** Every failure inside the GET path answers `ServerError` with the
      failing operation's message and leaves the store as it was: a failing
      read of the document before anything else is tried, and on a missing or
      stale document a failing upstream query or a failing write of its
      result. Every 500 is the error body, and outside development it hides
      the message. */
  lemma FailuresAnswerServerError(d: Deployment, store: Store, req: Request, now: int, faults: StoreFaults, upstream: Upstream)
    ensures var o := Serve(d, store, req, now, faults, upstream);
      req.verb == "GET" && !ApiKeyRejected(d, req) && faults.readError.Some? ==>
      o == Served(ServerError(d, faults.readError.value), store, None)
    ensures var o := Serve(d, store, req, now, faults, upstream);
      var k := RequestKey(d, req);
      var q := BuildQuery(d.baseQuery, RequestWindow(req.query).0, RequestWindow(req.query).1);
      req.verb == "GET" && !ApiKeyRejected(d, req) && faults.readError.None?
      && (k !in store || !IsCacheValid(store[k].timestamp, now)) ==>
      && (upstream(q).Failure? ==> o == Served(ServerError(d, upstream(q).error), store, Some(q)))
      && (upstream(q).Success? && faults.writeError.Some? ==>
            o == Served(ServerError(d, faults.writeError.value), store, Some(q)))
    ensures var o := Serve(d, store, req, now, faults, upstream);
      o.reply.status == 500 ==>
      && o.reply.body == ErrorJson("Failed to fetch stories", o.reply.body.message)
      && (d.nodeEnv != Some("development") ==> o.reply.body.message == Some("Internal server error"))
  {
  }

  /** A GET that passes the gate and finds a fresh document returns it
      unchanged, leaves the store as it was and does not query upstream. */
  lemma HitServesStoredStories(d: Deployment, store: Store, req: Request, now: int, faults: StoreFaults, upstream: Upstream)
    ensures var k := RequestKey(d, req);
      var o := Serve(d, store, req, now, faults, upstream);
      req.verb == "GET" && !ApiKeyRejected(d, req) && faults.readError.None?
      && k in store && IsCacheValid(store[k].timestamp, now) ==>
        && o.store == store && o.query.None? && o.reply.status == 200
        && o.reply.body == HitBody(store[k], RequestWindow(req.query).0, RequestWindow(req.query).1)
  {
  }

  /** On a miss or a stale document with a working upstream and store, the
      document at the key is replaced wholesale by the fresh stories,
      stamped now, and the reply carries them untagged. */
  lemma MissOverwritesDocument(d: Deployment, store: Store, req: Request, now: int, upstream: Upstream)
    ensures var k := RequestKey(d, req);
      var (limit, offset) := RequestWindow(req.query);
      var q := BuildQuery(d.baseQuery, limit, offset);
      var o := Serve(d, store, req, now, StoreFaults(None, None), upstream);
      req.verb == "GET" && !ApiKeyRejected(d, req) && (k !in store || !IsCacheValid(store[k].timestamp, now))
      && upstream(q).Success? ==>
        && o.store == store[k := CacheDoc(FormatStories(upstream(q).value), now, d.baseQuery, limit, offset)]
        && o.reply == Reply(200, MissBody(FormatStories(upstream(q).value), now, limit, offset))
        && o.query == Some(q)
  {
  }

  /** Every document sits at the key of its own window, and that window is a clamped one. */
  ghost predicate WellFormedStore(d: Deployment, store: Store) {
    forall k :: k in store ==>
      && 1 <= store[k].limit <= MaxLimit && store[k].offset >= 0
      && k == QueryHash(d, store[k].limit, store[k].offset)
  }

  /** Serving a request keeps every document at the key of its own window. */
  lemma ServeKeepsStoreWellFormed(d: Deployment, store: Store, req: Request, now: int, faults: StoreFaults, upstream: Upstream)
    requires WellFormedStore(d, store)
    ensures WellFormedStore(d, Serve(d, store, req, now, faults, upstream).store)
  {
    var o := Serve(d, store, req, now, faults, upstream);
    if o.store != store {
      var k := RequestKey(d, req);
      assert o.store == store[k := o.store[k]];
      assert forall k' :: k' in o.store && k' != k ==> o.store[k'] == store[k'];
    }
  }

  /** With a collision-free digest and documents written by this function,
      every page reply describes exactly the requested window: `count` is
      the number of stories and `hasMore` holds iff the page is full. */
  lemma PageDescribesRequestedWindow(d: Deployment, store: Store, req: Request, now: int, faults: StoreFaults, upstream: Upstream)
    requires Injective(d.digest) && WellFormedStore(d, store)
    ensures var b := Serve(d, store, req, now, faults, upstream).reply.body;
      var (limit, offset) := RequestWindow(req.query);
      b.PageJson? ==>
      && b.pagination.limit == limit && b.pagination.offset == offset
      && b.pagination.count == |b.stories|
      && (b.pagination.hasMore <==> |b.stories| == limit)
  {
    var b := Serve(d, store, req, now, faults, upstream).reply.body;
    var (limit, offset) := RequestWindow(req.query);
    if b.PageJson? && b.cached {
      var doc := store[RequestKey(d, req)];
      QueryHashDistinguishesWindows(d, limit, offset, doc.limit, doc.offset);
    }
  }

  /** Asking again for the same window within the hour, after a request that
      refreshed the document, is a hit: the upstream is not queried, the
      store is untouched and the very same stories come back, now tagged cached. */
  lemma RepeatWithinHourIsHit(d: Deployment, store: Store, req: Request, t1: int, t2: int,
                              faults1: StoreFaults, faults2: StoreFaults, up1: Upstream, up2: Upstream)
    requires faults2.readError.None? && t2 < t1 + CacheDurationHours * MsPerHour
    ensures var o1 := Serve(d, store, req, t1, faults1, up1);
      var o2 := Serve(d, o1.store, req, t2, faults2, up2);
      o1.store != store ==>
      && o2.query.None? && o2.store == o1.store
      && o2.reply.body.PageJson? && o2.reply.body.cached
      && o2.reply.body.stories == o1.reply.body.stories
  {
    var o1 := Serve(d, store, req, t1, faults1, up1);
    if o1.store != store {
      var k := RequestKey(d, req);
      assert k in o1.store && o1.store[k].timestamp == t1 && o1.store[k].stories == o1.reply.body.stories;
      HitServesStoredStories(d, o1.store, req, t2, faults2, up2);
    }
  }

  /** The cloud function with its cache collection. `issued` records, as a
      ghost log, every SQL text sent to the query engine. */
  class CloudFunction {
    const deployment: Deployment
    var store: Store
    ghost var issued: seq<string>

    constructor (d: Deployment, initial: Store)
      ensures deployment == d && store == initial && issued == []
    {
      deployment := d;
      store := initial;
      issued := [];
    }

    /** `fetchHackerNewsStories(req, res)`. */
    method FetchHackerNewsStories(req: Request, now: int, faults: StoreFaults, upstream: Upstream) returns (reply: Reply)
      modifies this
      ensures var o := Serve(deployment, old(store), req, now, faults, upstream);
        && reply == o.reply && store == o.store
        && issued == old(issued) + (if o.query.Some? then [o.query.value] else [])
    {
      if req.verb == "OPTIONS" {
        return Reply(204, NoContent);
      }
      if req.verb != "GET" {
        return Reply(405, ErrorJson("Method not allowed", None));
      }
      if ApiKeyRejected(deployment, req) {
        return Reply(401, ErrorJson("Unauthorized", None));
      }
      var limit := ClampLimit(ParseParam(req.query.limit));
      var offset := ClampOffset(ParseParam(req.query.offset));
      var key := QueryHash(deployment, limit, offset);
      if faults.readError.Some? {
        return ServerError(deployment, faults.readError.value);
      }
      if key in store && IsCacheValid(store[key].timestamp, now) {
        return Reply(200, HitBody(store[key], limit, offset));
      }
      var q := BuildQuery(deployment.baseQuery, limit, offset);
      issued := issued + [q];
      var rows := upstream(q);
      if rows.Failure? {
        return ServerError(deployment, rows.error);
      }
      var stories := FormatStories(rows.value);
      if faults.writeError.Some? {
        return ServerError(deployment, faults.writeError.value);
      }
      store := store[key := CacheDoc(stories, now, deployment.baseQuery, limit, offset)];
      reply := Reply(200, MissBody(stories, now, limit, offset));
    }
  }
}
