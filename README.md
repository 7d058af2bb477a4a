# my-hacker-news: caching and fallback layer, modelled in Dafny

This project models the part of the Hacker News feed that decides which
stories reach the reader and where they come from.

- **The cloud function** `fetchHackerNewsStories` (`CloudFunction.dfy`).
  - It gates each request: OPTIONS gets 204, any other non-GET gets 405, and a wrong API key gets 401.
  - It clamps `limit` to [1, 500] with a default of 200, and `offset` to ≥ 0 with a default of 0.
  - It derives a document id from (base query, limit, offset).
  - A document younger than one hour is served as it is, tagged `cached`.
  - Otherwise it asks the query engine for rows, formats them into stories, overwrites the document and serves the stories untagged.
  - Any error becomes a 500.
- **The client service** `HackerNewsService` (`Service.dfy`).
  - It keys pages `stories_<limit>_<offset>` and builds the query string.
  - It stores every successful response in its map.
  - When a fetch fails, it falls back to the entry stored for that key, or else rethrows.
- **The `useHackerNews` hook** (`Hooks.dfy`).
  - Its query function tries the live fetch first, then the service's cache re-tagged as cached, then the bundled snapshot.
  - A projection turns the query's data into what the page shows.
- **`stripHtml`** (`App.dfy`): deletes every `<...>` tag from a story's text.
- **Shared definitions.**
  - `JsNumber.dfy` holds JavaScript's integer `toString` and `parseInt`, which both sides use to write and read numbers.
  - `Types.dfy` holds the story and response shapes.
  - `Agreement.dfy` proves that the client's query string and the server's parsing of it agree.

The query engine is an oracle from SQL text to rows. The document store is a
`map` from document id to document. The md5 digest is a function value
carried by the `Deployment`. Time is in integer milliseconds on the server.
On the client, time is the ISO text the clock gives. The outcome of the
network `fetch` is an input.

Three behaviours of the code worth knowing:

- A cache document dated in the future counts as fresh, because `now - written < 1 h` holds (`FutureDatedIsFresh`). It is not treated as stale.
- A failing store read or write makes the request fail with 500. It is not treated as a cache miss.
- `formatStories` turns a numeric cell `0` into `"0"`, because `toString()` is truthy. Only a missing cell becomes `null`.

`PaginationParams` is not defined in `src/types.ts`. It is modelled as an
optional `limit` and an optional `offset`, as its uses show. The client's
`HackerNewsResponse` carries the server's optional `pagination` block,
because the object spread in the hook keeps it.

## Model

| member | source | states |
|---|---|---|
| JsNumber.OrElse | cloud-function/index.js:256-257 | parseInt(x) or-else d is the parsed integer when it is truthy (not NaN, not 0) and `d` otherwise |
| JsNumber.ParseParam | cloud-function/index.js:256-257 | a missing query parameter parses to NaN |
| JsNumber.IntToString | src/services/hackernews.ts:19 | `n.toString()` for an integer: a `-` for negatives, then the decimal digits without leading zeros |
| JsNumber.ParseInt | cloud-function/index.js:256-257 | `parseInt(s)` without radix: leading white space skipped, an optional sign, a hexadecimal numeral after `0x`, otherwise the longest decimal digit prefix; NaN when there is no digit |
| JsNumber.ParseIntOfIntToString | src/services/hackernews.ts:24-25 | `parseInt` reads back exactly the integer that `toString()` wrote |
| JsNumber.IntToStringInjective | src/services/hackernews.ts:19 | distinct integers have distinct decimal texts |
| JsNumber.IntToStringChars | src/services/hackernews.ts:19 | an integer's text is non-empty and holds only digits and `-`, so never `_` or a line break |
| JsNumber.JoinedNumeralsInjective | cloud-function/index.js:184 | two integers written around a separator that starts with a non-numeral character are determined by the joined text |
| CloudFunction.ClampLimit | cloud-function/index.js:256 | the limit is in [1, 500]; NaN or 0 gives 200, a negative gives 1, above 500 gives 500, and anything else is kept |
| CloudFunction.ClampOffset | cloud-function/index.js:257 | the offset is ≥ 0; NaN, 0 or a negative gives 0, and a positive is kept |
| CloudFunction.RequestWindow | cloud-function/index.js:255-257 | the window read from a query string is always a clamped one |
| CloudFunction.BuildQueryInjective | cloud-function/index.js:174-178 | two windows give the same SQL text iff they are equal |
| CloudFunction.QueryHashDistinguishesWindows | cloud-function/index.js:183-186 | equal windows give equal document ids; with a collision-free digest, distinct windows give distinct ids |
| CloudFunction.BuildQuery | cloud-function/index.js:174-178 | the SQL text is the fixed query, unchanged, followed by `LIMIT <limit>` and `OFFSET <offset>` on lines of their own |
| CloudFunction.HashInput | cloud-function/index.js:183-186 | the digest's input is the fixed query, unchanged, followed by `_limit_<limit>_offset_<offset>` |
| CloudFunction.QueryHash | cloud-function/index.js:183-186 | the document id is the deployment's digest of the hash input; its injectivity on windows is `QueryHashDistinguishesWindows` |
| CloudFunction.ApiKeyRejected | cloud-function/index.js:249-252 | an unset or empty `API_KEY` admits every request, a header equal to the key is admitted, and a missing header is refused when a key is set |
| CloudFunction.RequestKey | cloud-function/index.js:255-262 | a GET is served from the id of its clamped window |
| CloudFunction.IsCacheValid | cloud-function/index.js:191-196 | a document is fresh iff now is strictly before its write time plus one hour |
| CloudFunction.StaleStaysStale | cloud-function/index.js:191-196 | once stale, a document stays stale as the clock advances |
| CloudFunction.FutureDatedIsFresh | cloud-function/index.js:191-196 | a document written "in the future" counts as fresh |
| CloudFunction.TextField | cloud-function/index.js:205-206 | `text`/`url`: an empty or missing cell becomes null, and any other value is kept |
| CloudFunction.NumberField | cloud-function/index.js:207-210 | `score`/`parent`/`ranking`/`descendants`: null iff the cell is missing, and otherwise the cell's decimal text, which parses back to the cell |
| CloudFunction.TimestampField | cloud-function/index.js:211 | the timestamp object's `value`, or the plain string, or `''` when missing |
| CloudFunction.FormatStory | cloud-function/index.js:202-212 | every field of a formatted story: `id` is `''` iff missing and otherwise reads back as the row's id; a missing `title` becomes `''`; the nullable fields follow the rules above |
| CloudFunction.FormatStories | cloud-function/index.js:201-213 | one story per row, same length and same order |
| CloudFunction.HitBody | cloud-function/index.js:271-281 | a hit returns the stored stories unchanged with `cached: true` and `count` = their number; `hasMore` iff count equals the stored limit, or the request's limit when none is stored |
| CloudFunction.MissBody | cloud-function/index.js:305-315 | a miss returns the fresh stories with `cached: false`, the request's window, `count` = their number and `hasMore` iff count equals the limit |
| CloudFunction.ServerError | cloud-function/index.js:317-323 | the 500 reply carries the error's message only when `NODE_ENV` is `development` |
| CloudFunction.Serve | cloud-function/index.js:235-323 | OPTIONS gives 204 before any check; non-GET gives 405; a configured key that does not match gives 401. A 500 leaves the store unchanged. The store changes only on an untagged 200 after an upstream query, by putting {stories, now, base query, window} at the request's key. No other key changes. A hit's body is the stored document's, a miss's is built from the request's window, and any SQL sent is that window's. What each failure answers is `FailuresAnswerServerError`. |
| CloudFunction.FailuresAnswerServerError | cloud-function/index.js:261-323 | a failing document read, a failing upstream query after a miss, or a failing write of its result each answer `ServerError` with that failure's message and leave the store unchanged; every 500 carries the error body, whose message is `Internal server error` outside development |
| CloudFunction.HitServesStoredStories | cloud-function/index.js:264-282 | on a fresh document the reply is the hit body, the store is unchanged and no SQL is sent |
| CloudFunction.MissOverwritesDocument | cloud-function/index.js:285-315 | on a missing or stale document, the key's document is replaced wholesale by the formatted rows stamped now, and the reply is the miss body |
| CloudFunction.ServeKeepsStoreWellFormed | cloud-function/index.js:295-301 | every document the function writes sits at the id of its own clamped window |
| CloudFunction.PageDescribesRequestedWindow | cloud-function/index.js:267-315 | with a collision-free digest and a store whose every document sits at the id of its own clamped window (`WellFormedStore`), every page's `pagination` is the requested window, `count` is the number of stories, and `hasMore` holds iff the page is full, on a hit as well as on a miss |
| CloudFunction.RepeatWithinHourIsHit | cloud-function/index.js:261-301 | after a refresh, the same request within the hour, whose read of the document does not fail, is a hit: no upstream query, store untouched, identical stories |
| CloudFunction.CloudFunction.FetchHackerNewsStories | cloud-function/index.js:218-325 | the handler's reply and new store are those of `Serve`, and its ghost log of upstream queries grows by the one SQL text it sent, if any |
| Service.EffectiveLimit | src/services/hackernews.ts:19 | params.limit or-else 200: an absent or 0 limit becomes 200 |
| Service.EffectiveOffset | src/services/hackernews.ts:19 | params.offset or-else 0: an absent offset becomes 0 |
| Service.CacheKey | src/services/hackernews.ts:18-20 | the key is `stories_` followed by the effective limit and offset, written in decimal around `_` |
| Service.CacheKeyIdentifiesPage | src/services/hackernews.ts:18-20 | two parameter sets share a key iff their effective limit and offset agree |
| Service.DefaultParamsKey | src/services/hackernews.ts:18-20 | the hook's parameter-less calls use the key `stories_200_0` |
| Service.SearchParam | src/services/hackernews.ts:24-25 | a parameter is set iff the number is truthy, and its text parses back to the number |
| Service.BuildUrl | src/services/hackernews.ts:22-27 | `limit` and `offset` appear in the query string iff truthy, and each reads back as the client's number |
| Service.IsOk | src/services/hackernews.ts:40 | `response.ok`: the status is in 200-299 |
| Service.HttpErrorMessage | src/services/hackernews.ts:41 | the thrown message is `HTTP error! status: ` followed by the status, which reads back from the tail |
| Service.Attempt | src/services/hackernews.ts:32-44 | a network error, or a non-OK status with the message `HTTP error! status: <n>`, is a thrown error; otherwise the result is the parsed body |
| Service.Lookup | src/services/hackernews.ts:54 | the stored response for the page's key, or null when there is none |
| Service.FetchStep | src/services/hackernews.ts:29-62 | on success the response is stored under its key, overwriting, and returned. On failure the map is unchanged, and the stored entry is returned as it is, or the error is rethrown when none is stored. Other keys never change. |
| Service.NonOkStatusIsNetworkFailure | src/services/hackernews.ts:40-42 | a non-OK status takes the same path as a network failure with that message |
| Service.FailedFetchFindsNothing | src/services/hackernews.ts:53-60 | when `fetchStories` throws, the map holds nothing under the page's key |
| Service.HackerNewsService.constructor | src/services/hackernews.ts:7-9 | a new service starts with an empty map |
| Service.HackerNewsService.FetchStories | src/services/hackernews.ts:29-62 | the method's new map and result are those of `FetchStep` |
| Service.HackerNewsService.GetCachedStories | src/services/hackernews.ts:64-67 | returns the stored response for the params' key, or null |
| Service.HackerNewsService.ClearCache | src/services/hackernews.ts:69-71 | afterwards the map is empty, and for every params `hasCachedPage` is false and `getCachedStories` is null |
| Service.HackerNewsService.HasCachedPage | src/services/hackernews.ts:74-77 | holds iff `getCachedStories` is non-null for the same params |
| Hooks.SnapshotResponse | src/hooks/useHackerNews.ts:44-48 | the last resort: the bundled stories, `cached: false`, `lastUpdated` = now, and no pagination |
| Hooks.Cascade | src/hooks/useHackerNews.ts:32-49 | the three tiers. A returned fetch is passed through unchanged. After a throw, a cached entry comes back with `cached: true` and every other field unchanged. Otherwise the snapshot is returned. |
| Hooks.QueryResult | src/hooks/useHackerNews.ts:31-49 | the query function's value: `fetchStories()` on the default params, then on a throw the service's entry for them, re-tagged, then the snapshot; its tiers are `QueryTiers` |
| Hooks.QueryFn | src/hooks/useHackerNews.ts:31-50 | the query function always resolves: its value is `QueryResult` of the service's map before the call, and the service's map is updated as `fetchStories` updates it |
| Hooks.ReturnedFetchPassesThrough | src/hooks/useHackerNews.ts:32-33 | whenever `fetchStories` returns, the query function returns exactly that |
| Hooks.RetagBranchUnreachable | src/hooks/useHackerNews.ts:35-42 | run sequentially, the re-tag branch is dead: after a throw the cache holds nothing for `stories_200_0`, so the result is the returned fetch or the snapshot |
| Hooks.QueryTiers | src/hooks/useHackerNews.ts:31-49 | a live success is returned as is; a failure returns the stored default page untouched when one exists, and the snapshot otherwise |
| Hooks.Project | src/hooks/useHackerNews.ts:62-71 | with no data: no stories, `lastUpdated` null and not cached. Otherwise the data's stories and `cached` flag; an empty `lastUpdated` becomes null. |
| Hooks.FallbackView | src/hooks/useHackerNews.ts:44-48 | when the live fetch fails on an empty cache, the page shows the snapshot, not cached, stamped now |
| Agreement.ServerReadsClientWindow | src/services/hackernews.ts:22-26 | the server reads the client's query string as the client's key window, clamped; an omitted parameter lands on the same default (200, 0) on both sides |
| Agreement.ServerServesKeyedPage | src/services/hackernews.ts:18-26 | for a window inside the server's bounds, the server serves exactly the page the client keyed |
| App.AfterTag | src/App.tsx:22 | a tag match ends after the first `>`, or at the end of the text when there is none; what follows is a suffix of the input |
| App.StripTags | src/App.tsx:22 | the output contains no `<` |
| App.StripHtml | src/App.tsx:20-23 | null or empty input gives `""`, and no output contains `<` |
| App.StripTagsIsSubsequence | src/App.tsx:22 | characters are only deleted: the output is a subsequence of the input |
| App.StripHtmlIsSubsequence | src/App.tsx:20-23 | `stripHtml(s)` is a subsequence of `s` |
| App.TextWithoutTagsUnchanged | src/App.tsx:22 | text without `<` is returned unchanged, stray `>` included |
| App.StripHtmlIdempotent | src/App.tsx:20-23 | stripping twice equals stripping once |
| App.PlainPrefixKept | src/App.tsx:22 | tag-free text before the rest is kept verbatim |
| App.ClosedTagRemoved | src/App.tsx:22 | `<...>` vanishes, both brackets included |
| App.UnclosedTagDropsRest | src/App.tsx:22 | a `<` with no later `>` deletes everything from it to the end, whatever precedes it |

## Left out

- BigQuery and the SQL keyword filter run in a foreign engine. The engine is an oracle from SQL text to rows or an error message, and the base query is an opaque string of the deployment.
- Firestore I/O is reduced to a map plus per-request read and write faults. `Firestore.Timestamp` and `Date` are integer milliseconds. ISO formatting is left out, so the server's `lastUpdated` is the integer time.
- md5 and `crypto` are a foreign hash. The digest is a function value of the deployment, and distinctness of ids is proved only for a collision-free digest.
- The CORS middleware and the response headers are left out; they are HTTP plumbing and never change the reply.
- `console.log`/`console.error` are logging only.
- The three clock reads of one request are one `now` in the model.
- `isCacheValid` throws on a document without a timestamp. This is not modelled: every document carries a timestamp.
- JavaScript numbers are unbounded integers in the model. `parseInt` is modelled in full for strings (white space, sign, `0x`), but not its loss of precision above 2^53, its Infinity for very long numerals, or a repeated query parameter arriving as an array.
- The client's numbers are integers: a fractional or NaN limit/offset is not representable. `toString` is decimal, without the exponent form used from 1e21 on.
- A BigQuery timestamp object with an empty `value` is not representable, because `value` is a non-empty string.
- The React Query machinery is library behaviour that the source does not show: retries, `staleTime`/`gcTime`, de-duplication of in-flight requests, `isLoading`/`isFetching`/`error` and `refetch`.
- The singleton `getInstance` is global state. One explicitly constructed service is modelled instead.
- `fetch`, `URL` assembly beyond the two query parameters, and JSON parsing are foreign calls. Their outcome is an input.
- The pagination/prefetch engine and the sort comparator are not modelled: `usePaginatedHackerNews`, imported by `src/pages/Home.tsx`, is not part of the shown sources.
- The page components (`Home`, `About`, `StoryCard`) render the UI and are not modelled. `test-function.js` is a network smoke test and is not modelled either.
- Concurrency is not modelled: racing cache misses and concurrent queries on the client.
