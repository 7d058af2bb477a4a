/** The shapes shared by the cloud function and the client: a story as the
    frontend consumes it, the pagination block, the response the client
    service caches and the client's pagination parameters. */
module Types {
  import opened Wrappers

  /** A story; every field is always present, and an absent value is `None` (JSON `null`). */
  datatype Story = Story(
    id: string,
    title: string,
    text: Option<string>,
    url: Option<string>,
    score: Option<string>,
    parent: Option<string>,
    ranking: Option<string>,
    descendants: Option<string>,
    timestamp: string)

  /** The `pagination` block of a page response. */
  datatype Pagination = Pagination(limit: int, offset: int, count: nat, hasMore: bool)

  /** The JSON body of a page as the client receives and caches it. The
      cloud function always sends `pagination`; the bundled-snapshot
      fallback builds a response without it. */
  datatype HackerNewsResponse = HackerNewsResponse(
    stories: seq<Story>,
    cached: bool,
    lastUpdated: string,
    pagination: Option<Pagination>)

  /** The client's pagination parameters; a missing number is `None`. */
  datatype PaginationParams = PaginationParams(limit: Option<int>, offset: Option<int>)

  /** `{}`, the parameters used when the caller passes none. */
  const DefaultParams: PaginationParams := PaginationParams(None, None)

  /** The query string of a page request: each parameter present or absent. */
  datatype Query = Query(limit: Option<string>, offset: Option<string>)
}
