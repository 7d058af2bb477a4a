/** How the client's request and the server's reading of it fit together:
    the query string the service builds is parsed back by the cloud
    function into the very window the service used for its cache key,
    clamped as the server clamps it. */
module Agreement {
  import opened Types
  import C = CloudFunction
  import S = Service

  /** An omitted parameter falls to the server's defaults (200 and 0), which
      are the client's key defaults; a present one is read back exactly. */
  lemma ServerReadsClientWindow(p: PaginationParams)
    ensures C.RequestWindow(S.BuildUrl(p)) ==
      (C.Min(C.Max(S.EffectiveLimit(p), 1), C.MaxLimit), C.Max(S.EffectiveOffset(p), 0))
  {
  }

  /** For a window the server does not need to clamp, the page the server
      serves is the page the client keys its cache entry by. */
  lemma ServerServesKeyedPage(p: PaginationParams)
    requires 1 <= S.EffectiveLimit(p) <= C.MaxLimit && S.EffectiveOffset(p) >= 0
    ensures C.RequestWindow(S.BuildUrl(p)) == (S.EffectiveLimit(p), S.EffectiveOffset(p))
  {
    ServerReadsClientWindow(p);
  }
}
