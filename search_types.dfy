/**
 * The values the search handlers exchange with the search backend, with the
 * document decoder and with their HTTP callers.
 */
module SearchTypes {
  import opened Wrappers
  import opened Strconv

  /** Which document type a hit's source is decoded into: `PostDoc` or `ProfileDoc`. */
  datatype DocKind = PostDoc | ProfileDoc

  /** The fields of an indexed document the builders read; a profile document has no record key. */
  datatype Doc = Doc(did: string, rkey: string)

  /** One search hit; its `_source` stays raw JSON bytes until a builder decodes it. */
  datatype Hit = Hit(source: seq<bv8>)

  /** The backend's hit count: exact when `relation` is "eq", a lower bound otherwise. */
  datatype Total = Total(relation: string, value: int)

  /** What the search backend answered: the hits of one page and the total, or an error. */
  datatype Reply = Answered(hits: seq<Hit>, total: Total) | Failed(cause: string)

  /**
   * `SearchQuery`, as the structured-search handler fills it in. A list field is
   * `None` when the handler left it unset; `fromMs`/`toMs` are the Unix
   * milliseconds the handler parsed.
   */
  datatype SearchQuery = SearchQuery(
    query: string,
    offset: Int64,
    size: Int64,
    langs: Option<seq<string>>,
    actors: Option<seq<string>>,
    tags: Option<seq<string>>,
    fromMs: Option<Int64>,
    toMs: Option<Int64>)

  /**
   * The request a builder hands the search backend: `DoSearchPosts`,
   * `DoStructuredSearchPosts`, `DoSearchProfiles` and `DoSearchProfilesTypeahead`.
   */
  datatype SearchRequest =
    | PostsSearch(q: string, offset: Int64, size: Int64)
    | StructuredPostsSearch(query: SearchQuery)
    | ProfilesSearch(q: string, offset: Int64, size: Int64)
    | ProfilesTypeahead(q: string, size: Int64)

  /** One output item: a post by URI, or an actor by DID. */
  datatype SkeletonItem = Post(uri: string) | Actor(did: string)

  /**
   * `UnspeccedSearchPostsSkeleton_Output` and `UnspeccedSearchActorsSkeleton_Output`:
   * the items, the optional next-page cursor and the optional exact hit count.
   */
  datatype Skeleton = Skeleton(items: seq<SkeletonItem>, cursor: Option<string>, hitsTotal: Option<int>)

  /** The errors a handler or builder returns. */
  datatype Failure =
    | InvalidCursor                 // "invalid value for 'cursor': ..."
    | CursorTooDeep                 // "invalid value for 'cursor' (can't paginate so deep)"
    | InvalidLimit                  // "invalid value for 'count': ..."
    | InvalidFrom                   // "failed to parse 'from' timestamp: ..."
    | InvalidTo                     // "failed to parse 'to' timestamp: ..."
    | BackendFailed(cause: string)  // the backend's own error, passed on unchanged
    | DocDecodeFailed(kind: DocKind) // "decoding post doc ..." / "decoding profile doc ..."
    | InvalidDid                    // "invalid DID in indexed document: ..."
  {
    /**
     * The status code the handler attaches itself (an `echo.HTTPError`); `None`
     * for a plain Go error, whose status the web framework chooses.
     */
    function Status(): Option<int>
    {
      if InvalidCursor? || CursorTooDeep? || InvalidLimit? then Some(400) else None
    }
  }

  /** A JSON body a handler renders. */
  datatype Body = ErrorMessage(message: string) | SkeletonBody(page: Skeleton)

  /**
   * What a handler does with the request: render a JSON body with a status, or
   * return an error to the web framework.
   */
  datatype Response = Json(status: int, body: Body) | Raised(failure: Failure)
}
