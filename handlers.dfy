/**
 * The HTTP handlers `handleSearchPostsSkeleton`, `handleStructuredSearchPostsSkeleton`
 * and `handleSearchActorsSkeleton`: validate the query parameters, then hand the
 * validated request to a result builder and render what it returns.
 */
module Handlers {
  import opened Wrappers
  import opened Strconv
  import opened Strings
  import opened SearchTypes
  import opened Pagination
  import opened Results

  /** The URL query: every value given for each parameter name, in order. */
  type Params = map<string, seq<string>>

  /** All values of a parameter, as `URL.Query()[name]` gives them. */
  function Values(p: Params, name: string): (vs: seq<string>)
    ensures name in p ==> vs == p[name]
    ensures name !in p ==> vs == []
  {
    if name in p then p[name] else []
  }

  /** The first value of a parameter, or "" when it is absent, as `QueryParam(name)` and `Query().Get(name)` give it. */
  function QueryParam(p: Params, name: string): (v: string)
    ensures Values(p, name) != [] ==> v == Values(p, name)[0]
    ensures Values(p, name) == [] ==> v == ""
  {
    var vs := Values(p, name);
    if vs == [] then "" else vs[0]
  }

  const EmptyQueryMessage: string := "must pass non-empty search query"

  /** What every handler renders for a missing or blank `q`: a JSON 400, not a returned error. */
  const EmptyQueryReply: Response := Json(400, ErrorMessage(EmptyQueryMessage))

  /**
   * The checks every handler starts with, on the raw `q`, `cursor` and `limit`
   * values: a `q` that is empty after trimming is answered with `EmptyQueryReply`
   * whatever the other parameters say; otherwise `cursor` and `limit` must
   * parse, and their 400 error is returned as is.
   */
  function CheckQuery(rawQuery: string, cursor: string, limit: string): (r: Result<(string, Page), Response>)
    ensures TrimSpace(rawQuery) == "" ==> r == Err(EmptyQueryReply)
    ensures TrimSpace(rawQuery) != "" && ParseCursorLimit(cursor, limit).Err? ==>
      r == Err(Raised(ParseCursorLimit(cursor, limit).error))
    ensures TrimSpace(rawQuery) != "" && ParseCursorLimit(cursor, limit).Ok? ==> r.Ok?
    ensures r.Ok? ==> r.value.0 == TrimSpace(rawQuery) != ""
    ensures r.Ok? ==> ParseCursorLimit(cursor, limit) == Ok(r.value.1)
  {
    var q := TrimSpace(rawQuery);
    if q == "" then Err(EmptyQueryReply)
    else
      match ParseCursorLimit(cursor, limit)
      case Err(e) => Err(Raised(e))
      case Ok(page) => Ok((q, page))
  }

  /** `CheckQuery` on the first values of `q`, `cursor` and `limit`. */
  function ParseQueryAndPage(p: Params): Result<(string, Page), Response>
  {
    CheckQuery(QueryParam(p, "q"), QueryParam(p, "cursor"), QueryParam(p, "limit"))
  }

  /** The trimmed query of a request that passed the common checks ("" otherwise). */
  function QueryOf(p: Params): string
  {
    if ParseQueryAndPage(p).Ok? then ParseQueryAndPage(p).value.0 else ""
  }

  /** The offset of a request that passed the common checks (0 otherwise). */
  function OffsetOf(p: Params): Int64
  {
    if ParseQueryAndPage(p).Ok? then ParseQueryAndPage(p).value.1.offset else 0
  }

  /** The page size of a request that passed the common checks (0 otherwise). */
  function LimitOf(p: Params): Int64
  {
    if ParseQueryAndPage(p).Ok? then ParseQueryAndPage(p).value.1.limit else 0
  }

  /**
   * The `typeahead` flag: on only for the trimmed spellings "true", "1" and "y",
   * that is, for one of those words with nothing but white space around it.
   */
  function TypeaheadFlag(raw: string): (on: bool)
    ensures on <==> PaddedWord(raw, "true") || PaddedWord(raw, "1") || PaddedWord(raw, "y")
  {
    TrimsTo(raw, "true");
    TrimsTo(raw, "1");
    TrimsTo(raw, "y");
    var t := TrimSpace(raw);
    t == "true" || t == "1" || t == "y"
  }

  /** White space around the `typeahead` parameter does not change the flag. */
  lemma TypeaheadIgnoresPadding(a: string, raw: string, b: string)
    requires AllSpace(a) && AllSpace(b)
    ensures TypeaheadFlag(a + raw + b) == TypeaheadFlag(raw)
  {
    TrimSpacePadding(a, raw, b);
  }

  /** A list parameter is set on the query only when it has at least one value. */
  function OptionalList(vs: seq<string>): (r: Option<seq<string>>)
    ensures r.Some? <==> vs != []
    ensures r.Some? ==> r.value == vs
  {
    if vs == [] then None else Some(vs)
  }

  /**
   * An optional Unix-millisecond bound: absent when the parameter is empty,
   * otherwise read with `strconv.ParseInt(raw, 10, 64)` (no trimming), failing
   * with `bad`.
   */
  function ParseMillis(raw: string, bad: Failure): (r: Result<Option<Int64>, Failure>)
    ensures r.Ok? && r.value.None? <==> raw == ""
    ensures r.Err? <==> raw != "" && ParseInt(raw).None?
    ensures r.Err? ==> r.error == bad
    ensures r.Ok? && r.value.Some? ==> ParseInt(raw) == r.value
  {
    if raw == "" then Ok(None)
    else
      match ParseInt(raw)
      case None => Err(bad)
      case Some(v) => Ok(Some(v))
  }

  /**
   * The structured handler's query: the common checks first, then `langs`,
   * `actors` and `tags` set only when given, then `from` and `to` parsed when
   * present, a bad `from` being reported before a bad `to`.
   */
  function ParseStructuredQuery(p: Params): (r: Result<SearchQuery, Response>)
    ensures ParseQueryAndPage(p).Err? ==> r == Err(ParseQueryAndPage(p).error)
    ensures ParseQueryAndPage(p).Ok? && ParseMillis(QueryParam(p, "from"), InvalidFrom).Err? ==>
      r == Err(Raised(InvalidFrom))
    ensures (ParseQueryAndPage(p).Ok? && ParseMillis(QueryParam(p, "from"), InvalidFrom).Ok?
      && ParseMillis(QueryParam(p, "to"), InvalidTo).Err?) ==> r == Err(Raised(InvalidTo))
    ensures (ParseQueryAndPage(p).Ok? && ParseMillis(QueryParam(p, "from"), InvalidFrom).Ok?
      && ParseMillis(QueryParam(p, "to"), InvalidTo).Ok?) ==> r.Ok?
    ensures r.Ok? ==> ParseQueryAndPage(p) == Ok((r.value.query, Page(r.value.offset, r.value.size)))
    ensures r.Ok? ==> (r.value.langs.Some? <==> Values(p, "langs") != []) && (r.value.langs.Some? ==> r.value.langs.value == Values(p, "langs"))
    ensures r.Ok? ==> (r.value.actors.Some? <==> Values(p, "actors") != []) && (r.value.actors.Some? ==> r.value.actors.value == Values(p, "actors"))
    ensures r.Ok? ==> (r.value.tags.Some? <==> Values(p, "tags") != []) && (r.value.tags.Some? ==> r.value.tags.value == Values(p, "tags"))
    ensures r.Ok? ==> (r.value.fromMs.Some? <==> QueryParam(p, "from") != "") && (r.value.fromMs.Some? ==> ParseInt(QueryParam(p, "from")) == r.value.fromMs)
    ensures r.Ok? ==> (r.value.toMs.Some? <==> QueryParam(p, "to") != "") && (r.value.toMs.Some? ==> ParseInt(QueryParam(p, "to")) == r.value.toMs)
  {
    match ParseQueryAndPage(p)
    case Err(resp) => Err(resp)
    case Ok((q, page)) =>
      match ParseMillis(QueryParam(p, "from"), InvalidFrom)
      case Err(e) => Err(Raised(e))
      case Ok(fromMs) =>
        match ParseMillis(QueryParam(p, "to"), InvalidTo)
        case Err(e) => Err(Raised(e))
        case Ok(toMs) =>
          Ok(SearchQuery(q, page.offset, page.limit,
            OptionalList(Values(p, "langs")), OptionalList(Values(p, "actors")), OptionalList(Values(p, "tags")),
            fromMs, toMs))
  }

  /** How a handler renders a builder's result: 200 with the page, or the error returned as is. */
  function Respond(r: Result<Skeleton, Failure>): (resp: Response)
    ensures resp.Json? <==> r.Ok?
    ensures r.Ok? ==> resp == Json(200, SkeletonBody(r.value))
    ensures r.Err? ==> resp == Raised(r.error)
  {
    match r
    case Ok(page) => Json(200, SkeletonBody(page))
    case Err(e) => Raised(e)
  }

  /**
   * `handleSearchPostsSkeleton`: a request that fails validation is answered
   * from the parameters alone, without a search; otherwise the answer is what
   * `SearchPosts` builds for the trimmed query and the parsed page.
   */
  method HandleSearchPostsSkeleton(p: Params, dec: Decoders, search: SearchRequest -> Reply) returns (resp: Response)
    ensures ParseQueryAndPage(p).Err? ==> resp == ParseQueryAndPage(p).error
    ensures ParseQueryAndPage(p).Ok? ==>
      resp == Respond(PageOutcome(OffsetOf(p), LimitOf(p), search(PostsSearch(QueryOf(p), OffsetOf(p), LimitOf(p))), AtUri, dec))
  {
    var checked := ParseQueryAndPage(p);
    if checked.Err? {
      return checked.error;
    }
    var q, page := checked.value.0, checked.value.1;
    var out := SearchPosts(q, page.offset, page.limit, dec, search);
    resp := Respond(out);
  }

  /**
   * `handleStructuredSearchPostsSkeleton`: a request whose structured query does
   * not parse is answered without a search; otherwise the answer is what
   * `StructuredSearchPosts` builds for that query.
   */
  method HandleStructuredSearchPostsSkeleton(p: Params, dec: Decoders, search: SearchRequest -> Reply) returns (resp: Response)
    ensures ParseStructuredQuery(p).Err? ==> resp == ParseStructuredQuery(p).error
    ensures ParseStructuredQuery(p).Ok? ==>
      resp == Respond(PageOutcome(ParseStructuredQuery(p).value.offset, ParseStructuredQuery(p).value.size,
                                  search(StructuredPostsSearch(ParseStructuredQuery(p).value)), WebUrl, dec))
  {
    var checked := ParseStructuredQuery(p);
    if checked.Err? {
      return checked.error;
    }
    var out := StructuredSearchPosts(checked.value, dec, search);
    resp := Respond(out);
  }

  /**
   * `handleSearchActorsSkeleton`: a request that fails validation is answered
   * without a search; otherwise the answer is what `SearchProfiles` builds, in
   * typeahead mode exactly when the `typeahead` flag is on.
   */
  method HandleSearchActorsSkeleton(p: Params, dec: Decoders, search: SearchRequest -> Reply) returns (resp: Response)
    ensures ParseQueryAndPage(p).Err? ==> resp == ParseQueryAndPage(p).error
    ensures ParseQueryAndPage(p).Ok? ==>
      resp == Respond(PageOutcome(OffsetOf(p), LimitOf(p),
                                  search(ProfilesRequest(QueryOf(p), TypeaheadFlag(QueryParam(p, "typeahead")), OffsetOf(p), LimitOf(p))),
                                  ActorDid, dec))
  {
    var checked := ParseQueryAndPage(p);
    if checked.Err? {
      return checked.error;
    }
    var q, page := checked.value.0, checked.value.1;
    var typeahead := TypeaheadFlag(QueryParam(p, "typeahead"));
    var out := SearchProfiles(q, typeahead, page.offset, page.limit, dec, search);
    resp := Respond(out);
  }

  /** Setting `cursor` leaves the other parameters as they were. */
  lemma SetCursor(p: Params, cursor: string)
    ensures QueryParam(p["cursor" := [cursor]], "cursor") == cursor
    ensures QueryParam(p["cursor" := [cursor]], "q") == QueryParam(p, "q")
    ensures QueryParam(p["cursor" := [cursor]], "limit") == QueryParam(p, "limit")
  {
    assert "q" != "cursor" && "limit" != "cursor";
  }

  /** Setting `cursor` re-runs the common checks on the new cursor and the old `q` and `limit`. */
  lemma ResumeQuery(p: Params, cursor: string)
    ensures ParseQueryAndPage(p["cursor" := [cursor]]) == CheckQuery(QueryParam(p, "q"), cursor, QueryParam(p, "limit"))
  {
    SetCursor(p, cursor);
  }

  /**
   * The common checks accept the next-page cursor of a page they accepted, sent
   * with the same `q` and `limit`, and ask for the page that follows it.
   */
  lemma QueryCursorRoundTrip(rawQuery: string, cursor: string, limit: string, q: string, offset: Int64, size: Int64, count: nat)
    requires CheckQuery(rawQuery, cursor, limit) == Ok((q, Page(offset, size)))
    requires NextCursor(offset, size, count).Some?
    ensures CheckQuery(rawQuery, NextCursor(offset, size, count).value, limit) == Ok((q, Page(offset + size, size)))
  {
    NextCursorRoundTrip(cursor, limit, offset, size, count);
  }

  /**
   * Repeating a valid request with `cursor` set to the next-page cursor of its
   * page passes validation again, keeps the query and the page size, and moves
   * the offset on by exactly one page.
   */
  lemma RequestCursorRoundTrip(p: Params, q: string, offset: Int64, size: Int64, count: nat)
    requires ParseQueryAndPage(p) == Ok((q, Page(offset, size)))
    requires NextCursor(offset, size, count).Some?
    ensures ParseQueryAndPage(p["cursor" := [NextCursor(offset, size, count).value]]) == Ok((q, Page(offset + size, size)))
  {
    ResumeQuery(p, NextCursor(offset, size, count).value);
    QueryCursorRoundTrip(QueryParam(p, "q"), QueryParam(p, "cursor"), QueryParam(p, "limit"), q, offset, size, count);
  }

  /**
   * Paging through a handler end to end: when a builder's page comes back with a
   * cursor, repeating the request with `cursor` set to it asks for the next page
   * of the same query with the same page size.
   */
  lemma CursorRoundTrip(p: Params, q: string, offset: Int64, size: Int64, reply: Reply, form: ItemForm, dec: Decoders)
    requires ParseQueryAndPage(p) == Ok((q, Page(offset, size)))
    requires PageOutcome(offset, size, reply, form, dec).Ok?
    requires PageOutcome(offset, size, reply, form, dec).value.cursor.Some?
    ensures ParseQueryAndPage(p["cursor" := [PageOutcome(offset, size, reply, form, dec).value.cursor.value]])
      == Ok((q, Page(offset + size, size)))
  {
    PageCursor(offset, size, reply, form, dec);
    RequestCursorRoundTrip(p, q, offset, size, |PageOutcome(offset, size, reply, form, dec).value.items|);
  }
}
