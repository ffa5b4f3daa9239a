/**
 * Paging of search results: the `cursor` and `limit` query parameters going in,
 * and the next-page cursor and exact hit count coming out.
 */
module Pagination {
  import opened Wrappers
  import opened Strconv
  import opened Strings
  import opened SearchTypes

  /** The deepest offset a cursor may ask for. */
  const MaxOffset: int := 10000
  /** The page size when no `limit` is given. */
  const DefaultLimit: int := 25
  /** The largest page size; a larger `limit` is cut down to it. */
  const MaxLimit: int := 100

  /** A validated request for one page of results. */
  datatype Page = Page(offset: Int64, limit: Int64)

  /**
   * The `cursor` half of `parseCursorLimit`: blank means offset 0, otherwise an
   * integer, negative values raised to 0, and nothing deeper than `MaxOffset`.
   */
  function ParseOffset(cursor: string): (r: Result<Int64, Failure>)
    ensures r.Ok? ==> 0 <= r.value <= MaxOffset
    ensures r.Err? ==> r.error == InvalidCursor || r.error == CursorTooDeep
  {
    var c := TrimSpace(cursor);
    var cursorValue := if c == "" then Some(0) else ParseInt(c);
    if cursorValue.None? then Err(InvalidCursor)
    else
      var offset := if cursorValue.value < 0 then 0 else cursorValue.value;
      if offset > MaxOffset then Err(CursorTooDeep) else Ok(offset)
  }

  /**
   * The `limit` half of `parseCursorLimit`: blank means `DefaultLimit`, otherwise
   * an integer, cut down to `MaxLimit` and then raised to 0.
   */
  function ParseLimit(limit: string): (r: Result<Int64, Failure>)
    ensures r.Ok? ==> 0 <= r.value <= MaxLimit
    ensures r.Err? ==> r.error == InvalidLimit
  {
    var l := TrimSpace(limit);
    var limitValue := if l == "" then Some(DefaultLimit) else ParseInt(l);
    if limitValue.None? then Err(InvalidLimit)
    else
      var capped := if limitValue.value > MaxLimit then MaxLimit else limitValue.value;
      Ok(if capped < 0 then 0 else capped)
  }

  /**
   * `parseCursorLimit`: reads the `cursor` and `limit` query parameters into an
   * offset and a page size, or fails with a 400 error, the cursor being checked
   * first. A successful result always lies within the paging bounds.
   */
  function ParseCursorLimit(cursor: string, limit: string): (r: Result<Page, Failure>)
    ensures r.Ok? ==> 0 <= r.value.offset <= MaxOffset && 0 <= r.value.limit <= MaxLimit
    ensures r.Err? ==> r.error.Status() == Some(400)
  {
    match ParseOffset(cursor)
    case Err(e) => Err(e)
    case Ok(offset) =>
      match ParseLimit(limit)
      case Err(e) => Err(e)
      case Ok(size) => Ok(Page(offset, size))
  }

  /** A `cursor` parameter that yields an offset. */
  predicate CursorAccepted(cursor: string)
  {
    ParseOffset(cursor).Ok?
  }

  /**
   * How the `cursor` parameter decides the offset: blank means 0, a non-integer
   * fails, a negative value means 0, a value past `MaxOffset` fails; a cursor error
   * wins over anything wrong with `limit`.
   */
  lemma CursorRules(cursor: string, limit: string)
    ensures var c, r := TrimSpace(cursor), ParseCursorLimit(cursor, limit);
      && (c == "" && r.Ok? ==> r.value.offset == 0)
      && (c != "" && ParseInt(c).None? ==> r == Err(InvalidCursor))
      && (c != "" && ParseInt(c).Some? && ParseInt(c).value > MaxOffset ==> r == Err(CursorTooDeep))
      && (c != "" && ParseInt(c).Some? && ParseInt(c).value < 0 && r.Ok? ==> r.value.offset == 0)
      && (c != "" && ParseInt(c).Some? && 0 <= ParseInt(c).value && r.Ok? ==> r.value.offset == ParseInt(c).value)
      && (r.Ok? || r == Err(InvalidLimit) <==> c == "" || (ParseInt(c).Some? && ParseInt(c).value <= MaxOffset))
  {
  }

  /**
   * How the `limit` parameter decides the page size once the cursor is accepted:
   * blank means 25, a non-integer fails, and a number is clamped into 0..100.
   */
  lemma LimitRules(cursor: string, limit: string)
    requires CursorAccepted(cursor)
    ensures var l, r := TrimSpace(limit), ParseCursorLimit(cursor, limit);
      && (l == "" ==> r.Ok? && r.value.limit == DefaultLimit)
      && (l != "" && ParseInt(l).None? ==> r == Err(InvalidLimit))
      && (l != "" && ParseInt(l).Some? ==> r.Ok?)
      && (l != "" && ParseInt(l).Some? && ParseInt(l).value > MaxLimit ==> r.value.limit == MaxLimit)
      && (l != "" && ParseInt(l).Some? && ParseInt(l).value < 0 ==> r.value.limit == 0)
      && (l != "" && ParseInt(l).Some? && 0 <= ParseInt(l).value <= MaxLimit ==> r.value.limit == ParseInt(l).value)
  {
  }

  /**
   * The next-page cursor of a page of `count` items asked for at `offset` with
   * page size `size`: the sum `offset + size` (with Go's wrap-around), written in
   * decimal, and only when the page came back full and that sum is below
   * `MaxOffset`.
   */
  function NextCursor(offset: Int64, size: Int64, count: nat): (r: Option<string>)
    ensures r.Some? ==> count == size && Add64(offset, size) < MaxOffset
  {
    var next := Add64(offset, size);
    if count == size && next < MaxOffset then Some(FormatInt(next)) else None
  }

  /**
   * The next-page cursor is emitted exactly for a full page whose next offset is
   * below `MaxOffset`. For the offset and size `ParseCursorLimit` yields, the sum
   * cannot wrap, so the cursor is the plain decimal `offset + size`.
   */
  lemma NextCursorRule(offset: Int64, size: Int64, count: nat)
    requires 0 <= offset <= MaxOffset && 0 <= size <= MaxLimit
    ensures NextCursor(offset, size, count).Some? <==> count == size && offset + size < MaxOffset
    ensures NextCursor(offset, size, count).Some? ==> NextCursor(offset, size, count).value == FormatInt(offset + size)
  {
  }

  /** A decimal offset within the paging bounds reads back as itself. */
  lemma OffsetRoundTrip(n: Int64)
    requires 0 <= n <= MaxOffset
    ensures ParseOffset(FormatInt(n)) == Ok(n)
  {
    var c := FormatInt(n);
    assert c == FormatNat(n);
    TrimSpaceUnchanged(c);
    ParseFormatRoundTrip(n);
  }

  /** A page `ParseCursorLimit` accepts is made of what its two halves accept. */
  lemma PageParts(cursor: string, limit: string, offset: Int64, size: Int64)
    requires ParseCursorLimit(cursor, limit) == Ok(Page(offset, size))
    ensures ParseOffset(cursor) == Ok(offset) && ParseLimit(limit) == Ok(size)
  {
    var o, l := ParseOffset(cursor), ParseLimit(limit);
    assert o.Ok? && l.Ok?;
  }

  /** Two accepted halves make an accepted page. */
  lemma PageOf(cursor: string, limit: string, offset: Int64, size: Int64)
    requires ParseOffset(cursor) == Ok(offset) && ParseLimit(limit) == Ok(size)
    ensures ParseCursorLimit(cursor, limit) == Ok(Page(offset, size))
  {
  }

  /**
   * A decimal offset within the paging bounds, sent as the cursor with a `limit`
   * that parses to `size`, asks for exactly that page.
   */
  lemma OffsetCursorParses(n: Int64, size: Int64, limit: string)
    requires 0 <= n <= MaxOffset && ParseLimit(limit) == Ok(size)
    ensures ParseCursorLimit(FormatInt(n), limit) == Ok(Page(n, size))
  {
    OffsetRoundTrip(n);
    PageOf(FormatInt(n), limit, n, size);
  }

  /**
   * The next-page cursor goes back in as the `cursor` parameter cleanly: sent with
   * the same `limit` as the request whose page produced it, it never trips the
   * cursor checks and asks for the page that starts right after that one. With a
   * page size of 0 that is the same offset again.
   */
  lemma NextCursorRoundTrip(cursor: string, limit: string, offset: Int64, size: Int64, count: nat)
    requires ParseCursorLimit(cursor, limit) == Ok(Page(offset, size))
    requires NextCursor(offset, size, count).Some?
    ensures ParseCursorLimit(NextCursor(offset, size, count).value, limit) == Ok(Page(offset + size, size))
  {
    PageParts(cursor, limit, offset, size);
    NextCursorRule(offset, size, count);
    OffsetCursorParses(offset + size, size, limit);
  }

  /** `HitsTotal` is reported only when the backend says its count is exact. */
  function ReportedTotal(total: Total): (r: Option<int>)
    ensures r.Some? <==> total.relation == "eq"
    ensures r.Some? ==> r.value == total.value
  {
    if total.relation == "eq" then Some(total.value) else None
  }
}
