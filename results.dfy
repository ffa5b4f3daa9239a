/**
 * The result builders `SearchPosts`, `StructuredSearchPosts` and `SearchProfiles`:
 * each asks the backend for a page, turns every hit into one output item, and
 * adds the next-page cursor and the exact hit count.
 */
module Results {
  import opened Wrappers
  import opened Strconv
  import opened SearchTypes
  import opened Pagination

  /** How a builder renders the document behind a hit. */
  datatype ItemForm =
    | AtUri     // `SearchPosts`: at://<did>/app.bsky.feed.post/<rkey>
    | WebUrl    // `StructuredSearchPosts`: https://bsky.app/profile/<did>/post/<rkey>
    | ActorDid  // `SearchProfiles`: the DID itself

  /** The document type a builder decodes its hits into. */
  function DocKindOf(form: ItemForm): DocKind
  {
    if form == ActorDid then ProfileDoc else PostDoc
  }

  /**
   * The per-hit collaborators: `decode` is `json.Unmarshal` of a hit source into a
   * document of the given kind, `isDid` is `syntax.ParseDID`, which on success
   * gives back the very string it was handed.
   */
  datatype Decoders = Decoders(decode: (DocKind, Hit) -> Option<Doc>, isDid: string -> bool)

  function PostAtUri(did: string, rkey: string): string
  {
    "at://" + did + "/app.bsky.feed.post/" + rkey
  }

  function PostWebUrl(did: string, rkey: string): string
  {
    "https://bsky.app/profile/" + did + "/post/" + rkey
  }

  /** Where a slash-free `d1` ends in `d1 + t1`, a longer `d2` still has a non-slash. */
  lemma SlashAfter(d1: string, t1: string, d2: string, t2: string)
    ensures t1 != [] && t1[0] == '/' && |d1| < |d2| && '/' !in d2 ==> d1 + t1 != d2 + t2
  {
    if t1 != [] && t1[0] == '/' && |d1| < |d2| && '/' !in d2 {
      assert (d1 + t1)[|d1|] == '/';
      assert (d2 + t2)[|d1|] == d2[|d1|];
    }
  }

  /** `d + t` splits back into `d` and `t` when `d` has no slash and `t` starts with one. */
  lemma SplitAtSlash(d1: string, t1: string, d2: string, t2: string)
    requires '/' !in d1 && '/' !in d2
    requires t1 != [] && t1[0] == '/' && t2 != [] && t2[0] == '/'
    requires d1 + t1 == d2 + t2
    ensures d1 == d2 && t1 == t2
  {
    if |d1| < |d2| {
      SlashAfter(d1, t1, d2, t2);
      assert false;
    } else if |d2| < |d1| {
      SlashAfter(d2, t2, d1, t1);
      assert false;
    } else {
      assert d1 == (d1 + t1)[..|d1|] && d2 == (d2 + t2)[..|d2|];
      assert t1 == (d1 + t1)[|d1|..] && t2 == (d2 + t2)[|d2|..];
    }
  }

  /** `pre + did + tail + rkey` splits back into its `did` and `rkey` when `tail` starts with a slash and no DID has one. */
  lemma {:induction false} SplitLink(pre: string, tail: string, did1: string, rkey1: string, did2: string, rkey2: string)
    requires tail != [] && tail[0] == '/' && '/' !in did1 && '/' !in did2
    requires pre + did1 + tail + rkey1 == pre + did2 + tail + rkey2
    ensures did1 == did2 && rkey1 == rkey2
  {
    var u1, u2 := pre + did1 + tail + rkey1, pre + did2 + tail + rkey2;
    assert u1 == pre + (did1 + (tail + rkey1));
    assert u2 == pre + (did2 + (tail + rkey2));
    assert did1 + (tail + rkey1) == u1[|pre|..];
    assert did2 + (tail + rkey2) == u2[|pre|..];
    SplitAtSlash(did1, tail + rkey1, did2, tail + rkey2);
    assert rkey1 == (tail + rkey1)[|tail|..];
    assert rkey2 == (tail + rkey2)[|tail|..];
  }

  /**
   * A post URI names its post: since a DID has no slash, two documents give the
   * same at:// URI, or the same bsky.app link, only when they have the same DID
   * and record key.
   */
  lemma PostUrisIdentifyPost(did1: string, rkey1: string, did2: string, rkey2: string)
    requires '/' !in did1 && '/' !in did2
    ensures PostAtUri(did1, rkey1) == PostAtUri(did2, rkey2) ==> did1 == did2 && rkey1 == rkey2
    ensures PostWebUrl(did1, rkey1) == PostWebUrl(did2, rkey2) ==> did1 == did2 && rkey1 == rkey2
  {
    if PostAtUri(did1, rkey1) == PostAtUri(did2, rkey2) {
      SplitLink("at://", "/app.bsky.feed.post/", did1, rkey1, did2, rkey2);
    }
    if PostWebUrl(did1, rkey1) == PostWebUrl(did2, rkey2) {
      SplitLink("https://bsky.app/profile/", "/post/", did1, rkey1, did2, rkey2);
    }
  }

  /** The output item for a document whose DID checked out. */
  function Render(form: ItemForm, doc: Doc): (item: SkeletonItem)
    ensures item.Actor? <==> form == ActorDid
  {
    match form
    case AtUri => Post(PostAtUri(doc.did, doc.rkey))
    case WebUrl => Post(PostWebUrl(doc.did, doc.rkey))
    case ActorDid => Actor(doc.did)
  }

  /**
   * The fate of one hit: a decode failure, an invalid DID, or its output item.
   * The DID check runs only on a document that decoded.
   */
  function ItemOf(hit: Hit, form: ItemForm, dec: Decoders): (r: Result<SkeletonItem, Failure>)
    ensures r.Ok? <==> dec.decode(DocKindOf(form), hit).Some? && dec.isDid(dec.decode(DocKindOf(form), hit).value.did)
    ensures r.Ok? ==> r.value == Render(form, dec.decode(DocKindOf(form), hit).value)
    ensures dec.decode(DocKindOf(form), hit).None? ==> r == Err(DocDecodeFailed(DocKindOf(form)))
    ensures r.Err? && dec.decode(DocKindOf(form), hit).Some? ==> r == Err(InvalidDid)
  {
    match dec.decode(DocKindOf(form), hit)
    case None => Err(DocDecodeFailed(DocKindOf(form)))
    case Some(doc) => if dec.isDid(doc.did) then Ok(Render(form, doc)) else Err(InvalidDid)
  }

  /**
   * The items for a list of hits, built front to back: the first hit that fails
   * fails the whole list.
   */
  function ItemsOf(hits: seq<Hit>, form: ItemForm, dec: Decoders): Result<seq<SkeletonItem>, Failure>
  {
    if hits == [] then Ok([])
    else
      match ItemsOf(hits[..|hits| - 1], form, dec)
      case Err(e) => Err(e)
      case Ok(items) =>
        match ItemOf(hits[|hits| - 1], form, dec)
        case Err(e) => Err(e)
        case Ok(item) => Ok(items + [item])
  }

  /** Every hit decodes and carries a valid DID. */
  predicate AllHitsGood(hits: seq<Hit>, form: ItemForm, dec: Decoders)
  {
    forall i :: 0 <= i < |hits| ==> ItemOf(hits[i], form, dec).Ok?
  }

  /** Hit `k` is the first one that fails. */
  predicate FirstFailure(hits: seq<Hit>, form: ItemForm, dec: Decoders, k: int)
  {
    && 0 <= k < |hits|
    && ItemOf(hits[k], form, dec).Err?
    && AllHitsGood(hits[..k], form, dec)
  }

  /**
   * The builders' item rule, success side: the items come out exactly when every
   * hit is good, one item per hit and in hit order.
   */
  lemma {:induction false} ItemsOfSuccess(hits: seq<Hit>, form: ItemForm, dec: Decoders)
    ensures ItemsOf(hits, form, dec).Ok? <==> AllHitsGood(hits, form, dec)
    ensures ItemsOf(hits, form, dec).Ok? ==> |ItemsOf(hits, form, dec).value| == |hits|
    ensures ItemsOf(hits, form, dec).Ok? ==>
      forall i :: 0 <= i < |hits| ==> ItemsOf(hits, form, dec).value[i] == ItemOf(hits[i], form, dec).value
  {
    if hits != [] {
      var init := hits[..|hits| - 1];
      ItemsOfSuccess(init, form, dec);
      if AllHitsGood(hits, form, dec) {
        assert AllHitsGood(init, form, dec);
      } else if ItemsOf(init, form, dec).Ok? {
        assert !ItemOf(hits[|hits| - 1], form, dec).Ok?;
      }
    }
  }

  /**
   * The builders' item rule, failure side: a failing list fails with the error of
   * its first bad hit.
   */
  lemma {:induction false} ItemsOfFailure(hits: seq<Hit>, form: ItemForm, dec: Decoders)
    requires ItemsOf(hits, form, dec).Err?
    ensures exists k :: FirstFailure(hits, form, dec, k) && ItemsOf(hits, form, dec).error == ItemOf(hits[k], form, dec).error
  {
    var init := hits[..|hits| - 1];
    var last := |hits| - 1;
    if ItemsOf(init, form, dec).Err? {
      ItemsOfFailure(init, form, dec);
      var k :| FirstFailure(init, form, dec, k) && ItemsOf(init, form, dec).error == ItemOf(init[k], form, dec).error;
      assert hits[..k] == init[..k];
      assert FirstFailure(hits, form, dec, k);
    } else {
      ItemsOfSuccess(init, form, dec);
      assert hits[..last] == init;
      assert FirstFailure(hits, form, dec, last);
    }
  }

  /** Once a prefix of the hits fails, the whole list fails with the same error. */
  lemma {:induction false} FailureSticks(hits: seq<Hit>, n: nat, form: ItemForm, dec: Decoders)
    requires n <= |hits|
    requires ItemsOf(hits[..n], form, dec).Err?
    ensures ItemsOf(hits, form, dec) == ItemsOf(hits[..n], form, dec)
  {
    if n < |hits| {
      var init := hits[..|hits| - 1];
      assert init[..n] == hits[..n];
      FailureSticks(init, n, form, dec);
    } else {
      assert hits[..n] == hits;
    }
  }

  /**
   * The loop every builder runs over `resp.Hits.Hits`: decode the hit, check its
   * DID, append its item, and return at the first hit that fails.
   */
  method CollectItems(hits: seq<Hit>, form: ItemForm, dec: Decoders) returns (r: Result<seq<SkeletonItem>, Failure>)
    ensures r == ItemsOf(hits, form, dec)
  {
    var items: seq<SkeletonItem> := [];
    var i := 0;
    while i < |hits|
      invariant 0 <= i <= |hits|
      invariant ItemsOf(hits[..i], form, dec) == Ok(items)
    {
      assert hits[..i + 1][..i] == hits[..i];
      var doc := dec.decode(DocKindOf(form), hits[i]);
      if doc.None? {
        FailureSticks(hits, i + 1, form, dec);
        return Err(DocDecodeFailed(DocKindOf(form)));
      }
      if !dec.isDid(doc.value.did) {
        FailureSticks(hits, i + 1, form, dec);
        return Err(InvalidDid);
      }
      items := items + [Render(form, doc.value)];
      i := i + 1;
    }
    assert hits[..i] == hits;
    r := Ok(items);
  }

  /** What a builder returns for a backend reply to a request for `size` hits at `offset`. */
  function PageOutcome(offset: Int64, size: Int64, reply: Reply, form: ItemForm, dec: Decoders): Result<Skeleton, Failure>
  {
    match reply
    case Failed(cause) => Err(BackendFailed(cause))
    case Answered(hits, total) =>
      match ItemsOf(hits, form, dec)
      case Err(e) => Err(e)
      case Ok(items) => Ok(Skeleton(items, NextCursor(offset, size, |items|), ReportedTotal(total)))
  }

  /** The cursor of a built page is the next-page cursor for its item count. */
  lemma PageCursor(offset: Int64, size: Int64, reply: Reply, form: ItemForm, dec: Decoders)
    requires PageOutcome(offset, size, reply, form, dec).Ok?
    ensures var out := PageOutcome(offset, size, reply, form, dec).value;
      out.cursor == NextCursor(offset, size, |out.items|)
  {
  }

  /**
   * A builder fails exactly when the backend failed or some hit is bad; on
   * success its items are the hits' items, one each and in order.
   */
  lemma PageItems(offset: Int64, size: Int64, reply: Reply, form: ItemForm, dec: Decoders)
    ensures var r := PageOutcome(offset, size, reply, form, dec);
      && (reply.Failed? ==> r == Err(BackendFailed(reply.cause)))
      && (reply.Answered? ==> (r.Ok? <==> AllHitsGood(reply.hits, form, dec)))
      && (r.Ok? ==> |r.value.items| == |reply.hits|)
      && (r.Ok? ==> forall i :: 0 <= i < |reply.hits| ==> r.value.items[i] == ItemOf(reply.hits[i], form, dec).value)
      && (reply.Answered? && r.Err? ==>
            exists k :: FirstFailure(reply.hits, form, dec, k) && r.error == ItemOf(reply.hits[k], form, dec).error)
  {
    if reply.Answered? {
      ItemsOfSuccess(reply.hits, form, dec);
      if ItemsOf(reply.hits, form, dec).Err? {
        ItemsOfFailure(reply.hits, form, dec);
      }
    }
  }

  /**
   * On success, a builder offers a next-page cursor exactly when it got as many
   * hits as it asked for and `offset + size` (wrapping like a Go `int`) is below
   * `MaxOffset`, the cursor is that sum in decimal, and `HitsTotal` is set exactly
   * when the backend's total is exact, to that total.
   */
  lemma PageCursorAndTotal(offset: Int64, size: Int64, reply: Reply, form: ItemForm, dec: Decoders)
    ensures var r := PageOutcome(offset, size, reply, form, dec);
      && (r.Ok? ==> (r.value.cursor.Some? <==> |reply.hits| == size && Add64(offset, size) < MaxOffset))
      && (r.Ok? && r.value.cursor.Some? ==> r.value.cursor.value == FormatInt(Add64(offset, size)))
      && (r.Ok? ==> (r.value.hitsTotal.Some? <==> reply.total.relation == "eq"))
      && (r.Ok? && r.value.hitsTotal.Some? ==> r.value.hitsTotal.value == reply.total.value)
  {
    if reply.Answered? {
      ItemsOfSuccess(reply.hits, form, dec);
    }
  }

  /** The part the three builders share: check the reply, collect the items, add cursor and total. */
  method BuildPage(offset: Int64, size: Int64, reply: Reply, form: ItemForm, dec: Decoders) returns (r: Result<Skeleton, Failure>)
    ensures r == PageOutcome(offset, size, reply, form, dec)
  {
    if reply.Failed? {
      return Err(BackendFailed(reply.cause));
    }
    var items := CollectItems(reply.hits, form, dec);
    if items.Err? {
      return Err(items.error);
    }
    r := Ok(Skeleton(items.value, NextCursor(offset, size, |items.value|), ReportedTotal(reply.total)));
  }

  /** `SearchPosts`: a plain query, answered with at:// post URIs. */
  method SearchPosts(q: string, offset: Int64, size: Int64, dec: Decoders, search: SearchRequest -> Reply)
    returns (r: Result<Skeleton, Failure>)
    ensures r == PageOutcome(offset, size, search(PostsSearch(q, offset, size)), AtUri, dec)
  {
    var reply := search(PostsSearch(q, offset, size));
    r := BuildPage(offset, size, reply, AtUri, dec);
  }

  /** `StructuredSearchPosts`: a structured query, answered with bsky.app post links. */
  method StructuredSearchPosts(query: SearchQuery, dec: Decoders, search: SearchRequest -> Reply)
    returns (r: Result<Skeleton, Failure>)
    ensures r == PageOutcome(query.offset, query.size, search(StructuredPostsSearch(query)), WebUrl, dec)
  {
    var reply := search(StructuredPostsSearch(query));
    r := BuildPage(query.offset, query.size, reply, WebUrl, dec);
  }

  /** The backend request `SearchProfiles` makes: the typeahead search takes no offset. */
  function ProfilesRequest(q: string, typeahead: bool, offset: Int64, size: Int64): (req: SearchRequest)
    ensures req.ProfilesTypeahead? <==> typeahead
    ensures req.ProfilesTypeahead? || req.ProfilesSearch?
    ensures req.q == q && req.size == size
    ensures req.ProfilesSearch? ==> req.offset == offset
  {
    if typeahead then ProfilesTypeahead(q, size) else ProfilesSearch(q, offset, size)
  }

  /** `SearchProfiles`: a profile query, plain or typeahead, answered with actor DIDs. */
  method SearchProfiles(q: string, typeahead: bool, offset: Int64, size: Int64, dec: Decoders, search: SearchRequest -> Reply)
    returns (r: Result<Skeleton, Failure>)
    ensures r == PageOutcome(offset, size, search(ProfilesRequest(q, typeahead, offset, size)), ActorDid, dec)
  {
    var reply: Reply;
    if typeahead {
      reply := search(ProfilesTypeahead(q, size));
    } else {
      reply := search(ProfilesSearch(q, offset, size));
    }
    r := BuildPage(offset, size, reply, ActorDid, dec);
  }
}
