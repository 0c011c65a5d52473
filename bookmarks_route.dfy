/**
 * The bookmarks API route (app/api/bookmarks/route.ts): every bookmark of the
 * upstream server, re-shaped for the front-end, newest first, behind a
 * single-slot cache that lives for two minutes. The clock is passed in: `now`
 * is read before the cache check and `later` after the upstream fetch.
 */
module BookmarksRoute {
  import opened Wrappers
  import opened Types
  import opened LinkdingApi
  import opened StableSort

  /** Two minutes, in milliseconds. */
  const CacheTtl: int := 2 * 60 * 1000

  /** The upstream record with `favicon_url` and `preview_image_url` set to null. */
  function ToBookmark(b: UpstreamBookmark): (r: Bookmark)
    ensures r.faviconUrl.None? && r.previewImageUrl.None?
    ensures Upstream(r) == b
  {
    Bookmark(b.id, b.url, b.title, b.description, b.notes, b.webArchiveSnapshotUrl, None, None,
      b.isArchived, b.unread, b.shared, b.tagNames, b.dateAdded, b.dateModified,
      b.websiteTitle, b.websiteDescription)
  }

  /** The fields a front-end record shares with the upstream one. */
  function Upstream(b: Bookmark): UpstreamBookmark {
    UpstreamBookmark(b.id, b.url, b.title, b.description, b.notes, b.websiteTitle, b.websiteDescription,
      b.webArchiveSnapshotUrl, b.isArchived, b.unread, b.shared, b.tagNames, b.dateAdded, b.dateModified)
  }

  /** The record transform: every record keeps all its upstream fields and has no favicon or preview. */
  function Transform(records: seq<UpstreamBookmark>): (r: seq<Bookmark>)
    ensures |r| == |records|
    ensures forall i :: 0 <= i < |r| ==> Upstream(r[i]) == records[i]
    ensures forall i :: 0 <= i < |r| ==> r[i].faviconUrl.None? && r[i].previewImageUrl.None?
  {
    seq(|records|, i requires 0 <= i < |records| => ToBookmark(records[i]))
  }

  /** The comparator `date(b) - date(a)` is negative exactly when `a` was added later. */
  predicate Newer(a: Bookmark, b: Bookmark) {
    a.dateAdded > b.dateAdded
  }

  lemma {:induction false} NewerIsStrictWeakOrder()
    ensures StrictWeakOrder(Newer)
  {
  }

  /** The response built on a cache miss. */
  function BuildResponse(records: seq<UpstreamBookmark>): BookmarksResponse {
    var sorted := Sort(Transform(records), Newer);
    BookmarksResponse(sorted, Some(|sorted|), None, None)
  }

  /**
   * The response lists a permutation of the transformed records, newest
   * first, equal instants in upstream order; its count is its length and it
   * has no links.
   */
  lemma {:induction false} BuildResponseProperties(records: seq<UpstreamBookmark>)
    ensures var r := BuildResponse(records);
      && multiset(r.results) == multiset(Transform(records))
      && (forall i, j :: 0 <= i < j < |r.results| ==> r.results[i].dateAdded >= r.results[j].dateAdded)
      && (forall e :: Peers(r.results, e, Newer) == Peers(Transform(records), e, Newer))
      && r.count == Some(|r.results|) && r.next.None? && r.previous.None?
  {
    var t := Transform(records);
    NewerIsStrictWeakOrder();
    SortPermutes(t, Newer);
    SortSorted(t, Newer);
    forall e ensures Peers(Sort(t, Newer), e, Newer) == Peers(t, e, Newer) {
      SortStable(t, e, Newer);
    }
  }

  datatype CacheEntry = CacheEntry(data: BookmarksResponse, timestamp: int)

  /** What the route answers: a JSON body, or a status with an error message. */
  datatype RouteReply = Json(data: BookmarksResponse) | Error(status: int, message: string)

  /** The cache is served exactly when an entry exists and is strictly younger than the TTL. */
  predicate Fresh(cache: Option<CacheEntry>, now: int) {
    cache.Some? && now - cache.value.timestamp < CacheTtl
  }

  /** One request: the reply and the cache afterwards. */
  function Serve(cache: Option<CacheEntry>, fetch: BookmarkQuery -> Result<BookmarksPage, string>,
                 now: int, later: int): (RouteReply, Option<CacheEntry>)
  {
    if Fresh(cache, now) then (Json(cache.value.data), cache)
    else
      match FetchAll(fetch, None, None)
      case Failure(_) => (Error(500, "Failed to fetch bookmarks"), cache)
      case Success(page) =>
        var response := BuildResponse(page.results);
        (Json(response), Some(CacheEntry(response, later)))
  }

  /** A hit returns the stored payload unchanged, keeps the cache, and does not consult the upstream server. */
  lemma {:induction false} HitIgnoresUpstream(cache: Option<CacheEntry>, fetch: BookmarkQuery -> Result<BookmarksPage, string>,
                           other: BookmarkQuery -> Result<BookmarksPage, string>, now: int, later: int)
    requires Fresh(cache, now)
    ensures Serve(cache, fetch, now, later) == Serve(cache, other, now, later)
    ensures Serve(cache, fetch, now, later) == (Json(cache.value.data), cache)
  {
  }

  /** A miss that reads the upstream listing caches exactly the response it returns, stamped `later`. */
  lemma {:induction false} MissStoresResponse(cache: Option<CacheEntry>, fetch: BookmarkQuery -> Result<BookmarksPage, string>,
                           now: int, later: int)
    requires !Fresh(cache, now)
    requires FetchAll(fetch, None, None).Success?
    ensures Serve(cache, fetch, now, later).0.Json?
    ensures Serve(cache, fetch, now, later).1 == Some(CacheEntry(Serve(cache, fetch, now, later).0.data, later))
    ensures Serve(cache, fetch, now, later).0.data == BuildResponse(FetchAll(fetch, None, None).value.results)
  {
  }

  /** An upstream failure on a miss is a 500 and leaves the cache as it was. */
  lemma {:induction false} FailureKeepsCache(cache: Option<CacheEntry>, fetch: BookmarkQuery -> Result<BookmarksPage, string>,
                          now: int, later: int)
    requires !Fresh(cache, now)
    requires FetchAll(fetch, None, None).Failure?
    ensures Serve(cache, fetch, now, later) == (Error(500, "Failed to fetch bookmarks"), cache)
  {
  }

  /**
   * Right after a miss stored a response, a request within the TTL of the
   * stamp is served that same response.
   */
  lemma {:induction false} StoredResponseServed(cache: Option<CacheEntry>, fetch: BookmarkQuery -> Result<BookmarksPage, string>,
                             now: int, later: int, next: int)
    requires !Fresh(cache, now)
    requires FetchAll(fetch, None, None).Success?
    requires next - later < CacheTtl
    ensures var (first, stored) := Serve(cache, fetch, now, later);
      Serve(stored, fetch, next, next + 1) == (first, stored)
  {
  }

  /** The route module and its one cache slot (`allBookmarksCache`). */
  class Route {
    var cache: Option<CacheEntry>

    constructor()
      ensures cache.None?
    {
      cache := None;
    }

    /**
     * `GET`. The request's query parameters are not read; the upstream
     * listing is fetched without a search or archive filter.
     */
    method Get(fetch: BookmarkQuery -> Result<BookmarksPage, string>, now: int, later: int)
      returns (reply: RouteReply)
      modifies this
      ensures (reply, cache) == Serve(old(cache), fetch, now, later)
    {
      if cache.Some? && now - cache.value.timestamp < CacheTtl {
        return Json(cache.value.data);
      }
      var upstream := FetchAllBookmarks(fetch, None, None);
      if upstream.Failure? {
        return Error(500, "Failed to fetch bookmarks");
      }
      var records := Transform(upstream.value.results);
      var bookmarks := new Bookmark[|records|](i requires 0 <= i < |records| => records[i]);
      assert bookmarks[..] == records;
      SortInPlace(bookmarks, Newer);
      var response := BookmarksResponse(bookmarks[..], Some(bookmarks.Length), None, None);
      cache := Some(CacheEntry(response, later));
      return Json(response);
    }
  }
}
