/**
 * The bookmarks hook (hooks/use-bookmarks.ts): the results for the current
 * filters, fetched from the bookmarks route, replaced or appended, with the
 * total, the more-to-come flag and the page counter. `enabled` (the URL
 * synchronisation being ready) and the filters are the hook's arguments. A
 * fetch starts (flags set at once) and later settles with the page and the
 * append flag it was started with.
 */
module BookmarksHook {
  import opened Wrappers
  import opened Types
  import opened SearchParams
  import QueryState
  import LinkdingApi
  import BookmarksRoute

  datatype BookmarksState = BookmarksState(
    bookmarks: seq<Bookmark>,
    loading: bool,
    error: Option<string>,
    totalCount: int,
    hasMore: bool,
    currentPage: int)

  /** No bookmarks, loading, no error, total 0, nothing more, page 1. */
  const Initial: BookmarksState := BookmarksState([], true, None, 0, false, 1)

  /** The query string of `/api/bookmarks?<params>`: the filters with the page, built. */
  function RequestParams(filters: SearchFilters, page: int): Params {
    QueryState.Build(filters.(page := Some(page)))
  }

  /** The start of `fetchBookmarks`: nothing when disabled; else loading unless appending, and no error. */
  function Begin(s: BookmarksState, enabled: bool, append: bool): BookmarksState {
    if !enabled then s
    else s.(loading := if append then s.loading else true, error := None)
  }

  /**
   * The end of `fetchBookmarks`: on a body, the results replace the list or
   * are appended, the total is `count || 0`, `hasMore` follows `next` and the
   * page is recorded; on a failure only the error is set. Loading ends.
   */
  function Settle(s: BookmarksState, page: int, append: bool, outcome: Outcome<BookmarksResponse>): BookmarksState {
    match outcome
    case Ok(data) =>
      s.(bookmarks := if append then s.bookmarks + data.results else data.results,
         totalCount := data.count.GetOr(0), hasMore := Truthy(data.next), currentPage := page, loading := false)
    case _ =>
      s.(error := Some(FailureMessage(outcome, "Failed to fetch bookmarks")), loading := false)
  }

  /** A whole enabled fetch when nothing happens while it is in flight. */
  function Fetched(s: BookmarksState, page: int, append: bool, outcome: Outcome<BookmarksResponse>): BookmarksState {
    Settle(Begin(s, true, append), page, append, outcome)
  }

  predicate CanLoadMore(s: BookmarksState, enabled: bool) {
    !s.loading && s.hasMore && enabled
  }

  /** `loadMore`: the next page, appended, or nothing. */
  function LoadMoreStarted(s: BookmarksState, enabled: bool): BookmarksState {
    if CanLoadMore(s, enabled) then Begin(s, enabled, true) else s
  }

  /** The filter-change effect and `refresh`: page 1, replacing; nothing when disabled. */
  function ResetStarted(s: BookmarksState, enabled: bool): BookmarksState {
    if !enabled then s else Begin(s.(currentPage := 1), enabled, false)
  }

  // ---------------------------------------------------------------------------
  // Properties

  /** The page number never reaches the request: every page asks the same query string. */
  lemma {:induction false} RequestIgnoresPage(filters: SearchFilters, page: int, other: int)
    ensures RequestParams(filters, page) == RequestParams(filters, other)
    ensures Get(RequestParams(filters, page), "page") == None
  {
    QueryState.BuildIgnoresPage(filters, Some(page));
    QueryState.BuildIgnoresPage(filters, Some(other));
    QueryState.GetBuildAll(filters.(page := Some(page)));
  }

  /** When disabled, starting a fetch, loading more and refreshing change nothing. */
  lemma {:induction false} DisabledIsInert(s: BookmarksState, append: bool)
    ensures Begin(s, false, append) == s
    ensures LoadMoreStarted(s, false) == s
    ensures ResetStarted(s, false) == s
  {
  }

  /**
   * A settled fetch with a body holds the results (after the previous ones
   * when appending), the total is the count or 0, `hasMore` says whether
   * `next` is set, the page is the requested one, and nothing is loading.
   */
  lemma {:induction false} SuccessfulFetch(s: BookmarksState, page: int, append: bool, data: BookmarksResponse)
    ensures var r := Fetched(s, page, append, Ok(data));
      && r.bookmarks == (if append then s.bookmarks else []) + data.results
      && r.totalCount == (if data.count.Some? then data.count.value else 0)
      && r.hasMore == Truthy(data.next)
      && r.currentPage == page
      && !r.loading && r.error.None?
  {
  }

  /** A failed fetch keeps the list, the total, `hasMore` and the page, records the message, and ends loading. */
  lemma {:induction false} FailedFetch(s: BookmarksState, page: int, append: bool, outcome: Outcome<BookmarksResponse>)
    requires !outcome.Ok?
    ensures var r := Fetched(s, page, append, outcome);
      && r.bookmarks == s.bookmarks && r.totalCount == s.totalCount
      && r.hasMore == s.hasMore && r.currentPage == s.currentPage
      && !r.loading
      && r.error == Some(if outcome.NotOk? then "Failed to fetch bookmarks" else outcome.message.GetOr("An error occurred"))
  {
  }

  /** `loadMore` fires only when idle, with more to come and enabled; a refresh or filter change starts over at page 1. */
  lemma {:induction false} LoadMoreGuard(s: BookmarksState, enabled: bool)
    ensures !CanLoadMore(s, enabled) ==> LoadMoreStarted(s, enabled) == s
    ensures CanLoadMore(s, enabled) ==> LoadMoreStarted(s, enabled).bookmarks == s.bookmarks && LoadMoreStarted(s, enabled).error.None?
    ensures enabled ==> ResetStarted(s, enabled).currentPage == 1 && ResetStarted(s, enabled).loading
  {
  }

  /**
   * The bookmarks route answers every request with the whole newest-first
   * listing and no `next`: after a fetch from it the list is that listing,
   * the total is its length, and `loadMore` never starts another fetch.
   */
  lemma {:induction false} RouteListingIsFinal(s: BookmarksState, page: int, records: seq<LinkdingApi.UpstreamBookmark>, enabled: bool)
    ensures var data := BookmarksRoute.BuildResponse(records);
      var r := Fetched(s, page, false, Ok(data));
      && r.bookmarks == data.results
      && r.totalCount == |data.results| == |records|
      && !r.hasMore
      && LoadMoreStarted(r, enabled) == r
  {
    BookmarksRoute.BuildResponseProperties(records);
    var data := BookmarksRoute.BuildResponse(records);
    assert |data.results| == |BookmarksRoute.Transform(records)| by {
      assert |multiset(data.results)| == |multiset(BookmarksRoute.Transform(records))|;
    }
  }

  /** The hook's state. */
  class BookmarksHook {
    var bookmarks: seq<Bookmark>
    var loading: bool
    var error: Option<string>
    var totalCount: int
    var hasMore: bool
    var currentPage: int

    function State(): BookmarksState
      reads this
    {
      BookmarksState(bookmarks, loading, error, totalCount, hasMore, currentPage)
    }

    constructor()
      ensures State() == Initial
    {
      bookmarks := [];
      loading := true;
      error := None;
      totalCount := 0;
      hasMore := false;
      currentPage := 1;
    }

    /** `fetchBookmarks(page, append)` up to the `await`: the query string sent, or `None` when disabled. */
    method StartFetch(filters: SearchFilters, enabled: bool, page: int, append: bool) returns (request: Option<Params>)
      modifies this
      ensures State() == Begin(old(State()), enabled, append)
      ensures request == if enabled then Some(RequestParams(filters, page)) else None
    {
      if !enabled {
        return None;
      }
      if !append {
        loading := true;
      }
      error := None;
      request := Some(QueryState.Build(filters.(page := Some(page))));
    }

    /** The rest of `fetchBookmarks(page, append)` once the response is in. */
    method FinishFetch(page: int, append: bool, outcome: Outcome<BookmarksResponse>)
      modifies this
      ensures State() == Settle(old(State()), page, append, outcome)
    {
      if outcome.Ok? {
        var data := outcome.body;
        if append {
          bookmarks := bookmarks + data.results;
        } else {
          bookmarks := data.results;
        }
        totalCount := if data.count.Some? then data.count.value else 0;
        hasMore := data.next.Some? && data.next.value != "";
        currentPage := page;
      } else {
        error := Some(FailureMessage(outcome, "Failed to fetch bookmarks"));
      }
      loading := false;
    }

    /** `loadMore`: fetch the next page and append it, when idle, enabled and more remain. */
    method LoadMore(filters: SearchFilters, enabled: bool) returns (request: Option<Params>)
      modifies this
      ensures State() == LoadMoreStarted(old(State()), enabled)
      ensures request.Some? <==> CanLoadMore(old(State()), enabled)
      ensures request.Some? ==> request.value == RequestParams(filters, old(currentPage) + 1)
    {
      request := None;
      if !loading && hasMore && enabled {
        request := StartFetch(filters, enabled, currentPage + 1, true);
      }
    }

    /** `refresh`, and the effect that runs when the filters or `enabled` change: page 1, replacing. */
    method Reset(filters: SearchFilters, enabled: bool) returns (request: Option<Params>)
      modifies this
      ensures State() == ResetStarted(old(State()), enabled)
      ensures request == if enabled then Some(RequestParams(filters, 1)) else None
    {
      if !enabled {
        return None;
      }
      currentPage := 1;
      request := StartFetch(filters, enabled, 1, false);
    }
  }
}
