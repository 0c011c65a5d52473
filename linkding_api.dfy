/**
 * The client of the upstream Linkding REST API (lib/linkding-api.ts). The
 * HTTP exchange is an oracle: a function from the request the client builds
 * to the reply it gets back, so every operation here is deterministic.
 */
module LinkdingApi {
  import opened Wrappers
  import opened SearchParams
  import Text
  import Types

  /** A bookmark record as the upstream API returns it; it has no favicon or preview fields. */
  datatype UpstreamBookmark = UpstreamBookmark(
    id: int,
    url: string,
    title: string,
    description: string,
    notes: string,
    websiteTitle: Option<string>,
    websiteDescription: Option<string>,
    webArchiveSnapshotUrl: Option<string>,
    isArchived: bool,
    unread: bool,
    shared: bool,
    tagNames: seq<string>,
    dateAdded: int,
    dateModified: int)

  datatype BookmarksPage = BookmarksPage(
    count: int,
    next: Option<string>,
    previous: Option<string>,
    results: seq<UpstreamBookmark>)

  datatype TagsPage = TagsPage(
    count: int,
    next: Option<string>,
    previous: Option<string>,
    results: seq<Types.Tag>)

  // ---------------------------------------------------------------------------
  // Configuration

  /** The base URL and API token read from the environment when the module loads. */
  datatype Config = Config(baseUrl: string, token: string)

  const MissingConfig: string :=
    "Missing required environment variables: NEXT_PUBLIC_API_URL and NEXT_PUBLIC_API_TOKEN"

  /** The module-load check: both settings must be present and non-empty, or loading fails. */
  function LoadConfig(baseUrl: Option<string>, token: Option<string>): (r: Result<Config, string>)
    ensures r.Success? <==> baseUrl.Some? && baseUrl.value != "" && token.Some? && token.value != ""
    ensures r.Success? ==> r.value.baseUrl == baseUrl.value && r.value.token == token.value
    ensures r.Failure? ==> r.error == MissingConfig
  {
    if baseUrl.Some? && baseUrl.value != "" && token.Some? && token.value != "" then
      Success(Config(baseUrl.value, token.value))
    else
      Failure(MissingConfig)
  }

  // ---------------------------------------------------------------------------
  // Requests and replies

  /**
   * A GET request: base URL, endpoint path, query parameters and the
   * `Authorization` header value. The constant `Content-Type` header is not modelled.
   */
  datatype Request = Request(baseUrl: string, path: string, params: Params, authorization: string)

  /**
   * What the oracle answers: a parsed body for an ok response, the status text
   * of a non-ok one, or the message of a rejected `fetch` or `json()`.
   */
  datatype Reply<T> = Ok(body: T) | NotOk(statusText: string) | Rejected(message: string)

  function Authorization(c: Config): (r: string)
    ensures |r| == 6 + |c.token| && r[..6] == "Token " && r[6..] == c.token
  {
    "Token " + c.token
  }

  /** JavaScript truthiness of an optional number (`if (params.limit)`): present and non-zero. */
  predicate NumberTruthy(n: Option<int>) {
    n.Some? && n.value != 0
  }

  /** The `limit` and `offset` parameters, each set only when truthy. */
  function PageParams(limit: Option<int>, offset: Option<int>): (r: Params)
    ensures Get(r, "limit") == (if NumberTruthy(limit) then Some(Text.IntToString(limit.value)) else None)
    ensures Get(r, "offset") == (if NumberTruthy(offset) then Some(Text.IntToString(offset.value)) else None)
    ensures forall i :: 0 <= i < |r| ==> r[i].0 == "limit" || r[i].0 == "offset"
  {
    (if NumberTruthy(limit) then [("limit", Text.IntToString(limit.value))] else []) +
    (if NumberTruthy(offset) then [("offset", Text.IntToString(offset.value))] else [])
  }

  /** The optional arguments of `fetchBookmarks`. */
  datatype BookmarkQuery = BookmarkQuery(
    q: Option<string>,
    limit: Option<int>,
    offset: Option<int>,
    archived: Option<bool>)

  /** `q` only when non-empty, then `limit` and `offset` only when non-zero; `archived` is never a parameter. */
  function BookmarkParams(query: BookmarkQuery): (r: Params)
    ensures Get(r, "q") == (if query.q.Some? && query.q.value != "" then query.q else None)
    ensures Get(r, "limit") == (if NumberTruthy(query.limit) then Some(Text.IntToString(query.limit.value)) else None)
    ensures Get(r, "offset") == (if NumberTruthy(query.offset) then Some(Text.IntToString(query.offset.value)) else None)
    ensures forall i :: 0 <= i < |r| ==> r[i].0 in {"q", "limit", "offset"}
  {
    var qs: Params := if query.q.Some? && query.q.value != "" then [("q", query.q.value)] else [];
    var rest := PageParams(query.limit, query.offset);
    GetSkip(qs, rest, "limit");
    GetSkip(qs, rest, "offset");
    qs + rest
  }

  /** Looking up a key that the front part does not hold reads the back part. */
  lemma {:induction false} GetSkip(front: Params, back: Params, key: string)
    requires forall i :: 0 <= i < |front| ==> front[i].0 != key
    ensures Get(front + back, key) == Get(back, key)
  {
    if front != [] {
      var w := front + back;
      assert w[0] == front[0] && w[0].0 != key;
      assert w[1..] == front[1..] + back;
      GetSkip(front[1..], back, key);
      assert Get(w, key) == Get(w[1..], key);
    } else {
      assert front + back == back;
    }
  }

  /** The archived listing is used exactly when `archived` is truthy. */
  function Endpoint(archived: Option<bool>): (r: string)
    ensures r == "/bookmarks/archived/" <==> archived == Some(true)
    ensures r == "/bookmarks/" <==> archived != Some(true)
  {
    if archived == Some(true) then "/bookmarks/archived/" else "/bookmarks/"
  }

  function BookmarksRequest(c: Config, query: BookmarkQuery): Request {
    Request(c.baseUrl, Endpoint(query.archived), BookmarkParams(query), Authorization(c))
  }

  /** `fetchBookmarks`: one request, no retry; a non-ok status becomes an error naming its status text. */
  function FetchBookmarks(c: Config, server: Request -> Reply<BookmarksPage>, query: BookmarkQuery)
    : (r: Result<BookmarksPage, string>)
    ensures r.Success? <==> server(BookmarksRequest(c, query)).Ok?
    ensures r.Success? ==> r.value == server(BookmarksRequest(c, query)).body
    ensures server(BookmarksRequest(c, query)).NotOk? ==>
      r == Failure("Failed to fetch bookmarks: " + server(BookmarksRequest(c, query)).statusText)
    ensures server(BookmarksRequest(c, query)).Rejected? ==>
      r == Failure(server(BookmarksRequest(c, query)).message)
  {
    match server(BookmarksRequest(c, query))
    case Ok(body) => Success(body)
    case NotOk(statusText) => Failure("Failed to fetch bookmarks: " + statusText)
    case Rejected(message) => Failure(message)
  }

  function TagsRequest(c: Config, limit: Option<int>, offset: Option<int>): (r: Request)
    ensures r.path == "/tags/"
    ensures Get(r.params, "q").None? && Get(r.params, "archived").None?
  {
    Request(c.baseUrl, "/tags/", PageParams(limit, offset), Authorization(c))
  }

  /** `fetchTags`: the tag listing, with the same omission of a zero limit or offset. */
  function FetchTags(c: Config, server: Request -> Reply<TagsPage>, limit: Option<int>, offset: Option<int>)
    : (r: Result<TagsPage, string>)
    ensures r.Success? <==> server(TagsRequest(c, limit, offset)).Ok?
    ensures r.Success? ==> r.value == server(TagsRequest(c, limit, offset)).body
    ensures server(TagsRequest(c, limit, offset)).NotOk? ==>
      r == Failure("Failed to fetch tags: " + server(TagsRequest(c, limit, offset)).statusText)
    ensures server(TagsRequest(c, limit, offset)).Rejected? ==>
      r == Failure(server(TagsRequest(c, limit, offset)).message)
  {
    match server(TagsRequest(c, limit, offset))
    case Ok(body) => Success(body)
    case NotOk(statusText) => Failure("Failed to fetch tags: " + statusText)
    case Rejected(message) => Failure(message)
  }

  /** `fetchTags` of a configured client talking to `server`. */
  function TagsFetcher(c: Config, server: Request -> Reply<TagsPage>): (Option<int>, Option<int>) -> Result<TagsPage, string> {
    (limit, offset) => FetchTags(c, server, limit, offset)
  }

  // ---------------------------------------------------------------------------
  // Fetching every bookmark

  /** `fetchBookmarks` of a configured client talking to `server`. */
  function Fetcher(c: Config, server: Request -> Reply<BookmarksPage>): BookmarkQuery -> Result<BookmarksPage, string> {
    query => FetchBookmarks(c, server, query)
  }

  const InitialLimit: nat := 500
  const BatchSize: nat := 200

  function FirstQuery(q: Option<string>, archived: Option<bool>): BookmarkQuery {
    BookmarkQuery(q, Some(InitialLimit), Some(0), archived)
  }

  /** The `i`-th follow-up request: 200 records from offset `500 + 200 i`. */
  function BatchQuery(q: Option<string>, archived: Option<bool>, i: nat): BookmarkQuery {
    BookmarkQuery(q, Some(BatchSize), Some(InitialLimit + i * BatchSize), archived)
  }

  /** The number of records the first page says exist; a count of 0 falls back to the length of the first page. */
  function TotalExpected(first: BookmarksPage): int {
    if first.count != 0 then first.count else |first.results|
  }

  /** `Math.ceil(remaining / 200)` for a positive remainder, and no batches otherwise. */
  function BatchCount(remaining: int): (n: nat)
    ensures remaining > 0 ==> (n - 1) * BatchSize < remaining <= n * BatchSize
    ensures remaining <= 0 ==> n == 0
  {
    if remaining <= 0 then 0 else (remaining + BatchSize - 1) / BatchSize
  }

  /** The replies to the `n` follow-up requests, in index order. */
  function BatchReplies(fetch: BookmarkQuery -> Result<BookmarksPage, string>, q: Option<string>,
                        archived: Option<bool>, n: nat): seq<Result<BookmarksPage, string>>
  {
    seq(n, i requires 0 <= i < n => fetch(BatchQuery(q, archived, i)))
  }

  /** The page of a successful reply (an empty listing stands in for a failure). */
  function PageOf(reply: Result<BookmarksPage, string>): BookmarksPage {
    if reply.Success? then reply.value else Complete([])
  }

  /** The pages of the `n` follow-up replies, in index order. */
  function BatchPages(fetch: BookmarkQuery -> Result<BookmarksPage, string>, q: Option<string>,
                      archived: Option<bool>, n: nat): seq<BookmarksPage>
  {
    seq(n, i requires 0 <= i < n => PageOf(fetch(BatchQuery(q, archived, i))))
  }

  /** `Promise.all`: every page in order when all succeed, nothing when one fails. */
  function All(replies: seq<Result<BookmarksPage, string>>): (r: Option<seq<BookmarksPage>>)
    ensures r.Some? <==> forall i :: 0 <= i < |replies| ==> replies[i].Success?
    ensures r.Some? ==> |r.value| == |replies| && forall i :: 0 <= i < |replies| ==> r.value[i] == replies[i].value
  {
    if replies == [] then Some([])
    else
      var init := All(replies[..|replies| - 1]);
      var last := replies[|replies| - 1];
      if init.Some? && last.Success? then Some(init.value + [last.value]) else None
  }

  /** The results of the pages, concatenated in order. */
  function Flatten(pages: seq<BookmarksPage>): seq<UpstreamBookmark> {
    if pages == [] then [] else Flatten(pages[..|pages| - 1]) + pages[|pages| - 1].results
  }

  /** A complete listing: `count` is the number of results and there are no links. */
  function Complete(results: seq<UpstreamBookmark>): BookmarksPage {
    BookmarksPage(|results|, None, None, results)
  }

  /**
   * `fetchAllBookmarks`, where `fetch` is `fetchBookmarks` with the client's
   * configuration and server (`Fetcher`). The first page's failure
   * propagates; a failing batch is swallowed together with every other batch.
   */
  function FetchAll(fetch: BookmarkQuery -> Result<BookmarksPage, string>, q: Option<string>, archived: Option<bool>)
    : (r: Result<BookmarksPage, string>)
    ensures r.Success? ==> r.value == Complete(r.value.results)
    ensures r.Failure? <==> fetch(FirstQuery(q, archived)).Failure?
    ensures r.Failure? ==> r.error == fetch(FirstQuery(q, archived)).error
    ensures r.Success? ==> fetch(FirstQuery(q, archived)).value.results <= r.value.results
  {
    var first := fetch(FirstQuery(q, archived));
    if first.Failure? then Failure(first.error)
    else Success(Complete(AfterFirst(fetch, q, archived, first.value)))
  }

  /**
   * The records read once the first page is in: that page alone when it is
   * short or already covers the expected total, else that page assembled
   * with the batches that follow it.
   */
  function AfterFirst(fetch: BookmarkQuery -> Result<BookmarksPage, string>, q: Option<string>, archived: Option<bool>,
                      first: BookmarksPage): seq<UpstreamBookmark>
  {
    var got := first.results;
    if |got| < InitialLimit then got
    else
      var remaining := TotalExpected(first) - |got|;
      if remaining <= 0 then got
      else Assemble(got, All(BatchReplies(fetch, q, archived, BatchCount(remaining))))
  }

  /** The first page's results followed by the batches' when `Promise.all` resolved, alone when it rejected. */
  function Assemble(got: seq<UpstreamBookmark>, pages: Option<seq<BookmarksPage>>): seq<UpstreamBookmark> {
    match pages
    case Some(p) => got + Flatten(p)
    case None => got
  }

  /** `fetchAllBookmarks`: the first page, then the batches queued, awaited together and appended. */
  method FetchAllBookmarks(fetch: BookmarkQuery -> Result<BookmarksPage, string>, q: Option<string>, archived: Option<bool>)
    returns (r: Result<BookmarksPage, string>)
    ensures r == FetchAll(fetch, q, archived)
  {
    var first := fetch(FirstQuery(q, archived));
    if first.Failure? {
      return Failure(first.error);
    }
    var allBookmarks := ReadRest(fetch, q, archived, first.value);
    return Success(Complete(allBookmarks));
  }

  /** The body of `fetchAllBookmarks` after the first response: the early returns, then the batches. */
  method ReadRest(fetch: BookmarkQuery -> Result<BookmarksPage, string>, q: Option<string>, archived: Option<bool>,
                  firstPage: BookmarksPage)
    returns (allBookmarks: seq<UpstreamBookmark>)
    ensures allBookmarks == AfterFirst(fetch, q, archived, firstPage)
  {
    allBookmarks := firstPage.results;
    if |firstPage.results| < InitialLimit {
      return;
    }
    var remaining := TotalExpected(firstPage) - |firstPage.results|;
    if remaining <= 0 {
      return;
    }
    allBookmarks := FetchBatches(fetch, q, archived, allBookmarks, BatchCount(remaining));
  }

  /** The batch requests queued, awaited together, and their results appended when all of them succeed. */
  method FetchBatches(fetch: BookmarkQuery -> Result<BookmarksPage, string>, q: Option<string>, archived: Option<bool>,
                      got: seq<UpstreamBookmark>, batches: nat)
    returns (all: seq<UpstreamBookmark>)
    ensures all == Assemble(got, All(BatchReplies(fetch, q, archived, batches)))
  {
    var promises := QueueBatches(q, archived, batches);
    ghost var replies := BatchReplies(fetch, q, archived, batches);
    forall k | 0 <= k < batches
      ensures replies[k] == fetch(promises[k])
    {
      assert promises[k] == BatchQuery(q, archived, k);
    }
    var responses := AwaitAll(fetch, promises, replies);
    all := got;
    if responses.Some? {
      all := AppendResults(got, responses.value);
    }
  }

  /** The `for` loop that queues one request per batch. */
  method QueueBatches(q: Option<string>, archived: Option<bool>, batches: nat) returns (promises: seq<BookmarkQuery>)
    ensures |promises| == batches
    ensures forall k :: 0 <= k < batches ==> promises[k] == BatchQuery(q, archived, k)
  {
    promises := [];
    for i := 0 to batches
      invariant |promises| == i
      invariant forall k :: 0 <= k < i ==> promises[k] == BatchQuery(q, archived, k)
    {
      promises := promises + [BatchQuery(q, archived, i)];
    }
  }

  /** `await Promise.all(promises)`: every page, in order, or nothing once one request fails. */
  method AwaitAll(fetch: BookmarkQuery -> Result<BookmarksPage, string>, promises: seq<BookmarkQuery>,
                  ghost replies: seq<Result<BookmarksPage, string>>)
    returns (responses: Option<seq<BookmarksPage>>)
    requires |replies| == |promises|
    requires forall k :: 0 <= k < |promises| ==> replies[k] == fetch(promises[k])
    ensures responses == All(replies)
  {
    var pages: seq<BookmarksPage> := [];
    var failed := false;
    for i := 0 to |promises|
      invariant failed <==> All(replies[..i]).None?
      invariant !failed ==> pages == All(replies[..i]).value
    {
      assert replies[..i + 1][..i] == replies[..i];
      var reply := fetch(promises[i]);
      if reply.Failure? {
        failed := true;
      } else if !failed {
        pages := pages + [reply.value];
      }
    }
    assert replies[..|promises|] == replies;
    responses := if failed then None else Some(pages);
  }

  /** `allBookmarks.push(...response.results)` for each response, in order. */
  method AppendResults(got: seq<UpstreamBookmark>, pages: seq<BookmarksPage>) returns (all: seq<UpstreamBookmark>)
    ensures all == got + Flatten(pages)
  {
    all := got;
    for i := 0 to |pages|
      invariant all == got + Flatten(pages[..i])
    {
      assert pages[..i + 1][..i] == pages[..i];
      all := all + pages[i].results;
    }
    assert pages[..|pages|] == pages;
  }

  // ---------------------------------------------------------------------------
  // Properties of the fetch plan

  /** A first page shorter than 500 records is the whole answer. */
  lemma {:induction false} FetchAllShortFirstPage(fetch: BookmarkQuery -> Result<BookmarksPage, string>, q: Option<string>, archived: Option<bool>)
    requires fetch(FirstQuery(q, archived)).Success?
    requires |fetch(FirstQuery(q, archived)).value.results| < InitialLimit
    ensures FetchAll(fetch, q, archived) == Success(Complete(fetch(FirstQuery(q, archived)).value.results))
  {
  }

  /**
   * The batches cover the records from offset 500 up to the expected total:
   * contiguous, 200 apart, the last one starting before the total and ending at or after it.
   */
  lemma {:induction false} BatchPlanCovers(total: int)
    requires total > InitialLimit
    ensures BatchCount(total - InitialLimit) >= 1
    ensures forall i :: 0 <= i < BatchCount(total - InitialLimit) ==>
      BatchQuery(None, None, i).offset == Some(InitialLimit + i * BatchSize) &&
      BatchQuery(None, None, i).limit == Some(BatchSize)
    ensures InitialLimit + (BatchCount(total - InitialLimit) - 1) * BatchSize < total
    ensures total <= InitialLimit + BatchCount(total - InitialLimit) * BatchSize
  {
  }

  /** `Promise.all` over the batches: their pages when every batch succeeds, nothing when one fails. */
  lemma {:induction false} AllBatches(fetch: BookmarkQuery -> Result<BookmarksPage, string>, q: Option<string>, archived: Option<bool>, n: nat)
    ensures (forall i :: 0 <= i < n ==> fetch(BatchQuery(q, archived, i)).Success?) ==>
      All(BatchReplies(fetch, q, archived, n)) == Some(BatchPages(fetch, q, archived, n))
    ensures (exists i :: 0 <= i < n && fetch(BatchQuery(q, archived, i)).Failure?) ==>
      All(BatchReplies(fetch, q, archived, n)).None?
  {
    var replies := BatchReplies(fetch, q, archived, n);
    if forall i :: 0 <= i < n ==> fetch(BatchQuery(q, archived, i)).Success? {
      assert forall i :: 0 <= i < n ==> replies[i].Success?;
      assert All(replies).value == BatchPages(fetch, q, archived, n);
    } else {
      var i :| 0 <= i < n && fetch(BatchQuery(q, archived, i)).Failure?;
      assert replies[i].Failure?;
    }
  }

  /** When the first page is full, the result is the first page assembled with `Promise.all` over the batches. */
  lemma {:induction false} FetchAllFullFirstPage(fetch: BookmarkQuery -> Result<BookmarksPage, string>, q: Option<string>, archived: Option<bool>)
    requires fetch(FirstQuery(q, archived)).Success?
    requires |fetch(FirstQuery(q, archived)).value.results| >= InitialLimit
    ensures var first := fetch(FirstQuery(q, archived)).value;
            var n := BatchCount(TotalExpected(first) - |first.results|);
            FetchAll(fetch, q, archived) == Success(Complete(Assemble(first.results, All(BatchReplies(fetch, q, archived, n)))))
  {
    var first := fetch(FirstQuery(q, archived)).value;
    var n := BatchCount(TotalExpected(first) - |first.results|);
    if n == 0 {
      assert TotalExpected(first) - |first.results| <= 0;
      assert FetchAll(fetch, q, archived) == Success(Complete(first.results));
      assert BatchReplies(fetch, q, archived, n) == [];
      assert Assemble(first.results, All([])) == first.results + [] == first.results;
    }
  }

  /** When every batch succeeds the result is the first page followed by the batches in index order. */
  lemma {:induction false} FetchAllBatchesSucceed(fetch: BookmarkQuery -> Result<BookmarksPage, string>, q: Option<string>, archived: Option<bool>)
    requires fetch(FirstQuery(q, archived)).Success?
    requires |fetch(FirstQuery(q, archived)).value.results| >= InitialLimit
    requires var first := fetch(FirstQuery(q, archived)).value;
             forall i :: 0 <= i < BatchCount(TotalExpected(first) - |first.results|) ==> fetch(BatchQuery(q, archived, i)).Success?
    ensures var first := fetch(FirstQuery(q, archived)).value;
            var n := BatchCount(TotalExpected(first) - |first.results|);
            FetchAll(fetch, q, archived) == Success(Complete(first.results + Flatten(BatchPages(fetch, q, archived, n))))
  {
    var first := fetch(FirstQuery(q, archived)).value;
    var n := BatchCount(TotalExpected(first) - |first.results|);
    FetchAllFullFirstPage(fetch, q, archived);
    AllBatches(fetch, q, archived, n);
  }

  /** When any batch fails the result is the first page alone, and no error surfaces. */
  lemma {:induction false} FetchAllBatchFails(fetch: BookmarkQuery -> Result<BookmarksPage, string>, q: Option<string>, archived: Option<bool>, i: nat)
    requires fetch(FirstQuery(q, archived)).Success?
    requires |fetch(FirstQuery(q, archived)).value.results| >= InitialLimit
    requires var first := fetch(FirstQuery(q, archived)).value;
             i < BatchCount(TotalExpected(first) - |first.results|) && fetch(BatchQuery(q, archived, i)).Failure?
    ensures FetchAll(fetch, q, archived) == Success(Complete(fetch(FirstQuery(q, archived)).value.results))
  {
    var first := fetch(FirstQuery(q, archived)).value;
    var n := BatchCount(TotalExpected(first) - |first.results|);
    FetchAllFullFirstPage(fetch, q, archived);
    AllBatches(fetch, q, archived, n);
  }

  // ---------------------------------------------------------------------------
  // Against a consistent server, the client reads the whole listing

  function Min(a: int, b: int): int {
    if a <= b then a else b
  }

  /** `limit` records from `offset`, clipped to the listing. */
  function Window(listing: seq<UpstreamBookmark>, offset: nat, limit: nat): seq<UpstreamBookmark> {
    listing[Min(offset, |listing|)..Min(offset + limit, |listing|)]
  }

  /**
   * A server that holds `listing` for this search and answers every paged
   * request with its true total and the requested window of records.
   */
  ghost predicate Serves(fetch: BookmarkQuery -> Result<BookmarksPage, string>, q: Option<string>,
                         archived: Option<bool>, listing: seq<UpstreamBookmark>) {
    forall limit: nat, offset: nat ::
      0 < limit ==>
        var reply := fetch(BookmarkQuery(q, Some(limit), Some(offset), archived));
        reply.Success? && reply.value.count == |listing| && reply.value.results == Window(listing, offset, limit)
  }

  lemma {:induction false} FlattenWindows(pages: seq<BookmarksPage>, listing: seq<UpstreamBookmark>)
    requires forall i :: 0 <= i < |pages| ==> pages[i].results == Window(listing, InitialLimit + i * BatchSize, BatchSize)
    ensures Flatten(pages) == listing[Min(InitialLimit, |listing|)..Min(InitialLimit + |pages| * BatchSize, |listing|)]
  {
    if pages != [] {
      var k := |pages| - 1;
      FlattenWindows(pages[..k], listing);
      var a, m, b := Min(InitialLimit, |listing|), Min(InitialLimit + k * BatchSize, |listing|),
        Min(InitialLimit + |pages| * BatchSize, |listing|);
      assert listing[a..m] + listing[m..b] == listing[a..b];
    }
  }

  /** Fetching everything from a consistent server returns exactly its listing, with a true count. */
  lemma {:induction false} FetchAllComplete(fetch: BookmarkQuery -> Result<BookmarksPage, string>, q: Option<string>,
                         archived: Option<bool>, listing: seq<UpstreamBookmark>)
    requires Serves(fetch, q, archived, listing)
    ensures FetchAll(fetch, q, archived) == Success(Complete(listing))
  {
    var first := fetch(FirstQuery(q, archived));
    assert first.value.results == Window(listing, 0, InitialLimit);
    if |listing| < InitialLimit {
      assert first.value.results == listing;
    } else {
      FetchAllCompleteBatched(fetch, q, archived, listing);
    }
  }

  /** The same when the listing does not fit in the first page. */
  lemma {:induction false} FetchAllCompleteBatched(fetch: BookmarkQuery -> Result<BookmarksPage, string>, q: Option<string>,
                                archived: Option<bool>, listing: seq<UpstreamBookmark>)
    requires Serves(fetch, q, archived, listing)
    requires |listing| >= InitialLimit
    ensures FetchAll(fetch, q, archived) == Success(Complete(listing))
  {
    var first := fetch(FirstQuery(q, archived)).value;
    assert first.results == listing[..InitialLimit];
    assert first.count == |listing|;
    assert TotalExpected(first) - |first.results| == |listing| - InitialLimit;
    var n := BatchCount(|listing| - InitialLimit);
    var pages := BatchPages(fetch, q, archived, n);
    ServedBatches(fetch, q, archived, listing, n);
    FetchAllBatchesSucceed(fetch, q, archived);
    FlattenWindows(pages, listing);
    assert Flatten(pages) == listing[InitialLimit..];
    assert first.results + Flatten(pages) == listing;
  }

  /** A consistent server answers every batch with its window of the listing. */
  lemma {:induction false} ServedBatches(fetch: BookmarkQuery -> Result<BookmarksPage, string>, q: Option<string>,
                      archived: Option<bool>, listing: seq<UpstreamBookmark>, n: nat)
    requires Serves(fetch, q, archived, listing)
    ensures forall i :: 0 <= i < n ==> fetch(BatchQuery(q, archived, i)).Success?
    ensures forall i :: 0 <= i < n ==>
      BatchPages(fetch, q, archived, n)[i].results == Window(listing, InitialLimit + i * BatchSize, BatchSize)
  {
    var pages := BatchPages(fetch, q, archived, n);
    forall i | 0 <= i < n
      ensures fetch(BatchQuery(q, archived, i)).Success?
      ensures pages[i].results == Window(listing, InitialLimit + i * BatchSize, BatchSize)
    {
    }
  }
}
