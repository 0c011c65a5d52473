/**
 * The tags API route (app/api/tags/route.ts): the upstream tags that some
 * bookmark uses, ranked by usage count and then by name, one page of them at a
 * time. The two upstream calls are oracles passed in as functions.
 */
module TagsRoute {
  import opened Wrappers
  import opened Types
  import opened LinkdingApi
  import opened TagCounts
  import opened StableSort
  import Text

  const DefaultLimit: nat := 100
  const DefaultOffset: nat := 0

  /** Both upstream calls ask for up to 1000 records from the start. */
  const UpstreamLimit: int := 1000

  /**
   * The request as the route reads it: `limit` and `offset` (absent when the
   * parameter is missing or empty), and the URL's origin and path for the links.
   */
  datatype TagsQuery = TagsQuery(limit: Option<nat>, offset: Option<nat>, origin: string, pathname: string)

  function UpstreamTagNames(b: UpstreamBookmark): seq<string> {
    b.tagNames
  }

  /** The upstream tags that at least one bookmark uses, in upstream order. */
  function UsedTags(tags: seq<Tag>, counts: map<string, nat>): (r: seq<Tag>)
    ensures forall t :: t in r <==> t in tags && t.name in counts
    ensures |r| <= |tags|
  {
    if tags == [] then []
    else
      var init, last := tags[..|tags| - 1], tags[|tags| - 1];
      assert tags == init + [last];
      UsedTags(init, counts) + (if last.name in counts then [last] else [])
  }

  /** The filter keeps the upstream order: filtering a concatenation concatenates the filtered parts. */
  lemma {:induction false} UsedTagsAppend(a: seq<Tag>, b: seq<Tag>, counts: map<string, nat>)
    ensures UsedTags(a + b, counts) == UsedTags(a, counts) + UsedTags(b, counts)
  {
    if b == [] {
      assert a + b == a;
    } else {
      var init := b[..|b| - 1];
      assert (a + b)[..|a + b| - 1] == a + init;
      UsedTagsAppend(a, init, counts);
    }
  }

  function Max(a: int, b: int): int {
    if a >= b then a else b
  }

  function Min(a: int, b: int): int {
    if a <= b then a else b
  }

  /**
   * `slice(start, end)` on natural bounds: the elements from `start` up to
   * `end`, both clipped to the length, and nothing when `start` is past it.
   */
  function Slice<T>(s: seq<T>, start: nat, end: nat): (r: seq<T>)
    ensures |r| == Max(0, Min(end, |s|) - start)
    ensures forall i :: 0 <= i < |r| ==> r[i] == s[start + i]
  {
    s[Min(start, |s|)..Max(Min(start, |s|), Min(end, |s|))]
  }

  /** The link to another page of this listing. */
  function PageLink(query: TagsQuery, limit: nat, offset: int): string {
    query.origin + query.pathname + "?limit=" + Text.IntToString(limit) + "&offset=" + Text.IntToString(offset)
  }

  /**
   * `slice(offset, offset + limit)` with the count and the links: `next`
   * exactly when more tags follow the page, `previous` exactly when the page
   * does not start at the beginning.
   */
  function Paginate(ranked: seq<Tag>, query: TagsQuery): (r: TagsResponse)
    ensures var limit, offset, n := query.limit.GetOr(DefaultLimit), query.offset.GetOr(DefaultOffset), |ranked|;
      && r.count == n
      && |r.results| == Max(0, Min(offset + limit, n) - offset)
      && (forall i :: 0 <= i < |r.results| ==> r.results[i] == ranked[offset + i])
      && (r.next.Some? <==> offset + limit < n)
      && (r.next.Some? ==> r.next.value == PageLink(query, limit, offset + limit))
      && (r.previous.Some? <==> offset > 0)
      && (r.previous.Some? ==> r.previous.value == PageLink(query, limit, Max(0, offset - limit)))
  {
    var limit, offset, n := query.limit.GetOr(DefaultLimit), query.offset.GetOr(DefaultOffset), |ranked|;
    TagsResponse(
      n,
      if offset + limit < n then Some(PageLink(query, limit, offset + limit)) else None,
      if offset > 0 then Some(PageLink(query, limit, Max(0, offset - limit))) else None,
      Slice(ranked, offset, offset + limit))
  }

  datatype TagsReply = Json(data: TagsResponse) | Error(status: int, message: string)

  /** The counts, the used tags and their ranking, before pagination. */
  function Ranked(tags: seq<Tag>, bookmarks: seq<UpstreamBookmark>): seq<Tag> {
    var counts := Tally(AllTagNames(bookmarks, UpstreamTagNames));
    Sort(UsedTags(tags, counts), RankBy(counts, TagName))
  }

  /** `GET`: any upstream failure is a 500 with a fixed message. */
  function Respond(query: TagsQuery, fetchTags: (Option<int>, Option<int>) -> Result<TagsPage, string>,
                   fetchBookmarks: BookmarkQuery -> Result<BookmarksPage, string>): TagsReply
  {
    var tags := fetchTags(Some(UpstreamLimit), Some(0));
    var bookmarks := fetchBookmarks(BookmarkQuery(None, Some(UpstreamLimit), Some(0), None));
    if tags.Failure? || bookmarks.Failure? then Error(500, "Failed to fetch tags")
    else Json(Paginate(Ranked(tags.value.results, bookmarks.value.results), query))
  }

  /**
   * The ranked list is a permutation of the used tags: exactly the upstream
   * tags that some fetched bookmark carries.
   */
  lemma {:induction false} RankedMembers(tags: seq<Tag>, bookmarks: seq<UpstreamBookmark>)
    ensures multiset(Ranked(tags, bookmarks)) == multiset(UsedTags(tags, Tally(AllTagNames(bookmarks, UpstreamTagNames))))
    ensures forall t :: t in Ranked(tags, bookmarks) <==> t in tags && exists b :: b in bookmarks && t.name in b.tagNames
  {
    var counts := Tally(AllTagNames(bookmarks, UpstreamTagNames));
    var used := UsedTags(tags, counts);
    SortPermutes(used, RankBy(counts, TagName));
    var r := Sort(used, RankBy(counts, TagName));
    forall t ensures t in r <==> t in tags && exists b :: b in bookmarks && t.name in b.tagNames {
      assert t in r <==> t in multiset(r);
      assert t in used <==> t in multiset(used);
      CountsEveryOccurrence(bookmarks, UpstreamTagNames, t.name);
    }
  }

  /**
   * The ranking puts higher counts first (a count is the tag's number of
   * occurrences), and among equal counts no name comes after a greater one.
   */
  lemma {:induction false} RankedOrder(tags: seq<Tag>, bookmarks: seq<UpstreamBookmark>)
    ensures var counts := Tally(AllTagNames(bookmarks, UpstreamTagNames));
      var r := Ranked(tags, bookmarks);
      forall i, j :: 0 <= i < j < |r| ==>
        CountOf(counts, r[i].name) > CountOf(counts, r[j].name) ||
        (CountOf(counts, r[i].name) == CountOf(counts, r[j].name) && !Text.NameLess(r[j].name, r[i].name))
  {
    var counts := Tally(AllTagNames(bookmarks, UpstreamTagNames));
    var before := RankBy(counts, TagName);
    var used := UsedTags(tags, counts);
    RankByIsStrictWeakOrder(counts, TagName);
    SortSorted(used, before);
    var r := Sort(used, before);
    RanksBeforeOrder(counts);
    forall i, j | 0 <= i < j < |r|
      ensures CountOf(counts, r[i].name) > CountOf(counts, r[j].name) ||
              (CountOf(counts, r[i].name) == CountOf(counts, r[j].name) && !Text.NameLess(r[j].name, r[i].name))
    {
      assert !before(r[j], r[i]);
      assert before(r[j], r[i]) == RanksBefore(counts, TagName(r[j]), TagName(r[i]));
    }
  }

  /** Tags with equal counts and names keep their upstream order in the ranking. */
  lemma {:induction false} RankedStable(tags: seq<Tag>, bookmarks: seq<UpstreamBookmark>, e: Tag)
    ensures var counts := Tally(AllTagNames(bookmarks, UpstreamTagNames));
      Peers(Ranked(tags, bookmarks), e, RankBy(counts, TagName)) ==
      Peers(UsedTags(tags, counts), e, RankBy(counts, TagName))
  {
    var counts := Tally(AllTagNames(bookmarks, UpstreamTagNames));
    RankByIsStrictWeakOrder(counts, TagName);
    SortStable(UsedTags(tags, counts), e, RankBy(counts, TagName));
  }

  /** Either upstream failure gives the same 500 reply. */
  lemma {:induction false} FailureIs500(query: TagsQuery, fetchTags: (Option<int>, Option<int>) -> Result<TagsPage, string>,
                     fetchBookmarks: BookmarkQuery -> Result<BookmarksPage, string>)
    requires fetchTags(Some(UpstreamLimit), Some(0)).Failure? ||
             fetchBookmarks(BookmarkQuery(None, Some(UpstreamLimit), Some(0), None)).Failure?
    ensures Respond(query, fetchTags, fetchBookmarks) == Error(500, "Failed to fetch tags")
  {
  }

  /** The handler: the counting loop, the filter, the in-place sort, then the page. */
  method Get(query: TagsQuery, fetchTags: (Option<int>, Option<int>) -> Result<TagsPage, string>,
             fetchBookmarks: BookmarkQuery -> Result<BookmarksPage, string>)
    returns (reply: TagsReply)
    ensures reply == Respond(query, fetchTags, fetchBookmarks)
  {
    var tagsReply := fetchTags(Some(UpstreamLimit), Some(0));
    if tagsReply.Failure? {
      return Error(500, "Failed to fetch tags");
    }
    var bookmarksReply := fetchBookmarks(BookmarkQuery(None, Some(UpstreamLimit), Some(0), None));
    if bookmarksReply.Failure? {
      return Error(500, "Failed to fetch tags");
    }
    var counts := CountOccurrences(bookmarksReply.value.results, UpstreamTagNames);
    var used := UsedTags(tagsReply.value.results, counts);
    var usedTags := new Tag[|used|](i requires 0 <= i < |used| => used[i]);
    assert usedTags[..] == used;
    SortInPlace(usedTags, RankBy(counts, TagName));
    reply := Json(Paginate(usedTags[..], query));
  }
}
