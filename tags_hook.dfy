/**
 * The tags hook (hooks/use-tags.ts): pages of the ranked tag list fetched 100
 * at a time from the tags route, replaced or appended, and a case-insensitive
 * search over the loaded tags. A fetch is two steps: it starts (the loading
 * flag and the error are set at once) and it settles when the response
 * arrives, with the offset and the append flag it was started with.
 */
module TagsHook {
  import opened Wrappers
  import opened Types
  import Text
  import TagsRoute

  /** The page size of every request. */
  const PageSize: nat := 100

  datatype TagsState = TagsState(
    tags: seq<Tag>,
    loading: bool,
    error: Option<string>,
    hasMore: bool,
    currentOffset: nat)

  /** No tags, loading, no error, nothing more, offset 0. */
  const Initial: TagsState := TagsState([], true, None, false, 0)

  /** The request `/api/tags?limit=100&offset=<offset>`, as the tags route reads it. */
  function Request(offset: nat, origin: string): (q: TagsRoute.TagsQuery)
    ensures q.limit == Some(PageSize) && q.offset == Some(offset)
  {
    TagsRoute.TagsQuery(Some(PageSize), Some(offset), origin, "/api/tags")
  }

  /** The start of `fetchTags`: loading is raised unless appending, and the error cleared. */
  function Begin(s: TagsState, append: bool): TagsState {
    s.(loading := if append then s.loading else true, error := None)
  }

  /**
   * The end of `fetchTags`: on a body, the results replace the tags or are
   * appended to them, `hasMore` follows `next` and the offset is recorded; on
   * a failure only the error is set. Loading ends either way.
   */
  function Settle(s: TagsState, offset: nat, append: bool, outcome: Outcome<TagsResponse>): TagsState {
    match outcome
    case Ok(data) =>
      s.(tags := if append then s.tags + data.results else data.results,
         hasMore := Truthy(data.next), currentOffset := offset, loading := false)
    case _ =>
      s.(error := Some(FailureMessage(outcome, "Failed to fetch tags")), loading := false)
  }

  /** A whole fetch when nothing happens while it is in flight. */
  function Fetched(s: TagsState, offset: nat, append: bool, outcome: Outcome<TagsResponse>): TagsState {
    Settle(Begin(s, append), offset, append, outcome)
  }

  /** `loadMore` starts a fetch only when nothing is loading and more tags exist. */
  predicate CanLoadMore(s: TagsState) {
    !s.loading && s.hasMore
  }

  /** `loadMore`: the next page, appended; otherwise nothing. */
  function LoadMoreStarted(s: TagsState): TagsState {
    if CanLoadMore(s) then Begin(s, true) else s
  }

  /** `refresh`: back to offset 0, replacing. */
  function RefreshStarted(s: TagsState): TagsState {
    Begin(s.(currentOffset := 0), false)
  }

  // ---------------------------------------------------------------------------
  // Search

  /** A tag matches when its lower-cased name contains the lower-cased query. */
  predicate Matches(t: Tag, query: string) {
    Text.Contains(Text.Lower(t.name), Text.Lower(query))
  }

  /** The tags whose name contains the query, ignoring case, in their loaded order. */
  function FilterMatches(tags: seq<Tag>, query: string): (r: seq<Tag>)
    ensures forall t :: t in r <==> t in tags && Matches(t, query)
    ensures |r| <= |tags|
  {
    if tags == [] then []
    else
      var init, last := tags[..|tags| - 1], tags[|tags| - 1];
      assert tags == init + [last];
      FilterMatches(init, query) + (if Matches(last, query) then [last] else [])
  }

  /** `searchTags` (and the tags panel's `filteredTags`): every tag for a blank query, else the matching ones. */
  function SearchTags(tags: seq<Tag>, query: string): seq<Tag> {
    if Text.IsBlank(query) then tags else FilterMatches(tags, query)
  }

  // ---------------------------------------------------------------------------
  // Properties

  /**
   * A settled fetch that got a body holds the results (after the previous
   * tags when appending), `hasMore` says whether `next` is set, the offset is
   * the requested one, and neither loading nor an error remains.
   */
  lemma {:induction false} SuccessfulFetch(s: TagsState, offset: nat, append: bool, data: TagsResponse)
    ensures var r := Fetched(s, offset, append, Ok(data));
      && r.tags == (if append then s.tags else []) + data.results
      && r.hasMore == Truthy(data.next)
      && r.currentOffset == offset
      && !r.loading && r.error.None?
  {
  }

  /** A failed fetch keeps the tags, `hasMore` and the offset, records the message and ends loading. */
  lemma {:induction false} FailedFetch(s: TagsState, offset: nat, append: bool, outcome: Outcome<TagsResponse>)
    requires !outcome.Ok?
    ensures var r := Fetched(s, offset, append, outcome);
      && r.tags == s.tags && r.hasMore == s.hasMore && r.currentOffset == s.currentOffset
      && !r.loading
      && r.error == Some(if outcome.NotOk? then "Failed to fetch tags" else outcome.message.GetOr("An error occurred"))
  {
  }

  /** While loading, or with nothing more, `loadMore` changes nothing; a refresh always reloads from 0. */
  lemma {:induction false} LoadMoreGuard(s: TagsState)
    ensures !CanLoadMore(s) ==> LoadMoreStarted(s) == s
    ensures CanLoadMore(s) ==> LoadMoreStarted(s).error.None? && LoadMoreStarted(s).tags == s.tags
    ensures RefreshStarted(s).loading && RefreshStarted(s).currentOffset == 0 && RefreshStarted(s).error.None?
  {
  }

  lemma {:induction false} PageSlice(ranked: seq<Tag>, data: TagsResponse, offset: nat, origin: string)
    requires data == TagsRoute.Paginate(ranked, Request(offset, origin))
    ensures data.results == ranked[TagsRoute.Min(offset, |ranked|)..TagsRoute.Min(offset + PageSize, |ranked|)]
    ensures Truthy(data.next) <==> offset + PageSize < |ranked|
  {
    var n := |ranked|;
    var lo, hi := TagsRoute.Min(offset, n), TagsRoute.Min(offset + PageSize, n);
    assert |data.results| == hi - lo;
    forall i | 0 <= i < |data.results| ensures data.results[i] == ranked[lo..hi][i] {
    }
    if data.next.Some? {
      assert |data.next.value| > 0 by {
        var link := TagsRoute.PageLink(Request(offset, origin), PageSize, offset + PageSize);
        assert data.next.value == link;
        assert |link| >= |"?limit="|;
      }
    }
  }

  /**
   * Against an unchanging ranking on the tags route, the first page holds the
   * first 100 tags and `hasMore` says whether more exist.
   */
  lemma {:induction false} FirstPageIsPrefix(s: TagsState, ranked: seq<Tag>, origin: string)
    ensures var r := Fetched(s, 0, false, Ok(TagsRoute.Paginate(ranked, Request(0, origin))));
      && r.tags == ranked[..TagsRoute.Min(PageSize, |ranked|)]
      && r.currentOffset == 0
      && (r.hasMore <==> PageSize < |ranked|)
  {
    PageSlice(ranked, TagsRoute.Paginate(ranked, Request(0, origin)), 0, origin);
  }

  /**
   * Each `loadMore` asks for the offset the route's `next` link names and
   * extends the loaded prefix of the ranking by the next 100 tags; `hasMore`
   * stays true exactly while tags remain.
   */
  lemma {:induction false} LoadMoreExtendsPrefix(s: TagsState, ranked: seq<Tag>, origin: string)
    requires CanLoadMore(s)
    requires s.tags == ranked[..TagsRoute.Min(s.currentOffset + PageSize, |ranked|)]
    ensures var o := s.currentOffset + PageSize;
      var r := Settle(LoadMoreStarted(s), o, true, Ok(TagsRoute.Paginate(ranked, Request(o, origin))));
      && r.tags == ranked[..TagsRoute.Min(o + PageSize, |ranked|)]
      && r.currentOffset == o
      && (r.hasMore <==> o + PageSize < |ranked|)
  {
    var o := s.currentOffset + PageSize;
    var n := |ranked|;
    var data := TagsRoute.Paginate(ranked, Request(o, origin));
    PageSlice(ranked, data, o, origin);
    assert ranked[..TagsRoute.Min(o, n)] + ranked[TagsRoute.Min(o, n)..TagsRoute.Min(o + PageSize, n)]
        == ranked[..TagsRoute.Min(o + PageSize, n)];
  }

  /** The route's `next` link for a page of this hook carries exactly the offset `loadMore` asks for next. */
  lemma {:induction false} NextLinkIsLoadMoreOffset(ranked: seq<Tag>, offset: nat, origin: string)
    requires offset + PageSize < |ranked|
    ensures TagsRoute.Paginate(ranked, Request(offset, origin)).next ==
      Some(TagsRoute.PageLink(Request(offset, origin), PageSize, offset + PageSize))
  {
  }

  /** A blank query returns the tags as they are; any other keeps exactly the matching tags. */
  lemma {:induction false} SearchMembers(tags: seq<Tag>, query: string)
    ensures Text.IsBlank(query) ==> SearchTags(tags, query) == tags
    ensures !Text.IsBlank(query) ==> forall t :: t in SearchTags(tags, query) <==> t in tags && Matches(t, query)
  {
  }

  /** The filter keeps the loaded order: filtering a concatenation concatenates the filtered parts. */
  lemma {:induction false} FilterMatchesAppend(a: seq<Tag>, b: seq<Tag>, query: string)
    ensures FilterMatches(a + b, query) == FilterMatches(a, query) + FilterMatches(b, query)
  {
    if b == [] {
      assert a + b == a;
    } else {
      var init := b[..|b| - 1];
      assert (a + b)[..|a + b| - 1] == a + init;
      FilterMatchesAppend(a, init, query);
    }
  }

  lemma {:induction false} LowerIdempotent(s: string)
    ensures Text.Lower(Text.Lower(s)) == Text.Lower(s)
  {
  }

  /** The search does not depend on the case of the query: lower-casing it first gives the same tags. */
  lemma {:induction false} SearchIgnoresCase(tags: seq<Tag>, query: string)
    ensures SearchTags(tags, Text.Lower(query)) == SearchTags(tags, query)
  {
    LowerIdempotent(query);
    assert Text.IsBlank(Text.Lower(query)) == Text.IsBlank(query) by {
      forall i | 0 <= i < |query| ensures Text.IsJsWhitespace(Text.Lower(query)[i]) == Text.IsJsWhitespace(query[i]) {
      }
    }
    if !Text.IsBlank(query) {
      FilterSameQuery(tags, Text.Lower(query), query);
    }
  }

  lemma {:induction false} FilterSameQuery(tags: seq<Tag>, q1: string, q2: string)
    requires Text.Lower(q1) == Text.Lower(q2)
    ensures FilterMatches(tags, q1) == FilterMatches(tags, q2)
  {
    if tags != [] {
      FilterSameQuery(tags[..|tags| - 1], q1, q2);
    }
  }

  /** The hook's state. */
  class TagsHook {
    var tags: seq<Tag>
    var loading: bool
    var error: Option<string>
    var hasMore: bool
    var currentOffset: nat

    function State(): TagsState
      reads this
    {
      TagsState(tags, loading, error, hasMore, currentOffset)
    }

    constructor()
      ensures State() == Initial
    {
      tags := [];
      loading := true;
      error := None;
      hasMore := false;
      currentOffset := 0;
    }

    /** `fetchTags(offset, append)` up to the `await`: returns the request sent. */
    method StartFetch(offset: nat, append: bool, origin: string) returns (request: TagsRoute.TagsQuery)
      modifies this
      ensures State() == Begin(old(State()), append)
      ensures request == Request(offset, origin)
    {
      if !append {
        loading := true;
      }
      error := None;
      request := Request(offset, origin);
    }

    /** The rest of `fetchTags(offset, append)` once the response is in. */
    method FinishFetch(offset: nat, append: bool, outcome: Outcome<TagsResponse>)
      modifies this
      ensures State() == Settle(old(State()), offset, append, outcome)
    {
      if outcome.Ok? {
        var data := outcome.body;
        if append {
          tags := tags + data.results;
        } else {
          tags := data.results;
        }
        hasMore := data.next.Some? && data.next.value != "";
        currentOffset := offset;
      } else {
        error := Some(FailureMessage(outcome, "Failed to fetch tags"));
      }
      loading := false;
    }

    /** `loadMore`: the offset requested, or `None` when no fetch starts. */
    method LoadMore(origin: string) returns (request: Option<TagsRoute.TagsQuery>)
      modifies this
      ensures State() == LoadMoreStarted(old(State()))
      ensures request.Some? <==> CanLoadMore(old(State()))
      ensures request.Some? ==> request.value == Request(old(currentOffset) + PageSize, origin)
    {
      request := None;
      if !loading && hasMore {
        var q := StartFetch(currentOffset + PageSize, true, origin);
        request := Some(q);
      }
    }

    /** `refresh`: reload the tags from offset 0, replacing the list. */
    method Refresh(origin: string) returns (request: TagsRoute.TagsQuery)
      modifies this
      ensures State() == RefreshStarted(old(State()))
      ensures request == Request(0, origin)
    {
      currentOffset := 0;
      request := StartFetch(0, false, origin);
    }
  }
}
