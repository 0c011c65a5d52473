/**
 * The URL synchronisation hook (hooks/use-url-sync.ts). React state
 * (`filters`, `searchQuery`, `isReady`) is set by the handlers at once; the
 * refs that the handlers read (`filtersRef`, `searchQueryRef`) catch up only
 * when the effects run, which is the separate `CommitRefs` step. The address
 * bar is `location`, and `written` records every `router.replace` in order.
 */
module UrlSync {
  import opened Wrappers
  import opened Types
  import opened SearchParams
  import opened QueryState

  /** The URL handed to `router.replace`: "/" or "?" followed by the parameters. */
  datatype Url = Root | Search(params: Params)

  datatype SyncState = SyncState(
    filters: SearchFilters,
    searchQuery: string,
    isReady: bool,
    filtersRef: SearchFilters,
    searchQueryRef: string,
    isUpdating: bool,
    location: Params,
    written: seq<Url>)

  /** The filters before the address is read: newest first, page 1, nothing else set. */
  const InitialFilters: SearchFilters := SearchFilters(None, None, None, None, None, Some("new"), Some(1))

  /** The first render: default filters, empty query, not ready, at the given address. */
  function Initial(location: Params): SyncState {
    SyncState(InitialFilters, "", false, InitialFilters, "", false, location, [])
  }

  /** The initialisation effect: reads the address once, unless already ready or in the middle of an update. */
  function Initialise(s: SyncState): SyncState {
    if !s.isReady && !s.isUpdating then
      var parsed := Parse(s.location);
      s.(filters := parsed, searchQuery := parsed.q.GetOr(""), isReady := true)
    else s
  }

  /** The effects that copy state into the refs after a render. */
  function CommitRefs(s: SyncState): SyncState {
    s.(filtersRef := s.filters, searchQueryRef := s.searchQuery)
  }

  /** The 100 ms timer that clears the updating flag. */
  function TimerElapsed(s: SyncState): SyncState {
    s.(isUpdating := false)
  }

  /** The criteria to write: the filters, with the search query as `q` when it is non-empty and no `q` otherwise. */
  function Combined(f: SearchFilters, query: string): SearchFilters {
    f.(q := if query != "" then Some(query) else None)
  }

  /** `updateUrl`'s target: "?" and the built parameters, or "/" when nothing is written. */
  function UrlFor(f: SearchFilters, query: string): (u: Url)
    ensures u == Root <==> AllDefault(Combined(f, query))
    ensures u.Search? ==> u.params == Build(Combined(f, query))
  {
    BuildShape(Combined(f, query));
    var params := Build(Combined(f, query));
    if params == [] then Root else Search(params)
  }

  /** `updateUrl`: the flag is raised and the address replaced. */
  function WriteUrl(s: SyncState, f: SearchFilters, query: string): SyncState {
    s.(isUpdating := true, location := Build(Combined(f, query)), written := s.written + [UrlFor(f, query)])
  }

  /** The page resets to 1 unless the patch names `page`. */
  function ResetPage(f: SearchFilters, patch: FiltersPatch): SearchFilters {
    if patch.page.Keep? then f.(page := Some(1)) else f
  }

  /** `updateFilters`: the patch merged over the filters ref, written with the query ref. */
  function FiltersUpdated(s: SyncState, patch: FiltersPatch): SyncState {
    var updated := ResetPage(Merge(s.filtersRef, patch), patch);
    WriteUrl(s.(filters := updated), updated, s.searchQueryRef)
  }

  /** `updateSearchQuery`: the new query, the filters ref on page 1, written with the new query. */
  function QueryUpdated(s: SyncState, query: string): SyncState {
    var updated := s.filtersRef.(page := Some(1));
    WriteUrl(s.(searchQuery := query, filters := updated), updated, query)
  }

  // ---------------------------------------------------------------------------
  // Properties

  /**
   * Initialisation takes the filters from the address and the query from its
   * `q` (or ""), marks the hook ready, and never runs a second time.
   */
  lemma {:induction false} InitialiseOnce(s: SyncState)
    requires !s.isReady && !s.isUpdating
    ensures Initialise(s).filters == Parse(s.location)
    ensures Initialise(s).searchQuery == (if Get(s.location, "q").Some? then Get(s.location, "q").value else "")
    ensures Initialise(s).isReady
    ensures Initialise(Initialise(s)) == Initialise(s)
    ensures Initialise(CommitRefs(Initialise(s))) == CommitRefs(Initialise(s))
  {
  }

  /**
   * `updateFilters` merges the patch over the filters ref key by key; the
   * page is the patch's when it names one and 1 otherwise; the query and
   * readiness are untouched.
   */
  lemma {:induction false} UpdateFiltersMerges(s: SyncState, patch: FiltersPatch)
    ensures var f := FiltersUpdated(s, patch).filters;
      && f.q == Override(s.filtersRef.q, patch.q)
      && f.tags == Override(s.filtersRef.tags, patch.tags)
      && f.archived == Override(s.filtersRef.archived, patch.archived)
      && f.unread == Override(s.filtersRef.unread, patch.unread)
      && f.shared == Override(s.filtersRef.shared, patch.shared)
      && f.sort == Override(s.filtersRef.sort, patch.sort)
      && (patch.page.Keep? ==> f.page == Some(1))
      && (patch.page.Put? ==> f.page == patch.page.value)
    ensures FiltersUpdated(s, patch).searchQuery == s.searchQuery
    ensures FiltersUpdated(s, patch).isReady == s.isReady
    ensures FiltersUpdated(s, patch).written == s.written + [UrlFor(FiltersUpdated(s, patch).filters, s.searchQueryRef)]
  {
  }

  /** `updateSearchQuery` sets the query and page 1 and changes no other field of the filters ref. */
  lemma {:induction false} UpdateSearchQueryKeepsFilters(s: SyncState, query: string)
    ensures QueryUpdated(s, query).searchQuery == query
    ensures QueryUpdated(s, query).filters == s.filtersRef.(page := Some(1))
    ensures QueryUpdated(s, query).written == s.written + [UrlFor(s.filtersRef.(page := Some(1)), query)]
  {
  }

  /** The URL carries the query under `q` exactly when the query is non-empty, and never a page. */
  lemma {:induction false} UrlCarriesQuery(f: SearchFilters, query: string)
    ensures UrlFor(f, query).Search? ==> Get(UrlFor(f, query).params, "q") == (if query != "" then Some(query) else None)
    ensures UrlFor(f, query).Search? ==> Get(UrlFor(f, query).params, "page") == None
    ensures query != "" ==> UrlFor(f, query).Search?
  {
    GetBuildAll(Combined(f, query));
  }

  /**
   * Reloading at a written address and initialising gives back the filters
   * that were written (normalised) and the query.
   */
  lemma {:induction false} ReloadReadsBack(s: SyncState, f: SearchFilters, query: string)
    requires EncodableTags(f.tags)
    ensures var reloaded := Initialise(Initial(WriteUrl(s, f, query).location));
      reloaded.filters == Normalise(Combined(f, query)) && reloaded.searchQuery == query
  {
    RoundTrip(Combined(f, query));
  }

  /** The hook's state, one field per piece of React state or ref. */
  class UrlSyncHook {
    var filters: SearchFilters
    var searchQuery: string
    var isReady: bool
    var filtersRef: SearchFilters
    var searchQueryRef: string
    var isUpdating: bool
    var location: Params
    var written: seq<Url>

    function State(): SyncState
      reads this
    {
      SyncState(filters, searchQuery, isReady, filtersRef, searchQueryRef, isUpdating, location, written)
    }

    constructor(location: Params)
      ensures State() == Initial(location)
    {
      filters := InitialFilters;
      searchQuery := "";
      isReady := false;
      filtersRef := InitialFilters;
      searchQueryRef := "";
      isUpdating := false;
      this.location := location;
      written := [];
    }

    method RunInitialiseEffect()
      modifies this
      ensures State() == Initialise(old(State()))
    {
      if !isReady && !isUpdating {
        var urlFilters := Parse(location);
        filters := urlFilters;
        searchQuery := if urlFilters.q.Some? then urlFilters.q.value else "";
        isReady := true;
      }
    }

    method RunRefEffects()
      modifies this
      ensures State() == CommitRefs(old(State()))
    {
      filtersRef := filters;
      searchQueryRef := searchQuery;
    }

    method TimerFires()
      modifies this
      ensures State() == TimerElapsed(old(State()))
    {
      isUpdating := false;
    }

    method UpdateUrl(newFilters: SearchFilters, newSearchQuery: string)
      modifies this
      ensures State() == WriteUrl(old(State()), newFilters, newSearchQuery)
    {
      isUpdating := true;
      var combined := Combined(newFilters, newSearchQuery);
      var params := Build(combined);
      var url := if params == [] then Root else Search(params);
      written := written + [url];
      location := params;
    }

    method UpdateFilters(patch: FiltersPatch)
      modifies this
      ensures State() == FiltersUpdated(old(State()), patch)
    {
      var currentFilters := filtersRef;
      var currentSearchQuery := searchQueryRef;
      var updatedFilters := Merge(currentFilters, patch);
      if patch.page.Keep? {
        updatedFilters := updatedFilters.(page := Some(1));
      }
      filters := updatedFilters;
      UpdateUrl(updatedFilters, currentSearchQuery);
    }

    method UpdateSearchQuery(query: string)
      modifies this
      ensures State() == QueryUpdated(old(State()), query)
    {
      var currentFilters := filtersRef;
      searchQuery := query;
      var updatedFilters := currentFilters.(page := Some(1));
      filters := updatedFilters;
      UpdateUrl(updatedFilters, query);
    }
  }
}
