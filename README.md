# Bookmark manager — a verified model

This project models the core of a small Next.js front end for a Linkding
bookmark server. The browser shows the user's bookmarks grouped by tag. The
search criteria (free-text query, selected tags, three status flags, sort
mode, page) live in the address bar. Two server routes sit between the
browser and Linkding:

- `/api/bookmarks` fetches the whole listing: one request for 500 records,
  then parallel batches of 200. It sorts the listing newest first and keeps
  it in memory for two minutes.
- `/api/tags` fetches the tags and ranks the used ones by how many bookmarks
  carry them. It then answers one page of the ranking with `next` and
  `previous` links.

The client side is modelled as state machines, one per React hook: URL
synchronisation, bookmarks, tags and tag counts. The page's handlers and the
filters menu become partial updates merged into the criteria. The tags panel
becomes a filter-then-rank pipeline over the loaded tags.

Modules, one per source file:

| module | file | models |
|---|---|---|
| `Types`, `SearchParams` | `types.dfy` | `lib/types.ts`: the records, the partial-update merge of `{ ...a, ...b }`, the outcomes of a `fetch`, `URLSearchParams.get` |
| `Text` | `text.dfy` | `split`/`join`, `toLowerCase` on ASCII, `trim()` emptiness, number formatting, name order |
| `QueryState` | `query_state.dfy` | `lib/query-state.ts`: parse, build and update the address's criteria |
| `LinkdingApi` | `linkding_api.dfy` | `lib/linkding-api.ts`: configuration, request building, the fetch-everything plan |
| `StableSort` | `stable_sort.dfy` | `Array.prototype.sort` with a comparator (stable, as ECMAScript requires), as a function and as an in-place insertion sort on an `array` |
| `BookmarksRoute` | `bookmarks_route.dfy` | `app/api/bookmarks/route.ts`: transform, sort, two-minute cache |
| `TagsRoute` | `tags_route.dfy` | `app/api/tags/route.ts`: counting, ranking, pagination |
| `TagCounts` | `tag_counts.dfy` | `hooks/use-tag-counts.ts`: occurrences per tag name, and the ranking comparator |
| `UrlSync` | `url_sync.dfy` | `hooks/use-url-sync.ts`: state, refs, the initialising effect, the update callbacks |
| `BookmarksHook` | `bookmarks_hook.dfy` | `hooks/use-bookmarks.ts` |
| `TagsHook` | `tags_hook.dfy` | `hooks/use-tags.ts` |
| `FiltersMenu` | `filters_menu.dfy` | `components/filters-menu.tsx`: the patches its items send, and which items are ticked |
| `Page` | `page.dfy` | `app/page.tsx`: grouping by tag, tag click/remove, clear filters, load more, active-filter count, what the content area shows |
| `TagsPanel` | `tags_panel.dfy` | `components/tags-panel.tsx`: search-then-rank, and "clear all" |

Conventions:

- A JavaScript `undefined` or absent value is `Option.None`.
- A partial update (`Partial<SearchFilters>`) is a `FiltersPatch`. Each key
  is `Keep` (not named in the object) or `Put(v)` (named, possibly with
  `undefined`). This matters because `{ ...a, tags: undefined }` erases the
  key, and `"page" in newFilters` tests for naming.
- A fetch is a function parameter: `server`/`fetch` for Linkding, and
  `fetchTags`/`fetchBookmarks` for the routes. The result of a browser
  `fetch` is an `Outcome`: a body, a non-ok status, or a thrown error with or
  without a message. Each hook's asynchronous fetch is split into the steps
  before and after its `await`.
- `Date.now()` is two parameters: `now` when the cache is checked and `later`
  when the new entry is stamped.
- React state and refs are fields of a class. A ref updated "in an effect"
  changes only in an explicit `RunRefEffects`/`CommitRefs` step. This is how
  the model shows two updates made in one event handler.
- `router.replace(url)` appends to a log `written` and sets `location`
  (`Root` is `/`).

## Model

| member | source | states |
|---|---|---|
| `Types.Merge` | lib/types.ts:42-50 | each key named by the patch takes the patch's value (`undefined` included); each key not named keeps its value; the empty patch changes nothing |
| `Types.ValidSort` | lib/types.ts:48 | no contract of its own; properties in `FiltersMenu.MarkedIffValid` |
| `Types.Override` | lib/types.ts:42-50 | no contract of its own; properties in `Types.Merge` and `UrlSync.UpdateFiltersMerges` |
| `Types.Truthy` | hooks/use-bookmarks.ts:51 | no contract of its own; properties in `BookmarksHook.SuccessfulFetch` and `TagsHook.SuccessfulFetch` |
| `Types.FailureMessage` | hooks/use-bookmarks.ts:53-54 | no contract of its own; properties in `BookmarksHook.FailedFetch` and `TagsHook.FailedFetch` |
| `SearchParams.Get` | lib/query-state.ts:7-12 | a value read for a key was set under that key; first-match and absent-iff-None are in `SearchParams.GetFirst` |
| `SearchParams.GetFirst` | lib/query-state.ts:7-12 | `get` finds nothing exactly when no pair has the key; otherwise it returns the value of the first such pair |
| `QueryState.ParseTags` | lib/query-state.ts:8 | `tags` is present exactly when the parameter is; a name is selected exactly when it is a non-empty piece of the value split on ","; the pieces never contain "," and are never empty; an empty value selects `[]` |
| `QueryState.ParseTagsSkipsEmpty` | lib/query-state.ts:8 | empty pieces are skipped and the rest kept in order: `?tags=a,,b` selects "a" then "b" |
| `QueryState.SplitDoubleComma` | lib/query-state.ts:8 | "a,,b" splits on "," into "a", "" and "b" |
| `QueryState.DropsMiddle` | lib/query-state.ts:8 | the filter drops the empty middle piece of "a", "", "b" |
| `QueryState.Decode` | lib/query-state.ts:5-14 | q is kept only when non-empty; tags present iff given; archived true iff "1" and false iff "0"; unread/shared true iff "1"; a non-empty sort is kept, and a missing or empty sort becomes "new" |
| `QueryState.Parse` | lib/query-state.ts:5-14 | every parsed value has the decoded shape (page absent, sort always present) |
| `QueryState.BuildIgnoresPage` | lib/query-state.ts:16-28 | the page field never affects what is written |
| `QueryState.BuildShape` | lib/query-state.ts:16-28 | every key written is one of the six codec keys, in a fixed order, each at most once; nothing is written exactly when every field is at its default |
| `QueryState.BuildOrdered` | lib/query-state.ts:16-28 | the written keys are codec keys in strictly increasing rank |
| `QueryState.BuildEmpty` | lib/query-state.ts:16-28 | the parameters are empty iff every field is at its default |
| `QueryState.EmitFront` | lib/query-state.ts:19-25 | a `set` of an earlier key in front of later keys keeps the keys in rank order |
| `QueryState.ConsOrdered` | lib/query-state.ts:19-25 | a key of lower rank put in front of keys of higher rank keeps them in rank order |
| `QueryState.GetEmit` | lib/query-state.ts:19-25 | a `set` on a fresh key is what `get` later finds under that key, and nothing else |
| `QueryState.GetBuild` | lib/query-state.ts:16-28 | reading any key of the built parameters gives the value written for that key |
| `QueryState.GetBuildAll` | lib/query-state.ts:19-25 | q when non-empty; tags joined with ","; archived "1"/"0"; unread and shared "1" only when true; sort unless "new"; page never |
| `QueryState.DecodeWritten` | lib/query-state.ts:5-28 | decoding what `build` writes gives the criteria back, normalised |
| `QueryState.RoundTrip` | lib/query-state.ts:5-28 | parse(build(f)) is f normalised: page dropped, empty q/tags absent, false unread/shared absent, sort defaulted |
| `QueryState.RoundTripTags` | lib/query-state.ts:8 | `split(",").filter(Boolean)` inverts `join(",")` on comma-free, non-empty tags |
| `QueryState.BuildNormalise` | lib/query-state.ts:16-28 | normalising first changes nothing that is written |
| `QueryState.CanonicalIdempotent` | lib/query-state.ts:5-28 | one parse/build pass already reaches the fixed point |
| `QueryState.UpdateSearchParams` | lib/query-state.ts:30-35 | page is never written |
| `QueryState.UpdateClears` | lib/query-state.ts:30-35 | a key the patch sets to `undefined` is absent afterwards |
| `QueryState.UpdateKeeps` | lib/query-state.ts:30-35 | a key the patch does not name reads as in the rewritten current parameters |
| `QueryState.UpdateReadsBack` | lib/query-state.ts:30-35 | reading the updated parameters gives the merged criteria, normalised |
| `QueryState.ParseReadsFirst` | lib/query-state.ts:12 | a key given twice is read from its first occurrence: `?sort=a&sort=b` sorts by "a" |
| `QueryState.EncodableTags` | lib/query-state.ts:8-20 | no contract of its own; properties in `QueryState.ParseTags` and `QueryState.RoundTripTags` |
| `QueryState.Parsed` | lib/query-state.ts:5-14 | no contract of its own; properties in `QueryState.Decode` and `QueryState.Parse` |
| `QueryState.Emit` | lib/query-state.ts:19-25 | no contract of its own; properties in `QueryState.EmitFront` and `QueryState.GetEmit` |
| `QueryState.QValue` | lib/query-state.ts:19 | no contract of its own; properties in `QueryState.GetBuildAll` and `QueryState.DecodeWritten` |
| `QueryState.TagsValue` | lib/query-state.ts:20 | no contract of its own; properties in `QueryState.GetBuildAll` and `QueryState.DecodeWritten` |
| `QueryState.ArchivedValue` | lib/query-state.ts:21-22 | no contract of its own; properties in `QueryState.GetBuildAll` and `QueryState.DecodeWritten` |
| `QueryState.FlagValue` | lib/query-state.ts:23-24 | no contract of its own; properties in `QueryState.GetBuildAll` and `QueryState.DecodeWritten` |
| `QueryState.SortValue` | lib/query-state.ts:25 | no contract of its own; properties in `QueryState.GetBuildAll` and `QueryState.DecodeWritten` |
| `QueryState.AllDefault` | lib/query-state.ts:19-25 | no contract of its own; properties in `QueryState.BuildEmpty` |
| `QueryState.KeyRank` | lib/query-state.ts:19-25 | no contract of its own; properties in `QueryState.EmitFront` and `QueryState.BuildOrdered` |
| `QueryState.Build` | lib/query-state.ts:16-28 | no contract of its own; properties in `QueryState.BuildShape`, `QueryState.GetBuild`, `QueryState.GetBuildAll` and `QueryState.RoundTrip` |
| `QueryState.KeysFrom` | lib/query-state.ts:19-25 | no contract of its own; properties in `QueryState.BuildOrdered` |
| `QueryState.RankOrdered` | lib/query-state.ts:19-25 | no contract of its own; properties in `QueryState.BuildOrdered` |
| `QueryState.Written` | lib/query-state.ts:19-25 | no contract of its own; properties in `QueryState.GetBuild` |
| `QueryState.Normalise` | lib/query-state.ts:5-28 | no contract of its own; properties in `QueryState.DecodeWritten`, `QueryState.RoundTrip` and `QueryState.BuildNormalise` |
| `LinkdingApi.LoadConfig` | lib/linkding-api.ts:1-6 | configuration succeeds iff both variables are set and non-empty; otherwise the fixed error message |
| `LinkdingApi.Authorization` | lib/linkding-api.ts:8-11 | the header is "Token " followed by the token |
| `LinkdingApi.PageParams` | lib/linkding-api.ts:151-152 | limit/offset are written exactly when truthy (0 and absent are skipped), in decimal; no other key |
| `LinkdingApi.BookmarkParams` | lib/linkding-api.ts:57-59 | q only when non-empty; limit/offset only when truthy; no other key |
| `LinkdingApi.GetSkip` | lib/linkding-api.ts:57-59 | keys not written in front do not shadow the later ones |
| `LinkdingApi.Endpoint` | lib/linkding-api.ts:61 | the archived endpoint iff archived is true, else the plain one |
| `LinkdingApi.FetchBookmarks` | lib/linkding-api.ts:47-71 | success iff the server answers ok, with its body; a non-ok status or a rejected fetch becomes the matching error |
| `LinkdingApi.TagsRequest` | lib/linkding-api.ts:149-154 | the tags request goes to `/tags/` with no q and no archived |
| `LinkdingApi.FetchTags` | lib/linkding-api.ts:143-163 | success iff the server answers ok, with its body; a non-ok status becomes "Failed to fetch tags: " and the status text; a rejected fetch gives its own message |
| `LinkdingApi.BatchCount` | lib/linkding-api.ts:112-113 | the batch count is ⌈remaining/200⌉: the batches cover the remainder and one fewer would not |
| `LinkdingApi.All` | lib/linkding-api.ts:127-128 | `Promise.all` yields every reply in order iff all succeeded |
| `LinkdingApi.FetchAll` | lib/linkding-api.ts:73-142 | fails iff the first request fails, with its error; success returns a complete listing (count = length, no links) that starts with the first page |
| `LinkdingApi.FetchAllBookmarks` | lib/linkding-api.ts:73-142 | the method computes exactly `FetchAll` |
| `LinkdingApi.ReadRest` | lib/linkding-api.ts:87-142 | after the first page: the early returns, then the batches, exactly as `AfterFirst` describes |
| `LinkdingApi.FetchBatches` | lib/linkding-api.ts:111-135 | the batches queued, awaited together and appended give the first page assembled with `Promise.all` over the batch replies |
| `LinkdingApi.QueueBatches` | lib/linkding-api.ts:114-125 | request i asks limit 200 from offset 500 + 200·i, for every batch in order |
| `LinkdingApi.AwaitAll` | lib/linkding-api.ts:127-128 | awaiting the promises yields `Promise.all` of their replies: all pages in order, or nothing |
| `LinkdingApi.AppendResults` | lib/linkding-api.ts:130-132 | the results of the pages are appended in order after those already held |
| `LinkdingApi.FetchAllShortFirstPage` | lib/linkding-api.ts:87-95 | a first page shorter than 500 is the whole answer |
| `LinkdingApi.BatchPlanCovers` | lib/linkding-api.ts:111-125 | batch i asks offset 500 + 200·i with limit 200; the batches start before the expected total and reach it |
| `LinkdingApi.AllBatches` | lib/linkding-api.ts:127-128 | `Promise.all` over the batches gives every page when all succeed and nothing when any fails |
| `LinkdingApi.FetchAllFullFirstPage` | lib/linkding-api.ts:97-142 | with a full first page, the answer is that page assembled with `Promise.all` over the batches |
| `LinkdingApi.FetchAllBatchesSucceed` | lib/linkding-api.ts:127-132 | when all batches succeed, the first page then the batches in index order |
| `LinkdingApi.FetchAllBatchFails` | lib/linkding-api.ts:127-135 | when any batch fails, the first page alone and no error |
| `LinkdingApi.FlattenWindows` | lib/linkding-api.ts:130-132 | pages cut from one listing at the batch offsets concatenate to the matching slice of the listing |
| `LinkdingApi.FetchAllComplete` | lib/linkding-api.ts:73-142 | against a server that pages one listing consistently, the result is exactly that listing |
| `LinkdingApi.FetchAllCompleteBatched` | lib/linkding-api.ts:97-142 | the same when the listing holds 500 records or more |
| `LinkdingApi.ServedBatches` | lib/linkding-api.ts:116-125 | a consistent server answers batch i with the 200 records from offset 500 + 200·i |
| `LinkdingApi.NumberTruthy` | lib/linkding-api.ts:58-59 | no contract of its own; properties in `LinkdingApi.BookmarkParams` and `LinkdingApi.PageParams` |
| `LinkdingApi.BookmarksRequest` | lib/linkding-api.ts:55-64 | no contract of its own; properties in `LinkdingApi.FetchBookmarks` |
| `LinkdingApi.TagsFetcher` | lib/linkding-api.ts:143-163 | no contract of its own; properties in `LinkdingApi.FetchTags` |
| `LinkdingApi.Fetcher` | lib/linkding-api.ts:47-71 | no contract of its own; properties in `LinkdingApi.FetchBookmarks` |
| `LinkdingApi.FirstQuery` | lib/linkding-api.ts:80-85 | no contract of its own; properties in `LinkdingApi.FetchAll` and `LinkdingApi.FetchAllShortFirstPage` |
| `LinkdingApi.BatchQuery` | lib/linkding-api.ts:116-124 | no contract of its own; properties in `LinkdingApi.BatchPlanCovers` and `LinkdingApi.ServedBatches` |
| `LinkdingApi.TotalExpected` | lib/linkding-api.ts:99 | no contract of its own; properties in `LinkdingApi.FetchAllFullFirstPage` |
| `LinkdingApi.BatchReplies` | lib/linkding-api.ts:114-128 | no contract of its own; properties in `LinkdingApi.AllBatches` and `LinkdingApi.FetchBatches` |
| `LinkdingApi.PageOf` | lib/linkding-api.ts:127-132 | no contract of its own; properties in `LinkdingApi.AllBatches` |
| `LinkdingApi.BatchPages` | lib/linkding-api.ts:127-132 | no contract of its own; properties in `LinkdingApi.AllBatches` and `LinkdingApi.FetchAllBatchesSucceed` |
| `LinkdingApi.Flatten` | lib/linkding-api.ts:130-132 | no contract of its own; properties in `LinkdingApi.AppendResults` and `LinkdingApi.FlattenWindows` |
| `LinkdingApi.Complete` | lib/linkding-api.ts:89-94 | no contract of its own; properties in `LinkdingApi.FetchAll` and `LinkdingApi.FetchAllComplete` |
| `LinkdingApi.AfterFirst` | lib/linkding-api.ts:87-142 | no contract of its own; properties in `LinkdingApi.ReadRest`, `LinkdingApi.FetchAllShortFirstPage` and `LinkdingApi.FetchAllFullFirstPage` |
| `LinkdingApi.Assemble` | lib/linkding-api.ts:127-135 | no contract of its own; properties in `LinkdingApi.FetchBatches`, `LinkdingApi.FetchAllBatchesSucceed` and `LinkdingApi.FetchAllBatchFails` |
| `LinkdingApi.Min` | lib/linkding-api.ts:116-124 | no contract of its own; properties in `LinkdingApi.FlattenWindows` |
| `LinkdingApi.Window` | lib/linkding-api.ts:116-124 | no contract of its own; properties in `LinkdingApi.ServedBatches` and `LinkdingApi.FlattenWindows` |
| `LinkdingApi.Serves` | lib/linkding-api.ts:47-71 | no contract of its own; the server assumption of `LinkdingApi.FetchAllComplete` and `LinkdingApi.FetchAllCompleteBatched` |
| `StableSort.InsertPermutes` | app/api/bookmarks/route.ts:32-34 | insertion adds the one element to the multiset |
| `StableSort.SortPermutes` | app/api/bookmarks/route.ts:32-34 | sorting is a permutation |
| `StableSort.InsertSorted` | app/api/bookmarks/route.ts:32-34 | insertion keeps a sequence sorted |
| `StableSort.SortSorted` | app/api/bookmarks/route.ts:32-34 | the sort's output is sorted under a strict weak order |
| `StableSort.InsertPeers` | app/api/bookmarks/route.ts:32-34 | insertion places the new element after its tied peers |
| `StableSort.SortStable` | app/api/bookmarks/route.ts:32-34 | tied elements keep their relative order |
| `StableSort.InsertUnfold` | app/api/bookmarks/route.ts:32-34 | one shifting step of the in-place insertion, stated on the functional `Insert` |
| `StableSort.InsertStep` | app/api/bookmarks/route.ts:32-34 | the shifting step preserved over the whole array |
| `StableSort.InsertStop` | app/api/bookmarks/route.ts:32-34 | the insertion stops where the new element is no longer before its left neighbour |
| `StableSort.InsertInPlace` | app/api/bookmarks/route.ts:32-34 | the in-place insertion of a[i] leaves `Insert` of a[i] into a[..i] in a[..i+1] and the rest untouched |
| `StableSort.SortInPlace` | app/api/bookmarks/route.ts:32-34 | the in-place sort leaves exactly the functional `Sort` of the old contents in the array |
| `StableSort.StrictWeakOrder` | app/api/bookmarks/route.ts:32-34 | no contract of its own; properties in `BookmarksRoute.NewerIsStrictWeakOrder` and `TagCounts.RankByIsStrictWeakOrder` |
| `StableSort.Tied` | app/api/bookmarks/route.ts:32-34 | no contract of its own; properties in `StableSort.InsertPeers` |
| `StableSort.Sorted` | app/api/bookmarks/route.ts:32-34 | no contract of its own; properties in `StableSort.SortSorted` |
| `StableSort.Peers` | app/api/bookmarks/route.ts:32-34 | no contract of its own; properties in `StableSort.SortStable` |
| `StableSort.Insert` | app/api/bookmarks/route.ts:32-34 | no contract of its own; properties in `StableSort.InsertPermutes`, `StableSort.InsertSorted` and `StableSort.InsertPeers` |
| `StableSort.Sort` | app/api/bookmarks/route.ts:32-34 | no contract of its own; properties in `StableSort.SortPermutes`, `StableSort.SortSorted`, `StableSort.SortStable` and `StableSort.SortInPlace` |
| `BookmarksRoute.ToBookmark` | app/api/bookmarks/route.ts:25-29 | the favicon and preview are null; every other field is copied |
| `BookmarksRoute.Transform` | app/api/bookmarks/route.ts:25-29 | one bookmark per upstream record, in order, each a copy with null favicon and preview |
| `BookmarksRoute.NewerIsStrictWeakOrder` | app/api/bookmarks/route.ts:32-34 | the newest-first comparator is a strict weak order |
| `BookmarksRoute.BuildResponseProperties` | app/api/bookmarks/route.ts:25-41 | the response is a permutation of the records, newest first, stable among equal dates; count = length, no links |
| `BookmarksRoute.HitIgnoresUpstream` | app/api/bookmarks/route.ts:12-19 | a fresh cache answers with its stored data, whatever upstream would say |
| `BookmarksRoute.MissStoresResponse` | app/api/bookmarks/route.ts:21-54 | on a miss the listing is fetched, transformed, sorted, answered and stored stamped `later` |
| `BookmarksRoute.FailureKeepsCache` | app/api/bookmarks/route.ts:55-58 | a failed fetch answers 500 "Failed to fetch bookmarks" and leaves the cache alone |
| `BookmarksRoute.StoredResponseServed` | app/api/bookmarks/route.ts:6-47 | a request within two minutes of the store gets the same response from the cache |
| `BookmarksRoute.Route.constructor` | app/api/bookmarks/route.ts:6 | the cache starts empty |
| `BookmarksRoute.Route.Get` | app/api/bookmarks/route.ts:9-59 | the handler's reply and new cache are those of `Serve` |
| `BookmarksRoute.Upstream` | app/api/bookmarks/route.ts:25-29 | no contract of its own; properties in `BookmarksRoute.ToBookmark` and `BookmarksRoute.Transform` |
| `BookmarksRoute.Newer` | app/api/bookmarks/route.ts:32-34 | no contract of its own; properties in `BookmarksRoute.NewerIsStrictWeakOrder` and `BookmarksRoute.BuildResponseProperties` |
| `BookmarksRoute.BuildResponse` | app/api/bookmarks/route.ts:25-41 | no contract of its own; properties in `BookmarksRoute.BuildResponseProperties` |
| `BookmarksRoute.Fresh` | app/api/bookmarks/route.ts:12 | no contract of its own; properties in `BookmarksRoute.HitIgnoresUpstream` and `BookmarksRoute.MissStoresResponse` |
| `BookmarksRoute.Serve` | app/api/bookmarks/route.ts:6-58 | no contract of its own; properties in `BookmarksRoute.HitIgnoresUpstream`, `BookmarksRoute.MissStoresResponse`, `BookmarksRoute.FailureKeepsCache` and `BookmarksRoute.StoredResponseServed` |
| `TagsRoute.UsedTags` | app/api/tags/route.ts:31 | keeps exactly the tags that have a count |
| `TagsRoute.UsedTagsAppend` | app/api/tags/route.ts:31 | the filter distributes over concatenation |
| `TagsRoute.Paginate` | app/api/tags/route.ts:42-55 | count = total; the results are the slice at offset of length limit; `next` iff more remain, at offset+limit; `previous` iff offset > 0, at max(0, offset−limit) |
| `TagsRoute.RankedMembers` | app/api/tags/route.ts:23-39 | the ranking holds exactly the tags some bookmark carries, each as often as loaded |
| `TagsRoute.RankedOrder` | app/api/tags/route.ts:34-39 | higher counts first; equal counts by name |
| `TagsRoute.RankedStable` | app/api/tags/route.ts:34-39 | tags tied on count and name keep their upstream order |
| `TagsRoute.FailureIs500` | app/api/tags/route.ts:58-61 | either upstream failure answers 500 "Failed to fetch tags" |
| `TagsRoute.Get` | app/api/tags/route.ts:8-61 | the handler computes `Respond` |
| `TagsRoute.UpstreamTagNames` | app/api/tags/route.ts:24-28 | no contract of its own; properties in `TagsRoute.RankedMembers` |
| `TagsRoute.Max` | app/api/tags/route.ts:52 | no contract of its own; properties in `TagsRoute.Paginate` |
| `TagsRoute.Min` | app/api/tags/route.ts:42 | no contract of its own; properties in `TagsRoute.Paginate` |
| `TagsRoute.Slice` | app/api/tags/route.ts:42 | the slice has `min(end, length) - start` elements (none when `start` is past the end), and element i is element `start + i` of the input |
| `TagsRoute.PageLink` | app/api/tags/route.ts:48-53 | no contract of its own; properties in `TagsRoute.Paginate` and `TagsHook.NextLinkIsLoadMoreOffset` |
| `TagsRoute.Ranked` | app/api/tags/route.ts:23-39 | no contract of its own; properties in `TagsRoute.RankedMembers`, `TagsRoute.RankedOrder` and `TagsRoute.RankedStable` |
| `TagsRoute.Respond` | app/api/tags/route.ts:8-61 | no contract of its own; properties in `TagsRoute.FailureIs500` and `TagsRoute.Get` |
| `TagCounts.TallyStep` | hooks/use-tag-counts.ts:12-16 | one more occurrence raises that name's count by one |
| `TagCounts.TallyMeaning` | hooks/use-tag-counts.ts:12-16 | a name has a count iff it occurs, and the count is its number of occurrences |
| `TagCounts.TallyCountOf` | hooks/use-tag-counts.ts:12-16 | the count (missing = 0) equals the number of occurrences |
| `TagCounts.CountOccurrences` | hooks/use-tag-counts.ts:12-16 | the nested loops compute exactly the tally |
| `TagCounts.CountNames` | hooks/use-tag-counts.ts:13-15 | the inner loop adds one bookmark's names to the tally |
| `TagCounts.AllTagNamesStep` | hooks/use-tag-counts.ts:12-16 | one more bookmark appends its tag names to the occurrences |
| `TagCounts.AllTagNamesSnoc` | hooks/use-tag-counts.ts:12-16 | the occurrences of a list with one more bookmark end with its tag names |
| `TagCounts.TagCountsHook.constructor` | hooks/use-tag-counts.ts:7 | the counts start empty |
| `TagCounts.TagCountsHook.Recompute` | hooks/use-tag-counts.ts:9-19 | the effect replaces the counts with the tally of the bookmarks' tags |
| `TagCounts.AllTagNamesAppend` | hooks/use-tag-counts.ts:12-16 | the occurrences of two lists concatenate |
| `TagCounts.CountsEveryOccurrence` | hooks/use-tag-counts.ts:12-16 | a tag's count is its occurrences across all bookmarks; it is counted iff some bookmark carries it |
| `TagCounts.InAllTagNames` | hooks/use-tag-counts.ts:12-16 | a name occurs iff some bookmark carries it |
| `TagCounts.FirstAppearances` | app/page.tsx:209 | the keys in insertion order: each occurring name once |
| `TagCounts.SumOverBump` | hooks/use-tag-counts.ts:12-16 | bumping one count raises the sum over distinct keys by one iff the key is among them |
| `TagCounts.TallySum` | hooks/use-tag-counts.ts:12-16 | the counts add up to the number of occurrences |
| `TagCounts.CountsSumToOccurrences` | hooks/use-tag-counts.ts:9-19 | the counts over all tags add up to the total number of tag occurrences |
| `TagCounts.MultisetRemoveAt` | hooks/use-tag-counts.ts:12 | removing one bookmark removes one element from the multiset |
| `TagCounts.TagsRemoveAt` | hooks/use-tag-counts.ts:12-16 | removing one bookmark removes exactly its tags from the occurrences |
| `TagCounts.TagsRemoveMiddle` | hooks/use-tag-counts.ts:12-16 | the same for a bookmark between two parts of the list |
| `TagCounts.AllTagNamesPermutation` | hooks/use-tag-counts.ts:12-16 | reordering the bookmarks permutes the occurrences |
| `TagCounts.TallyPermutation` | hooks/use-tag-counts.ts:9-19 | the counts do not depend on the bookmarks' order |
| `TagCounts.RanksBeforeOrder` | components/tags-panel.tsx:37-42 | the count-then-name ranking is irreflexive, transitive and total on distinct names |
| `TagCounts.RankByIsStrictWeakOrder` | components/tags-panel.tsx:37-42 | the comparator is a strict weak order, so the stable sort is well defined |
| `TagCounts.AllTagNames` | hooks/use-tag-counts.ts:12-16 | no contract of its own; properties in `TagCounts.AllTagNamesAppend` and `TagCounts.AllTagNamesPermutation` |
| `TagCounts.BookmarkTags` | hooks/use-tag-counts.ts:13 | no contract of its own; properties in `TagCounts.TagCountsHook.Recompute` |
| `TagCounts.Tally` | hooks/use-tag-counts.ts:12-16 | no contract of its own; properties in `TagCounts.TallyMeaning`, `TagCounts.TallyCountOf` and `TagCounts.TallyPermutation` |
| `TagCounts.CountOf` | hooks/use-tag-counts.ts:14 | no contract of its own; properties in `TagCounts.TallyCountOf` |
| `TagCounts.SumOver` | hooks/use-tag-counts.ts:12-16 | no contract of its own; properties in `TagCounts.TallySum` and `TagCounts.CountsSumToOccurrences` |
| `TagCounts.RanksBefore` | components/tags-panel.tsx:37-42 | no contract of its own; properties in `TagCounts.RanksBeforeOrder` |
| `TagCounts.RankBy` | components/tags-panel.tsx:37-42 | no contract of its own; properties in `TagCounts.RankByIsStrictWeakOrder` |
| `TagCounts.TagName` | components/tags-panel.tsx:38-41 | no contract of its own; properties in `TagsPanel.SortedTagsStable` |
| `UrlSync.UrlFor` | hooks/use-url-sync.ts:52-58 | `/` exactly when every combined criterion is at its default; otherwise `?` and the built parameters |
| `UrlSync.InitialiseOnce` | hooks/use-url-sync.ts:39-46 | the first run reads the criteria and query from the address and becomes ready; it never runs again |
| `UrlSync.UpdateFiltersMerges` | hooks/use-url-sync.ts:71-86 | the patch is merged over the filters ref; page resets to 1 unless named; the query is untouched; one URL written from the query ref |
| `UrlSync.UpdateSearchQueryKeepsFilters` | hooks/use-url-sync.ts:88-98 | the query is set; the filters are the ref with page 1; one URL written with the new query |
| `UrlSync.UrlCarriesQuery` | hooks/use-url-sync.ts:52-58 | the written URL carries q iff the query is non-empty, and never a page |
| `UrlSync.ReloadReadsBack` | hooks/use-url-sync.ts:39-69 | reloading a written address gives back the normalised criteria and the same query |
| `UrlSync.UrlSyncHook.constructor` | hooks/use-url-sync.ts:19-28 | not ready, empty query, sort "new" and page 1, refs equal to the state |
| `UrlSync.UrlSyncHook.RunInitialiseEffect` | hooks/use-url-sync.ts:39-46 | the effect's new state is `Initialise` of the old |
| `UrlSync.UrlSyncHook.RunRefEffects` | hooks/use-url-sync.ts:30-37 | the refs catch up with the state |
| `UrlSync.UrlSyncHook.TimerFires` | hooks/use-url-sync.ts:64-66 | the updating flag is cleared |
| `UrlSync.UrlSyncHook.UpdateUrl` | hooks/use-url-sync.ts:48-69 | the flag is set and the URL for the combined criteria is written |
| `UrlSync.UrlSyncHook.UpdateFilters` | hooks/use-url-sync.ts:71-86 | the new state is `FiltersUpdated` of the old |
| `UrlSync.UrlSyncHook.UpdateSearchQuery` | hooks/use-url-sync.ts:88-98 | the new state is `QueryUpdated` of the old |
| `UrlSync.Initial` | hooks/use-url-sync.ts:19-28 | no contract of its own; properties in `UrlSync.ReloadReadsBack` |
| `UrlSync.Initialise` | hooks/use-url-sync.ts:39-46 | no contract of its own; properties in `UrlSync.InitialiseOnce` and `UrlSync.ReloadReadsBack` |
| `UrlSync.CommitRefs` | hooks/use-url-sync.ts:30-37 | no contract of its own; properties in `UrlSync.InitialiseOnce` and `UrlSync.UrlSyncHook.RunRefEffects` |
| `UrlSync.TimerElapsed` | hooks/use-url-sync.ts:64-66 | no contract of its own; properties in `UrlSync.UrlSyncHook.TimerFires` |
| `UrlSync.Combined` | hooks/use-url-sync.ts:52-55 | no contract of its own; properties in `UrlSync.UrlCarriesQuery` and `UrlSync.ReloadReadsBack` |
| `UrlSync.WriteUrl` | hooks/use-url-sync.ts:48-69 | no contract of its own; properties in `UrlSync.ReloadReadsBack` and `UrlSync.UrlSyncHook.UpdateUrl` |
| `UrlSync.ResetPage` | hooks/use-url-sync.ts:77-80 | no contract of its own; properties in `UrlSync.UpdateFiltersMerges` |
| `UrlSync.FiltersUpdated` | hooks/use-url-sync.ts:71-86 | no contract of its own; properties in `UrlSync.UpdateFiltersMerges` and `Page.LoadMoreKeepsPage` |
| `UrlSync.QueryUpdated` | hooks/use-url-sync.ts:88-98 | no contract of its own; properties in `UrlSync.UpdateSearchQueryKeepsFilters` |
| `UrlSync.UrlSyncHook.State` | hooks/use-url-sync.ts:19-28 | no contract of its own; the snapshot every method of `UrlSync.UrlSyncHook` is specified by |
| `BookmarksHook.RequestIgnoresPage` | hooks/use-bookmarks.ts:35-36 | the page never reaches the query string: every page sends the same request |
| `BookmarksHook.DisabledIsInert` | hooks/use-bookmarks.ts:27 | when disabled, fetch, load more and refresh change nothing |
| `BookmarksHook.SuccessfulFetch` | hooks/use-bookmarks.ts:44-52 | results replace or follow the old ones; total = count or 0; hasMore = `!!next`; page recorded; not loading; no error |
| `BookmarksHook.FailedFetch` | hooks/use-bookmarks.ts:38-57 | the list, total, hasMore and page are kept; the error is "Failed to fetch bookmarks" or the thrown message or "An error occurred"; not loading |
| `BookmarksHook.LoadMoreGuard` | hooks/use-bookmarks.ts:69-79 | load more acts only when idle, with more to come and enabled; refresh restarts at page 1 |
| `BookmarksHook.RouteListingIsFinal` | hooks/use-bookmarks.ts:44-52 | after a fetch from the route the list is its whole listing, total = length, and load more never fires |
| `BookmarksHook.BookmarksHook.constructor` | hooks/use-bookmarks.ts:18-23 | no bookmarks, loading, no error, total 0, nothing more, page 1 |
| `BookmarksHook.BookmarksHook.StartFetch` | hooks/use-bookmarks.ts:25-36 | nothing when disabled; else the flags are set and the query for the filters with the page is sent |
| `BookmarksHook.BookmarksHook.FinishFetch` | hooks/use-bookmarks.ts:38-57 | the new state is `Settle` of the old |
| `BookmarksHook.BookmarksHook.LoadMore` | hooks/use-bookmarks.ts:69-73 | a request is sent iff load more is allowed, for page + 1 |
| `BookmarksHook.BookmarksHook.Reset` | hooks/use-bookmarks.ts:62-79 | when enabled, page 1 is requested, replacing |
| `BookmarksHook.RequestParams` | hooks/use-bookmarks.ts:35-36 | no contract of its own; properties in `BookmarksHook.RequestIgnoresPage` |
| `BookmarksHook.Begin` | hooks/use-bookmarks.ts:25-33 | no contract of its own; properties in `BookmarksHook.DisabledIsInert` and `BookmarksHook.BookmarksHook.StartFetch` |
| `BookmarksHook.Settle` | hooks/use-bookmarks.ts:38-57 | no contract of its own; properties in `BookmarksHook.SuccessfulFetch` and `BookmarksHook.FailedFetch` |
| `BookmarksHook.Fetched` | hooks/use-bookmarks.ts:25-60 | no contract of its own; properties in `BookmarksHook.SuccessfulFetch` and `BookmarksHook.FailedFetch` |
| `BookmarksHook.CanLoadMore` | hooks/use-bookmarks.ts:70 | no contract of its own; properties in `BookmarksHook.LoadMoreGuard` |
| `BookmarksHook.LoadMoreStarted` | hooks/use-bookmarks.ts:69-73 | no contract of its own; properties in `BookmarksHook.LoadMoreGuard` |
| `BookmarksHook.ResetStarted` | hooks/use-bookmarks.ts:62-79 | no contract of its own; properties in `BookmarksHook.DisabledIsInert` and `BookmarksHook.LoadMoreGuard` |
| `BookmarksHook.BookmarksHook.State` | hooks/use-bookmarks.ts:18-23 | no contract of its own; the snapshot every method of `BookmarksHook.BookmarksHook` is specified by |
| `TagsHook.Request` | hooks/use-tags.ts:30 | every request asks limit 100 at the given offset |
| `TagsHook.FilterMatches` | hooks/use-tags.ts:73 | keeps exactly the tags whose lower-cased name contains the lower-cased query |
| `TagsHook.SuccessfulFetch` | hooks/use-tags.ts:38-45 | results replace or follow the old ones; hasMore = `!!next`; offset recorded; not loading; no error |
| `TagsHook.FailedFetch` | hooks/use-tags.ts:32-50 | tags, hasMore and offset kept; the error is "Failed to fetch tags" or the thrown message or "An error occurred"; not loading |
| `TagsHook.LoadMoreGuard` | hooks/use-tags.ts:58-67 | load more acts only when idle with more to come; refresh reloads from 0 |
| `TagsHook.PageSlice` | hooks/use-tags.ts:30-45 | a page from the route is the ranking's slice at the offset; `next` iff tags remain |
| `TagsHook.FirstPageIsPrefix` | hooks/use-tags.ts:54-56 | the initial fetch loads the first 100 ranked tags |
| `TagsHook.LoadMoreExtendsPrefix` | hooks/use-tags.ts:58-62 | each load more extends the loaded prefix of the ranking by the next 100 |
| `TagsHook.NextLinkIsLoadMoreOffset` | hooks/use-tags.ts:60 | the route's `next` link names the offset load more asks for |
| `TagsHook.SearchMembers` | hooks/use-tags.ts:69-76 | a blank query returns the tags unchanged; otherwise exactly the matching ones |
| `TagsHook.FilterMatchesAppend` | hooks/use-tags.ts:73 | the filter distributes over concatenation |
| `TagsHook.LowerIdempotent` | hooks/use-tags.ts:72 | lower-casing twice is lower-casing once |
| `TagsHook.SearchIgnoresCase` | hooks/use-tags.ts:69-76 | searching for the lower-cased query gives the same tags |
| `TagsHook.FilterSameQuery` | hooks/use-tags.ts:72-73 | queries equal up to case filter alike |
| `TagsHook.TagsHook.constructor` | hooks/use-tags.ts:17-21 | no tags, loading, no error, nothing more, offset 0 |
| `TagsHook.TagsHook.StartFetch` | hooks/use-tags.ts:23-30 | flags set; the request for the offset is sent |
| `TagsHook.TagsHook.FinishFetch` | hooks/use-tags.ts:32-50 | the new state is `Settle` of the old |
| `TagsHook.TagsHook.LoadMore` | hooks/use-tags.ts:58-62 | a request is sent iff load more is allowed, for offset + 100 |
| `TagsHook.TagsHook.Refresh` | hooks/use-tags.ts:64-67 | offset 0 is requested, replacing |
| `TagsHook.Begin` | hooks/use-tags.ts:23-28 | no contract of its own; properties in `TagsHook.TagsHook.StartFetch` |
| `TagsHook.Settle` | hooks/use-tags.ts:32-50 | no contract of its own; properties in `TagsHook.SuccessfulFetch` and `TagsHook.FailedFetch` |
| `TagsHook.Fetched` | hooks/use-tags.ts:23-51 | no contract of its own; properties in `TagsHook.SuccessfulFetch`, `TagsHook.FailedFetch` and `TagsHook.FirstPageIsPrefix` |
| `TagsHook.CanLoadMore` | hooks/use-tags.ts:59 | no contract of its own; properties in `TagsHook.LoadMoreGuard` |
| `TagsHook.LoadMoreStarted` | hooks/use-tags.ts:58-62 | no contract of its own; properties in `TagsHook.LoadMoreGuard` and `TagsHook.LoadMoreExtendsPrefix` |
| `TagsHook.RefreshStarted` | hooks/use-tags.ts:64-67 | no contract of its own; properties in `TagsHook.LoadMoreGuard` |
| `TagsHook.Matches` | hooks/use-tags.ts:73 | no contract of its own; properties in `TagsHook.FilterMatches` and `TagsHook.SearchIgnoresCase` |
| `TagsHook.SearchTags` | hooks/use-tags.ts:69-76 | no contract of its own; properties in `TagsHook.SearchMembers` and `TagsHook.SearchIgnoresCase` |
| `TagsHook.TagsHook.State` | hooks/use-tags.ts:17-21 | no contract of its own; the snapshot every method of `TagsHook.TagsHook` is specified by |
| `FiltersMenu.TogglePatch` | components/filters-menu.tsx:33-35 | only the toggled flag is named: `true` when ticked, `undefined` (never `false`) when unticked |
| `FiltersMenu.SortPatch` | components/filters-menu.tsx:37-39 | only the sort is named |
| `FiltersMenu.ClearAllPatch` | components/filters-menu.tsx:41-48 | the three flags become `undefined` and the sort "new"; q, tags and page are not named |
| `FiltersMenu.MarkedEntries` | components/filters-menu.tsx:106 | the marked entries are exactly those whose value is the current sort |
| `FiltersMenu.Marked` | components/filters-menu.tsx:99-108 | the marked entries from a position on |
| `FiltersMenu.SortOptionsAreSortModes` | components/filters-menu.tsx:24-29 | the menu offers the four sort modes in order |
| `FiltersMenu.ToggleReadsBack` | components/filters-menu.tsx:77-94 | after a toggle the box shows the chosen value, the flag is never stored as false, nothing else changes |
| `FiltersMenu.SortChoiceMarksOne` | components/filters-menu.tsx:99-108 | choosing an entry marks exactly that entry |
| `FiltersMenu.MarkedIffValid` | components/filters-menu.tsx:106 | a known sort marks one entry; an unknown one marks none |
| `FiltersMenu.ClearAllResets` | components/filters-menu.tsx:41-48 | no box ticked, "Newest first" marked, q and tags kept |
| `FiltersMenu.FlagOf` | components/filters-menu.tsx:77-94 | no contract of its own; properties in `FiltersMenu.ToggleReadsBack` |
| `FiltersMenu.FlagField` | components/filters-menu.tsx:33-35 | no contract of its own; properties in `FiltersMenu.TogglePatch` and `FiltersMenu.ClearAllPatch` |
| `FiltersMenu.IsChecked` | components/filters-menu.tsx:78-90 | no contract of its own; properties in `FiltersMenu.ToggleReadsBack` and `FiltersMenu.ClearAllResets` |
| `FiltersMenu.IsMarked` | components/filters-menu.tsx:106 | no contract of its own; properties in `FiltersMenu.Marked` and `FiltersMenu.SortChoiceMarksOne` |
| `Page.Slots` | app/page.tsx:40-49 | every bookmark lands in at least one group |
| `Page.Repeat` | app/page.tsx:46-49 | a bookmark repeated n times |
| `Page.GroupBookmarks` | app/page.tsx:34-54 | the loop yields the group keys in insertion order and exactly the specified groups |
| `Page.AddToGroup` | app/page.tsx:42-43 | a missing key is created at the end; the bookmark is pushed on that group |
| `Page.AddToGroups` | app/page.tsx:46-49 | the bookmark is pushed once per tag name; new keys appear in first-seen order |
| `Page.GroupStep` | app/page.tsx:39-51 | one more bookmark adds its slots and pushes it on each |
| `Page.UntaggedStep` | app/page.tsx:40-43 | an untagged bookmark goes under the untagged key, created last if new |
| `Page.TaggedStep` | app/page.tsx:44-50 | a tagged bookmark goes under each of its tag names, in order |
| `Page.AddToGroupsStep` | app/page.tsx:46-49 | pushing under one more tag name keeps the keys and the groups in step |
| `Page.FirstAppearancesSnoc` | app/page.tsx:42 | a new key goes last; an old key does not move |
| `Page.PushAllSnoc` | app/page.tsx:46-49 | pushing on one more key |
| `Page.RepeatSnoc` | app/page.tsx:48 | one more copy |
| `Page.PushAllMeaning` | app/page.tsx:46-49 | after pushing on a list of keys, each group gains the bookmark once per occurrence of its key |
| `Page.PushAllEntryStep` | app/page.tsx:46-49 | pushing on one more key adds the bookmark to that key's group only |
| `Page.GroupedMeaning` | app/page.tsx:34-54 | a group exists iff some bookmark lands in it; each group holds, in order, the bookmarks carrying its key |
| `Page.MembersAppend` | app/page.tsx:39-51 | group membership distributes over concatenation |
| `Page.MembersCarryKey` | app/page.tsx:39-51 | every member carries the key; the group size is the key's occurrences |
| `Page.FanOutUntagged` | app/page.tsx:40-43 | no bookmarks, no groups; an untagged bookmark lands only in "Untagged" |
| `Page.FanOutTagged` | app/page.tsx:45-49 | a tagged bookmark lands in each of its tags' groups, once per occurrence |
| `Page.SlotsCountEntries` | app/page.tsx:39-51 | the slots number Σ max(1, tags) |
| `Page.TotalSizeCounts` | app/page.tsx:209 | the group sizes add up to the sum of the counts |
| `Page.GroupsTotal` | app/page.tsx:34-54 | the groups hold Σ max(1, tags) entries in all |
| `Page.RemoveAll` | app/page.tsx:59 | the tag is gone; every other tag keeps its multiplicity |
| `Page.RemoveAllAppend` | app/page.tsx:67 | removal distributes over concatenation |
| `Page.RemoveAllAbsent` | app/page.tsx:67 | removing an absent tag changes nothing |
| `Page.TagRemovePatch` | app/page.tsx:65-71 | only tags is named; the new list, when present, is non-empty and lacks the tag |
| `Page.TagRemoveEmptied` | app/page.tsx:68 | tags becomes `undefined` iff every selected tag was this one |
| `Page.TagClickToggles` | app/page.tsx:56-63 | a selected tag is removed (others kept); an unselected one is appended |
| `Page.TagClickTwice` | app/page.tsx:56-63 | clicking an unselected tag twice restores the selection |
| `Page.TagRemoveKeepsOrder` | app/page.tsx:67 | removal keeps the remaining tags in order |
| `Page.ActiveFiltersCount` | app/page.tsx:95-102 | the counter equals one per true flag plus the number of tags |
| `Page.NoActiveFilters` | app/page.tsx:104 | nothing is active iff no flag is true, no tag is selected and the query is empty |
| `Page.ToggleCounts` | app/page.tsx:95-102 | ticking a box adds one active filter unless already ticked; unticking removes one |
| `Page.TagClickCounts` | app/page.tsx:56-63 | clicking an unselected tag adds one active filter |
| `Page.LoadMoreKeepsPage` | app/page.tsx:88-92 | load more names page (page or 1) + 1, so the page is not reset |
| `Page.ClearFiltersKeepsQueryInUrl` | app/page.tsx:77-86 | as written, for any non-empty query ref: the query state is cleared, but the address keeps the old q and a reload brings it back |
| `Page.ClearFiltersClearsAll` | app/page.tsx:77-86 | corrected: the address becomes `/`, nothing is active, sort "new", page 1 |
| `Page.EmptyStateChoice` | app/page.tsx:197-205 | the empty state shows iff idle with no bookmarks; "no bookmarks" iff the total is 0 and no filter is active |
| `Page.AllSlots` | app/page.tsx:39-51 | no contract of its own; properties in `Page.GroupedMeaning` and `Page.SlotsCountEntries` |
| `Page.Entry` | app/page.tsx:42-48 | no contract of its own; properties in `Page.PushAllMeaning` and `Page.GroupedMeaning` |
| `Page.Push` | app/page.tsx:42-43 | no contract of its own; properties in `Page.AddToGroup` |
| `Page.PushAll` | app/page.tsx:46-49 | no contract of its own; properties in `Page.AddToGroups` and `Page.PushAllMeaning` |
| `Page.Grouped` | app/page.tsx:34-54 | no contract of its own; properties in `Page.GroupBookmarks`, `Page.GroupedMeaning` and `Page.GroupsTotal` |
| `Page.GroupOrder` | app/page.tsx:209 | no contract of its own; properties in `Page.GroupBookmarks` and `Page.GroupsTotal` |
| `Page.Members` | app/page.tsx:39-51 | no contract of its own; properties in `Page.GroupedMeaning`, `Page.MembersAppend` and `Page.MembersCarryKey` |
| `Page.Entries` | app/page.tsx:39-51 | no contract of its own; properties in `Page.SlotsCountEntries` and `Page.GroupsTotal` |
| `Page.TotalSize` | app/page.tsx:209-214 | no contract of its own; properties in `Page.TotalSizeCounts` and `Page.GroupsTotal` |
| `Page.ToggledTags` | app/page.tsx:58-59 | no contract of its own; properties in `Page.TagClickToggles` and `Page.TagClickTwice` |
| `Page.TagClickPatch` | app/page.tsx:56-63 | no contract of its own; properties in `Page.TagClickToggles` and `Page.TagClickCounts` |
| `Page.ClearFiltersAsWritten` | app/page.tsx:77-86 | no contract of its own; properties in `Page.ClearFiltersKeepsQueryInUrl` |
| `Page.ClearFilters` | app/page.tsx:77-86 | no contract of its own; properties in `Page.ClearFiltersClearsAll` |
| `Page.NextPage` | app/page.tsx:89 | no contract of its own; properties in `Page.LoadMoreKeepsPage` |
| `Page.LoadMorePatch` | app/page.tsx:88-92 | no contract of its own; properties in `Page.LoadMoreKeepsPage` |
| `Page.Indicator` | app/page.tsx:97-99 | no contract of its own; properties in `Page.ToggleCounts` |
| `Page.ActiveCount` | app/page.tsx:95-102 | no contract of its own; properties in `Page.ActiveFiltersCount`, `Page.ToggleCounts` and `Page.TagClickCounts` |
| `Page.HasActiveFilters` | app/page.tsx:104 | no contract of its own; properties in `Page.NoActiveFilters` and `Page.ClearFiltersClearsAll` |
| `Page.ContentFor` | app/page.tsx:106-205 | no contract of its own; properties in `Page.EmptyStateChoice` |
| `TagsPanel.SortCopy` | components/tags-panel.tsx:36-43 | sorting a copy in place gives the specified ranking |
| `TagsPanel.SortedTagsPermutes` | components/tags-panel.tsx:36-43 | the ranking lists the same tags as the search result |
| `TagsPanel.SortedTagsOrder` | components/tags-panel.tsx:37-42 | higher counts first (missing = 0); equal counts by name |
| `TagsPanel.SortedTagsStable` | components/tags-panel.tsx:37-42 | tags tied on count and name keep their loaded order |
| `TagsPanel.PanelIgnoresBookmarkOrder` | components/tags-panel.tsx:28-43 | the panel does not depend on the order of the page's bookmarks |
| `TagsPanel.ClearAllTags` | components/tags-panel.tsx:49-51 | the loop applies one removal per selected tag, in order |
| `TagsPanel.RemoveEachKeepsRef` | hooks/use-url-sync.ts:30-33 | the removals do not move the filters ref |
| `TagsPanel.ClearAllTagsKeepsAllButLast` | components/tags-panel.tsx:49-51 | as written, for any non-empty selection: only the last tag is removed, so the selection ends as the others (or absent when none remain) |
| `TagsPanel.ClearAllTagsClears` | app/page.tsx:73-75 | corrected: no tag stays selected or in the address; the other filters are kept |
| `TagsPanel.SortedTags` | components/tags-panel.tsx:36-43 | no contract of its own; properties in `TagsPanel.SortedTagsPermutes`, `TagsPanel.SortedTagsOrder` and `TagsPanel.SortedTagsStable` |
| `TagsPanel.PanelTags` | components/tags-panel.tsx:28-43 | no contract of its own; properties in `TagsPanel.PanelIgnoresBookmarkOrder` |
| `TagsPanel.RemoveEach` | components/tags-panel.tsx:49-51 | no contract of its own; properties in `TagsPanel.ClearAllTags` and `TagsPanel.ClearAllTagsKeepsAllButLast` |
| `TagsPanel.ClearAllTagsKeepsA` | components/tags-panel.tsx:49-51 | as written: with "a" and "b" selected, clearing all leaves "a" selected |
| `TagsPanel.ClearAllTagsCorrected` | app/page.tsx:73-75 | no contract of its own; properties in `TagsPanel.ClearAllTagsClears` |
| `Text.Split` | lib/query-state.ts:8 | at least one piece; no piece contains the separator |
| `Text.NonEmpty` | lib/query-state.ts:8 | a piece is kept exactly when it is a non-empty input piece, and the result is no longer than the input |
| `Text.NonEmptyAppend` | lib/query-state.ts:8 | the pieces kept from a concatenation are those kept from each part, in order |
| `Text.NonEmptyOne` | lib/query-state.ts:8 | a single piece is kept exactly when it is non-empty (with `Text.NonEmptyAppend`, this fixes the result on every input) |
| `Text.SplitNoSep` | lib/query-state.ts:8 | a string without the separator splits to itself |
| `Text.SplitPrefix` | lib/query-state.ts:8 | splitting distributes over the first separator |
| `Text.SplitJoin` | lib/query-state.ts:8-20 | split inverts join on separator-free pieces |
| `Text.NonEmptyKeepsAll` | lib/query-state.ts:8 | filtering non-empty pieces keeps them all |
| `Text.Lower` | hooks/use-tags.ts:72-73 | same length; each character lower-cased |
| `Text.NatToString` | lib/linkding-api.ts:58-59 | the decimal text is non-empty, all digits, with no leading zero; it reads back as the number (`Text.NatToStringValue`) |
| `Text.IntToString` | app/api/tags/route.ts:49-52 | the text is non-empty; it starts with "-" exactly for a negative number, and every other character is a digit; it reads back as the number (`Text.IntToStringValue`) |
| `Text.NameLessIrreflexive` | components/tags-panel.tsx:41 | no name comes before itself |
| `Text.NameLessTransitive` | components/tags-panel.tsx:41 | name order is transitive |
| `Text.NameLessTotal` | components/tags-panel.tsx:41 | any two distinct names are ordered |
| `Text.DigitChar` | lib/linkding-api.ts:58-59 | the character is a decimal digit whose value is the given digit |
| `Text.IsDigits` | lib/linkding-api.ts:58-59 | no contract of its own; the digit shape stated by `Text.NatToString` and `Text.IntToString` |
| `Text.DigitsValue` | lib/linkding-api.ts:58-59 | no contract of its own; the reading used by `Text.NatToStringValue` and `Text.IntToStringValue` |
| `Text.NatToStringValue` | lib/linkding-api.ts:58-59 | the decimal text reads back as the number |
| `Text.IntToStringValue` | app/api/tags/route.ts:49-52 | the text reads back as the integer: after a "-" the digits give its negation, otherwise the number itself |
| `Text.IntToStringInjective` | app/api/tags/route.ts:49-52 | distinct integers are written differently |
| `Text.Join` | lib/query-state.ts:20 | no contract of its own; properties in `Text.SplitJoin` and `QueryState.RoundTripTags` |
| `Text.LowerChar` | hooks/use-tags.ts:72-73 | no contract of its own; properties in `Text.Lower` |
| `Text.Contains` | hooks/use-tags.ts:73 | no contract of its own; properties in `TagsHook.FilterMatches` |
| `Text.IsJsWhitespace` | hooks/use-tags.ts:71 | no contract of its own; properties in `TagsHook.SearchMembers` |
| `Text.IsBlank` | hooks/use-tags.ts:71 | no contract of its own; properties in `TagsHook.SearchMembers` |
| `Text.NameLess` | components/tags-panel.tsx:41 | no contract of its own; properties in `Text.NameLessIrreflexive`, `Text.NameLessTransitive` and `Text.NameLessTotal` |

## Left out

- I/O: `fetch`, `response.json()`, `NextResponse` and its `Cache-Control`/`Content-Type` headers, `console.warn`/`console.error`. Fetches are function parameters, a JSON body is a datatype value, and a reply is a datatype.
- `process.env` is the two parameters of `LinkdingApi.LoadConfig`. The module-level `throw` becomes its `Failure` result.
- `Date.now()` and `setTimeout`: the clock is the `now`/`later` parameters. The 100 ms timer is the explicit step `UrlSync.UrlSyncHook.TimerFires`.
- React scheduling: renders, batching and concurrent interleavings are not modelled. The only effects modelled are the ones that update refs, the initialising effect and the tag counts recompute, each as an explicit step. The model does not show the refetch that the page change in `handleLoadMore` triggers through the filters effect of `useBookmarks`. It models the two calls separately (`Page.LoadMoreKeepsPage`, `BookmarksHook.BookmarksHook.LoadMore`).
- Percent-encoding by `URLSearchParams.toString()`: parameters are key/value pairs, and `get` reads the first value.
- `localeCompare` is plain lexicographic order on code points (`Text.NameLess`). `toLowerCase` and `trim` cover ASCII letters and JavaScript's white-space characters only. Unicode case mapping is not modelled.
- `new Date(...).getTime()`: dates are integer timestamps. Invalid dates (NaN) are not modelled.
- `Object.entries` on the groups: keys come out in insertion order (`TagCounts.FirstAppearances`). JavaScript lists integer-like keys ("2024") first in ascending order; this is not modelled. Tag names that collide with `Object.prototype` members (`constructor`, `__proto__`) are not modelled either.
- `sort` is typed as one of four modes (lib/types.ts:48), but the code does not check a value read from the address: an unknown value is kept as is, and the menu then marks no entry (`FiltersMenu.MarkedIffValid`).
- Presentational components (header bar, search input with its debounce, bookmark cards, tag badges, selected-tags bar, skeletons, empty state, theme toggle, layout) and `lib/mock-data.ts` are not part of this model. The summary text the page renders is not modelled either. `Page.ContentFor` models which view the content area picks.
- `LinkdingApi.FetchAll`: Linkding's JSON is taken as well formed. A `count` of 0 or absent falls back to the first page's length, as the code does.
- The code's own warning says "using partial data" (lib/linkding-api.ts:134), but `Promise.all` rejects as a whole, so one failed batch discards every batch and only the first page is returned (`LinkdingApi.FetchAllBatchFails`).
- `page` is neither parsed from nor written to the address (`QueryState.GetBuildAll`, `BookmarksHook.RequestIgnoresPage`), so the initialising effect leaves `page` absent.
- `TagsRoute.Paginate`: `limit` and `offset` are natural numbers, and an absent or empty value takes the default. A value that `parseInt` reads as NaN or as a negative number is not modelled.

## Findings

| source | as written | input that shows it | evidently intended | confidence | as-written member | corrected member |
|---|---|---|---|---|---|---|
| app/page.tsx:77-86 | `handleClearFilters` calls `updateSearchQuery("")` and then `updateFilters(...)`. The second call reads the query from `searchQueryRef`, which no effect has updated yet, and writes a URL with the old q. | query "x" in the address, then "Clear all filters": the query box empties but the address keeps `q=x`, and a reload brings "x" back | clearing empties the query in the address too, which leaves `/` | not executed | `Page.ClearFiltersKeepsQueryInUrl` | `Page.ClearFiltersClearsAll` |
| components/tags-panel.tsx:49-51 | `clearAllTags` calls `onTagRemove` once per selected tag. Each `handleTagRemove` (app/page.tsx:65-71) filters the tags of the same render, so each call removes only its own tag from the full list, and the last call wins. | tags "a" and "b" selected, then "Clear all" in the tags panel: the filters end with tags ["a"] | no tag stays selected, as `handleClearAllTags` (app/page.tsx:73-75) does | not executed | `TagsPanel.ClearAllTagsKeepsAllButLast` | `TagsPanel.ClearAllTagsClears` |
